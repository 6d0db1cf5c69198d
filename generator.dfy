/** The chart generator: an object that renders one chart, writing the URL
    section by section into string builders. */
module ChartGenerator {

  import opened Strings
  import opened Decimal
  import opened ChartEncoding
  import opened GoogleChart

  // ---- What the string builders hold after the first samples ----

  /** The names axis builder: its opening text, then a `|` and the encoded
      name of each sample. */
  function NamesAxis(opening: string, samples: seq<Sample>): string
  {
    if samples == [] then opening
    else NamesAxis(opening, samples[..|samples| - 1]) + "|" + Escaped(samples[|samples| - 1].name)
  }

  /** A value axis builder: its opening text, then a `|`, the value, an
      encoded space and the unit symbol for each sample. */
  function ValueAxis(opening: string, samples: seq<Sample>, st: Statistic, symbol: string): string
  {
    if samples == [] then opening
    else ValueAxis(opening, samples[..|samples| - 1], st, symbol) + "|" + Value(samples[|samples| - 1], st)
         + "+" + symbol
  }

  /** A data series builder: its opening text, then each value, behind a
      comma unless it is the very first value and the `first` flag was set. */
  function DataSeries(opening: string, samples: seq<Sample>, st: Statistic, first: bool): string
  {
    if samples == [] then opening
    else if |samples| == 1 && first then opening + Value(samples[0], st)
    else DataSeries(opening, samples[..|samples| - 1], st, first) + "," + Value(samples[|samples| - 1], st)
  }

  /** The y-axis builder: its opening text, then a `|` and each tick in decimal. */
  function TickAxis(opening: string, ticks: seq<int>): string
  {
    if ticks == [] then opening
    else TickAxis(opening, ticks[..|ticks| - 1]) + "|" + IntToDecimal(ticks[|ticks| - 1])
  }

  /** The names builder holds the chart's name labels behind its opening. */
  lemma {:induction false} NamesAxisLabels(opening: string, samples: seq<Sample>)
    ensures NamesAxis(opening, samples) == opening + Labels(Names(samples), '|')
  {
    if samples != [] {
      var init := samples[..|samples| - 1];
      NamesAxisLabels(opening, init);
      LabelsGrow(Names(init), Escaped(samples[|samples| - 1].name), '|');
    }
  }

  lemma ValueLabelsAppend(values: seq<string>, v: string, symbol: string)
    ensures ValueLabels(values + [v], symbol) == ValueLabels(values, symbol) + [v + "+" + symbol]
  {
    assert (values + [v])[..|values|] == values;
  }

  lemma ColumnAppend(samples: seq<Sample>, st: Statistic)
    requires samples != []
    ensures Column(samples, st) == Column(samples[..|samples| - 1], st) + [Value(samples[|samples| - 1], st)]
  {
  }

  /** Appending a `|`-led entry behind a labelled prefix, regrouped (a proof
      step for `ValueAxisLabels`). */
  lemma Behind(opening: string, labels: string, entry: string, symbol: string)
    ensures opening + labels + "|" + entry + "+" + symbol == opening + (labels + ['|'] + (entry + "+" + symbol))
  {
  }

  /** A value builder holds the chart's value labels behind its opening. */
  lemma {:induction false} ValueAxisLabels(opening: string, samples: seq<Sample>, st: Statistic, symbol: string)
    ensures ValueAxis(opening, samples, st, symbol) == opening + Labels(ValueLabels(Column(samples, st), symbol), '|')
  {
    if samples != [] {
      var init, v := samples[..|samples| - 1], Value(samples[|samples| - 1], st);
      ValueAxisLabels(opening, init, st, symbol);
      ColumnAppend(samples, st);
      ValueLabelsAppend(Column(init, st), v, symbol);
      var labels := ValueLabels(Column(init, st), symbol);
      LabelsGrow(labels, v + "+" + symbol, '|');
      Behind(opening, Labels(labels, '|'), v, symbol);
    }
  }

  /** A data builder holds the chart's data series behind its opening. */
  lemma {:induction false} DataSeriesText(opening: string, samples: seq<Sample>, st: Statistic, first: bool)
    ensures DataSeries(opening, samples, st, first) == opening + Series(Column(samples, st), first)
  {
    if samples != [] {
      var init, v := samples[..|samples| - 1], Value(samples[|samples| - 1], st);
      var col := Column(samples, st);
      assert col[..|col| - 1] == Column(init, st) && col[|col| - 1] == v;
      if |samples| == 1 && first {
        assert col[0] == Value(samples[0], st);
      } else {
        DataSeriesText(opening, init, st, first);
        var s := Series(Column(init, st), first);
        assert Series(col, first) == s + "," + v;
        assert opening + s + "," + v == opening + (s + "," + v);
      }
    }
  }

  /** The y-axis builder holds the tick labels behind its opening. */
  lemma {:induction false} TickAxisLabels(opening: string, ticks: seq<int>)
    ensures TickAxis(opening, ticks) == opening + Labels(TickLabels(ticks), '|')
  {
    if ticks != [] {
      var init := ticks[..|ticks| - 1];
      TickAxisLabels(opening, init);
      LabelsGrow(TickLabels(init), IntToDecimal(ticks[|ticks| - 1]), '|');
    }
  }

  // ---- Regrouping helpers ----
  // RegroupMeans to AxisLabelsOpening are proof steps for `ProcessLayout`:
  // they re-associate concatenations and split one literal, and state nothing
  // about the generator by themselves.

  /** The order in which `process` appends its sections, regrouped into the
      order of the URL fields, for any section contents (means only). */
  lemma RegroupMeans(head: string, m1: string, t: string, m2: string, top: string, m3: string,
                     y0: string, y1: string, ticks: string, n1: string, names: string, n2: string,
                     means: string, d0: string, meanS: string, l1: string, l2: string, l3: string)
    ensures head + m1 + t + m2 + top + m3 + top + ((y0 + y1) + ticks) + (n1 + names) + (n2 + means)
            + (d0 + meanS) + l1 + l2 + l3
         == head + [] + (m1 + t + m2 + top + m3 + top + y0 + (y1 + ticks + n1 + names + n2 + means))
            + d0 + meanS + [] + l1 + l2 + l3
  {
  }

  /** The axis sections as `process` appends them, regrouped behind the y-axis opening. */
  lemma RegroupAxes(x: string, y0: string, y1: string, ticks: string, n1: string, names: string, n2: string,
                    means: string, n3: string, maxima: string, n4: string, minima: string)
    ensures x + ((y0 + y1) + ticks) + (n1 + names) + (n2 + means) + (n3 + maxima) + (n4 + minima)
            == x + y0 + (y1 + ticks + n1 + names + n2 + means + n3 + maxima + n4 + minima)
  {
  }

  /** As `RegroupMeans`, with the maximum and minimum sections. */
  lemma RegroupMaxMin(head: string, xx: string, m1: string, t: string, m2: string, top: string, m3: string,
                      y0: string, y1: string, ticks: string, n1: string, names: string, n2: string,
                      means: string, n3: string, maxima: string, n4: string, minima: string,
                      d0: string, meanS: string, bar: string, maxS: string, minS: string,
                      l1: string, l2: string, l3: string)
    ensures head + xx + m1 + t + m2 + top + m3 + top + ((y0 + y1) + ticks) + (n1 + names) + (n2 + means)
            + (n3 + maxima) + (n4 + minima) + (d0 + meanS) + (bar + maxS) + (bar + minS) + l1 + l2 + l3
         == head + xx + (m1 + t + m2 + top + m3 + top + y0
                         + (y1 + ticks + n1 + names + n2 + means + n3 + maxima + n4 + minima))
            + d0 + meanS + (bar + maxS + bar + minS) + l1 + l2 + l3
  {
    var x := head + xx + m1 + t + m2 + top + m3 + top;
    RegroupAxes(x, y0, y1, ticks, n1, names, n2, means, n3, maxima, n4, minima);
    var axes := y1 + ticks + n1 + names + n2 + means + n3 + maxima + n4 + minima;
    var written := x + ((y0 + y1) + ticks) + (n1 + names) + (n2 + means) + (n3 + maxima) + (n4 + minima);
    assert written == x + y0 + axes;
    assert x + y0 + axes == head + xx + (m1 + t + m2 + top + m3 + top + y0 + axes);
    assert written + (d0 + meanS) + (bar + maxS) + (bar + minS) == written + d0 + meanS + (bar + maxS + bar + minS);
  }

  /** `process` opens the axis labels with the `chxl` key and the y-axis number in one literal. */
  lemma AxisLabelsOpening()
    ensures "&chxl=" + "0:" == "&chxl=0:"
  {
  }

  /** The text `process` puts together from its builders, in its own order,
      is the chart URL. */
  lemma ProcessLayout(samples: seq<Sample>, title: string, unit: SimonUnit, showMaxMin: bool,
                      first: bool, y: YAxis, yAxis: string, namesAxis: string, meanAxis: string,
                      maxAxis: string, minAxis: string, meanData: string, maxData: string, minData: string)
    requires yAxis == TickAxis("&chxl=0:", y.ticks)
    requires namesAxis == NamesAxis("|1:", samples)
    requires meanAxis == ValueAxis("|2:", samples, Mean, unit.symbol)
    requires showMaxMin ==> maxAxis == ValueAxis("|3:", samples, Max, unit.symbol)
    requires showMaxMin ==> minAxis == ValueAxis("|4:", samples, Min, unit.symbol)
    requires meanData == DataSeries("&chd=t:", samples, Mean, first)
    requires showMaxMin ==> maxData == DataSeries("|", samples, Max, first)
    requires showMaxMin ==> minData == DataSeries("|", samples, Min, first)
    ensures
      var head := Header(|samples|, Spacing(showMaxMin)) + TypeBar2;
      var top := IntToDecimal(y.top);
      var r1 := if showMaxMin then head + ",x,x" else head;
      var r5 := r1 + "&chtt=" + Escaped(title) + "&chxr=2,0," + top + "&chds=0," + top
                + yAxis + namesAxis + meanAxis;
      var r6 := if showMaxMin then r5 + maxAxis + minAxis else r5;
      var r7 := r6 + meanData;
      var r8 := if showMaxMin then r7 + maxData + minData else r7;
      r8 + "&chdl=avg" + (if showMaxMin then "|max|min" else "") + "&.png"
      == ChartUrl(samples, title, unit, showMaxMin, first, y)
  {
    var head := Header(|samples|, Spacing(showMaxMin)) + TypeBar2;
    var t, top := Escaped(title), IntToDecimal(y.top);
    var ticks, names := Labels(TickLabels(y.ticks), '|'), Labels(Names(samples), '|');
    var means := Labels(ValueLabels(Column(samples, Mean), unit.symbol), '|');
    var maxima := Labels(ValueLabels(Column(samples, Max), unit.symbol), '|');
    var minima := Labels(ValueLabels(Column(samples, Min), unit.symbol), '|');
    var meanS, maxS, minS := Series(Column(samples, Mean), first), Series(Column(samples, Max), first),
                             Series(Column(samples, Min), first);
    var l2 := if showMaxMin then "|max|min" else "";
    TickAxisLabels("&chxl=0:", y.ticks);
    NamesAxisLabels("|1:", samples);
    ValueAxisLabels("|2:", samples, Mean, unit.symbol);
    DataSeriesText("&chd=t:", samples, Mean, first);
    AxisLabelsOpening();
    AxesLayout(samples, unit, showMaxMin, y);
    QueryLayout(samples, title, unit, showMaxMin, first, y);
    if showMaxMin {
      ValueAxisLabels("|3:", samples, Max, unit.symbol);
      ValueAxisLabels("|4:", samples, Min, unit.symbol);
      DataSeriesText("|", samples, Max, first);
      DataSeriesText("|", samples, Min, first);
      RegroupMaxMin(head, ",x,x", "&chtt=", t, "&chxr=2,0,", top, "&chds=0,", "&chxl=", "0:", ticks,
                    "|1:", names, "|2:", means, "|3:", maxima, "|4:", minima, "&chd=t:", meanS,
                    "|", maxS, minS, "&chdl=avg", l2, "&.png");
    } else {
      RegroupMeans(head, "&chtt=", t, "&chxr=2,0,", top, "&chds=0,", "&chxl=", "0:", ticks,
                   "|1:", names, "|2:", means, "&chd=t:", meanS, "&chdl=avg", l2, "&.png");
    }
  }

  /** `GoogleChartImageGenerator`: one instance renders one chart. */
  class GoogleChartImageGenerator {
    const samples: seq<Sample>
    const title: string
    const unit: SimonUnit
    const showMaxMin: bool
    /** Set until the first sample has been written; a comma goes in front of
        every data value written after that. */
    var first: bool

    constructor (samples: seq<Sample>, title: string, unit: SimonUnit, showMaxMin: bool)
      ensures this.samples == samples && this.title == title
      ensures this.unit == unit && this.showMaxMin == showMaxMin
      ensures first
    {
      this.samples := samples;
      this.title := title;
      this.unit := unit;
      this.showMaxMin := showMaxMin;
      first := true;
    }

    /** `addValueToAxis`: appends one value label to an axis and hands the
        formatted value back for the data series. */
    method AddValueToAxis(axis: string, value: string) returns (extended: string, formatted: string)
      ensures formatted == value
      ensures extended == axis + "|" + value + "+" + unit.symbol
    {
      formatted := value;
      extended := axis + "|" + formatted + "+" + unit.symbol;
    }

    /** The loop of `process` over the samples: the names axis, the value
        axes and the data series, each built by appending per sample. */
    method CollectSamples() returns (namesAxis: string, meanAxis: string, maxAxis: string, minAxis: string,
                                     meanData: string, maxData: string, minData: string)
      modifies this`first
      ensures first == (old(first) && |samples| == 0)
      ensures namesAxis == NamesAxis("|1:", samples)
      ensures meanAxis == ValueAxis("|2:", samples, Mean, unit.symbol)
      ensures showMaxMin ==> maxAxis == ValueAxis("|3:", samples, Max, unit.symbol)
      ensures showMaxMin ==> minAxis == ValueAxis("|4:", samples, Min, unit.symbol)
      ensures meanData == DataSeries("&chd=t:", samples, Mean, old(first))
      ensures showMaxMin ==> maxData == DataSeries("|", samples, Max, old(first))
      ensures showMaxMin ==> minData == DataSeries("|", samples, Min, old(first))
    {
      namesAxis, meanAxis, maxAxis, minAxis := "|1:", "|2:", "|3:", "|4:";
      meanData, maxData, minData := "&chd=t:", "|", "|";
      ghost var first0 := first;
      for i := 0 to |samples|
        invariant first == (first0 && i == 0)
        invariant namesAxis == NamesAxis("|1:", samples[..i])
        invariant meanAxis == ValueAxis("|2:", samples[..i], Mean, unit.symbol)
        invariant showMaxMin ==> maxAxis == ValueAxis("|3:", samples[..i], Max, unit.symbol)
        invariant showMaxMin ==> minAxis == ValueAxis("|4:", samples[..i], Min, unit.symbol)
        invariant meanData == DataSeries("&chd=t:", samples[..i], Mean, first0)
        invariant showMaxMin ==> maxData == DataSeries("|", samples[..i], Max, first0)
        invariant showMaxMin ==> minData == DataSeries("|", samples[..i], Min, first0)
      {
        var sample := samples[i];
        assert samples[..i + 1][..i] == samples[..i];
        assert samples[..i + 1][i] == sample;
        if first {
          first := false;
        } else {
          meanData := meanData + ",";
          maxData := maxData + ",";
          minData := minData + ",";
        }
        var name := Encode(sample.name);
        namesAxis := namesAxis + "|" + name;
        var formatted;
        meanAxis, formatted := AddValueToAxis(meanAxis, sample.mean);
        meanData := meanData + formatted;
        if showMaxMin {
          maxAxis, formatted := AddValueToAxis(maxAxis, sample.max);
          maxData := maxData + formatted;
          minAxis, formatted := AddValueToAxis(minAxis, sample.min);
          minData := minData + formatted;
        }
      }
      assert samples[..|samples|] == samples;
    }

    /** `process`: writes the URL section by section, collecting the
        per-sample parts of the axes and the data series in one pass. */
    method Process(y: YAxis) returns (url: string)
      modifies this`first
      ensures url == ChartUrl(samples, title, unit, showMaxMin, old(first), y)
      ensures first == (old(first) && |samples| == 0)
    {
      var spacing := BarSpacing;
      if showMaxMin {
        spacing := BarSpacingMaxMin;
      }
      assert spacing == Spacing(showMaxMin);
      var result := Header(|samples|, spacing) + TypeBar2;
      if showMaxMin {
        result := result + ",x,x";
      }
      var encodedTitle := Encode(title);
      result := result + "&chtt=" + encodedTitle;
      var namesAxis, meanAxis, maxAxis, minAxis, meanData, maxData, minData := CollectSamples();
      ghost var first0 := old(first);
      var yAxis := "&chxl=0:";
      for j := 0 to |y.ticks|
        invariant yAxis == TickAxis("&chxl=0:", y.ticks[..j])
      {
        assert y.ticks[..j + 1][..j] == y.ticks[..j];
        yAxis := yAxis + "|" + IntToDecimal(y.ticks[j]);
      }
      assert y.ticks[..|y.ticks|] == y.ticks;
      result := result + "&chxr=2,0," + IntToDecimal(y.top);
      result := result + "&chds=0," + IntToDecimal(y.top);
      result := result + yAxis + namesAxis + meanAxis;
      if showMaxMin {
        result := result + maxAxis + minAxis;
      }
      result := result + meanData;
      if showMaxMin {
        result := result + maxData + minData;
      }
      result := result + "&chdl=avg" + (if showMaxMin then "|max|min" else "") + "&.png";
      ProcessLayout(samples, title, unit, showMaxMin, first0, y, yAxis, namesAxis, meanAxis, maxAxis, minAxis,
                    meanData, maxData, minData);
      url := result;
    }
  }

  /** `barChart(title, unit, showMaxMin, samples...)`. */
  method BarChart(title: string, unit: SimonUnit, showMaxMin: bool, samples: seq<Sample>, y: YAxis)
    returns (url: string)
    ensures url == ChartUrl(samples, title, unit, showMaxMin, true, y)
  {
    var generator := new GoogleChartImageGenerator(samples, title, unit, showMaxMin);
    url := generator.Process(y);
  }

  /** `barChart(title, unit, samples...)`: means only. */
  method BarChartMeans(title: string, unit: SimonUnit, samples: seq<Sample>, y: YAxis) returns (url: string)
    ensures url == ChartUrl(samples, title, unit, false, true, y)
  {
    var generator := new GoogleChartImageGenerator(samples, title, unit, false);
    url := generator.Process(y);
  }

  /** `barChart(title, samples...)`: means only, in milliseconds. */
  method BarChartMillis(title: string, samples: seq<Sample>, y: YAxis) returns (url: string)
    ensures url == ChartUrl(samples, title, Millisecond, false, true, y)
  {
    var generator := new GoogleChartImageGenerator(samples, title, Millisecond, false);
    url := generator.Process(y);
  }

  /** `barChart(samples...)`: means only, in milliseconds, with the default title. */
  method BarChartDefault(samples: seq<Sample>, y: YAxis) returns (url: string)
    ensures url == ChartUrl(samples, DefaultTitle, Millisecond, false, true, y)
  {
    var generator := new GoogleChartImageGenerator(samples, DefaultTitle, Millisecond, false);
    url := generator.Process(y);
  }
}
