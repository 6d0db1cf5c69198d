/** What the chart URL promises its reader: its frame, its fields read back
    one by one, the sizes, the series layout and the sections that depend on
    the max/min choice. */
module ChartProperties {

  import opened Strings
  import opened Decimal
  import opened ChartEncoding
  import opened GoogleChart

  // ---- Frame and section order ----

  /** Joining twelve fields starts with the first and ends with the separator and the last. */
  lemma JoinFrame(p: seq<string>, sep: char)
    requires |p| == 12
    ensures Join(p, sep) == p[0] + (Labels(p[1..11], sep) + [sep]) + p[11]
  {
    assert p == [p[0]] + p[1..];
    JoinLabels(p[0], p[1..], sep);
    assert p[1..][..10] == p[1..11];
  }

  // Regroup, Ends and ImageSuffix are proof steps for `UrlFrame`: they
  // re-associate concatenations and split one literal.

  lemma Regroup(a: string, w: string, x: string, h: string, middle: string, amp: string, last: string)
    ensures (a + w + x + h) + (middle + amp) + last == a + (w + x + h + middle) + (amp + last)
  {
  }

  lemma Ends(a: string, b: string, c: string)
    ensures |a + b + c| >= |a| + |c|
    ensures (a + b + c)[..|a|] == a && (a + b + c)[|a + b + c| - |c|..] == c
  {
  }

  lemma ImageSuffix()
    ensures ['&'] + ImageField == "&.png"
  {
  }

  /** Every chart URL is the chart service address with the size first, and
      ends with `&.png`. */
  lemma UrlFrame(samples: seq<Sample>, title: string, unit: SimonUnit, showMaxMin: bool, first: bool, y: YAxis)
    ensures var url := ChartUrl(samples, title, unit, showMaxMin, first, y);
            |url| >= |UrlStart| + 5 && url[..|UrlStart|] == UrlStart && url[|url| - 5..] == "&.png"
  {
    var p := Parameters(samples, title, unit, showMaxMin, first, y);
    JoinFrame(p, '&');
    var w, h := IntToDecimal(Width(|samples|)), IntToDecimal(ImageHeight);
    var middle := Labels(p[1..11], '&');
    Regroup(UrlStart, w, "x", h, middle, ['&'], ImageField);
    ImageSuffix();
    Ends(UrlStart, w + "x" + h + middle, "&.png");
  }

  // ---- Reading the fields back ----

  /** No value text of any sample and no unit symbol holds `&`. The values
      `DecimalFormat("0.00")` writes (digits, a decimal point, a leading `-`,
      or the symbols for infinity and not-a-number) never hold an `&`, so this
      always holds for them; the unit symbol is the unit's own. */
  predicate AmpersandFree(samples: seq<Sample>, unit: SimonUnit)
  {
    '&' !in unit.symbol
    && forall i :: 0 <= i < |samples| ==>
         '&' !in samples[i].mean && '&' !in samples[i].max && '&' !in samples[i].min
  }

  lemma {:induction false} SeriesAvoids(values: seq<string>, first: bool, c: char)
    requires c != ','
    requires forall i :: 0 <= i < |values| ==> c !in values[i]
    ensures c !in Series(values, first)
  {
    if values != [] {
      SeriesAvoids(values[..|values| - 1], first, c);
    }
  }

  lemma ColumnAvoids(samples: seq<Sample>, unit: SimonUnit, st: Statistic)
    requires AmpersandFree(samples, unit)
    ensures forall i :: 0 <= i < |samples| ==> '&' !in Column(samples, st)[i]
    ensures forall i :: 0 <= i < |samples| ==> '&' !in ValueLabels(Column(samples, st), unit.symbol)[i]
  {
    ColumnValues(samples, st);
    ValueLabelsUnit(Column(samples, st), unit.symbol);
  }

  lemma AxisLabelsAvoid(samples: seq<Sample>, unit: SimonUnit, showMaxMin: bool, y: YAxis)
    requires AmpersandFree(samples, unit)
    ensures '&' !in Join(AxisLabels(samples, unit, showMaxMin, y), '|')
  {
    var labels := AxisLabels(samples, unit, showMaxMin, y);
    TickLabelsDecimal(y.ticks);
    NamesEncoded(samples);
    forall i | 0 <= i < |samples| ensures '&' !in Names(samples)[i] {
      EscapedHasNoSpaceOrAmpersand(samples[i].name);
    }
    forall i | 0 <= i < |y.ticks| ensures '&' !in TickLabels(y.ticks)[i] {
      DecimalAvoids(y.ticks[i], '&');
    }
    ColumnAvoids(samples, unit, Mean);
    ColumnAvoids(samples, unit, Max);
    ColumnAvoids(samples, unit, Min);
    assert forall i :: 0 <= i < |labels| ==> '&' !in labels[i];
    JoinAvoids(labels, '|', '&');
  }

  lemma DataSetsAvoid(samples: seq<Sample>, unit: SimonUnit, showMaxMin: bool, first: bool)
    requires AmpersandFree(samples, unit)
    ensures '&' !in Join(DataSets(samples, showMaxMin, first), '|')
  {
    ColumnAvoids(samples, unit, Mean);
    ColumnAvoids(samples, unit, Max);
    ColumnAvoids(samples, unit, Min);
    SeriesAvoids(Column(samples, Mean), first, '&');
    SeriesAvoids(Column(samples, Max), first, '&');
    SeriesAvoids(Column(samples, Min), first, '&');
    JoinAvoids(DataSets(samples, showMaxMin, first), '|', '&');
  }

  lemma AddressAvoids(n: nat)
    ensures '&' !in SizeField(n)
  {
    DecimalAvoids(Width(n), '&');
    DecimalAvoids(ImageHeight, '&');
  }

  lemma FixedFieldsAvoid()
    ensures '&' !in TypeField && '&' !in ColorField && '&' !in ImageField
  {
  }

  lemma ChoiceFieldsAvoid(showMaxMin: bool)
    ensures '&' !in SpacingField(showMaxMin) && '&' !in AxisTypesField(showMaxMin)
    ensures '&' !in LegendField(showMaxMin)
  {
    DecimalAvoids(Spacing(showMaxMin), '&');
    JoinAvoids(AxisTypes(showMaxMin), ',', '&');
    JoinAvoids(Legend(showMaxMin), '|', '&');
  }

  lemma TitleAndRangeAvoid(title: string, top: int)
    ensures '&' !in TitleField(title) && '&' !in RangeField(top) && '&' !in ScaleField(top)
  {
    DecimalAvoids(top, '&');
    EscapedHasNoSpaceOrAmpersand(title);
  }

  /** The fields of the URL contain no `&` of their own. */
  lemma ParametersAvoid(samples: seq<Sample>, title: string, unit: SimonUnit, showMaxMin: bool,
                        first: bool, y: YAxis)
    requires AmpersandFree(samples, unit)
    ensures forall i :: 0 <= i < 12 ==> '&' !in Parameters(samples, title, unit, showMaxMin, first, y)[i]
  {
    AddressAvoids(|samples|);
    FixedFieldsAvoid();
    ChoiceFieldsAvoid(showMaxMin);
    TitleAndRangeAvoid(title, y.top);
    AxisLabelsAvoid(samples, unit, showMaxMin, y);
    DataSetsAvoid(samples, unit, showMaxMin, first);
  }

  /** Splitting the URL at `&` gives back its twelve fields in order, and the
      URL holds exactly eleven `&`: neither the title nor any sample name can
      break a field, whatever characters they contain. */
  lemma QueryFields(samples: seq<Sample>, title: string, unit: SimonUnit, showMaxMin: bool,
                    first: bool, y: YAxis)
    requires AmpersandFree(samples, unit)
    ensures Split(ChartUrl(samples, title, unit, showMaxMin, first, y), '&')
            == Parameters(samples, title, unit, showMaxMin, first, y)
    ensures Count(ChartUrl(samples, title, unit, showMaxMin, first, y), '&') == 11
  {
    ParametersAvoid(samples, title, unit, showMaxMin, first, y);
    SplitJoin(Parameters(samples, title, unit, showMaxMin, first, y), '&');
  }

  /** Reading the title back from its field gives the title, unless the
      title holds a percent sign, which the encoding leaves as it is. */
  lemma TitleReadBack(title: string)
    requires '%' !in title
    ensures TitleField(title)[..5] == "chtt=" && Decode(TitleField(title)[5..]) == title
  {
    DecodeEscaped(title);
  }

  /** Each name label reads back as its sample's name, in input order. */
  lemma NameLabels(samples: seq<Sample>)
    requires forall i :: 0 <= i < |samples| ==> '%' !in samples[i].name
    ensures |Names(samples)| == |samples|
    ensures forall i :: 0 <= i < |samples| ==> Decode(Names(samples)[i]) == samples[i].name
  {
    NamesEncoded(samples);
    forall i | 0 <= i < |samples| ensures Decode(Names(samples)[i]) == samples[i].name {
      DecodeEscaped(samples[i].name);
    }
  }

  /** The i-th name label sits behind the y-axis labels and the `1:` axis number. */
  lemma NameLabelAt(samples: seq<Sample>, unit: SimonUnit, showMaxMin: bool, y: YAxis, i: int)
    requires 0 <= i < |samples|
    ensures |TickLabels(y.ticks)| + 2 + i < |AxisLabels(samples, unit, showMaxMin, y)|
    ensures AxisLabels(samples, unit, showMaxMin, y)[|TickLabels(y.ticks)| + 2 + i] == Names(samples)[i]
  {
    var names := ["0:"] + TickLabels(y.ticks) + ["1:"] + Names(samples);
    var base := names + ["2:"] + ValueLabels(Column(samples, Mean), unit.symbol);
    assert names[|TickLabels(y.ticks)| + 2 + i] == Names(samples)[i];
    assert base[|TickLabels(y.ticks)| + 2 + i] == Names(samples)[i];
  }

  /** A name with a `|` breaks the `chxl` labels: its label keeps the `|`,
      so splitting the written labels at `|` does not give them back. */
  lemma BarInNameSplitsLabels(samples: seq<Sample>, unit: SimonUnit, showMaxMin: bool, y: YAxis, i: int)
    requires 0 <= i < |samples| && '|' in samples[i].name
    ensures '|' in Names(samples)[i]
    ensures Split(Join(AxisLabels(samples, unit, showMaxMin, y), '|'), '|') != AxisLabels(samples, unit, showMaxMin, y)
  {
    NamesEncoded(samples);
    EscapedKeepsBar(samples[i].name);
    var labels := AxisLabels(samples, unit, showMaxMin, y);
    var parts := Split(Join(labels, '|'), '|');
    var k := |TickLabels(y.ticks)| + 2 + i;
    NameLabelAt(samples, unit, showMaxMin, y, i);
    if k < |parts| {
      assert '|' !in parts[k];
    }
  }

  // ---- Sizes ----

  lemma SmallDecimals()
    ensures IntToDecimal(320) == "320" && IntToDecimal(25) == "25" && IntToDecimal(40) == "40"
  {
    assert NatToDecimal(3) == "3" && NatToDecimal(2) == "2" && NatToDecimal(4) == "4";
    assert NatToDecimal(32) == NatToDecimal(3) + "2";
  }

  /** The largest sample count whose width still fits in a Java `int`. */
  const MaxExactSamples: nat := 26843544

  /** The width is 100 pixels plus 80 per sample while it fits in an `int`. */
  lemma WidthExact(n: nat)
    requires n <= MaxExactSamples
    ensures Width(n) == 100 + 80 * n
  {
  }

  /** One more sample and the width wraps around to a negative number. */
  lemma WidthOverflow()
    ensures Width(MaxExactSamples + 1) == -2147483596
  {
  }

  /** The size field: width by 320 pixels. */
  lemma ChartSize(n: nat)
    requires n <= MaxExactSamples
    ensures SizeField(n) == UrlStart + IntToDecimal(100 + 80 * n) + "x" + "320"
  {
    SmallDecimals();
    WidthExact(n);
  }

  /** Bars are 25 pixels apart with three bars per group and 40 otherwise. */
  lemma BarSpacingSection(showMaxMin: bool)
    ensures SpacingField(showMaxMin)
            == "chbh=a,3," + (if showMaxMin then "25" else "40")
  {
    SmallDecimals();
  }

  // ---- The sections that depend on the max/min choice ----

  /** Two more `x` axes exactly when maxima and minima are shown. */
  lemma AxisTypesSection(showMaxMin: bool)
    ensures AxisTypesField(showMaxMin)
            == "chxt=y,x,x" + (if showMaxMin then ",x,x" else "")
  {
    AxisTypesJoined(showMaxMin);
    TypesKey(if showMaxMin then ",x,x" else "");
  }

  lemma TypesKey(extra: string)
    ensures "chxt=" + ("y,x,x" + extra) == "chxt=y,x,x" + extra
  {
  }

  /** The number of axis labels: the ticks, the names and the means and,
      with max/min shown, the maxima and minima, plus one axis number each. */
  lemma AxisLabelsCount(samples: seq<Sample>, unit: SimonUnit, showMaxMin: bool, y: YAxis)
    ensures |AxisLabels(samples, unit, showMaxMin, y)|
            == |y.ticks| + (if showMaxMin then 4 * |samples| + 5 else 2 * |samples| + 3)
  {
  }

  /** The data: the mean series, then the maximum and minimum series
      exactly when they are shown. */
  lemma DataSection(samples: seq<Sample>, showMaxMin: bool, first: bool)
    ensures DataField(samples, showMaxMin, first)
            == "chd=t:" + Series(Column(samples, Mean), first)
               + (if showMaxMin
                  then "|" + Series(Column(samples, Max), first) + "|" + Series(Column(samples, Min), first)
                  else "")
  {
    DataText(samples, showMaxMin, first);
  }

  /** The legend names the mean and, exactly when shown, the maximum and minimum. */
  lemma LegendSection(showMaxMin: bool)
    ensures LegendField(showMaxMin)
            == "chdl=avg" + (if showMaxMin then "|max|min" else "")
  {
    LegendJoined(showMaxMin);
    LegendFieldKey(if showMaxMin then "|max|min" else "");
  }

  lemma LegendFieldKey(extra: string)
    ensures "chdl=" + ("avg" + extra) == "chdl=avg" + extra
  {
  }

  // ---- Data series and the `first` flag ----

  /** With the flag set, a series is its values joined by commas: no leading comma. */
  lemma {:induction false} SeriesIsJoin(values: seq<string>)
    ensures Series(values, true) == Join(values, ',')
  {
    if |values| > 1 {
      var init := values[..|values| - 1];
      SeriesIsJoin(init);
      assert values == init + [values[|values| - 1]];
      JoinAppend(init, [values[|values| - 1]], ',');
    }
  }

  /** With the flag already cleared, every value, the first included, comes behind a comma. */
  lemma {:induction false} SeriesAfterFirstCleared(values: seq<string>)
    ensures Series(values, false) == Labels(values, ',')
  {
    if values != [] {
      SeriesAfterFirstCleared(values[..|values| - 1]);
    }
  }

  /** A series of n comma-free values holds n - 1 commas and splits back
      into its values, in order. */
  lemma SeriesReadBack(values: seq<string>)
    requires |values| > 0
    requires forall i :: 0 <= i < |values| ==> ',' !in values[i]
    ensures Split(Series(values, true), ',') == values
    ensures Count(Series(values, true), ',') == |values| - 1
  {
    SeriesIsJoin(values);
    SplitJoin(values, ',');
    JoinSeparatorCount(values, ',');
  }

  /** Each series of a fresh generator reads back as the samples' values of
      its statistic, one per sample and in input order. */
  lemma ColumnReadBack(samples: seq<Sample>, st: Statistic)
    requires |samples| > 0
    requires forall i :: 0 <= i < |samples| ==> ',' !in Value(samples[i], st)
    ensures Split(Series(Column(samples, st), true), ',') == Column(samples, st)
    ensures forall i :: 0 <= i < |samples| ==> Column(samples, st)[i] == Value(samples[i], st)
  {
    ColumnValues(samples, st);
    SeriesReadBack(Column(samples, st));
  }
}
