/** The Google Chart Image API URL of a column chart of stopwatch samples:
    one bar group per sample with its mean and, on request, its maximum and
    minimum. This module states what the URL is; `ChartGenerator` builds it. */
module GoogleChart {

  import opened Strings
  import opened Decimal
  import opened ChartEncoding

  const FixedWidth: int := 100
  const BarWidth: int := 80
  const BarSpacing: int := 40
  const BarSpacingMaxMin: int := 25
  const ImageHeight: int := 320

  const UrlStart: string := "http://chart.apis.google.com/chart?chs="
  const TypeBar1: string := "&cht=bvg&chbh=a,3,"
  const TypeBar2: string := "&chco=2d69f9,a6c9fd,d0eeff&chxt=y,x,x"
  const DefaultTitle: string := "Java Simon chart"

  /** A stopwatch sample as the chart reads it: its name, and its mean,
      maximum and minimum already divided by the unit and formatted. */
  datatype Sample = Sample(name: string, mean: string, max: string, min: string)

  /** The display unit; the chart reads only its symbol. */
  datatype SimonUnit = SimonUnit(symbol: string)

  const Millisecond: SimonUnit := SimonUnit("ms")

  /** The y-axis derived from the largest plotted value: the top of the
      value range and the tick values, all whole numbers. */
  datatype YAxis = YAxis(top: int, ticks: seq<int>)

  datatype Statistic = Mean | Max | Min

  function Value(s: Sample, st: Statistic): string
  {
    match st
    case Mean => s.mean
    case Max => s.max
    case Min => s.min
  }

  // ---- The URL's lists: one entry per sample or per tick ----

  /** The chosen statistic of every sample, in input order. */
  function Column(samples: seq<Sample>, st: Statistic): (col: seq<string>)
    ensures |col| == |samples|
  {
    if samples == [] then []
    else Column(samples[..|samples| - 1], st) + [Value(samples[|samples| - 1], st)]
  }

  /** The encoded name of every sample, in input order. */
  function Names(samples: seq<Sample>): (names: seq<string>)
    ensures |names| == |samples|
  {
    if samples == [] then []
    else Names(samples[..|samples| - 1]) + [Escaped(samples[|samples| - 1].name)]
  }

  /** Value-axis labels: each value, an encoded space, then the unit symbol. */
  function ValueLabels(values: seq<string>, symbol: string): (labels: seq<string>)
    ensures |labels| == |values|
  {
    if values == [] then []
    else ValueLabels(values[..|values| - 1], symbol) + [values[|values| - 1] + "+" + symbol]
  }

  /** Tick labels of the y-axis, in decimal. */
  function TickLabels(ticks: seq<int>): (labels: seq<string>)
    ensures |labels| == |ticks|
  {
    if ticks == [] then []
    else TickLabels(ticks[..|ticks| - 1]) + [IntToDecimal(ticks[|ticks| - 1])]
  }

  lemma {:induction false} ColumnValues(samples: seq<Sample>, st: Statistic)
    ensures forall i :: 0 <= i < |samples| ==> Column(samples, st)[i] == Value(samples[i], st)
  {
    if samples != [] {
      ColumnValues(samples[..|samples| - 1], st);
    }
  }

  lemma {:induction false} NamesEncoded(samples: seq<Sample>)
    ensures forall i :: 0 <= i < |samples| ==> Names(samples)[i] == Escaped(samples[i].name)
  {
    if samples != [] {
      NamesEncoded(samples[..|samples| - 1]);
    }
  }

  lemma {:induction false} ValueLabelsUnit(values: seq<string>, symbol: string)
    ensures forall i :: 0 <= i < |values| ==> ValueLabels(values, symbol)[i] == values[i] + "+" + symbol
  {
    if values != [] {
      ValueLabelsUnit(values[..|values| - 1], symbol);
    }
  }

  lemma {:induction false} TickLabelsDecimal(ticks: seq<int>)
    ensures forall i :: 0 <= i < |ticks| ==> TickLabels(ticks)[i] == IntToDecimal(ticks[i])
  {
    if ticks != [] {
      TickLabelsDecimal(ticks[..|ticks| - 1]);
    }
  }

  /** A data series: the values with a comma before each one, except before
      the very first value of a generator whose `first` flag is still set. */
  function Series(values: seq<string>, first: bool): string
  {
    if values == [] then ""
    else if |values| == 1 && first then values[0]
    else Series(values[..|values| - 1], first) + "," + values[|values| - 1]
  }

  lemma LabelsGrow(xs: seq<string>, x: string, sep: char)
    ensures Labels(xs + [x], sep) == Labels(xs, sep) + [sep] + x
  {
    assert (xs + [x])[..|xs|] == xs;
  }

  // ---- The parameters ----

  /** Bar spacing in pixels: narrower when three bars share a group. */
  function Spacing(showMaxMin: bool): int
  {
    if showMaxMin then BarSpacingMaxMin else BarSpacing
  }

  /** Image width in pixels as the Java `int` expression computes it. */
  function Width(n: nat): int
  {
    Int32(FixedWidth + BarWidth * n)
  }

  /** The address, the size and the chart type up to the bar spacing. */
  function Header(n: nat, spacing: int): string
  {
    UrlStart + IntToDecimal(Width(n)) + "x" + IntToDecimal(ImageHeight) + TypeBar1 + IntToDecimal(spacing)
  }

  /** The labels of the `chxl` parameter in order: the y-axis (0), the
      names (1), the means (2) and, with max/min shown, the maxima (3) and
      minima (4), each axis introduced by its number. */
  function AxisLabels(samples: seq<Sample>, unit: SimonUnit, showMaxMin: bool, y: YAxis): seq<string>
  {
    var base := ["0:"] + TickLabels(y.ticks)
                + ["1:"] + Names(samples)
                + ["2:"] + ValueLabels(Column(samples, Mean), unit.symbol);
    if showMaxMin
    then base + ["3:"] + ValueLabels(Column(samples, Max), unit.symbol)
              + ["4:"] + ValueLabels(Column(samples, Min), unit.symbol)
    else base
  }

  /** The data sets of the `chd` parameter: means, then maxima and minima. */
  function DataSets(samples: seq<Sample>, showMaxMin: bool, first: bool): seq<string>
  {
    var means := Series(Column(samples, Mean), first);
    if showMaxMin then [means, Series(Column(samples, Max), first), Series(Column(samples, Min), first)]
    else [means]
  }

  function Legend(showMaxMin: bool): seq<string>
  {
    if showMaxMin then ["avg", "max", "min"] else ["avg"]
  }

  /** Axis types: the value axis `y` and one `x` axis per label row below the bars. */
  function AxisTypes(showMaxMin: bool): seq<string>
  {
    if showMaxMin then ["y", "x", "x", "x", "x"] else ["y", "x", "x"]
  }

  // The fields of the URL, one function each.

  /** The address and the chart size `width`x`height`. */
  function SizeField(n: nat): string { UrlStart + IntToDecimal(Width(n)) + "x" + IntToDecimal(ImageHeight) }

  const TypeField: string := "cht=bvg"

  /** Bar width chosen by the service, 3 pixels between the bars of a group,
      and the spacing between groups. */
  function SpacingField(showMaxMin: bool): string { "chbh=a,3," + IntToDecimal(Spacing(showMaxMin)) }

  const ColorField: string := "chco=2d69f9,a6c9fd,d0eeff"

  function AxisTypesField(showMaxMin: bool): string { "chxt=" + Join(AxisTypes(showMaxMin), ',') }

  function TitleField(title: string): string { "chtt=" + Escaped(title) }

  /** The range shown on the value axis (axis 2 in the service's numbering). */
  function RangeField(top: int): string { "chxr=2,0," + IntToDecimal(top) }

  /** The scale of the data. */
  function ScaleField(top: int): string { "chds=0," + IntToDecimal(top) }

  function AxesField(samples: seq<Sample>, unit: SimonUnit, showMaxMin: bool, y: YAxis): string
  {
    "chxl=" + Join(AxisLabels(samples, unit, showMaxMin, y), '|')
  }

  function DataField(samples: seq<Sample>, showMaxMin: bool, first: bool): string
  {
    "chd=t:" + Join(DataSets(samples, showMaxMin, first), '|')
  }

  function LegendField(showMaxMin: bool): string { "chdl=" + Join(Legend(showMaxMin), '|') }

  /** The last field, which makes the URL end like an image file name. */
  const ImageField: string := ".png"

  /** The twelve `&`-separated fields of a chart URL, in order. */
  function Parameters(samples: seq<Sample>, title: string, unit: SimonUnit, showMaxMin: bool,
                      first: bool, y: YAxis): (p: seq<string>)
    ensures |p| == 12
  {
    [ SizeField(|samples|), TypeField, SpacingField(showMaxMin), ColorField, AxisTypesField(showMaxMin),
      TitleField(title), RangeField(y.top), ScaleField(y.top), AxesField(samples, unit, showMaxMin, y),
      DataField(samples, showMaxMin, first), LegendField(showMaxMin), ImageField ]
  }

  /** The chart URL: its parameters joined by `&`. */
  function ChartUrl(samples: seq<Sample>, title: string, unit: SimonUnit, showMaxMin: bool,
                    first: bool, y: YAxis): string
  {
    Join(Parameters(samples, title, unit, showMaxMin, first, y), '&')
  }

  // ---- From the parameters to the sections ----

  /** Joining a head-led list behind a joined prefix appends the head and
      then each element behind a separator. */
  lemma JoinExtend(pre: seq<string>, head: string, xs: seq<string>, sep: char)
    requires |pre| > 0
    ensures Join(pre + [head] + xs, sep) == Join(pre, sep) + ([sep] + head) + Labels(xs, sep)
  {
    assert pre + [head] + xs == pre + ([head] + xs);
    JoinAppend(pre, [head] + xs, sep);
    JoinLabels(head, xs, sep);
  }

  /** Writing the axis labels axis by axis, each text behind a `|`, is
      joining the text list with `|`. */
  lemma AxesLayout(samples: seq<Sample>, unit: SimonUnit, showMaxMin: bool, y: YAxis)
    ensures Join(AxisLabels(samples, unit, showMaxMin, y), '|')
            == var base := "0:" + Labels(TickLabels(y.ticks), '|')
                           + "|1:" + Labels(Names(samples), '|')
                           + "|2:" + Labels(ValueLabels(Column(samples, Mean), unit.symbol), '|');
               if showMaxMin
               then base + "|3:" + Labels(ValueLabels(Column(samples, Max), unit.symbol), '|')
                         + "|4:" + Labels(ValueLabels(Column(samples, Min), unit.symbol), '|')
               else base
  {
    var ticks, names := TickLabels(y.ticks), Names(samples);
    var means := ValueLabels(Column(samples, Mean), unit.symbol);
    var maxima := ValueLabels(Column(samples, Max), unit.symbol);
    var minima := ValueLabels(Column(samples, Min), unit.symbol);
    assert ['|'] + "1:" == "|1:" && ['|'] + "2:" == "|2:" && ['|'] + "3:" == "|3:" && ['|'] + "4:" == "|4:";
    var t := ["0:"] + ticks;
    var tn := t + ["1:"] + names;
    var tnm := tn + ["2:"] + means;
    var tnmh := tnm + ["3:"] + maxima;
    JoinLabels("0:", ticks, '|');
    JoinExtend(t, "1:", names, '|');
    JoinExtend(tn, "2:", means, '|');
    if showMaxMin {
      JoinExtend(tnm, "3:", maxima, '|');
      JoinExtend(tnmh, "4:", minima, '|');
    }
  }

  // ---- Regrouping helpers ----
  // JoinTwelve to Splice are proof steps, not properties of the chart: they
  // unfold joins of a fixed length and re-associate concatenations so that
  // `QueryLayout` and `ProcessLayout` stay within the solver's reach.

  /** Twelve fields joined: each field after the first behind a separator. */
  lemma JoinTwelve(p: seq<string>, sep: char)
    requires |p| == 12
    ensures Join(p, sep) == p[0] + [sep] + p[1] + [sep] + p[2] + [sep] + p[3] + [sep] + p[4] + [sep] + p[5]
                            + [sep] + p[6] + [sep] + p[7] + [sep] + p[8] + [sep] + p[9] + [sep] + p[10]
                            + [sep] + p[11]
  {
    assert Join(p[..1], sep) == p[0];
    assert p[..2] == p[..1] + [p[1]];
    JoinAppend(p[..1], [p[1]], sep);
    assert p[..3] == p[..2] + [p[2]];
    JoinAppend(p[..2], [p[2]], sep);
    assert p[..4] == p[..3] + [p[3]];
    JoinAppend(p[..3], [p[3]], sep);
    assert p[..5] == p[..4] + [p[4]];
    JoinAppend(p[..4], [p[4]], sep);
    assert p[..6] == p[..5] + [p[5]];
    JoinAppend(p[..5], [p[5]], sep);
    assert p[..7] == p[..6] + [p[6]];
    JoinAppend(p[..6], [p[6]], sep);
    assert p[..8] == p[..7] + [p[7]];
    JoinAppend(p[..7], [p[7]], sep);
    assert p[..9] == p[..8] + [p[8]];
    JoinAppend(p[..8], [p[8]], sep);
    assert p[..10] == p[..9] + [p[9]];
    JoinAppend(p[..9], [p[9]], sep);
    assert p[..11] == p[..10] + [p[10]];
    JoinAppend(p[..10], [p[10]], sep);
    assert p[..12] == p[..11] + [p[11]];
    JoinAppend(p[..11], [p[11]], sep);
    assert p[..12] == p;
  }

  lemma JoinThree(a: string, b: string, c: string, sep: char)
    ensures Join([a, b, c], sep) == a + [sep] + b + [sep] + c
  {
    assert [a, b, c][1..] == [b, c] && [b, c][1..] == [c];
    assert Join([b, c], sep) == b + [sep] + c;
  }

  lemma JoinFive(a: string, b: string, c: string, d: string, e: string, sep: char)
    ensures Join([a, b, c, d, e], sep) == a + [sep] + b + [sep] + c + [sep] + d + [sep] + e
  {
    assert [a, b, c, d, e][1..] == [b, c, d, e];
    assert [b, c, d, e][1..] == [c, d, e];
    JoinThree(c, d, e, sep);
  }

  /** The text written between the first five fields, for fixed separators:
      each separator glued to the keys that follow it. */
  lemma GlueHead(head: string, amp: string, k1: string, k2: string, spacing: string, k3: string, k4: string,
                 types: string, g12: string, g34: string)
    requires g12 == amp + k1 + amp + k2 && g34 == amp + k3 + amp + k4
    ensures head + amp + k1 + amp + (k2 + spacing) + amp + k3 + amp + (k4 + types)
            == head + g12 + spacing + g34 + types
  {
  }

  /** As `GlueHead`, for the title, range, scale and axes fields. */
  lemma GlueMiddle(x: string, amp: string, k5: string, title: string, k6: string, top: string, k7: string,
                   k8: string, axes: string, g5: string, g6: string, g7: string, g8: string)
    requires g5 == amp + k5 && g6 == amp + k6 && g7 == amp + k7 && g8 == amp + k8
    ensures x + amp + (k5 + title) + amp + (k6 + top) + amp + (k7 + top) + amp + (k8 + axes)
            == x + (g5 + title + g6 + top + g7 + top + g8 + axes)
  {
  }

  /** As `GlueHead`, for the data, legend and image fields. */
  lemma GlueTail(x: string, amp: string, k9: string, data: string, k10: string, legend: string, k11: string,
                 g9: string, g10: string, g11: string)
    requires g9 == amp + k9 && g10 == amp + k10 && g11 == amp + k11
    ensures x + amp + (k9 + data) + amp + (k10 + legend) + amp + k11 == x + g9 + data + g10 + legend + g11
  {
  }

  /** Any text written between twelve fields, for fixed separators: the
      separator glued to the keys that follow it. */
  lemma Glue(head: string, k1: string, k2: string, spacing: string, k3: string, k4: string, types: string,
             k5: string, title: string, k6: string, top: string, k7: string, k8: string, axes: string,
             k9: string, data: string, k10: string, legend: string, k11: string, amp: string,
             g12: string, g34: string, g5: string, g6: string, g7: string, g8: string, g9: string,
             g10: string, g11: string)
    requires g12 == amp + k1 + amp + k2 && g34 == amp + k3 + amp + k4
    requires g5 == amp + k5 && g6 == amp + k6 && g7 == amp + k7 && g8 == amp + k8
    requires g9 == amp + k9 && g10 == amp + k10 && g11 == amp + k11
    ensures head + amp + k1 + amp + (k2 + spacing) + amp + k3 + amp + (k4 + types) + amp + (k5 + title)
            + amp + (k6 + top) + amp + (k7 + top) + amp + (k8 + axes) + amp + (k9 + data)
            + amp + (k10 + legend) + amp + k11
         == head + g12 + spacing + g34 + types + (g5 + title + g6 + top + g7 + top + g8 + axes)
            + g9 + data + g10 + legend + g11
  {
    var first := head + amp + k1 + amp + (k2 + spacing) + amp + k3 + amp + (k4 + types);
    GlueHead(head, amp, k1, k2, spacing, k3, k4, types, g12, g34);
    var firstGlued := head + g12 + spacing + g34 + types;
    var middle := first + amp + (k5 + title) + amp + (k6 + top) + amp + (k7 + top) + amp + (k8 + axes);
    GlueMiddle(first, amp, k5, title, k6, top, k7, k8, axes, g5, g6, g7, g8);
    var middleGlued := firstGlued + (g5 + title + g6 + top + g7 + top + g8 + axes);
    assert middle == middleGlued;
    GlueTail(middle, amp, k9, data, k10, legend, k11, g9, g10, g11);
  }

  lemma FieldKeys()
    ensures TypeBar1 == "&" + "cht=bvg" + "&" + "chbh=a,3,"
    ensures "&chco=2d69f9,a6c9fd,d0eeff&chxt=" == "&" + "chco=2d69f9,a6c9fd,d0eeff" + "&" + "chxt="
    ensures "&chtt=" == "&" + "chtt=" && "&chxr=2,0," == "&" + "chxr=2,0," && "&chds=0," == "&" + "chds=0,"
    ensures "&chxl=" == "&" + "chxl=" && "&chd=t:" == "&" + "chd=t:" && "&chdl=" == "&" + "chdl="
    ensures "&.png" == "&" + ".png"
  {
  }

  /** The twelve fields written in order with `&` between them, for any
      field contents. */
  lemma FieldsJoined(w: string, h: string, spacing: string, types: string, title: string, top: string,
                     axes: string, data: string, legend: string)
    ensures Join([UrlStart + w + "x" + h, "cht=bvg", "chbh=a,3," + spacing, "chco=2d69f9,a6c9fd,d0eeff",
                  "chxt=" + types, "chtt=" + title, "chxr=2,0," + top, "chds=0," + top,
                  "chxl=" + axes, "chd=t:" + data, "chdl=" + legend, ".png"], '&')
            == UrlStart + w + "x" + h + TypeBar1 + spacing + "&chco=2d69f9,a6c9fd,d0eeff&chxt=" + types
               + ("&chtt=" + title + "&chxr=2,0," + top + "&chds=0," + top + "&chxl=" + axes)
               + "&chd=t:" + data + "&chdl=" + legend + "&.png"
  {
    var p := [UrlStart + w + "x" + h, "cht=bvg", "chbh=a,3," + spacing, "chco=2d69f9,a6c9fd,d0eeff",
              "chxt=" + types, "chtt=" + title, "chxr=2,0," + top, "chds=0," + top,
              "chxl=" + axes, "chd=t:" + data, "chdl=" + legend, ".png"];
    JoinTwelve(p, '&');
    FieldKeys();
    Glue(UrlStart + w + "x" + h, "cht=bvg", "chbh=a,3,", spacing, "chco=2d69f9,a6c9fd,d0eeff", "chxt=", types,
         "chtt=", title, "chxr=2,0,", top, "chds=0,", "chxl=", axes, "chd=t:", data, "chdl=", legend, ".png", "&",
         TypeBar1, "&chco=2d69f9,a6c9fd,d0eeff&chxt=", "&chtt=", "&chxr=2,0,", "&chds=0,", "&chxl=", "&chd=t:",
         "&chdl=", "&.png");
  }

  /** Replacing three pieces of a concatenation by equal text. */
  lemma Splice(pre: string, c1: string, types: string, mid: string, c6: string, data: string,
               c7: string, legend: string, post: string,
               typeText: string, extraTypes: string, means: string, extraData: string,
               legendText: string, extraLegend: string)
    requires c1 + types == typeText + extraTypes
    requires data == means + extraData
    requires c7 + legend == legendText + extraLegend
    ensures pre + c1 + types + mid + c6 + data + c7 + legend + post
            == pre + typeText + extraTypes + mid + c6 + means + extraData + legendText + extraLegend + post
  {
    var a := pre + c1 + types;
    assert a == pre + (c1 + types);
    var b := a + mid + c6 + data;
    assert b == a + mid + c6 + (means + extraData);
    assert b + c7 + legend == b + (c7 + legend);
  }

  // ---- The sections that depend on the max/min choice ----
  // (`ColorsAndTypes` and `LegendKey` only split literals.)

  /** The axis types joined: `y,x,x`, and two more `x` axes with max/min shown. */
  lemma AxisTypesJoined(showMaxMin: bool)
    ensures Join(AxisTypes(showMaxMin), ',') == "y,x,x" + (if showMaxMin then ",x,x" else "")
  {
    if showMaxMin {
      JoinFive("y", "x", "x", "x", "x", ',');
    } else {
      JoinThree("y", "x", "x", ',');
    }
  }

  /** The legend joined: `avg`, and `|max|min` with max/min shown. */
  lemma LegendJoined(showMaxMin: bool)
    ensures Join(Legend(showMaxMin), '|') == "avg" + (if showMaxMin then "|max|min" else "")
  {
    if showMaxMin {
      JoinThree("avg", "max", "min", '|');
    }
  }

  lemma ColorsAndTypes(extra: string)
    ensures "&chco=2d69f9,a6c9fd,d0eeff&chxt=" + ("y,x,x" + extra) == TypeBar2 + extra
  {
  }

  lemma LegendKey(extra: string)
    ensures "&chdl=" + ("avg" + extra) == "&chdl=avg" + extra
  {
  }

  /** The type section: the fixed axis types, plus two more `x` axes when
      maxima and minima are shown. */
  lemma TypesText(showMaxMin: bool)
    ensures "&chco=2d69f9,a6c9fd,d0eeff&chxt=" + Join(AxisTypes(showMaxMin), ',')
            == TypeBar2 + (if showMaxMin then ",x,x" else "")
  {
    AxisTypesJoined(showMaxMin);
    ColorsAndTypes(if showMaxMin then ",x,x" else "");
  }

  lemma LegendText(showMaxMin: bool)
    ensures "&chdl=" + Join(Legend(showMaxMin), '|') == "&chdl=avg" + (if showMaxMin then "|max|min" else "")
  {
    LegendJoined(showMaxMin);
    LegendKey(if showMaxMin then "|max|min" else "");
  }

  lemma DataText(samples: seq<Sample>, showMaxMin: bool, first: bool)
    ensures Join(DataSets(samples, showMaxMin, first), '|')
            == Series(Column(samples, Mean), first)
               + (if showMaxMin then "|" + Series(Column(samples, Max), first) + "|" + Series(Column(samples, Min), first)
                  else "")
  {
    var means, maxima, minima := Series(Column(samples, Mean), first), Series(Column(samples, Max), first),
                                 Series(Column(samples, Min), first);
    if showMaxMin {
      JoinThree(means, maxima, minima, '|');
    }
  }

  /** The fields joined by `&` are the sections written one after another:
      header, types, title, value range, axes, data, legend. */
  lemma QueryLayout(samples: seq<Sample>, title: string, unit: SimonUnit, showMaxMin: bool,
                    first: bool, y: YAxis)
    ensures ChartUrl(samples, title, unit, showMaxMin, first, y)
            == Header(|samples|, Spacing(showMaxMin)) + TypeBar2 + (if showMaxMin then ",x,x" else "")
               + ("&chtt=" + Escaped(title)
                  + "&chxr=2,0," + IntToDecimal(y.top)
                  + "&chds=0," + IntToDecimal(y.top)
                  + "&chxl=" + Join(AxisLabels(samples, unit, showMaxMin, y), '|'))
               + "&chd=t:" + Series(Column(samples, Mean), first)
               + (if showMaxMin
                  then "|" + Series(Column(samples, Max), first) + "|" + Series(Column(samples, Min), first)
                  else "")
               + "&chdl=avg" + (if showMaxMin then "|max|min" else "")
               + "&.png"
  {
    var means, maxima, minima := Series(Column(samples, Mean), first), Series(Column(samples, Max), first),
                                 Series(Column(samples, Min), first);
    var w, h, sp := IntToDecimal(Width(|samples|)), IntToDecimal(ImageHeight), IntToDecimal(Spacing(showMaxMin));
    var titleText, top := Escaped(title), IntToDecimal(y.top);
    var axes := Join(AxisLabels(samples, unit, showMaxMin, y), '|');
    var types, data, legend := Join(AxisTypes(showMaxMin), ','), Join(DataSets(samples, showMaxMin, first), '|'),
                               Join(Legend(showMaxMin), '|');
    FieldsJoined(w, h, sp, types, titleText, top, axes, data, legend);
    var extraTypes := if showMaxMin then ",x,x" else "";
    var extraData := if showMaxMin then "|" + maxima + "|" + minima else "";
    var extraLegend := if showMaxMin then "|max|min" else "";
    TypesText(showMaxMin);
    LegendText(showMaxMin);
    DataText(samples, showMaxMin, first);
    Splice(UrlStart + w + "x" + h + TypeBar1 + sp, "&chco=2d69f9,a6c9fd,d0eeff&chxt=", types,
           "&chtt=" + titleText + "&chxr=2,0," + top + "&chds=0," + top + "&chxl=" + axes,
           "&chd=t:", data, "&chdl=", legend, "&.png",
           TypeBar2, extraTypes, means, extraData, "&chdl=avg", extraLegend);
  }
}
