# Java Simon bar-chart URL generator, modelled in Dafny

Java Simon's `GoogleChartImageGenerator` turns stopwatch samples into a Google
Chart Image API URL for a grouped bar chart. Each sample becomes one bar group.
The group shows the sample's mean and, when `showMaxMin` is set, also its
maximum and minimum. The title and the sample names are escaped by `encode`
before they go into the URL. The generator writes the URL section by section.
It fills seven per-sample string builders in one pass over the samples (the
y-axis builder is filled afterwards, from the ticks) and keeps a `first` flag, so that no comma goes in front of the first data value.

The project has seven modules:

- `Strings` (strings.dfy): counting, `Join` (separators between parts),
  `Labels` (a separator in front of every part) and `Split`. It proves that
  `Split` undoes `Join`.
- `Decimal` (decimal.dfy): Java 32-bit `int` wrap-around and the decimal text of
  `StringBuilder.append(int)`, with a parser that reads it back.
- `Replacer` (replacer.dfy): the replace-all rule that `encode` applies.
- `ChartEncoding` (encoding.dfy): the `REPLACERS` list in its order, the
  iterative `Encode` method, and the per-character reference definition
  `Escaped` that `Encode` is proved against. It also holds `Decode`, which undoes the three escapes
  (not a full form decoder), used to read titles and names back out of the URL.
- `GoogleChart` (chart.dfy): the URL as a specification. `Parameters` lists the
  twelve `&`-separated fields, and `ChartUrl` joins them. The lemmas rewrite the
  join into the order in which `process` writes its sections.
- `ChartGenerator` (generator.dfy): the class `GoogleChartImageGenerator`, with
  its constructor, `AddValueToAxis`, the sample loop of `process`
  (`CollectSamples`), `Process` itself and the four `barChart` overloads. Each
  string builder's content after the first i samples is a function
  (`NamesAxis`, `ValueAxis`, `DataSeries`, `TickAxis`). Lemmas connect each of
  these to the URL specification.
- `ChartProperties` (chart_properties.dfy): what a reader of the URL can rely on:
  - the address prefix and the `&.png` suffix;
  - reading the fields back by splitting at `&`;
  - decoding the title field and each name label, and the fact that a `|` in a
    name is not escaped and splits that name's label in the `chxl` field;
  - the size and spacing values;
  - the sections that appear exactly when `showMaxMin` is set;
  - the comma layout of the data series under the `first` flag.

Numbers are abstracted. A sample's mean, maximum and minimum are the strings
the generator's number format produced. The y-axis (its top value and tick
values) is a parameter, `YAxis`, in place of the floating-point computation
that derives it.

The image width is computed as a Java `int`, so it is modelled with 32-bit
wrap-around. It is exact up to 26843544 samples and wraps to a negative value
at 26843545 samples (`WidthExact`, `WidthOverflow`).

## Model

| member | source | states |
|---|---|---|
| Replacer.Replacer.Process | core/src/main/java/org/javasimon/utils/GoogleChartImageGenerator.java:46-48 | a rule leaves text without its target character unchanged, and removes every target character when the replacement does not contain it |
| Replacer.Replacer.ProcessAppend | core/src/main/java/org/javasimon/utils/GoogleChartImageGenerator.java:172-175 | replacing in a concatenation is replacing in each part |
| ChartEncoding.Encode | core/src/main/java/org/javasimon/utils/GoogleChartImageGenerator.java:171-176 | applying the three rules in list order yields `Escaped(s)`: `+` becomes `%2b`, space becomes `+`, `&` becomes `%26`, every other character is kept |
| ChartEncoding.ChainIsEscaped | core/src/main/java/org/javasimon/utils/GoogleChartImageGenerator.java:46-48 | the three rules applied one after another escape each character independently, because `+` is replaced before spaces become `+` |
| ChartEncoding.EscapedAppend | core/src/main/java/org/javasimon/utils/GoogleChartImageGenerator.java:171-176 | encoding a concatenation is the concatenation of the encodings |
| ChartEncoding.EscapedHasNoSpaceOrAmpersand | core/src/main/java/org/javasimon/utils/GoogleChartImageGenerator.java:46-48 | encoded text contains no space and no `&` |
| ChartEncoding.PlusCountsSpaces | core/src/main/java/org/javasimon/utils/GoogleChartImageGenerator.java:46-47 | the encoded text has exactly as many `+` as the input has spaces |
| ChartEncoding.EscapedLength | core/src/main/java/org/javasimon/utils/GoogleChartImageGenerator.java:46-48 | each `+` and each `&` grows the text by two characters; nothing else does |
| ChartEncoding.EscapedFixedPoints | core/src/main/java/org/javasimon/utils/GoogleChartImageGenerator.java:171-176 | the encoding leaves a string unchanged if and only if it contains no `+`, no space and no `&` |
| ChartEncoding.DecodeEscaped | core/src/main/java/org/javasimon/utils/GoogleChartImageGenerator.java:171-176 | form-decoding the encoding gives back any input without a `%` |
| ChartEncoding.EscapedKeepsBar | core/src/main/java/org/javasimon/utils/GoogleChartImageGenerator.java:46-48 | `encode` leaves `\|` alone: its output holds a `\|` exactly when its input does |
| ChartEncoding.EscapedCollision | core/src/main/java/org/javasimon/utils/GoogleChartImageGenerator.java:46-48 | `%` is not escaped, so the inputs `%2b` and `+` encode to the same text |
| Decimal.Int32 | core/src/main/java/org/javasimon/utils/GoogleChartImageGenerator.java:110 | the Java `int` result lies in the 32-bit range and equals the exact value when that value fits |
| Decimal.Int32Congruent | core/src/main/java/org/javasimon/utils/GoogleChartImageGenerator.java:110 | the wrapped value differs from the exact one by a multiple of 2^32 |
| Decimal.IntToDecimal | core/src/main/java/org/javasimon/utils/GoogleChartImageGenerator.java:110 | the decimal text is non-empty, made of digits with an optional leading minus sign |
| Decimal.ParseIntToDecimal | core/src/main/java/org/javasimon/utils/GoogleChartImageGenerator.java:146-147 | the decimal text of any integer reads back as that integer |
| GoogleChart.ColumnValues | core/src/main/java/org/javasimon/utils/GoogleChartImageGenerator.java:134-137 | the i-th entry of a statistic's column is the i-th sample's value |
| GoogleChart.NamesEncoded | core/src/main/java/org/javasimon/utils/GoogleChartImageGenerator.java:133 | the i-th name label is the encoded name of the i-th sample |
| GoogleChart.ValueLabelsUnit | core/src/main/java/org/javasimon/utils/GoogleChartImageGenerator.java:167 | each value label is the value, an encoded space and the unit symbol |
| GoogleChart.TickLabelsDecimal | core/src/main/java/org/javasimon/utils/GoogleChartImageGenerator.java:143-145 | each tick label is the tick's decimal text |
| GoogleChart.AxesLayout | core/src/main/java/org/javasimon/utils/GoogleChartImageGenerator.java:148-151 | the axis labels are the y-axis, the names and the means, each behind its axis number; the maxima (3) and minima (4) follow if and only if `showMaxMin` |
| GoogleChart.AxisTypesJoined | core/src/main/java/org/javasimon/utils/GoogleChartImageGenerator.java:111-114 | the axis types joined by commas are `y,x,x`, followed by `,x,x` exactly when `showMaxMin` |
| GoogleChart.LegendJoined | core/src/main/java/org/javasimon/utils/GoogleChartImageGenerator.java:156 | the legend entries joined by `\|` are `avg`, followed by `\|max\|min` exactly when `showMaxMin` |
| GoogleChart.TypesText | core/src/main/java/org/javasimon/utils/GoogleChartImageGenerator.java:110-114 | the axis types are `y,x,x`, and gain `,x,x` exactly when maxima and minima are shown |
| GoogleChart.LegendText | core/src/main/java/org/javasimon/utils/GoogleChartImageGenerator.java:156 | the legend is `avg`, followed by `\|max\|min` exactly when `showMaxMin` |
| GoogleChart.DataText | core/src/main/java/org/javasimon/utils/GoogleChartImageGenerator.java:152-155 | the data is the mean series, followed by the maximum and minimum series, each behind a `\|`, exactly when `showMaxMin` |
| GoogleChart.QueryLayout | core/src/main/java/org/javasimon/utils/GoogleChartImageGenerator.java:105-157 | the twelve fields joined by `&` are the header, the types, the title, range, scale and axes, the data, the legend and `&.png`, in that order |
| ChartGenerator.NamesAxisLabels | core/src/main/java/org/javasimon/utils/GoogleChartImageGenerator.java:117-133 | the names builder holds `\|1:` and then, per sample in input order, `\|` and the encoded name |
| ChartGenerator.ValueAxisLabels | core/src/main/java/org/javasimon/utils/GoogleChartImageGenerator.java:160-169 | a value builder holds its axis number and then the value label of every sample, in input order |
| ChartGenerator.DataSeriesText | core/src/main/java/org/javasimon/utils/GoogleChartImageGenerator.java:122-137 | a data builder holds its opening and then the series of the samples' values, with commas as the `first` flag dictates |
| ChartGenerator.TickAxisLabels | core/src/main/java/org/javasimon/utils/GoogleChartImageGenerator.java:141-145 | the y-axis builder holds `&chxl=0:` and then the tick labels, each behind a `\|` |
| ChartGenerator.ProcessLayout | core/src/main/java/org/javasimon/utils/GoogleChartImageGenerator.java:146-156 | the builders appended in the order of `process`, with the optional max/min parts, make the chart URL |
| ChartGenerator.GoogleChartImageGenerator.constructor | core/src/main/java/org/javasimon/utils/GoogleChartImageGenerator.java:51-56 | a new generator holds its samples, title, unit and max/min choice, with `first` set |
| ChartGenerator.GoogleChartImageGenerator.AddValueToAxis | core/src/main/java/org/javasimon/utils/GoogleChartImageGenerator.java:160-169 | the axis gains `\|`, the value, `+` and the unit symbol, and the value is handed back for the data series |
| ChartGenerator.GoogleChartImageGenerator.CollectSamples | core/src/main/java/org/javasimon/utils/GoogleChartImageGenerator.java:125-139 | after the loop, `first` is cleared if there was a sample; every builder holds its opening and then its part for all samples, the max/min ones whenever `showMaxMin` |
| ChartGenerator.GoogleChartImageGenerator.Process | core/src/main/java/org/javasimon/utils/GoogleChartImageGenerator.java:104-158 | the result is `ChartUrl` of the generator's samples, title, unit and max/min choice under the `first` flag it started with, and the flag is cleared if there was a sample |
| ChartGenerator.BarChart | core/src/main/java/org/javasimon/utils/GoogleChartImageGenerator.java:67-69 | the URL is the chart URL of a fresh generator (`first` set) |
| ChartGenerator.BarChartMeans | core/src/main/java/org/javasimon/utils/GoogleChartImageGenerator.java:79-81 | the chart URL with `showMaxMin` false |
| ChartGenerator.BarChartMillis | core/src/main/java/org/javasimon/utils/GoogleChartImageGenerator.java:90-92 | the chart URL with `showMaxMin` false and the millisecond unit |
| ChartGenerator.BarChartDefault | core/src/main/java/org/javasimon/utils/GoogleChartImageGenerator.java:100-102 | the chart URL with `showMaxMin` false, the millisecond unit and the title `Java Simon chart` |
| ChartProperties.UrlFrame | core/src/main/java/org/javasimon/utils/GoogleChartImageGenerator.java:105-156 | every URL starts with the chart service address and ends with `&.png` |
| ChartProperties.QueryFields | core/src/main/java/org/javasimon/utils/GoogleChartImageGenerator.java:105-157 | if values and unit symbol hold no `&`, splitting the URL at `&` gives exactly the twelve fields in order, and the URL holds eleven `&`, whatever the title and names contain |
| ChartProperties.TitleReadBack | core/src/main/java/org/javasimon/utils/GoogleChartImageGenerator.java:115 | the title field is `chtt=` and the encoded title, which decodes to the title when the title contains no `%` |
| ChartProperties.NameLabels | core/src/main/java/org/javasimon/utils/GoogleChartImageGenerator.java:133 | there is one name label per sample, and each decodes to its sample's name, in order, when names contain no `%` |
| ChartProperties.NameLabelAt | core/src/main/java/org/javasimon/utils/GoogleChartImageGenerator.java:148-149 | the i-th name label sits in the `chxl` labels right behind the y-axis labels and the `1:` axis number |
| ChartProperties.BarInNameSplitsLabels | core/src/main/java/org/javasimon/utils/GoogleChartImageGenerator.java:133 | a name holding `\|` keeps it in its label, so splitting the written `chxl` labels at `\|` does not give them back |
| ChartProperties.WidthExact | core/src/main/java/org/javasimon/utils/GoogleChartImageGenerator.java:21-22 | the width is 100 + 80·n pixels while it fits in an `int` |
| ChartProperties.WidthOverflow | core/src/main/java/org/javasimon/utils/GoogleChartImageGenerator.java:110 | with 26843545 samples the computed width wraps to -2147483596 |
| ChartProperties.ChartSize | core/src/main/java/org/javasimon/utils/GoogleChartImageGenerator.java:110 | while the width fits in an `int` (n ≤ 26843544), the size field is the address, then `(100 + 80·n)x320` |
| ChartProperties.BarSpacingSection | core/src/main/java/org/javasimon/utils/GoogleChartImageGenerator.java:106-111 | the spacing field ends in 25 when `showMaxMin` and in 40 otherwise |
| ChartProperties.AxisTypesSection | core/src/main/java/org/javasimon/utils/GoogleChartImageGenerator.java:111-114 | the types field is `chxt=y,x,x`, followed by `,x,x` exactly when `showMaxMin` |
| ChartProperties.AxisLabelsCount | core/src/main/java/org/javasimon/utils/GoogleChartImageGenerator.java:141-151 | there is one name label per sample, one value label per sample per shown statistic, one axis number per axis, plus one label per tick |
| ChartProperties.DataSection | core/src/main/java/org/javasimon/utils/GoogleChartImageGenerator.java:152-155 | the data field is `chd=t:` and the mean series, followed by the max and min series exactly when `showMaxMin` |
| ChartProperties.LegendSection | core/src/main/java/org/javasimon/utils/GoogleChartImageGenerator.java:156 | the legend field is `chdl=avg`, followed by `\|max\|min` exactly when `showMaxMin` |
| ChartProperties.SeriesIsJoin | core/src/main/java/org/javasimon/utils/GoogleChartImageGenerator.java:126-134 | with `first` set, a series is its values joined by commas, with no leading comma |
| ChartProperties.SeriesAfterFirstCleared | core/src/main/java/org/javasimon/utils/GoogleChartImageGenerator.java:126-132 | with `first` already cleared, every value comes behind a comma, including the first |
| ChartProperties.SeriesReadBack | core/src/main/java/org/javasimon/utils/GoogleChartImageGenerator.java:126-134 | with `first` set, a series of n ≥ 1 comma-free values holds n − 1 commas and splits back into its values |
| ChartProperties.ColumnReadBack | core/src/main/java/org/javasimon/utils/GoogleChartImageGenerator.java:134-137 | for at least one sample whose values hold no comma, a fresh generator's series of a statistic splits back into the samples' values, one per sample, in input order |

## Left out

- The `max` field and the y-axis computation (lines 140-147): these are `double` arithmetic with `Math.log10`, `Math.pow` and a floating-point step loop. The y-axis top value and tick values are a `YAxis` parameter of `Process`. `Process` models the tick loop over those values.
- ChartGenerator.GoogleChartImageGenerator.AddValueToAxis: does not divide by the unit's divisor or format with `DecimalFormat("0.00")` (lines 30, 161, 166). It also does not update `max`. Values arrive already formatted, as strings.
- `SimonUnit` and `StopwatchSample` are not part of this model. A unit is modelled by its symbol alone, and the millisecond unit's symbol is taken to be `ms`. A sample is modelled by its name and its three formatted values.
- The Java `Replacer` class (org.javasimon.utils.Replacer) is not part of this model. Its `process` is taken to be a literal replace-all of one character, which is what all three `REPLACERS` entries ask for (`\\+` is the regular expression for a literal plus).
- Null samples, null names and a null title make the Java code throw. Sequences and strings in the model are never null.
- The fields `samples`, `title` and `showMaxMin` are `const`, because the source assigns them only in the constructor.
- `process` is modelled as `Process` plus `CollectSamples`, which holds its loop over the samples, and `AddValueToAxis`. The statements are the same, in the same order. The builders are strings that are reassigned, not objects mutated in place.
- `Process` accepts any `first` state. The source calls `process` once per new generator, where `first` is always set.
