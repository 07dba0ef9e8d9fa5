/** The bar chart's geometry: the scale ceiling, the wrapped labels, each bar's
    width and x-offset, the bottom margin that holds the labels, and each bar's
    rectangle and label anchor. Colours, value labels and SVG markup are not
    modelled. */
module BarChart {
  import opened Common
  import opened LabelWrap

  /** One bar's input: its label and its value. */
  datatype Datum = Datum(caption: string, value: real)

  /** The chart's props; `max` is absent when the ceiling is taken from the data. */
  datatype Config = Config(
    height: int,
    max: Option<real>,
    labelAngle: real,
    labelWrapChars: int,
    labelFontSize: int,
    minBarWidth: int)

  /** The defaults of the props the geometry depends on. */
  const DefaultConfig := Config(180, None, 0.0, 0, 12, 16)

  // ---------------------------------------------------------------------------
  // Geometry
  // ---------------------------------------------------------------------------

  /** `Math.max(1, ...values)`. */
  function MaxValue(data: seq<Datum>): (m: real)
    ensures m >= 1.0
    ensures forall i :: 0 <= i < |data| ==> data[i].value <= m
    ensures m == 1.0 || exists i :: 0 <= i < |data| && data[i].value == m
  {
    if |data| == 0 then 1.0 else RealMax(MaxValue(data[..|data| - 1]), data[|data| - 1].value)
  }

  /** The ceiling the bars are scaled against: the given `max`, else the largest value, at least 1. */
  function MaxVal(data: seq<Datum>, max: Option<real>): (v: real)
    ensures max.Some? ==> v == max.value
    ensures max.None? ==> v == MaxValue(data)
    ensures max != Some(0.0) ==> v != 0.0
  {
    match max
    case Some(m) => m
    case None => MaxValue(data)
  }

  /** The largest of a non-empty list of line counts or lengths. */
  function Largest(xs: seq<nat>): (m: nat)
    requires |xs| > 0
    ensures forall i :: 0 <= i < |xs| ==> xs[i] <= m
    ensures exists i :: 0 <= i < |xs| && xs[i] == m
  {
    if |xs| == 1 then xs[0] else Max(Largest(xs[..|xs| - 1]), xs[|xs| - 1])
  }

  /** Every label wrapped at `chars` characters per line. */
  function WrapAll(data: seq<Datum>, chars: int): (w: seq<seq<string>>)
    ensures |w| == |data|
    ensures forall i :: 0 <= i < |data| ==> w[i] == Wrap(data[i].caption, chars)
  {
    seq(|data|, i requires 0 <= i < |data| => Wrap(data[i].caption, chars))
  }

  /** The number of lines of each stack. */
  function LineCounts(wrapped: seq<seq<string>>): (counts: seq<nat>)
    ensures |counts| == |wrapped|
    ensures forall i :: 0 <= i < |wrapped| ==> counts[i] == |wrapped[i]|
  {
    seq(|wrapped|, i requires 0 <= i < |wrapped| => |wrapped[i]|)
  }

  /** The tallest stack of wrapped lines, 1 when there are no bars. */
  function MaxLines(wrapped: seq<seq<string>>): (m: int)
    ensures |wrapped| == 0 ==> m == 1
    ensures forall i :: 0 <= i < |wrapped| ==> |wrapped[i]| <= m
    ensures |wrapped| > 0 ==> exists i :: 0 <= i < |wrapped| && |wrapped[i]| == m
  {
    if |wrapped| == 0 then 1 else Largest(LineCounts(wrapped))
  }

  /** `Math.ceil`. */
  function Ceil(x: real): (c: int)
    ensures c as real - 1.0 < x <= c as real
  {
    if x.Floor as real == x then x.Floor else x.Floor + 1
  }

  /** The pixel width of `chars` characters at 3/5 of the font size each. */
  function TextWidth(chars: nat, fontSize: int): real
  {
    chars as real * (fontSize as real * 3.0 / 5.0)
  }

  /** Longer text is wider, for a non-negative font size. */
  lemma TextWidthMonotone(a: nat, b: nat, fontSize: int)
    requires a <= b && fontSize >= 0
    ensures 0.0 <= TextWidth(a, fontSize) <= TextWidth(b, fontSize)
  {
    var c := fontSize as real * 3.0 / 5.0;
    assert b as real * c == a as real * c + (b - a) as real * c;
  }

  /** The longest wrapped line, or the whole label when wrapping gave no lines. */
  function Longest(caption: string, lines: seq<string>): (n: nat)
    ensures forall j :: 0 <= j < |lines| ==> |lines[j]| <= n
    ensures |lines| > 0 ==> exists j :: 0 <= j < |lines| && |lines[j]| == n
    ensures |lines| == 0 ==> n == |caption|
  {
    if |lines| > 0 then Largest(LineLengths(lines)) else |caption|
  }

  /** The width of one bar: its longest line at 3/5 of the font size per
      character, rounded up, plus 16 pixels of padding, and never less than
      `minBarWidth`. */
  function BarWidth(caption: string, lines: seq<string>, config: Config): (w: int)
    ensures w >= config.minBarWidth
    ensures w as real >= TextWidth(Longest(caption, lines), config.labelFontSize) + 16.0
    ensures w == config.minBarWidth || w as real < TextWidth(Longest(caption, lines), config.labelFontSize) + 17.0
  {
    Max(config.minBarWidth, Ceil(TextWidth(Longest(caption, lines), config.labelFontSize)) + 16)
  }

  /** A bar is wide enough for each line of its label (for a non-negative font
      size), and at least 16 pixels wide. */
  lemma BarWidthCoversLines(caption: string, lines: seq<string>, config: Config)
    requires config.labelFontSize >= 0
    ensures forall j :: 0 <= j < |lines| ==>
      BarWidth(caption, lines, config) as real >= TextWidth(|lines[j]|, config.labelFontSize) + 16.0
    ensures BarWidth(caption, lines, config) >= 16
  {
    var n := Longest(caption, lines);
    forall j | 0 <= j < |lines|
      ensures BarWidth(caption, lines, config) as real >= TextWidth(|lines[j]|, config.labelFontSize) + 16.0
    {
      TextWidthMonotone(|lines[j]|, n, config.labelFontSize);
    }
    TextWidthMonotone(0, n, config.labelFontSize);
  }

  function LineLengths(lines: seq<string>): (ns: seq<nat>)
    ensures |ns| == |lines|
    ensures forall j :: 0 <= j < |lines| ==> ns[j] == |lines[j]|
  {
    seq(|lines|, j requires 0 <= j < |lines| => |lines[j]|)
  }

  /** The width of every bar. */
  function Widths(data: seq<Datum>, wrapped: seq<seq<string>>, config: Config): (ws: seq<int>)
    requires |wrapped| == |data|
    ensures |ws| == |data|
    ensures forall i :: 0 <= i < |data| ==> ws[i] == BarWidth(data[i].caption, wrapped[i], config)
  {
    seq(|data|, i requires 0 <= i < |data| => BarWidth(data[i].caption, wrapped[i], config))
  }

  function Sum(s: seq<int>): int
  {
    if |s| == 0 then 0 else Sum(s[..|s| - 1]) + s[|s| - 1]
  }

  /** The x-offsets as prefix sums: bar i starts after the widths of bars 0..i-1. */
  function Offsets(widths: seq<int>): (xs: seq<int>)
    ensures |xs| == |widths|
    ensures |xs| > 0 ==> xs[0] == 0
  {
    assert |widths| > 0 ==> widths[..0] == [];
    seq(|widths|, i requires 0 <= i < |widths| => Sum(widths[..i]))
  }

  /** The `xOffsets` loop: accumulate the widths, pushing the running total before each. */
  method XOffsets(widths: seq<int>) returns (xs: seq<int>)
    ensures xs == Offsets(widths)
    ensures |xs| > 0 ==> xs[0] == 0
    ensures forall i :: 0 <= i < |xs| - 1 ==> xs[i + 1] == xs[i] + widths[i]
  {
    xs := [];
    var acc := 0;
    for i := 0 to |widths|
      invariant |xs| == i
      invariant acc == Sum(widths[..i])
      invariant forall j :: 0 <= j < i ==> xs[j] == Sum(widths[..j])
    {
      xs := xs + [acc];
      assert widths[..i + 1][..i] == widths[..i];
      acc := acc + widths[i];
    }
    OffsetsStep(widths);
  }

  lemma OffsetsStep(widths: seq<int>)
    ensures forall i :: 0 <= i < |widths| - 1 ==> Offsets(widths)[i + 1] == Offsets(widths)[i] + widths[i]
  {
    forall i | 0 <= i < |widths| - 1
      ensures Offsets(widths)[i + 1] == Offsets(widths)[i] + widths[i]
    {
      assert widths[..i + 1][..i] == widths[..i];
    }
  }

  /** The reserved space under the bars: 40 pixels for rotated labels, otherwise
      room for the tallest stack of lines and never less than 24 pixels. */
  function BottomMargin(config: Config, maxLines: int): (m: int)
    ensures config.labelAngle != 0.0 ==> m == 40
    ensures config.labelAngle == 0.0 ==> m >= 24 && m >= StackHeight(config, maxLines)
    ensures config.labelAngle == 0.0 ==> m == 24 || m == StackHeight(config, maxLines)
  {
    if config.labelAngle != 0.0 then 40 else Max(24, StackHeight(config, maxLines))
  }

  /** The room a stack of `lines` label lines needs: a line step each plus 12 pixels. */
  function StackHeight(config: Config, lines: int): int
  {
    lines * (config.labelFontSize + 2) + 12
  }

  /** Whether labels are drawn as stacks of wrapped lines. */
  predicate WrapMode(config: Config)
  {
    config.labelWrapChars > 0 && config.labelAngle == 0.0
  }

  /** One bar as drawn: the rectangle (x, y, width, height), the label anchor and the label text lines. */
  datatype Bar = Bar(x: int, y: real, width: int, height: real, labelX: real, labelY: int, lines: seq<string>)

  /** The quantities shared by every bar. */
  datatype Frame = Frame(maxVal: real, maxLines: int, bottomMargin: int)

  /** One bar from its datum, its wrapped label, its width and its x-offset. The
      height is the value's share of the ceiling times the plot height
      (`height - bottomMargin`); the rectangle is inset by 4 pixels on each side;
      in wrap mode the first line of a stack of n lines is placed
      `(maxLines - n)` line steps lower, so that all stacks end together. */
  function BarAt(d: Datum, lines: seq<string>, width: int, offset: int, f: Frame, config: Config): (b: Bar)
    requires f.maxVal != 0.0
    ensures b.x == offset + 4 && b.x + b.width + 4 == offset + width
    ensures b.labelX == b.x as real + b.width as real / 2.0
    ensures b.y + b.height == (config.height - f.bottomMargin) as real
    ensures b.height * f.maxVal == d.value * (config.height - f.bottomMargin) as real
    ensures b.lines == if WrapMode(config) then lines else [d.caption]
  {
    var plot := (config.height - f.bottomMargin) as real;
    var h := d.value / f.maxVal * plot;
    ScaleBack(d.value, f.maxVal, plot);
    var x := offset + 4;
    Bar(x,
        config.height as real - h - f.bottomMargin as real,
        width - 8,
        h,
        x as real + (width - 8) as real / 2.0,
        if WrapMode(config)
        then config.height - (f.bottomMargin - (config.labelFontSize + 2) * (f.maxLines - |lines|)) - 6
        else config.height - 6,
        if WrapMode(config) then lines else [d.caption])
  }

  /** Every bar. */
  function Bars(data: seq<Datum>, wrapped: seq<seq<string>>, widths: seq<int>, offsets: seq<int>, f: Frame, config: Config)
    : (bars: seq<Bar>)
    requires f.maxVal != 0.0 && |wrapped| == |widths| == |offsets| == |data|
    ensures |bars| == |data|
    ensures forall i :: 0 <= i < |data| ==> bars[i] == BarAt(data[i], wrapped[i], widths[i], offsets[i], f, config)
  {
    seq(|data|, i requires 0 <= i < |data| => BarAt(data[i], wrapped[i], widths[i], offsets[i], f, config))
  }

  datatype Layout = Layout(
    maxVal: real,
    wrapped: seq<seq<string>>,
    maxLines: int,
    widths: seq<int>,
    offsets: seq<int>,
    chartWidth: int,
    bottomMargin: int,
    bars: seq<Bar>)

  /** The chart's whole geometry for `data` under `config`. A given `max` must not
      be zero (the source would divide by zero). */
  function ComputeLayout(data: seq<Datum>, config: Config): (l: Layout)
    requires config.max != Some(0.0)
    ensures |l.wrapped| == |l.widths| == |l.offsets| == |l.bars| == |data|
    ensures l.maxVal != 0.0
    ensures l.maxVal == MaxVal(data, config.max)
    ensures l.wrapped == WrapAll(data, config.labelWrapChars)
    ensures l.maxLines == MaxLines(l.wrapped)
    ensures forall i :: 0 <= i < |data| ==> l.widths[i] == BarWidth(data[i].caption, l.wrapped[i], config)
    ensures l.offsets == Offsets(l.widths) && l.chartWidth == Sum(l.widths)
    ensures l.bottomMargin == BottomMargin(config, l.maxLines)
    ensures forall i :: 0 <= i < |data| ==>
      l.bars[i] == BarAt(data[i], l.wrapped[i], l.widths[i], l.offsets[i],
                         Frame(l.maxVal, l.maxLines, l.bottomMargin), config)
  {
    var maxVal := MaxVal(data, config.max);
    var wrapped := WrapAll(data, config.labelWrapChars);
    var maxLines := MaxLines(wrapped);
    var widths := Widths(data, wrapped, config);
    var offsets := Offsets(widths);
    var bottomMargin := BottomMargin(config, maxLines);
    Layout(maxVal, wrapped, maxLines, widths, offsets, Sum(widths), bottomMargin,
           Bars(data, wrapped, widths, offsets, Frame(maxVal, maxLines, bottomMargin), config))
  }

  // ---------------------------------------------------------------------------
  // Properties of the geometry
  // ---------------------------------------------------------------------------

  /** Without a fixed `max` the ceiling is at least 1 and at least every value
      (1 for no data); with one it is that `max`. */
  lemma MaxValBounds(data: seq<Datum>, config: Config)
    requires config.max != Some(0.0)
    ensures var m := ComputeLayout(data, config).maxVal;
      && (config.max.None? ==> m >= 1.0 && forall i :: 0 <= i < |data| ==> data[i].value <= m)
      && (config.max.None? && |data| == 0 ==> m == 1.0)
      && (config.max.None? && |data| > 0 && m != 1.0 ==> exists i :: 0 <= i < |data| && data[i].value == m)
      && (config.max.Some? ==> m == config.max.value)
  {
  }

  /** Each stack of lines fits under `maxLines`, the tallest stack reaches it, and
      it is 1 when there is no data. */
  lemma MaxLinesBounds(data: seq<Datum>, config: Config)
    requires config.max != Some(0.0)
    ensures var l := ComputeLayout(data, config);
      && (|data| == 0 ==> l.maxLines == 1)
      && (forall i :: 0 <= i < |data| ==> |l.wrapped[i]| <= l.maxLines)
      && (|data| > 0 ==> exists i :: 0 <= i < |data| && |l.wrapped[i]| == l.maxLines)
  {
  }

  /** Every bar is at least `minBarWidth` wide and, for a non-negative font size,
      at least 16 pixels wide and wide enough for each of its label's lines at
      3/5 of the font size per character plus 16 pixels of padding. */
  lemma WidthsCoverLabels(data: seq<Datum>, config: Config, i: int)
    requires config.max != Some(0.0) && 0 <= i < |data|
    ensures var l := ComputeLayout(data, config);
      && l.widths[i] >= config.minBarWidth
      && (config.labelFontSize >= 0 ==> l.widths[i] >= 16)
      && (config.labelFontSize >= 0 ==> forall j :: 0 <= j < |l.wrapped[i]| ==>
            l.widths[i] as real >= TextWidth(|l.wrapped[i][j]|, config.labelFontSize) + 16.0)
  {
    var l := ComputeLayout(data, config);
    if config.labelFontSize >= 0 {
      BarWidthCoversLines(data[i].caption, l.wrapped[i], config);
    }
  }

  /** The bars tile the chart from the left: the first starts at 0, each starts
      where the previous ends, and the chart is as wide as all bars together
      (0 for no data). */
  lemma BarsTileChart(data: seq<Datum>, config: Config)
    requires config.max != Some(0.0)
    ensures var l := ComputeLayout(data, config);
      && (|data| == 0 ==> l.chartWidth == 0)
      && (|data| > 0 ==> l.offsets[0] == 0)
      && (forall i :: 0 <= i < |data| - 1 ==> l.offsets[i + 1] == l.offsets[i] + l.widths[i])
      && (|data| > 0 ==> l.chartWidth == l.offsets[|data| - 1] + l.widths[|data| - 1])
  {
    var l := ComputeLayout(data, config);
    assert l.offsets == Offsets(l.widths) && l.chartWidth == Sum(l.widths);
    OffsetsTile(l.widths);
  }

  /** The offsets of a row of widths tile their sum. */
  lemma OffsetsTile(widths: seq<int>)
    ensures |widths| == 0 ==> Sum(widths) == 0
    ensures |widths| > 0 ==> Offsets(widths)[0] == 0
    ensures forall i :: 0 <= i < |widths| - 1 ==> Offsets(widths)[i + 1] == Offsets(widths)[i] + widths[i]
    ensures |widths| > 0 ==> Sum(widths) == Offsets(widths)[|widths| - 1] + widths[|widths| - 1]
  {
    OffsetsStep(widths);
    if |widths| > 0 {
      assert widths[..0] == [];
    }
  }

  /** The chart's margin follows that rule for its tallest stack. */
  lemma LayoutBottomMargin(data: seq<Datum>, config: Config)
    requires config.max != Some(0.0)
    ensures var l := ComputeLayout(data, config);
      var stack := StackHeight(config, l.maxLines);
      && (config.labelAngle != 0.0 ==> l.bottomMargin == 40)
      && (config.labelAngle == 0.0 ==> l.bottomMargin >= 24 && l.bottomMargin >= stack
                                       && (l.bottomMargin == 24 || l.bottomMargin == stack))
  {
    var l := ComputeLayout(data, config);
    assert l.bottomMargin == BottomMargin(config, l.maxLines);
  }

  /** A bar stands on the plot's base line, a value of 0 has no height, a value
      equal to the ceiling fills the plot up to the top, and a value between 0
      and the ceiling stays inside the plot. */
  lemma BarOnBase(d: Datum, lines: seq<string>, width: int, offset: int, f: Frame, config: Config)
    requires f.maxVal != 0.0
    ensures var b := BarAt(d, lines, width, offset, f, config);
      var plot := (config.height - f.bottomMargin) as real;
      && b.y + b.height == plot
      && (d.value == 0.0 ==> b.height == 0.0)
      && (d.value == f.maxVal ==> b.height == plot && b.y == 0.0)
      && (0.0 <= d.value <= f.maxVal && plot >= 0.0 ==> 0.0 <= b.height <= plot)
  {
    var plot := (config.height - f.bottomMargin) as real;
    var v := d.value;
    if 0.0 <= v <= f.maxVal && plot >= 0.0 {
      UnitRatio(v, f.maxVal);
      assert v / f.maxVal * plot <= 1.0 * plot;
    }
  }

  /** Scaling by a share of a ceiling and multiplying the ceiling back gives the value scaled. */
  lemma ScaleBack(v: real, m: real, p: real)
    requires m != 0.0
    ensures v / m * p * m == v * p
  {
    calc {
      v / m * p * m;
      (v / m * m) * p;
      { assert v / m * m == v; }
      v * p;
    }
  }

  /** A value between 0 and a ceiling is a share of at most 1 of it. */
  lemma UnitRatio(v: real, m: real)
    requires 0.0 <= v <= m && m != 0.0
    ensures 0.0 <= v / m <= 1.0
  {
  }

  /** Every bar of the chart stands on the base line and is scaled to the ceiling. */
  lemma BarsStandOnBase(data: seq<Datum>, config: Config, i: int)
    requires config.max != Some(0.0) && 0 <= i < |data|
    ensures var l := ComputeLayout(data, config);
      var plot := (config.height - l.bottomMargin) as real;
      && l.bars[i].y + l.bars[i].height == plot
      && (data[i].value == 0.0 ==> l.bars[i].height == 0.0)
      && (data[i].value == l.maxVal ==> l.bars[i].height == plot && l.bars[i].y == 0.0)
      && (0.0 <= data[i].value <= l.maxVal && plot >= 0.0 ==> 0.0 <= l.bars[i].height <= plot)
  {
    var l := ComputeLayout(data, config);
    var f := Frame(l.maxVal, l.maxLines, l.bottomMargin);
    assert l.bars[i] == BarAt(data[i], l.wrapped[i], l.widths[i], l.offsets[i], f, config);
    BarOnBase(data[i], l.wrapped[i], l.widths[i], l.offsets[i], f, config);
  }

  /** In a layout whose bars are placed by `BarAt` in its frame, as `ComputeLayout`
      places them, every bar's height is to the plot's height as its value is to
      the ceiling. */
  lemma LayoutBarsScaled(l: Layout, data: seq<Datum>, config: Config)
    requires l.maxVal != 0.0 && |l.wrapped| == |l.widths| == |l.offsets| == |l.bars| == |data|
    requires forall i :: 0 <= i < |data| ==>
      l.bars[i] == BarAt(data[i], l.wrapped[i], l.widths[i], l.offsets[i],
                         Frame(l.maxVal, l.maxLines, l.bottomMargin), config)
    ensures forall i :: 0 <= i < |data| ==>
      l.bars[i].height * l.maxVal == data[i].value * (config.height - l.bottomMargin) as real
  {
    forall i | 0 <= i < |data|
      ensures l.bars[i].height * l.maxVal == data[i].value * (config.height - l.bottomMargin) as real
    {
      var f := Frame(l.maxVal, l.maxLines, l.bottomMargin);
      assert l.bars[i] == BarAt(data[i], l.wrapped[i], l.widths[i], l.offsets[i], f, config);
    }
  }

  /** The y of the last line of a bar's label: `labelY` plus one line step per further line. */
  function LastLineY(b: Bar, config: Config): int
  {
    b.labelY + (|b.lines| - 1) * (config.labelFontSize + 2)
  }

  /** In wrap mode the last line of a bar's label sits `(maxLines - 1)` line
      steps below the first line of the tallest stack, whatever the number of
      its own lines: shorter stacks are shifted down. */
  lemma LabelBaseline(d: Datum, lines: seq<string>, width: int, offset: int, f: Frame, config: Config)
    requires f.maxVal != 0.0 && WrapMode(config)
    ensures var b := BarAt(d, lines, width, offset, f, config);
      && b.lines == lines
      && LastLineY(b, config) == config.height - f.bottomMargin + (f.maxLines - 1) * (config.labelFontSize + 2) - 6
  {
    var step := config.labelFontSize + 2;
    var n := |lines|;
    assert (f.maxLines - n) * step + (n - 1) * step == (f.maxLines - 1) * step;
  }

  /** All label stacks of a wrapped chart end on one baseline. */
  lemma LabelBaselinesAligned(data: seq<Datum>, config: Config, i: int, j: int)
    requires config.max != Some(0.0) && 0 <= i < |data| && 0 <= j < |data| && WrapMode(config)
    ensures var l := ComputeLayout(data, config);
      LastLineY(l.bars[i], config) == LastLineY(l.bars[j], config)
  {
    var l := ComputeLayout(data, config);
    var f := Frame(l.maxVal, l.maxLines, l.bottomMargin);
    LabelBaseline(data[i], l.wrapped[i], l.widths[i], l.offsets[i], f, config);
    LabelBaseline(data[j], l.wrapped[j], l.widths[j], l.offsets[j], f, config);
  }

  /** Without wrap mode every label is the datum's whole label on the line 6 pixels above the bottom. */
  lemma UnwrappedLabels(data: seq<Datum>, config: Config, i: int)
    requires config.max != Some(0.0) && 0 <= i < |data| && !WrapMode(config)
    ensures var l := ComputeLayout(data, config);
      l.bars[i].lines == [data[i].caption] && l.bars[i].labelY == config.height - 6
  {
  }

  /** Two bars with values 0 and 10 under the default props: the first is flat,
      the second fills the 154-pixel plot (the margin is 1 * 14 + 12 = 26). */
  lemma TwoBarExample()
    ensures var l := ComputeLayout([Datum("A", 0.0), Datum("B", 10.0)], DefaultConfig);
      && l.bottomMargin == 26
      && l.bars[0].height == 0.0
      && l.bars[1].height == 154.0 && l.bars[1].y == 0.0
  {
    var data := [Datum("A", 0.0), Datum("B", 10.0)];
    TwoBarCeiling(data);
    TwoBarLines(data);
    BarsStandOnBase(data, DefaultConfig, 0);
    BarsStandOnBase(data, DefaultConfig, 1);
  }

  lemma TwoBarCeiling(data: seq<Datum>)
    requires data == [Datum("A", 0.0), Datum("B", 10.0)]
    ensures MaxValue(data) == 10.0
  {
    assert data[..1] == [Datum("A", 0.0)];
    assert [Datum("A", 0.0)][..0] == [];
  }

  lemma TwoBarLines(data: seq<Datum>)
    requires data == [Datum("A", 0.0), Datum("B", 10.0)]
    ensures MaxLines(WrapAll(data, 0)) == 1
  {
    var wrapped := WrapAll(data, 0);
    assert wrapped == [["A"], ["B"]];
    assert LineCounts(wrapped) == [1, 1];
    assert [1, 1][..1] == [1];
  }
}
