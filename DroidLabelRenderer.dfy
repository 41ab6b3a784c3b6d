/** The Android label renderer's measuring pass: the `ControlState` memo key,
    the font-size bounds, the fit modes that choose a font size, the loops that
    count fitting lines and reduce a text layout to a size, and the memoised
    `GetDesiredSize`. Native text layout, font metrics and the three fitting
    helpers of the native text view are oracles of a `RendererEnvironment`;
    floats are reals. */
module DroidLabelRenderer {
  import opened Wrappers
  import opened LabelElement

  /** `int.MaxValue / 2`. */
  const HalfIntMax: int := 1073741823

  /** `int.MaxValue / 3`. */
  const ThirdIntMax: int := 715827882

  /** `double.MaxValue`, 2^1024 - 2^971, written out. */
  const DoubleMaxValue: real := 179769313486231570814527423731704356798070567525844996598917476803157260780028538760589558632766878171540458953514382464234321326889464182768467546703537516986049910576551282076245490090389328944075868508455133942304583236903222948165808559332123348274797826204144723168738177180919299881250404026184124858368.0

  // ---------------------------------------------------------------------------
  // Rounding of reals to integers

  /** `Math.Ceiling`. */
  function Ceil(x: real): (n: int)
    ensures x <= n as real < x + 1.0
  {
    -((-x).Floor)
  }

  /** The `(int)` cast of a float: truncation toward zero. */
  function Truncate(x: real): (n: int)
    ensures x >= 0.0 ==> 0 <= n && n as real <= x < n as real + 1.0
    ensures x < 0.0 ==> n <= 0 && n as real - 1.0 < x <= n as real
  {
    if x >= 0.0 then x.Floor else -((-x).Floor)
  }

  /** `Math.Round(double)`: to the nearest integer, halves to the even neighbour. */
  function RoundHalfEven(x: real): (n: int)
    ensures Abs(n as real - x) <= 0.5
    ensures Abs(n as real - x) == 0.5 ==> n % 2 == 0
  {
    var f := x.Floor;
    var frac := x - f as real;
    if frac < 0.5 then f
    else if frac > 0.5 then f + 1
    else if f % 2 == 0 then f else f + 1
  }

  // ---------------------------------------------------------------------------
  // The control state: what one measuring pass depended on

  /** A Java `ICharSequence`; `ControlState` compares these by reference. */
  class CharSeq {
    const chars: string

    constructor (chars: string)
      ensures this.chars == chars
    {
      this.chars := chars;
    }
  }

  /** An Android typeface, by identity. */
  datatype Typeface = Typeface(id: nat)

  /** A Xamarin.Forms colour. */
  datatype Color = DefaultColor | Rgba(r: real, g: real, b: real, a: real)

  /** `ControlState`: the inputs of the last measuring pass, compared by `Same`. */
  class ControlState {
    var textFormatted: CharSeq?
    var text: Option<string>
    var javaText: CharSeq?
    var typeface: Option<Typeface>
    var textColor: Color
    var availWidth: int
    var availHeight: int
    var textSize: real
    var lines: int
    var autoFit: AutoFit
    var lineBreakMode: LineBreakMode
    var syncFontSize: real

    /** `JavaText` is the formatted text itself, or a Java string holding `Text`. */
    ghost predicate Valid()
      reads this
    {
      if text.Some? then textFormatted == null && javaText != null && javaText.chars == text.value
      else javaText == textFormatted
    }

    /** The state a renderer starts from when it gets a new element. */
    constructor (lines: int, autoFit: AutoFit, lineBreakMode: LineBreakMode, syncFontSize: real)
      ensures Valid()
      ensures textFormatted == null && text.Null? && javaText == null && typeface.Null?
      ensures textColor == DefaultColor && availWidth == 0 && availHeight == 0 && textSize == 0.0
      ensures this.lines == lines && this.autoFit == autoFit && this.lineBreakMode == lineBreakMode
      ensures this.syncFontSize == syncFontSize
    {
      textFormatted, text, javaText, typeface := null, Null, null, Null;
      textColor, availWidth, availHeight, textSize := DefaultColor, 0, 0, 0.0;
      this.lines, this.autoFit, this.lineBreakMode := lines, autoFit, lineBreakMode;
      this.syncFontSize := syncFontSize;
    }

    /** The copy constructor: every field of `source`, including the colour. */
    constructor Copy(source: ControlState)
      ensures textFormatted == source.textFormatted && text == source.text && javaText == source.javaText
      ensures typeface == source.typeface && textColor == source.textColor
      ensures availWidth == source.availWidth && availHeight == source.availHeight
      ensures textSize == source.textSize && lines == source.lines && autoFit == source.autoFit
      ensures lineBreakMode == source.lineBreakMode && syncFontSize == source.syncFontSize
      ensures Same(this, source)
      ensures source.Valid() ==> Valid()
    {
      textFormatted, text, javaText := source.textFormatted, source.text, source.javaText;
      typeface, textColor := source.typeface, source.textColor;
      availWidth, availHeight, textSize := source.availWidth, source.availHeight, source.textSize;
      lines, autoFit, lineBreakMode := source.lines, source.autoFit, source.lineBreakMode;
      syncFontSize := source.syncFontSize;
    }

    /** The `Text` setter: a new or null value replaces the text, drops the
        formatted text and wraps the value in a new Java string; setting the
        same non-null string again changes nothing. */
    method SetText(value: Option<string>)
      modifies this`text, this`textFormatted, this`javaText
      ensures old(Valid()) ==> Valid()
      ensures value != old(text) || value.Null? ==>
        && text == value && textFormatted == null
        && (value.Null? ==> javaText == null)
        && (value.Some? ==> fresh(javaText) && javaText.chars == value.value)
      ensures value == old(text) && value.Some? ==> unchanged(this`text, this`textFormatted, this`javaText)
    {
      if value != text || value.Null? {
        text := value;
        textFormatted := null;
        if value.Some? {
          javaText := new CharSeq(value.value);
        } else {
          javaText := null;
        }
      }
    }

    /** The `TextFormatted` setter: a different or null sequence replaces the
        formatted text, drops `Text` and becomes `JavaText` itself. */
    method SetTextFormatted(value: CharSeq?)
      modifies this`text, this`textFormatted, this`javaText
      ensures old(Valid()) ==> Valid()
      ensures value != old(textFormatted) || value == null ==>
        textFormatted == value && text.Null? && javaText == value
      ensures value == old(textFormatted) && value != null ==>
        unchanged(this`text, this`textFormatted, this`javaText)
    {
      if value != textFormatted || value == null {
        textFormatted := value;
        text := Null;
        javaText := value;
      }
    }

    /** `IsNullOrEmpty`: neither a formatted text nor a string with characters.
        In a valid state that is exactly "no Java text, or an empty one". */
    predicate IsNullOrEmpty()
      reads this
      ensures Valid() ==> (IsNullOrEmpty() <==> javaText == null || |javaText.chars| == 0)
    {
      (textFormatted == null || |textFormatted.chars| == 0) && (text.Null? || |text.value| == 0)
    }
  }

  /** The text-size tolerance of `ControlState ==`. */
  predicate TextSizeClose(a: real, b: real) {
    Abs(a - b) <= 0.1
  }

  /** `ControlState ==`: two nulls are equal, a null and a state are not, and two
      states are equal when their available size, text size (within 0.1),
      lines, fit, line break mode, Java text (by reference), typeface and
      synchronised font size agree. The text colour is not compared. */
  predicate Same(a: ControlState?, b: ControlState?)
    reads a, b
  {
    if a == null || b == null then a == null && b == null
    else
      && a.availWidth == b.availWidth && a.availHeight == b.availHeight
      && TextSizeClose(a.textSize, b.textSize)
      && a.lines == b.lines && a.autoFit == b.autoFit && a.lineBreakMode == b.lineBreakMode
      && a.javaText == b.javaText && a.typeface == b.typeface && a.syncFontSize == b.syncFontSize
  }

  /** `Same` is reflexive and symmetric. */
  lemma SameIsReflexiveAndSymmetric(a: ControlState?, b: ControlState?)
    ensures Same(a, a)
    ensures Same(a, b) <==> Same(b, a)
  {
  }

  /** A state and one that differs from it only in its colour are `Same`. */
  lemma SameIgnoresTextColor(a: ControlState, b: ControlState)
    requires a.textFormatted == b.textFormatted && a.text == b.text && a.javaText == b.javaText
    requires a.typeface == b.typeface && a.availWidth == b.availWidth && a.availHeight == b.availHeight
    requires a.textSize == b.textSize && a.lines == b.lines && a.autoFit == b.autoFit
    requires a.lineBreakMode == b.lineBreakMode && a.syncFontSize == b.syncFontSize
    ensures Same(a, b)
  {
  }

  /** The 0.1 tolerance does not compose: sizes creeping up by 0.08 per pass are
      each close to the previous one, yet the first and third are not. */
  lemma TextSizeCloseIsNotTransitive()
    ensures TextSizeClose(10.0, 10.08) && TextSizeClose(10.08, 10.16) && !TextSizeClose(10.0, 10.16)
  {
  }

  // ---------------------------------------------------------------------------
  // Font size bounds

  /** `ModelMinFontSize`: the element's minimum font size, or 4 when it is negative. */
  function ModelMinFontSize(minFontSize: real): (m: real)
    ensures m >= 0.0
    ensures minFontSize >= 0.0 ==> m == minFontSize
    ensures minFontSize < 0.0 ==> m == 4.0
  {
    if minFontSize < 0.0 then 4.0 else minFontSize
  }

  /** `BoundTextSize`: a size below 0.0001 stands for `DefaultTextSize * |FontSize|`;
      anything above the element's `FontSize` is capped at it, and anything below
      the model minimum is raised to it. */
  function BoundTextSize(textSize: real, fontSize: real, minFontSize: real, defaultTextSize: real): (r: real)
    ensures r == fontSize || r >= ModelMinFontSize(minFontSize)
  {
    var t := if textSize < 0.0001 then defaultTextSize * Abs(fontSize) else textSize;
    if t > fontSize then fontSize
    else if t < ModelMinFontSize(minFontSize) then ModelMinFontSize(minFontSize)
    else t
  }

  /** The bounded size lies between the model minimum and `FontSize` exactly when
      the minimum does not exceed `FontSize`. */
  lemma BoundTextSizeWithinBounds(textSize: real, fontSize: real, minFontSize: real, defaultTextSize: real)
    ensures var r := BoundTextSize(textSize, fontSize, minFontSize, defaultTextSize);
      (ModelMinFontSize(minFontSize) <= r <= fontSize) <==> ModelMinFontSize(minFontSize) <= fontSize
  {
  }

  /** A size already within the bounds (and not standing for the default) is kept. */
  lemma BoundTextSizeKeepsInRange(textSize: real, fontSize: real, minFontSize: real, defaultTextSize: real)
    requires textSize >= 0.0001 && ModelMinFontSize(minFontSize) <= textSize <= fontSize
    ensures BoundTextSize(textSize, fontSize, minFontSize, defaultTextSize) == textSize
  {
  }

  /** A negative `FontSize` (a relative size) is returned unchanged by the bound,
      whatever the input, since every candidate exceeds it. */
  lemma BoundTextSizeOfNegativeFontSize(textSize: real, fontSize: real, minFontSize: real, defaultTextSize: real)
    requires fontSize < 0.0 && defaultTextSize >= 0.0
    ensures BoundTextSize(textSize, fontSize, minFontSize, defaultTextSize) == fontSize
  {
  }

  // ---------------------------------------------------------------------------
  // The native text layout, its font metrics and the fitting helpers (oracles)

  /** Android `MeasureSpec` modes. */
  datatype MeasureSpecMode = Unspecified | Exactly | AtMost

  /** A decoded `MeasureSpec`: its mode and its size. */
  datatype MeasureSpec = MeasureSpec(mode: MeasureSpecMode, size: int)

  /** The available extent a measure spec gives: its size, or `int.MaxValue/2` when unspecified. */
  function AvailableExtent(spec: MeasureSpec): int {
    if spec.mode == Unspecified then HalfIntMax else spec.size
  }

  datatype Size = Size(width: real, height: real)

  /** A Xamarin.Forms `SizeRequest`: the request and the minimum. */
  datatype SizeRequest = SizeRequest(request: Size, minimum: Size)

  /** `new SizeRequest(Size.Zero)`. */
  const ZeroRequest: SizeRequest := SizeRequest(Size(0.0, 0.0), Size(0.0, 0.0))

  /** A `TextPaint`, as far as layout depends on it: typeface and pixel text size. */
  datatype Paint = Paint(typeface: Option<Typeface>, textSize: real)

  datatype FontMetrics = FontMetrics(ascent: real, descent: real, bottom: real)

  function LineHeight(m: FontMetrics): real {
    m.descent - m.ascent
  }

  function Leading(m: FontMetrics): real {
    Abs(m.bottom - m.descent)
  }

  /** One line of a `StaticLayout`: its width and its bottom. */
  datatype LayoutLine = LayoutLine(width: real, bottom: int)

  /** A `StaticLayout`: its lines, total height and vertical padding. */
  datatype TextLayout = TextLayout(lines: seq<LayoutLine>, height: int, topPadding: int, bottomPadding: int)

  /** What `F9PTextView.Truncate` gives back: the new layout and the two `ref` outputs. */
  datatype Truncation = Truncation(layout: TextLayout, lines: int, text: string)

  /** Android `TextUtils.TruncateAt`. */
  datatype TruncateAt = Start | Middle | End | Marquee

  /** The native services the renderer calls: `F9PTextView.DefaultTextSize`, the
      `StaticLayout` constructor, `Paint.GetFontMetrics`, `F9PTextView.ZeroLinesFit`,
      `WidthFit` and `Truncate`, and `LineBreakMode.ToEllipsize`. */
  datatype RendererEnvironment = RendererEnvironment(
    defaultTextSize: real,
    staticLayout: (string, Paint, int) -> TextLayout,
    fontMetrics: Paint -> FontMetrics,
    zeroLinesFit: (string, Paint, real, real, int, int) -> real,
    widthFit: (string, Paint, int, real, real, int, int) -> real,
    truncate: (Option<string>, Option<FormattedString>, Paint, int, int, AutoFit, LineBreakMode, int) -> Truncation,
    toEllipsize: LineBreakMode -> Option<TruncateAt>)

  // ---------------------------------------------------------------------------
  // Choosing the font size

  /** The bounded-height `AutoFit.Lines` formula, `(H / (L + leadingRatio*(L-1))) /
      lineHeightRatio - 0.1`, with both ratios taken against `fontSize`. Where
      a divisor is zero the size is left as it is. */
  function FitLinesFontSize(availHeight: int, lines: int, lineHeight: real, leading: real, fontSize: real): real {
    if fontSize == 0.0 || lineHeight == 0.0 then fontSize
    else LinesFormula(availHeight as real, lines as real, lineHeight / fontSize, leading / fontSize, fontSize)
  }

  function LinesFormula(h: real, l: real, lineHeightRatio: real, leadingRatio: real, fontSize: real): real {
    var d := l + leadingRatio * (l - 1.0);
    if d == 0.0 || lineHeightRatio == 0.0 then fontSize else (h / d) / lineHeightRatio - 0.1
  }

  /** What the formula buys: when line height and leading scale with the font
      size and the line height is at least the font size, `lines` lines set
      0.1 above the chosen size still fit the available height, and a single
      line fills it exactly. */
  lemma FitLinesFontSizeFits(availHeight: int, lines: int, lineHeight: real, leading: real, fontSize: real)
    requires availHeight >= 0 && lines >= 1 && fontSize > 0.0 && lineHeight >= fontSize && leading >= 0.0
    ensures var s := FitLinesFontSize(availHeight, lines, lineHeight, leading, fontSize) + 0.1;
      lines as real * (s * (lineHeight / fontSize)) + (lines - 1) as real * (s * (leading / fontSize))
        <= availHeight as real
    ensures var s := FitLinesFontSize(availHeight, lines, lineHeight, leading, fontSize) + 0.1;
      lines == 1 ==> s * (lineHeight / fontSize) == availHeight as real
  {
    RatioAtLeastOne(lineHeight, fontSize);
    NonNegativeRatio(leading, fontSize);
    assert (lines - 1) as real == lines as real - 1.0;
    LinesFormulaFits(availHeight as real, lines as real, lineHeight / fontSize, leading / fontSize, fontSize);
  }

  /** Why `LinesFormulaFits` needs a line-height ratio of at least 1: with a
      height of 3, 2 lines, a ratio of 0.5 and a leading ratio of 1, the two
      lines at the chosen size plus 0.1 are 4 tall. */
  lemma LinesFormulaOvershootsBelowUnitRatio()
    ensures var s := LinesFormula(3.0, 2.0, 0.5, 1.0, 1.0) + 0.1;
      2.0 * (s * 0.5) + 1.0 * (s * 1.0) == 4.0 > 3.0
  {
  }

  lemma LinesFormulaFits(h: real, l: real, lhr: real, lr: real, fontSize: real)
    requires h >= 0.0 && l >= 1.0 && lhr >= 1.0 && lr >= 0.0
    ensures var s := LinesFormula(h, l, lhr, lr, fontSize) + 0.1;
      l * (s * lhr) + (l - 1.0) * (s * lr) <= h
    ensures var s := LinesFormula(h, l, lhr, lr, fontSize) + 0.1;
      l == 1.0 ==> s * lhr == h
  {
    var y := lr * (l - 1.0);
    NonNegativeProduct(lr, l - 1.0);
    var d := l + y;
    var s := (h / d) / lhr;
    assert LinesFormula(h, l, lhr, lr, fontSize) + 0.1 == s;
    QuotientTimesDivisor(h, d, lhr);
    assert s >= 0.0 by {
      NonNegativeRatio(h, d);
      NonNegativeRatio(h / d, lhr);
    }
    // The measured height is s * x, and x is at most d * lhr.
    var x := l * lhr + y;
    assert l * (s * lhr) + (l - 1.0) * (s * lr) == s * x;
    ScaleUp(y, lhr);
    assert x <= d * lhr;
    ScaleBoth(s, x, d * lhr);
    if l == 1.0 {
      assert d == 1.0;
    }
  }

  lemma RatioAtLeastOne(a: real, b: real)
    requires b > 0.0 && a >= b
    ensures a / b >= 1.0
  {
    assert (a / b) * b == a;
  }

  lemma NonNegativeRatio(a: real, b: real)
    requires a >= 0.0 && b > 0.0
    ensures a / b >= 0.0
  {
    assert (a / b) * b == a;
  }

  lemma NonNegativeProduct(a: real, b: real)
    requires a >= 0.0 && b >= 0.0
    ensures a * b >= 0.0
  {
  }

  lemma ScaleBack(x: real, t: real, d: real)
    requires t != 0.0 && x == t * d
    ensures x / t == d
  {
    assert x / t * t == d * t;
  }

  lemma QuotientTimesDivisor(h: real, d: real, r: real)
    requires d > 0.0 && r > 0.0
    ensures ((h / d) / r) * (d * r) == h
  {
    assert ((h / d) / r) * r == h / d;
    assert (h / d) * d == h;
  }

  lemma ScaleUp(y: real, r: real)
    requires y >= 0.0 && r >= 1.0
    ensures y <= y * r
  {
    assert y * r - y == y * (r - 1.0);
  }

  lemma ScaleBoth(s: real, x: real, z: real)
    requires s >= 0.0 && x <= z
    ensures s * x <= s * z
  {
    assert s * z - s * x == s * (z - x);
  }

  /** `Math.Round(L*lineHeight + (L-1)*leading)`: the height preset for
      `AutoFit.Lines` when the height is unbounded. */
  function UnboundedLinesHeight(lines: int, lineHeight: real, leading: real): int {
    RoundHalfEven(lines as real * lineHeight + (lines - 1) as real * leading)
  }

  /** A fit mode's choice: the font size before the second bound, and the height
      preset (`tmpHt`, -1 when there is none). */
  datatype FitChoice = FitChoice(fontSize: real, heightHint: int)

  /** The fit modes: with `Lines == 0` the zero-lines fit when the height is
      bounded; with `AutoFit.Lines` the height preset when the height is
      unbounded and the formula otherwise; with `AutoFit.Width` the width fit;
      else the size as it is. */
  function ChooseFitSize(chars: string, paint: Paint, lines: int, autoFit: AutoFit, availWidth: int, availHeight: int,
                         minFontSize: real, fontSize: real, metrics: FontMetrics, env: RendererEnvironment): (c: FitChoice)
    ensures lines == 0 && availHeight >= ThirdIntMax ==> c == FitChoice(fontSize, -1)
    ensures lines != 0 && autoFit == AutoFit.None ==> c == FitChoice(fontSize, -1)
    ensures c.heightHint != -1 ==> lines != 0 && autoFit == AutoFit.Lines && availHeight > ThirdIntMax
    ensures lines != 0 && autoFit == AutoFit.Lines && availHeight > ThirdIntMax ==> c.fontSize == fontSize
    ensures lines != 0 && autoFit == AutoFit.Lines && availHeight <= ThirdIntMax ==>
      c == FitChoice(FitLinesFontSize(availHeight, lines, LineHeight(metrics), Leading(metrics), fontSize), -1)
  {
    var min := ModelMinFontSize(minFontSize);
    if lines == 0 then
      FitChoice(if availHeight < ThirdIntMax then env.zeroLinesFit(chars, paint, min, fontSize, availWidth, availHeight)
                else fontSize, -1)
    else if autoFit == AutoFit.Lines then
      if availHeight > ThirdIntMax then
        FitChoice(fontSize, UnboundedLinesHeight(lines, LineHeight(metrics), Leading(metrics)))
      else FitChoice(FitLinesFontSize(availHeight, lines, LineHeight(metrics), Leading(metrics), fontSize), -1)
    else if autoFit == AutoFit.Width then
      FitChoice(env.widthFit(chars, paint, lines, min, fontSize, availWidth, availHeight), -1)
    else FitChoice(fontSize, -1)
  }

  /** The value the renderer writes to `Element.FittedFontSize` for a fitted size
      that differs from the current one: -1 ("no fitting happened") when the fit
      is the requested `FontSize`, or the default size standing for a `FontSize`
      of -1; otherwise the fitted size. */
  function ReportedFittedFontSize(t: real, fontSize: real, defaultTextSize: real): (r: real)
    ensures r == -1.0 <==> t == -1.0 || t == fontSize || (fontSize == -1.0 && t == defaultTextSize)
    ensures r != -1.0 ==> r == t
  {
    if t == fontSize || (fontSize == -1.0 && t == defaultTextSize) then -1.0 else t
  }

  /** A non-negative synchronised font size overrides the fitted size. */
  function SyncedFontSize(t: real, syncFontSize: real): (r: real)
    ensures syncFontSize >= 0.0 ==> r == syncFontSize
    ensures syncFontSize < 0.0 ==> r == t
  {
    if syncFontSize >= 0.0 && t != syncFontSize then syncFontSize else t
  }

  // ---------------------------------------------------------------------------
  // Lines and extent

  /** The number of leading lines whose bottom is at most `limit`; the count ends
      at the first line that does not fit. */
  function FittingLineCount(lines: seq<LayoutLine>, limit: int): (n: nat)
    ensures n <= |lines|
    ensures forall i :: 0 <= i < n ==> lines[i].bottom <= limit
    ensures n < |lines| ==> lines[n].bottom > limit
  {
    if |lines| == 0 || lines[0].bottom > limit then 0
    else 1 + FittingLineCount(lines[1..], limit)
  }

  /** The counting loop of `GetDesiredSize` (`AutoFit.None`, `Lines == 0`). */
  method CountFittingLines(layout: TextLayout, availHeight: int) returns (n: int)
    ensures n == FittingLineCount(layout.lines, availHeight - layout.topPadding - layout.bottomPadding)
  {
    var limit := availHeight - layout.topPadding - layout.bottomPadding;
    n := 0;
    var i := 0;
    while i < |layout.lines|
      invariant 0 <= i <= |layout.lines| && n == i
      invariant forall j :: 0 <= j < i ==> layout.lines[j].bottom <= limit
    {
      if layout.lines[i].bottom <= limit {
        n := n + 1;
      } else {
        break;
      }
      i := i + 1;
    }
    FittingLineCountUnique(layout.lines, limit, n);
  }

  /** The count is the only one with both properties of `FittingLineCount`. */
  lemma FittingLineCountUnique(lines: seq<LayoutLine>, limit: int, n: int)
    requires 0 <= n <= |lines|
    requires forall i :: 0 <= i < n ==> lines[i].bottom <= limit
    requires n < |lines| ==> lines[n].bottom > limit
    ensures n == FittingLineCount(lines, limit)
  {
  }

  /** Whether the layout must be truncated: it is taller than the available
      height, or there is a line limit and it has more lines. */
  predicate NeedsTruncation(layout: TextLayout, availHeight: int, lines: int) {
    layout.height > availHeight || (lines > 0 && |layout.lines| > lines)
  }

  /** The number of lines measured: the line limit capped at the layout's line
      count, or all lines when there is no limit. */
  function ReportedLines(lines: int, lineCount: nat): (n: nat)
    ensures n <= lineCount
    ensures lines > 0 ==> n <= lines && (n == lines || n == lineCount)
    ensures lines <= 0 ==> n == lineCount
  {
    if lines > 0 then (if lines < lineCount then lines else lineCount) else lineCount
  }

  /** The width of the measured lines: the largest ceiling of a line width, never
      below `wd0`; a left fold, as the loop computes it. */
  function MaxCeilWidth(lines: seq<LayoutLine>, wd0: int): (wd: int)
    ensures wd >= wd0
    ensures forall i :: 0 <= i < |lines| ==> Ceil(lines[i].width) <= wd
    ensures wd == wd0 || exists i :: 0 <= i < |lines| && wd == Ceil(lines[i].width)
  {
    if |lines| == 0 then wd0
    else
      var w := MaxCeilWidth(lines[..|lines| - 1], wd0);
      var x := lines[|lines| - 1].width;
      assert forall i :: 0 <= i < |lines| - 1 ==> lines[..|lines| - 1][i] == lines[i];
      if x > w as real then Ceil(x) else w
  }

  /** The height of the measured lines: the bottom of the last one, or `ht0`
      when none is measured. */
  function LastBottom(lines: seq<LayoutLine>, ht0: int): int {
    if |lines| == 0 then ht0 else lines[|lines| - 1].bottom
  }

  /** The extent loop of `GetDesiredSize` over the first `n` lines. */
  method LineExtent(layout: TextLayout, n: int, ht0: int) returns (wd: int, ht: int)
    requires 0 <= n <= |layout.lines|
    ensures wd == MaxCeilWidth(layout.lines[..n], -1)
    ensures ht == LastBottom(layout.lines[..n], ht0)
  {
    wd, ht := -1, ht0;
    for i := 0 to n
      invariant wd == MaxCeilWidth(layout.lines[..i], -1)
      invariant ht == LastBottom(layout.lines[..i], ht0)
    {
      ht := layout.lines[i].bottom;
      var width := layout.lines[i].width;
      if width > wd as real {
        wd := Ceil(width);
      }
      assert layout.lines[..i + 1][..i] == layout.lines[..i];
    }
  }

  /** The largest line width, never below 0. */
  function MaxLineWidth(lines: seq<LayoutLine>): (w: real)
    ensures w >= 0.0
    ensures forall i :: 0 <= i < |lines| ==> lines[i].width <= w
    ensures w == 0.0 || exists i :: 0 <= i < |lines| && w == lines[i].width
  {
    if |lines| == 0 then 0.0
    else
      var w := MaxLineWidth(lines[..|lines| - 1]);
      var x := lines[|lines| - 1].width;
      assert forall i :: 0 <= i < |lines| - 1 ==> lines[..|lines| - 1][i] == lines[i];
      if w < x then x else w
  }

  /** The largest line bottom, never below 0. */
  function MaxLineBottom(lines: seq<LayoutLine>): (h: real)
    ensures h >= 0.0
    ensures forall i :: 0 <= i < |lines| ==> lines[i].bottom as real <= h
    ensures h == 0.0 || exists i :: 0 <= i < |lines| && h == lines[i].bottom as real
  {
    if |lines| == 0 then 0.0
    else
      var h := MaxLineBottom(lines[..|lines| - 1]);
      var x := lines[|lines| - 1].bottom as real;
      assert forall i :: 0 <= i < |lines| - 1 ==> lines[..|lines| - 1][i] == lines[i];
      if h < x then x else h
  }

  // ---------------------------------------------------------------------------
  // The measuring pass as a function of its inputs

  /** The parts of the control state and of the element one pass reads. */
  datatype PassInputs = PassInputs(
    chars: string,                  // the Java text's characters
    text: Option<string>,           // `_currentControlState.Text`
    availWidth: int, availHeight: int,
    lines: int, autoFit: AutoFit, lineBreakMode: LineBreakMode,   // the control state's
    fontSize: real, minFontSize: real, synchronizedFontSize: real, isDynamicallySized: bool,
    elementAutoFit: AutoFit, elementLineBreakMode: LineBreakMode, formatted: Option<FormattedString>,
    typeface: Option<Typeface>, scaledDensity: real)

  /** The paint at a font size: the control's typeface, the size in pixels. */
  function PaintAt(p: PassInputs, fontSize: real): Paint {
    Paint(p.typeface, fontSize * p.scaledDensity)
  }

  /** `BoundTextSize(Element.FontSize)`: where every pass starts. */
  function StartFontSize(p: PassInputs, env: RendererEnvironment): real {
    BoundTextSize(p.fontSize, p.fontSize, p.minFontSize, env.defaultTextSize)
  }

  /** The fit mode's choice at the start size, bounded again. */
  function FittedChoice(p: PassInputs, env: RendererEnvironment): FitChoice {
    var t0 := StartFontSize(p, env);
    var paint := PaintAt(p, t0);
    var c := ChooseFitSize(p.chars, paint, p.lines, p.autoFit, p.availWidth, p.availHeight,
                           p.minFontSize, t0, env.fontMetrics(paint), env);
    FitChoice(BoundTextSize(c.fontSize, p.fontSize, p.minFontSize, env.defaultTextSize), c.heightHint)
  }

  /** The size the text is laid out at: the fitted size unless synchronised. */
  function LayoutFontSize(p: PassInputs, env: RendererEnvironment): real {
    SyncedFontSize(FittedChoice(p, env).fontSize, p.synchronizedFontSize)
  }

  /** The layout after the line count and truncation step; `oneLine` when the
      single-line ellipsis path was taken. */
  datatype LaidOut = LaidOut(layout: TextLayout, lines: int, text: string, oneLine: bool)

  function LaidOutText(p: PassInputs, env: RendererEnvironment): (lo: LaidOut)
    ensures lo.oneLine ==> p.lines == 1
  {
    var paint := PaintAt(p, LayoutFontSize(p, env));
    var layout := env.staticLayout(p.chars, paint, p.availWidth);
    var lines := if p.lines == 0 && p.autoFit == AutoFit.None
                 then FittingLineCount(layout.lines, p.availHeight - layout.topPadding - layout.bottomPadding)
                 else p.lines;
    if NeedsTruncation(layout, p.availHeight, lines) then
      if p.lines == 1 then LaidOut(layout, lines, p.chars, true)
      else
        var t := env.truncate(p.text, p.formatted, paint, p.availWidth, p.availHeight,
                              p.elementAutoFit, p.elementLineBreakMode, lines);
        LaidOut(t.layout, t.lines, t.text, false)
    else LaidOut(layout, lines, p.chars, false)
  }

  /** The measured width and height (`tmpWd`, `tmpHt`) of a pass. */
  datatype Extent = Extent(width: int, height: int)

  function MeasuredExtent(p: PassInputs, env: RendererEnvironment): Extent {
    ExtentOf(p, env, LaidOutText(p, env), FittedChoice(p, env).heightHint, LayoutFontSize(p, env))
  }

  /** The extent of the lines measured in a laid-out text, given the height
      preset: the extent loop's result, or the height of the line count in
      the final metrics when the label is dynamically sized to its lines. */
  function ExtentOf(p: PassInputs, env: RendererEnvironment, lo: LaidOut, heightHint: int, fontSize: real): Extent {
    var n := ReportedLines(lo.lines, |lo.layout.lines|);
    var measured := lo.layout.lines[..n];
    var wd := MaxCeilWidth(measured, -1);
    var ht := LastBottom(measured, heightHint);
    if p.isDynamicallySized && p.lines > 0 && p.autoFit == AutoFit.Lines then
      var m := env.fontMetrics(PaintAt(p, fontSize));
      Extent(wd, LinesHeight(m, p.lines))
    else Extent(wd, ht)
  }

  /** `(int)(lineHeight*L + leading*(L-1))`: the height of `lines` lines in the given metrics. */
  function LinesHeight(m: FontMetrics, lines: int): int {
    Truncate(LineHeight(m) * lines as real + Leading(m) * (lines - 1) as real)
  }

  /** The request built from an extent: that size, with a minimum width of 10. */
  function RequestOf(e: Extent): (r: SizeRequest)
    ensures r.request.width == e.width as real && r.request.height == e.height as real
    ensures r.minimum.width == 10.0 && r.minimum.height == r.request.height
  {
    // `Math.Ceiling` of a whole number is that number.
    SizeRequest(Size(e.width as real, e.height as real), Size(10.0, e.height as real))
  }

  /** The measured width covers the ceiling of every measured line's width, and
      is one of those ceilings, or -1 when none is measured. */
  lemma MeasuredWidthCoversLines(p: PassInputs, env: RendererEnvironment)
    ensures var lo := LaidOutText(p, env);
      var n := ReportedLines(lo.lines, |lo.layout.lines|);
      var e := MeasuredExtent(p, env);
      && (forall i :: 0 <= i < n ==> Ceil(lo.layout.lines[i].width) <= e.width)
      && (e.width == -1 || exists i :: 0 <= i < n && e.width == Ceil(lo.layout.lines[i].width))
  {
    var lo := LaidOutText(p, env);
    var n := ReportedLines(lo.lines, |lo.layout.lines|);
    var measured := lo.layout.lines[..n];
    assert forall i :: 0 <= i < n ==> measured[i] == lo.layout.lines[i];
  }

  /** Without dynamic sizing, the measured height is the bottom of the last
      measured line, or the height preset when no line is measured. */
  lemma MeasuredHeightIsLastBottom(p: PassInputs, env: RendererEnvironment)
    requires !(p.isDynamicallySized && p.lines > 0 && p.autoFit == AutoFit.Lines)
    ensures var lo := LaidOutText(p, env);
      var n := ReportedLines(lo.lines, |lo.layout.lines|);
      MeasuredExtent(p, env).height == if n == 0 then FittedChoice(p, env).heightHint else lo.layout.lines[n - 1].bottom
  {
  }

  /** With `AutoFit.None` and no line limit, no layout truncation, and a layout
      that fits the available height, the measured lines are exactly the
      leading lines that fit, or all lines when not even the first one fits. */
  lemma CountedLinesAreTheFittingOnes(p: PassInputs, env: RendererEnvironment)
    requires p.lines == 0 && p.autoFit == AutoFit.None
    ensures var layout := env.staticLayout(p.chars, PaintAt(p, LayoutFontSize(p, env)), p.availWidth);
      var k := FittingLineCount(layout.lines, p.availHeight - layout.topPadding - layout.bottomPadding);
      !NeedsTruncation(layout, p.availHeight, k) ==>
        && LaidOutText(p, env).layout == layout
        && ReportedLines(LaidOutText(p, env).lines, |layout.lines|) == (if k == 0 then |layout.lines| else k)
  {
  }

  // ---------------------------------------------------------------------------
  // The native text view and the renderer

  /** The control as a full pass leaves it: the text size at the laid-out size,
      single-line, line limit and ellipsis as the truncation step and `NoWrap`
      decided, no font padding, the laid-out text shown and the typeface kept. */
  predicate ControlAfterPass(c: TextView, p: PassInputs, env: RendererEnvironment)
    reads c
  {
    var lo := LaidOutText(p, env);
    && c.textSize == LayoutFontSize(p, env) * c.scaledDensity
    && c.singleLine == (lo.oneLine || p.elementLineBreakMode == NoWrap)
    && c.maxLines == (if p.autoFit == AutoFit.None && p.lines > 0 then p.lines
                      else if lo.oneLine then 1 else HalfIntMax)
    && c.ellipsize == (if lo.oneLine then env.toEllipsize(p.lineBreakMode) else Null)
    && !c.includeFontPadding && c.shownText == Some(lo.text)
    && c.typeface == p.typeface
  }

  /** `_aStupidWayToImplementFontScaling = Control.TextSize / tmpFontSize`
      after the start size went to the control: the control's scaled density,
      or the old value when the start size is 0 (where the source divides by 0). */
  function ScalingAfterPass(p: PassInputs, env: RendererEnvironment, fontScaling0: real): real {
    if StartFontSize(p, env) != 0.0 then p.scaledDensity else fontScaling0
  }

  /** What reporting the fitted size `t` does to the element: a size that
      differs from its `FittedFontSize` goes to the setter, as -1 when it is the
      requested size, and the setter decides whether it takes effect. */
  twostate predicate FittedSizeReported(element: Label, t: real, defaultTextSize: real, now: int)
    reads element
  {
    if t != old(element.fittedFontSize) then
      var v := ReportedFittedFontSize(t, old(element.fontSize), defaultTextSize);
      if old(element.FittedFontSizeSetTakesEffect(v, now)) then
        && element.fittedFontSize == v && element.lastTimeFittedFontSizeSet == now
        && element.fittedFontSizeChanged == old(element.fittedFontSizeChanged) + [v]
      else unchanged(element)
    else unchanged(element)
  }

  /** The parts of the native `F9PTextView` the pass sets. `textSize` is in pixels:
      the `TextSize` setter takes scaled pixels and the getter returns pixels. */
  class TextView {
    var textSize: real
    const scaledDensity: real
    var typeface: Option<Typeface>
    var singleLine: bool
    var maxLines: int
    var includeFontPadding: bool
    var ellipsize: Option<TruncateAt>
    var shownText: Option<string>

    constructor (scaledDensity: real, typeface: Option<Typeface>)
      ensures this.scaledDensity == scaledDensity && this.typeface == typeface
      ensures textSize == 0.0 && !singleLine && maxLines == IntMax && includeFontPadding
      ensures ellipsize.Null? && shownText.Null?
    {
      this.scaledDensity, this.typeface := scaledDensity, typeface;
      textSize, singleLine, maxLines, includeFontPadding := 0.0, false, IntMax, true;
      ellipsize, shownText := Null, Null;
    }

    /** `Control.Paint`. */
    function CurrentPaint(): Paint
      reads this
    {
      Paint(typeface, textSize)
    }
  }

  const IntMax: int := 2147483647

  /** The Android `LabelRenderer`; `fontScaling` is the static
      `_aStupidWayToImplementFontScaling`, here one per renderer. */
  class LabelRenderer {
    const element: Label
    var control: TextView?
    const current: ControlState
    var last: ControlState?
    var lastSizeRequest: Option<SizeRequest>
    var fontScaling: real
    const env: RendererEnvironment

    ghost predicate Valid()
      reads this, current
    {
      current.Valid() && last != current
    }

    /** The renderer after `OnElementChanged` with a new element: a fresh state
        taken from the element, no last state. */
    constructor (element: Label, control: TextView?, env: RendererEnvironment)
      ensures Valid() && fresh(current)
      ensures this.element == element && this.control == control && this.env == env
      ensures current.text.Null? && current.textFormatted == null
      ensures current.lines == element.lines && current.autoFit == element.autoFit
      ensures current.lineBreakMode == element.lineBreakMode && current.syncFontSize == element.synchronizedFontSize
      ensures last == null && lastSizeRequest.Null? && fontScaling == 1.0
    {
      this.element, this.control, this.env := element, control, env;
      current := new ControlState(element.lines, element.autoFit, element.lineBreakMode, element.synchronizedFontSize);
      last, lastSizeRequest, fontScaling := null, Null, 1.0;
    }

    /** What the next pass reads, with the available size it is given. */
    function Inputs(availWidth: int, availHeight: int): PassInputs
      requires control != null && current.javaText != null
      reads this, current, element, control
    {
      PassInputs(current.javaText.chars, current.text, availWidth, availHeight,
                 current.lines, current.autoFit, current.lineBreakMode,
                 element.fontSize, element.minFontSize, element.synchronizedFontSize, element.isDynamicallySized,
                 element.autoFit, element.lineBreakMode, element.formatted,
                 control.typeface, control.scaledDensity)
    }

    /** Whether a pass would hand back the memoised request. */
    predicate MemoHit()
      reads this, current, last
    {
      Same(current, last) && lastSizeRequest.Some?
    }

    /** `GetDesiredSize`, `now` standing for `DateTime.Now` in the fitted font
        size setter. With no text or no control the request is zero and nothing
        changes. Otherwise the available size is stored (`int.MaxValue/2` when
        unspecified); a non-positive one gives a zero request; a state `==` the
        last one, with a last request, gives that request back; and a full pass
        returns the request of the measured extent, keeps it, and keeps a copy
        of the state as the last one. */
    method GetDesiredSize(widthSpec: MeasureSpec, heightSpec: MeasureSpec, now: int) returns (r: SizeRequest)
      requires Valid()
      modifies current`availWidth, current`availHeight, control, this`fontScaling, this`lastSizeRequest, this`last
      modifies element`fittedFontSize, element`lastTimeFittedFontSizeSet, element`fittedFontSizeChanged
      ensures Valid()
      ensures old(current.IsNullOrEmpty()) || control == null ==>
        r == ZeroRequest && unchanged(current, this, element) && (control != null ==> unchanged(control))
      ensures !old(current.IsNullOrEmpty()) && control != null ==>
        current.availWidth == AvailableExtent(widthSpec) && current.availHeight == AvailableExtent(heightSpec)
      ensures !old(current.IsNullOrEmpty()) && control != null &&
              (AvailableExtent(widthSpec) <= 0 || AvailableExtent(heightSpec) <= 0) ==>
        r == ZeroRequest && unchanged(this, control, element)
      ensures !old(current.IsNullOrEmpty()) && control != null &&
              AvailableExtent(widthSpec) > 0 && AvailableExtent(heightSpec) > 0 && old(last) != null &&
              Same(current, old(last)) && old(lastSizeRequest).Some? ==>
        r == old(lastSizeRequest).value && unchanged(this, control, element)
      ensures !old(current.IsNullOrEmpty()) && control != null &&
              AvailableExtent(widthSpec) > 0 && AvailableExtent(heightSpec) > 0 &&
              !(Same(current, old(last)) && old(lastSizeRequest).Some?) ==>
        && current.javaText != null
        && r == RequestOf(MeasuredExtent(old(Inputs(AvailableExtent(widthSpec), AvailableExtent(heightSpec))), env))
        && lastSizeRequest == Some(r)
        && fresh(last) && Same(last, current)
        && var p := old(Inputs(AvailableExtent(widthSpec), AvailableExtent(heightSpec)));
           && ControlAfterPass(control, p, env)
           && fontScaling == ScalingAfterPass(p, env, old(fontScaling))
           && FittedSizeReported(element, FittedChoice(p, env).fontSize, env.defaultTextSize, now)
    {
      if current.IsNullOrEmpty() || control == null {
        return ZeroRequest;
      }
      current.availWidth := AvailableExtent(widthSpec);
      current.availHeight := AvailableExtent(heightSpec);
      if current.availWidth <= 0 || current.availHeight <= 0 {
        return ZeroRequest;
      }
      if Same(current, last) && lastSizeRequest.Some? {
        return lastSizeRequest.value;
      }
      r := MeasurePass(now);
    }

    /** The full pass of `GetDesiredSize`, past the zero and memo checks: the
        request of the measured extent, kept with a copy of the state, and the
        fitted size reported to the element. */
    method MeasurePass(now: int) returns (r: SizeRequest)
      requires Valid() && control != null && current.javaText != null
      modifies control, this`fontScaling, this`lastSizeRequest, this`last
      modifies element`fittedFontSize, element`lastTimeFittedFontSizeSet, element`fittedFontSizeChanged
      ensures Valid()
      ensures r == RequestOf(MeasuredExtent(old(Inputs(current.availWidth, current.availHeight)), env))
      ensures lastSizeRequest == Some(r) && fresh(last) && Same(last, current)
      ensures var p := old(Inputs(current.availWidth, current.availHeight));
        && ControlAfterPass(control, p, env)
        && fontScaling == ScalingAfterPass(p, env, old(fontScaling))
        && FittedSizeReported(element, FittedChoice(p, env).fontSize, env.defaultTextSize, now)
    {
      ghost var p := Inputs(current.availWidth, current.availHeight);
      var choice := ChooseFontSize();
      ReportFittedFontSize(choice.fontSize, now);
      r := LayOutAndMeasure(p, choice);
    }

    /** The pass after the font size is chosen: the text is laid out at the
        synchronised size, truncated and measured, and the control is left
        single-line, line-limited and ellipsised as the pass decided. */
    method LayOutAndMeasure(ghost p: PassInputs, choice: FitChoice) returns (r: SizeRequest)
      requires Valid() && control != null && current.javaText != null
      requires p == Inputs(current.availWidth, current.availHeight) && choice == FittedChoice(p, env)
      requires !control.singleLine && control.maxLines == HalfIntMax && control.ellipsize.Null?
      requires !control.includeFontPadding
      modifies control, this`lastSizeRequest, this`last
      ensures Valid()
      ensures r == RequestOf(MeasuredExtent(p, env))
      ensures lastSizeRequest == Some(r) && fresh(last) && Same(last, current)
      ensures ControlAfterPass(control, p, env)
    {
      var t := SyncedFontSize(choice.fontSize, element.synchronizedFontSize);
      assert t == LayoutFontSize(p, env);
      control.textSize := t * control.scaledDensity;
      var lo := LayOutText(p);
      r := FinishPass(p, choice.heightHint, lo, t);
    }

    /** The second half of the pass: the extent loop, the line limit, the
        dynamic height, the request and the copy of the state. */
    method FinishPass(ghost p: PassInputs, heightHint: int, lo: LaidOut, ghost fontSize: real) returns (r: SizeRequest)
      requires Valid() && control != null && current.javaText != null
      requires p == Inputs(current.availWidth, current.availHeight)
      requires control.textSize == fontSize * control.scaledDensity
      modifies control`maxLines, control`shownText, control`singleLine, this`lastSizeRequest, this`last
      ensures Valid()
      ensures r == RequestOf(ExtentOf(p, env, lo, heightHint, fontSize))
      ensures lastSizeRequest == Some(r) && fresh(last) && Same(last, current)
      ensures control.singleLine == (old(control.singleLine) || p.elementLineBreakMode == NoWrap)
      ensures control.maxLines == (if p.autoFit == AutoFit.None && p.lines > 0 then p.lines else old(control.maxLines))
      ensures control.shownText == Some(lo.text)
    {
      var e := MeasureLines(p, heightHint, lo, fontSize);
      if current.autoFit == AutoFit.None && current.lines > 0 {
        control.maxLines := current.lines;
      }
      control.shownText := Some(lo.text);
      r := RequestOf(e);
      lastSizeRequest := Some(r);
      if element.lineBreakMode == NoWrap {
        control.singleLine := true;
      }
      last := new ControlState.Copy(current);
    }

    /** The extent loop over the measured lines and, for a label dynamically
        sized to its lines, the height of those lines in the control's metrics. */
    method MeasureLines(ghost p: PassInputs, heightHint: int, lo: LaidOut, ghost fontSize: real) returns (e: Extent)
      requires control != null && current.javaText != null
      requires p == Inputs(current.availWidth, current.availHeight)
      requires control.textSize == fontSize * control.scaledDensity
      ensures e == ExtentOf(p, env, lo, heightHint, fontSize)
    {
      var n := ReportedLines(lo.lines, |lo.layout.lines|);
      var wd, ht := LineExtent(lo.layout, n, heightHint);
      if element.isDynamicallySized && current.lines > 0 && current.autoFit == AutoFit.Lines {
        assert control.CurrentPaint() == PaintAt(p, fontSize);
        ht := LinesHeight(env.fontMetrics(control.CurrentPaint()), current.lines);
      }
      e := Extent(wd, ht);
    }

    /** The first half of the pass: the start size goes to the control, the
        control is reset to unlimited lines without ellipsis, and the fit mode
        chooses a size, which is bounded again. */
    method ChooseFontSize() returns (choice: FitChoice)
      requires control != null && current.javaText != null
      modifies control, this`fontScaling
      ensures choice == FittedChoice(old(Inputs(current.availWidth, current.availHeight)), env)
      ensures control.textSize == StartFontSize(old(Inputs(current.availWidth, current.availHeight)), env) * control.scaledDensity
      ensures fontScaling == ScalingAfterPass(old(Inputs(current.availWidth, current.availHeight)), env, old(fontScaling))
      ensures control.typeface == old(control.typeface) && !control.singleLine
      ensures control.maxLines == HalfIntMax && !control.includeFontPadding && control.ellipsize.Null?
      ensures control.shownText == old(control.shownText)
    {
      ghost var p := Inputs(current.availWidth, current.availHeight);
      var t0 := BoundTextSize(element.fontSize, element.fontSize, element.minFontSize, env.defaultTextSize);
      assert t0 == StartFontSize(p, env) && control.scaledDensity == p.scaledDensity;
      control.textSize := t0 * control.scaledDensity;
      if t0 != 0.0 {
        ScaleBack(control.textSize, t0, p.scaledDensity);
        fontScaling := control.textSize / t0;
      }
      control.singleLine := false;
      control.maxLines := HalfIntMax;
      control.includeFontPadding := false;
      control.ellipsize := Null;
      var paint := control.CurrentPaint();
      assert paint == PaintAt(p, t0);
      var c := ChooseFitSize(current.javaText.chars, paint, current.lines, current.autoFit,
                             current.availWidth, current.availHeight, element.minFontSize, t0,
                             env.fontMetrics(paint), env);
      choice := FitChoice(BoundTextSize(c.fontSize, element.fontSize, element.minFontSize, env.defaultTextSize),
                          c.heightHint);
    }

    /** "This is the optimal font size. Let it be known!": a fitted size that
        differs from the element's goes to its `FittedFontSize` setter, as -1
        when it is the requested size. */
    method ReportFittedFontSize(t: real, now: int)
      modifies element`fittedFontSize, element`lastTimeFittedFontSizeSet, element`fittedFontSizeChanged
      ensures FittedSizeReported(element, t, env.defaultTextSize, now)
    {
      if t != element.fittedFontSize {
        element.SetFittedFontSize(ReportedFittedFontSize(t, element.fontSize, env.defaultTextSize), now);
      }
    }

    /** The layout at the control's size, the line count and truncation: a
        single-line label is ellipsised, any other goes through `Truncate`. */
    method LayOutText(ghost p: PassInputs) returns (lo: LaidOut)
      requires control != null && current.javaText != null
      requires p == Inputs(current.availWidth, current.availHeight)
      requires control.textSize == LayoutFontSize(p, env) * control.scaledDensity
      requires !control.singleLine && control.maxLines == HalfIntMax && control.ellipsize.Null?
      modifies control`singleLine, control`maxLines, control`ellipsize
      ensures lo == LaidOutText(p, env)
      ensures control.singleLine == lo.oneLine && control.maxLines == (if lo.oneLine then 1 else HalfIntMax)
      ensures control.ellipsize == (if lo.oneLine then env.toEllipsize(p.lineBreakMode) else Null)
    {
      var paint := control.CurrentPaint();
      assert paint == PaintAt(p, LayoutFontSize(p, env));
      var layout := env.staticLayout(current.javaText.chars, paint, current.availWidth);
      var lines := current.lines;
      if lines == 0 && current.autoFit == AutoFit.None {
        lines := CountFittingLines(layout, current.availHeight);
      }
      if NeedsTruncation(layout, current.availHeight, lines) {
        if current.lines == 1 {
          control.singleLine := true;
          control.maxLines := 1;
          control.ellipsize := env.toEllipsize(current.lineBreakMode);
          lo := LaidOut(layout, lines, current.javaText.chars, true);
        } else {
          var t := env.truncate(current.text, element.formatted, paint, current.availWidth, current.availHeight,
                                element.autoFit, element.lineBreakMode, lines);
          lo := LaidOut(t.layout, t.lines, t.text, false);
        }
      } else {
        lo := LaidOut(layout, lines, current.javaText.chars, false);
      }
    }

    /** `LabelXamarinSize`, the element's `RendererSizeForWidthAndFontSize`: the
        ceilings of the largest line width and line bottom (never below 0) of
        the layout at the given width and font size, or zero without text. */
    method LabelXamarinSize(widthConstraint: real, fontSize: real) returns (s: Size)
      requires control != null
      ensures current.javaText == null ==> s == Size(0.0, 0.0)
      ensures current.javaText != null ==>
        var layout := env.staticLayout(current.javaText.chars, LabelPaint(control.typeface, fontSize, fontScaling, env),
                                       LayoutWidth(widthConstraint));
        s == Size(Ceil(MaxLineWidth(layout.lines)) as real, Ceil(MaxLineBottom(layout.lines)) as real)
    {
      if current.javaText == null {
        return Size(0.0, 0.0);
      }
      var layout := env.staticLayout(current.javaText.chars, LabelPaint(control.typeface, fontSize, fontScaling, env),
                                     LayoutWidth(widthConstraint));
      var width, height := LineMaxima(layout.lines);
      s := Size(Ceil(width) as real, Ceil(height) as real);
    }
  }

  /** The width `LabelXamarinSize` lays out at: `int.MaxValue/2` for a constraint
      above `double.MaxValue/3`, otherwise the constraint cast to `int`. */
  function LayoutWidth(widthConstraint: real): int {
    if widthConstraint > DoubleMaxValue / 3.0 then HalfIntMax else Truncate(widthConstraint)
  }

  /** The paint of `LabelLayout`: a font size below 0.001 means the default one,
      scaled by the renderer's font scaling. */
  function LabelPaint(typeface: Option<Typeface>, fontSize: real, fontScaling: real, env: RendererEnvironment): Paint {
    Paint(typeface, (if fontSize < 0.001 then env.defaultTextSize else fontSize) * fontScaling)
  }

  /** The loop of `LabelXamarinSize`: the largest line width and line bottom. */
  method LineMaxima(lines: seq<LayoutLine>) returns (width: real, height: real)
    ensures width == MaxLineWidth(lines) && height == MaxLineBottom(lines)
  {
    width, height := 0.0, 0.0;
    for i := 0 to |lines|
      invariant width == MaxLineWidth(lines[..i])
      invariant height == MaxLineBottom(lines[..i])
    {
      assert lines[..i + 1][..i] == lines[..i];
      var lineWidth := lines[i].width;
      if width < lineWidth {
        width := lineWidth;
      }
      var blockHeight := lines[i].bottom as real;
      if height < blockHeight {
        height := blockHeight;
      }
    }
    assert lines[..|lines|] == lines;
  }
}
