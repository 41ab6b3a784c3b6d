/** The Forms9Patch `Label` element: its small state rules (the fitted font
    size setter, the exclusivity of `HtmlText` and `Text`, the obsolete `Fit`
    property, measure invalidation) and action-span hit testing. */
module LabelElement {
  import opened Wrappers

  /** How the label fits its text to the space it is given. */
  datatype AutoFit = None | Width | Lines

  /** The obsolete predecessor of `AutoFit`. */
  datatype LabelFit = None | Width | Lines

  /** Xamarin.Forms line break modes. */
  datatype LineBreakMode =
    NoWrap | WordWrap | CharacterWrap | HeadTruncation | TailTruncation | MiddleTruncation

  /** A styled run of formatted text; only action spans (HTML `<a>` tags) react to taps.
      Start and End are both inclusive character indices. */
  datatype Span =
    | ActionSpan(start: int, end: int, id: Option<string>, href: Option<string>)
    | StyleSpan(start: int, end: int)

  /** The parsed form of `HtmlText` (an `HTMLMarkupString`); only its spans are modelled. */
  datatype FormattedString = FormattedString(spans: seq<Span>)

  predicate ContainsActionSpan(f: FormattedString) {
    exists i :: 0 <= i < |f.spans| && f.spans[i].ActionSpan?
  }

  /** The bindable properties whose change notifications the label reacts to. */
  datatype PropertyName =
    | HtmlTextProperty | TextProperty | LinesProperty | AutoFitProperty
    | FittedFontSizeProperty | OtherProperty(name: string)

  /** Runtime platforms, as far as tap handling distinguishes them. */
  datatype Platform = Android | iOS | UWP

  /** A touch location in device-independent units. */
  datatype Point = Point(x: real, y: real)

  /** The payload of an `ActionTagTapped` event. */
  datatype ActionTagEvent = ActionTagEvent(id: Option<string>, href: Option<string>)

  /** 250 ms in `DateTime` ticks (100 ns each). */
  const FittedFontSizeQuietTicks: int := 2_500_000

  /** `DateTime.MinValue` in ticks. */
  const DateTimeMinValue: int := 0

  /** The obsolete `Fit` property's change handler: each `LabelFit` becomes the
      `AutoFit` of the same name. */
  function FitToAutoFit(fit: LabelFit): (a: AutoFit)
  {
    match fit
    case None => AutoFit.None
    case Width => AutoFit.Width
    case Lines => AutoFit.Lines
  }

  /** The mapping is one-to-one, and each member keeps its name (so it is also onto). */
  lemma FitToAutoFitIsBijective()
    ensures forall f, g :: FitToAutoFit(f) == FitToAutoFit(g) ==> f == g
    ensures FitToAutoFit(LabelFit.None) == AutoFit.None
    ensures FitToAutoFit(LabelFit.Width) == AutoFit.Width
    ensures FitToAutoFit(LabelFit.Lines) == AutoFit.Lines
  {
  }

  /** Whether a tap at character `index` lands on `span`. */
  predicate HitsActionSpan(span: Span, index: int) {
    span.ActionSpan? && span.start <= index <= span.end
  }

  /** The search in `OnTapped`: the first action span, in span order, whose
      inclusive range holds `index`. */
  method FirstActionSpanAt(spans: seq<Span>, index: int) returns (k: Option<nat>)
    ensures k.Some? ==> k.value < |spans| && HitsActionSpan(spans[k.value], index)
    ensures k.Some? ==> forall j :: 0 <= j < k.value ==> !HitsActionSpan(spans[j], index)
    ensures k.Null? <==> forall j :: 0 <= j < |spans| ==> !HitsActionSpan(spans[j], index)
  {
    var i := 0;
    while i < |spans|
      invariant 0 <= i <= |spans|
      invariant forall j :: 0 <= j < i ==> !HitsActionSpan(spans[j], index)
    {
      var span := spans[i];
      if span.ActionSpan? {
        if index >= span.start && index <= span.end {
          return Some(i);
        }
      }
      i := i + 1;
    }
    return Null;
  }

  /** `Tap` reports `ActionSpan.NullId` as a null id. */
  function ReportedActionId(id: Option<string>, nullId: string): (r: Option<string>)
    ensures r.Null? <==> (id.Null? || id.value == nullId)
    ensures r.Some? ==> r == id
  {
    if id == Some(nullId) then Null else id
  }

  /** The arguments of a gesture listener's `Tapped` event; `Handled` is written back. */
  class TapEventArgs {
    const touches: seq<Point>
    var handled: bool

    constructor (touches: seq<Point>)
      ensures this.touches == touches && !handled
    {
      this.touches := touches;
      handled := false;
    }
  }

  class Label {
    var htmlText: Option<string>
    var text: Option<string>
    /** The internal `F9PFormattedString` property. */
    var formatted: Option<FormattedString>
    var fit: LabelFit
    var autoFit: AutoFit
    var lines: int
    var fontSize: real
    var minFontSize: real
    var fittedFontSize: real
    var synchronizedFontSize: real
    var isDynamicallySized: bool
    var lineBreakMode: LineBreakMode
    /** `_lastTimeFittedFontSizeSet`, in ticks. */
    var lastTimeFittedFontSizeSet: int
    /** Values raised by `FittedFontSizeChanged`, oldest first. */
    var fittedFontSizeChanged: seq<real>
    /** Whether the gesture listener `_listener` exists and `OnTapped` is subscribed to it. */
    var hasTapListener: bool
    /** Events raised by `ActionTagTapped`, oldest first. */
    var actionTagTapped: seq<ActionTagEvent>
    /** How many times `InvalidateMeasure` has run. */
    var measureInvalidations: nat
    /** The renderer's `IndexAtPoint` callback, when a renderer is attached. */
    var rendererIndexAtPoint: Option<Point -> int>
    /** The `HTMLMarkupString` parser, whose source is not part of this model. */
    const parseHtml: string -> FormattedString
    /** `ActionSpan.NullId`, whose value is not part of this model. */
    const actionSpanNullId: string

    /** HtmlText and Text are never both set; the formatted string is the parse
        of HtmlText; the tap listener exists exactly while it has action spans. */
    ghost predicate Valid()
      reads this
    {
      && !(htmlText.Some? && text.Some?)
      && (htmlText.Some? ==> formatted == Some(parseHtml(htmlText.value)))
      && (htmlText.Null? ==> formatted.Null?)
      && (hasTapListener <==> formatted.Some? && ContainsActionSpan(formatted.value))
    }

    constructor (fontSize: real, parseHtml: string -> FormattedString, actionSpanNullId: string)
      ensures Valid()
      ensures htmlText.Null? && text.Null? && formatted.Null? && !hasTapListener
      ensures fit == LabelFit.None && autoFit == AutoFit.None && lines == 0
      ensures this.fontSize == fontSize && minFontSize == -1.0 && fittedFontSize == -1.0
      ensures synchronizedFontSize == -1.0 && isDynamicallySized && lineBreakMode == WordWrap
      ensures rendererIndexAtPoint.Null?
      ensures lastTimeFittedFontSizeSet == DateTimeMinValue
      ensures fittedFontSizeChanged == [] && actionTagTapped == [] && measureInvalidations == 0
      ensures this.parseHtml == parseHtml && this.actionSpanNullId == actionSpanNullId
    {
      htmlText, text, formatted := Null, Null, Null;
      fit, autoFit, lines := LabelFit.None, AutoFit.None, 0;
      this.fontSize, minFontSize, fittedFontSize := fontSize, -1.0, -1.0;
      synchronizedFontSize, isDynamicallySized := -1.0, true;
      lineBreakMode := WordWrap;
      lastTimeFittedFontSizeSet := DateTimeMinValue;
      fittedFontSizeChanged, hasTapListener, actionTagTapped := [], false, [];
      measureInvalidations, rendererIndexAtPoint := 0, Null;
      this.parseHtml, this.actionSpanNullId := parseHtml, actionSpanNullId;
    }

    /** Whether the internal `FittedFontSize` setter acts on `value` at time `now`:
        a change of more than 0.0001, unless it is a negative value set less than
        250 ms after the previous set. */
    predicate FittedFontSizeSetTakesEffect(value: real, now: int)
      reads this
    {
      Abs(value - fittedFontSize) > 0.0001
      && !(value < 0.0 && now - lastTimeFittedFontSizeSet < FittedFontSizeQuietTicks)
    }

    /** The internal `FittedFontSize` setter; `now` stands for `DateTime.Now`. */
    method SetFittedFontSize(value: real, now: int)
      modifies this`fittedFontSize, this`lastTimeFittedFontSizeSet, this`fittedFontSizeChanged
      ensures old(FittedFontSizeSetTakesEffect(value, now)) ==>
        && fittedFontSize == value
        && lastTimeFittedFontSizeSet == now
        && fittedFontSizeChanged == old(fittedFontSizeChanged) + [value]
      ensures !old(FittedFontSizeSetTakesEffect(value, now)) ==>
        unchanged(this`fittedFontSize, this`lastTimeFittedFontSizeSet, this`fittedFontSizeChanged)
    {
      if Abs(value - fittedFontSize) > 0.0001 {
        if value < 0.0 && now - lastTimeFittedFontSizeSet < FittedFontSizeQuietTicks {
          return;
        }
        // OnPropertyChanged returns at once for FittedFontSize.
        fittedFontSize := value;
        lastTimeFittedFontSizeSet := now;
        fittedFontSizeChanged := fittedFontSizeChanged + [value];
      }
    }

    /** `InvalidateMeasure` on the UI thread; the parent's forced layout is not modelled. */
    method InvalidateMeasure()
      modifies this`isDynamicallySized, this`measureInvalidations
      ensures !isDynamicallySized && measureInvalidations == old(measureInvalidations) + 1
    {
      isDynamicallySized := false;
      measureInvalidations := measureInvalidations + 1;
    }

    /** The `HtmlText` setter (the bindable store notifies only on a change). */
    method SetHtmlText(v: Option<string>)
      modifies this`htmlText, this`text, this`formatted, this`hasTapListener,
        this`isDynamicallySized, this`measureInvalidations
      decreases if v.Some? then 3 else 1
      ensures htmlText == v
      ensures old(Valid()) ==> Valid()
      ensures v == old(htmlText) ==>
        unchanged(this`text, this`formatted, this`hasTapListener, this`isDynamicallySized, this`measureInvalidations)
      ensures v != old(htmlText) ==> HtmlTextChanged(old(text), old(measureInvalidations))
    {
      if v != htmlText {
        htmlText := v;
        OnPropertyChanged(HtmlTextProperty);
      }
    }

    /** The state `OnPropertyChanged(HtmlText)` leaves behind, given the Text
        and invalidation count it started from. */
    ghost predicate HtmlTextChanged(text0: Option<string>, invalidations0: nat)
      reads this
    {
      && formatted == (if htmlText.Some? then Some(parseHtml(htmlText.value)) else Null)
      && text == (if htmlText.Some? then Null else text0)
      && (hasTapListener <==> formatted.Some? && ContainsActionSpan(formatted.value))
      && !isDynamicallySized
      && measureInvalidations == invalidations0 + (if htmlText.Some? && text0.Some? then 2 else 1)
    }

    /** The `Text` setter (the bindable store notifies only on a change). */
    method SetText(v: Option<string>)
      modifies this`htmlText, this`text, this`formatted, this`hasTapListener,
        this`isDynamicallySized, this`measureInvalidations
      decreases if v.Some? then 3 else 1
      ensures text == v
      ensures old(Valid()) ==> Valid()
      ensures v == old(text) ==>
        unchanged(this`htmlText, this`formatted, this`hasTapListener, this`isDynamicallySized, this`measureInvalidations)
      ensures v != old(text) ==> TextChanged(old(htmlText), old(formatted), old(hasTapListener), old(measureInvalidations))
    {
      if v != text {
        text := v;
        OnPropertyChanged(TextProperty);
      }
    }

    /** The state `OnPropertyChanged(Text)` leaves behind, given what it started from. */
    ghost predicate TextChanged(html0: Option<string>, formatted0: Option<FormattedString>,
                                listener0: bool, invalidations0: nat)
      reads this
    {
      && htmlText == (if text.Some? then Null else html0)
      && formatted == (if text.Some? then Null else formatted0)
      && hasTapListener == (if text.Some? then false else listener0)
      && !isDynamicallySized
      && measureInvalidations == invalidations0 + (if text.Some? && html0.Some? then 2 else 1)
    }

    /** `OnPropertyChanged` on the UI thread.  A new HtmlText is parsed and clears
        Text; a new non-null Text clears the formatted string and HtmlText; the tap
        listener follows the formatted string's action spans; Lines, AutoFit,
        HtmlText and Text invalidate the measure. */
    method OnPropertyChanged(p: PropertyName)
      modifies this`htmlText, this`text, this`formatted, this`hasTapListener,
        this`isDynamicallySized, this`measureInvalidations
      decreases if (p == HtmlTextProperty && htmlText.Some?) || (p == TextProperty && text.Some?) then 2 else 0
      ensures p == HtmlTextProperty ==> htmlText == old(htmlText) && HtmlTextChanged(old(text), old(measureInvalidations))
      ensures p == TextProperty ==>
        text == old(text) && TextChanged(old(htmlText), old(formatted), old(hasTapListener), old(measureInvalidations))
      ensures p == LinesProperty || p == AutoFitProperty ==>
        && unchanged(this`htmlText, this`text, this`formatted, this`hasTapListener)
        && !isDynamicallySized && measureInvalidations == old(measureInvalidations) + 1
      ensures p.FittedFontSizeProperty? || p.OtherProperty? ==>
        unchanged(this`htmlText, this`text, this`formatted, this`hasTapListener, this`isDynamicallySized, this`measureInvalidations)
    {
      if p == FittedFontSizeProperty {
        // required to keep the layout system calm
        return;
      }
      if p == HtmlTextProperty {
        if htmlText.Some? {
          formatted := Some(parseHtml(htmlText.value));
          SetText(Null);
        } else {
          formatted := Null;
        }
        if formatted.Some? && ContainsActionSpan(formatted.value) {
          if !hasTapListener {
            hasTapListener := true;
          }
        } else if hasTapListener {
          hasTapListener := false;
        }
      } else if p == TextProperty && text.Some? {
        formatted := Null;
        SetHtmlText(Null);
        if hasTapListener {
          hasTapListener := false;
        }
      }
      if p == LinesProperty || p == AutoFitProperty || p == HtmlTextProperty || p == TextProperty {
        InvalidateMeasure();
      }
    }

    /** The `Lines` setter. */
    method SetLines(v: int)
      modifies this`lines, this`htmlText, this`text, this`formatted, this`hasTapListener,
        this`isDynamicallySized, this`measureInvalidations
      ensures lines == v
      ensures unchanged(this`htmlText, this`text, this`formatted, this`hasTapListener)
      ensures v != old(lines) ==> !isDynamicallySized && measureInvalidations == old(measureInvalidations) + 1
      ensures v == old(lines) ==> unchanged(this`isDynamicallySized, this`measureInvalidations)
    {
      if v != lines {
        lines := v;
        OnPropertyChanged(LinesProperty);
      }
    }

    /** The `AutoFit` setter. */
    method SetAutoFit(v: AutoFit)
      modifies this`autoFit, this`htmlText, this`text, this`formatted, this`hasTapListener,
        this`isDynamicallySized, this`measureInvalidations
      ensures autoFit == v
      ensures unchanged(this`htmlText, this`text, this`formatted, this`hasTapListener)
      ensures v != old(autoFit) ==> !isDynamicallySized && measureInvalidations == old(measureInvalidations) + 1
      ensures v == old(autoFit) ==> unchanged(this`isDynamicallySized, this`measureInvalidations)
    {
      if v != autoFit {
        autoFit := v;
        OnPropertyChanged(AutoFitProperty);
      }
    }

    /** The obsolete `Fit` setter: its change handler sets the matching AutoFit. */
    method SetFit(f: LabelFit)
      modifies this`fit, this`autoFit, this`htmlText, this`text, this`formatted, this`hasTapListener,
        this`isDynamicallySized, this`measureInvalidations
      ensures fit == f
      ensures f != old(fit) ==> autoFit == FitToAutoFit(f)
      ensures unchanged(this`htmlText, this`text, this`formatted, this`hasTapListener)
      ensures f != old(fit) && FitToAutoFit(f) != old(autoFit) ==>
        !isDynamicallySized && measureInvalidations == old(measureInvalidations) + 1
      ensures f != old(fit) && FitToAutoFit(f) == old(autoFit) ==>
        unchanged(this`isDynamicallySized, this`measureInvalidations)
      ensures f == old(fit) ==> unchanged(this`autoFit, this`isDynamicallySized, this`measureInvalidations)
    {
      if f != fit {
        fit := f;
        SetAutoFit(FitToAutoFit(f));
      }
    }

    /** `IndexAtPoint`: the renderer's answer, or -1 without a renderer. */
    function IndexAtPoint(p: Point): int
      reads this
    {
      if rendererIndexAtPoint.Some? then rendererIndexAtPoint.value(p) else -1
    }

    /** `Tap(id, href)`: raises `ActionTagTapped`, reporting the null id as null. */
    method Tap(id: Option<string>, href: Option<string>)
      modifies this`actionTagTapped
      ensures actionTagTapped == old(actionTagTapped) + [ActionTagEvent(ReportedActionId(id, actionSpanNullId), href)]
    {
      var reported := id;
      if id == Some(actionSpanNullId) {
        reported := Null;
      }
      actionTagTapped := actionTagTapped + [ActionTagEvent(reported, href)];
    }

    /** `OnTapped`, the handler the label subscribes to its gesture listener while
        its formatted text holds action spans. */
    method OnTapped(e: TapEventArgs, platform: Platform)
      requires Valid() && hasTapListener
      modifies this`actionTagTapped, e
      ensures platform == UWP ==> unchanged(e) && unchanged(this`actionTagTapped)
      ensures platform != UWP && |e.touches| != 1 ==> !e.handled && unchanged(this`actionTagTapped)
      ensures platform != UWP && |e.touches| == 1 ==>
        var spans := formatted.value.spans;
        var index := IndexAtPoint(e.touches[0]);
        && (e.handled <==> exists j :: 0 <= j < |spans| && HitsActionSpan(spans[j], index))
        && (!e.handled ==> actionTagTapped == old(actionTagTapped))
        && (e.handled ==>
              exists j :: (&& 0 <= j < |spans| && HitsActionSpan(spans[j], index)
                           && (forall i :: 0 <= i < j ==> !HitsActionSpan(spans[i], index))
                           && actionTagTapped == old(actionTagTapped)
                                + [ActionTagEvent(ReportedActionId(spans[j].id, actionSpanNullId), spans[j].href)]))
    {
      if platform == UWP {
        return;
      }
      if |e.touches| == 1 {
        var index := IndexAtPoint(e.touches[0]);
        var k := FirstActionSpanAt(formatted.value.spans, index);
        if k.Some? {
          var span := formatted.value.spans[k.value];
          Tap(span.id, span.href);
          e.handled := true;
          return;
        }
      }
      e.handled := false;
    }
  }

  /** The explicit conversion `(string)label`: HtmlText when set, else Text; null for a null label. */
  function LabelToString(lbl: Label?): (r: Option<string>)
    reads lbl
    ensures lbl == null ==> r.Null?
    ensures lbl != null && lbl.htmlText.Some? ==> r == lbl.htmlText
    ensures lbl != null && lbl.htmlText.Null? ==> r == lbl.text
  {
    if lbl == null then Null else lbl.htmlText.OrElse(lbl.text)
  }

  /** On a valid label the conversion yields whichever of HtmlText and Text is
      set, and null exactly when neither is. */
  lemma LabelToStringOfValidLabel(lbl: Label)
    requires lbl.Valid()
    ensures LabelToString(lbl).Null? <==> lbl.htmlText.Null? && lbl.text.Null?
    ensures lbl.text.Some? ==> LabelToString(lbl) == lbl.text
  {
  }
}
