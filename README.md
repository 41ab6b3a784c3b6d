# Forms9Patch core, modelled in Dafny

Forms9Patch is a Xamarin.Forms control library. This project models six parts of it:

- **`Label`** (`LabelElement.dfy`). The element's state rules:
  - the internal `FittedFontSize` setter with its 250 ms quiet period for negative values;
  - `HtmlText` and `Text` excluding each other, with the HTML parse and the tap listener kept in step;
  - the obsolete `Fit` property;
  - measure invalidation;
  - the action-span hit test behind `OnTapped`/`Tap`;
  - the `(string)` conversion.
- **The Android `LabelRenderer`** (`DroidLabelRenderer.dfy`). The measuring pass `GetDesiredSize`:
  - the memo key `ControlState` and its tolerant `==`;
  - `BoundTextSize`/`ModelMinFontSize`;
  - the three fit modes and the bounded-height `Lines` formula;
  - the report of the fitted size back to the element;
  - the synchronised size;
  - the fitting-line count, truncation, the extent loop and the dynamic height;
  - the `SizeRequest` it builds and memoises.

  It also models `LabelXamarinSize`. The native text view is a class with the fields the pass sets. `StaticLayout`, font metrics and the native fitting helpers are oracles.
- **iOS `FontExtensions`** (`IosFontExtensions.dfy`):
  - `BestFont`, with its family aliases, negative-size scaling, face-name selection loop, embedded-resource fonts, process-wide `UiFontCache` and system-font fallback;
  - `ToUIFont(Font)` with its named-size table;
  - `EmbeddedFont`.
- **iOS `NSObjectExtensions`** (`NSObjectExtensions.dfy`):
  - `ToObject` (untyped) over a Foundation object datatype;
  - `ToList` and `ToDictionary`, which catch per-element failures and choose a typed collection only when all elements agree on one type;
  - `Implements`;
  - `ToNSDictionary`.
- **`HardwareKeyListenerBehavior`** (`HardwareKeyListening.dfy`). `GetFor`, which finds or attaches the behaviour, and `OnDetachingFrom`. It comes with the listener collection and the page-wide focused element.
- **`HardwareKeyListenerExtensions`** (`HardwareKeyListenerExtensions.dfy`). Getting, clearing, adding (every overload), removing by key or by listener, focusing and unfocusing.

Where the source changes state the model is imperative: classes with `modifies` frames. Each method is proved against a specification function of the old state, and the properties are lemmas about those functions. Pure logic is functions and lemmas. Floating-point values are reals. `DateTime.Now` and all native services are parameters.

## Model

| member | source | states |
|---|---|---|
| LabelElement.FitToAutoFitIsBijective | Forms9Patch/Forms9Patch.Source/Elements/Label.cs:19-30 | The obsolete `Fit` handler maps each `LabelFit` to the `AutoFit` of the same name, one-to-one. |
| LabelElement.FirstActionSpanAt | Forms9Patch/Forms9Patch.Source/Elements/Label.cs:486-500 | The span loop finds the first action span whose inclusive range holds the index. It finds none exactly when no action span holds it. |
| LabelElement.ReportedActionId | Forms9Patch/Forms9Patch.Source/Elements/Label.cs:505-510 | The reported id is null exactly when the id is null or `ActionSpan.NullId`; otherwise it is the id. |
| LabelElement.Label.constructor | Forms9Patch/Forms9Patch.Source/Elements/Label.cs:87-194 | The defaults: no text, `AutoFit.None`, `Lines` 0, min/fitted/synchronised font sizes -1, dynamically sized, `WordWrap`, no renderer index callback, an invariant-respecting state. |
| LabelElement.Label.SetFittedFontSize | Forms9Patch/Forms9Patch.Source/Elements/Label.cs:163-177 | A change above 0.0001 is stored, time-stamped and raised as `FittedFontSizeChanged`. A negative value within 250 ms of the last set, or a tiny change, changes nothing. |
| LabelElement.Label.InvalidateMeasure | Forms9Patch/Forms9Patch.Source/Elements/Label.cs:320-343 | The label stops being dynamically sized and one more invalidation is counted. |
| LabelElement.Label.SetHtmlText | Forms9Patch/Forms9Patch.Source/Elements/Label.cs:70-74 | A new `HtmlText` is parsed, clears `Text`, sets the tap listener exactly when there are action spans, invalidates the measure and keeps the label's invariant. The same value changes nothing. |
| LabelElement.Label.SetText | Forms9Patch/Forms9Patch.Source/Elements/Label.cs:255-315 | A new non-null `Text` clears `HtmlText`, the formatted string and the listener, invalidates the measure and keeps the invariant. A null `Text` only invalidates. |
| LabelElement.Label.OnPropertyChanged | Forms9Patch/Forms9Patch.Source/Elements/Label.cs:255-315 | Exact effect per property: `FittedFontSize` returns at once; `HtmlText`/`Text` as above; `Lines`/`AutoFit` only invalidate; others change nothing. |
| LabelElement.Label.SetLines | Forms9Patch/Forms9Patch.Source/Elements/Label.cs:107-116 | A changed `Lines` invalidates the measure and touches no text state; the same value changes nothing. |
| LabelElement.Label.SetAutoFit | Forms9Patch/Forms9Patch.Source/Elements/Label.cs:91-100 | A changed `AutoFit` invalidates the measure and touches no text state; the same value changes nothing. |
| LabelElement.Label.SetFit | Forms9Patch/Forms9Patch.Source/Elements/Label.cs:19-40 | A changed `Fit` sets the `AutoFit` of the same name. That invalidates the measure exactly when the `AutoFit` changes. The same value changes nothing. |
| LabelElement.Label.Tap | Forms9Patch/Forms9Patch.Source/Elements/Label.cs:505-515 | Exactly one `ActionTagTapped` event is appended, with the null id reported as null. |
| LabelElement.Label.OnTapped | Forms9Patch/Forms9Patch.Source/Elements/Label.cs:476-503 | On UWP nothing happens. With one touch, `Handled` is set exactly when some action span holds the index, and then the first such span's event is raised. Otherwise it is unhandled and no event is raised. |
| LabelElement.LabelToString | Forms9Patch/Forms9Patch.Source/Elements/Label.cs:357-360 | Null for a null label; `HtmlText` when set, else `Text`. |
| LabelElement.LabelToStringOfValidLabel | Forms9Patch/Forms9Patch.Source/Elements/Label.cs:357-360 | On a valid label the conversion is null exactly when neither text is set, and is `Text` when that is set. |
| DroidLabelRenderer.Ceil | Forms9Patch/Forms9Patch.Droid/Renderers/LabelRenderer.cs:326-327 | `Math.Ceiling`: the least integer not below x. |
| DroidLabelRenderer.Truncate | Forms9Patch/Forms9Patch.Droid/Renderers/LabelRenderer.cs:338 | The `(int)` cast: truncation toward zero, on both signs. |
| DroidLabelRenderer.RoundHalfEven | Forms9Patch/Forms9Patch.Droid/Renderers/LabelRenderer.cs:249 | `Math.Round`: within 0.5, and a tie goes to the even integer. |
| DroidLabelRenderer.ControlState.constructor | Forms9Patch/Forms9Patch.Droid/Renderers/LabelRenderer.cs:408-415 | The state a new element starts with: no text, zero sizes, the element's lines, fit, line break mode and synchronised size. |
| DroidLabelRenderer.ControlState.Copy | Forms9Patch/Forms9Patch.Droid/Renderers/LabelRenderer.cs:718-732 | Every field is copied, including the colour; the copy is `==` its source and keeps validity. |
| DroidLabelRenderer.ControlState.SetTextFormatted | Forms9Patch/Forms9Patch.Droid/Renderers/LabelRenderer.cs:649-664 | A different or null sequence becomes both `TextFormatted` and `JavaText` and clears `Text`. The same non-null sequence changes nothing. |
| DroidLabelRenderer.ControlState.SetText | Forms9Patch/Forms9Patch.Droid/Renderers/LabelRenderer.cs:666-684 | A different or null value replaces `Text`, clears `TextFormatted` and wraps the value in a fresh Java string (null for null). The same non-null value changes nothing. |
| DroidLabelRenderer.ControlState.IsNullOrEmpty | Forms9Patch/Forms9Patch.Droid/Renderers/LabelRenderer.cs:708-714 | In a valid state: exactly when there is no Java text or it is empty. |
| DroidLabelRenderer.SameIsReflexiveAndSymmetric | Forms9Patch/Forms9Patch.Droid/Renderers/LabelRenderer.cs:748-774 | `ControlState ==` is reflexive and symmetric, nulls included. |
| DroidLabelRenderer.SameIgnoresTextColor | Forms9Patch/Forms9Patch.Droid/Renderers/LabelRenderer.cs:748-774 | Two states that differ only in text colour are `==`. |
| DroidLabelRenderer.TextSizeCloseIsNotTransitive | Forms9Patch/Forms9Patch.Droid/Renderers/LabelRenderer.cs:758 | The 0.1 text-size tolerance is not transitive: 10.0 ≈ 10.08 ≈ 10.16 but 10.0 ≉ 10.16. |
| DroidLabelRenderer.ModelMinFontSize | Forms9Patch/Forms9Patch.Droid/Renderers/LabelRenderer.cs:610-619 | The element's `MinFontSize`, or 4 when it is negative; never negative. |
| DroidLabelRenderer.BoundTextSize | Forms9Patch/Forms9Patch.Droid/Renderers/LabelRenderer.cs:597-608 | The result is `FontSize` (the cap) or at least the model minimum. |
| DroidLabelRenderer.BoundTextSizeWithinBounds | Forms9Patch/Forms9Patch.Droid/Renderers/LabelRenderer.cs:597-608 | The bounded size lies in [minimum, `FontSize`] if and only if the minimum does not exceed `FontSize`. |
| DroidLabelRenderer.BoundTextSizeKeepsInRange | Forms9Patch/Forms9Patch.Droid/Renderers/LabelRenderer.cs:597-608 | A size already in range (and not the "default" sentinel below 0.0001) is kept. |
| DroidLabelRenderer.BoundTextSizeOfNegativeFontSize | Forms9Patch/Forms9Patch.Droid/Renderers/LabelRenderer.cs:597-608 | A negative `FontSize` comes back unchanged, whatever the input size. |
| DroidLabelRenderer.FitLinesFontSizeFits | Forms9Patch/Forms9Patch.Droid/Renderers/LabelRenderer.cs:251-256 | For the bounded-height `Lines` formula, L lines at the chosen size plus 0.1 still fit the available height. A single line fills it exactly. This assumes metrics proportional to the size. |
| DroidLabelRenderer.LinesFormulaOvershootsBelowUnitRatio | Forms9Patch/Forms9Patch.Droid/Renderers/LabelRenderer.cs:253-255 | A witness that the formula's fit needs a line-height ratio of at least 1: two lines come out 4 tall for a height of 3. |
| DroidLabelRenderer.LinesFormulaFits | Forms9Patch/Forms9Patch.Droid/Renderers/LabelRenderer.cs:253-255 | In the ratios of line height and leading to the size, for a line-height ratio of at least 1: L lines of the computed size plus 0.1 fit the height, and one line fills it exactly. |
| DroidLabelRenderer.ChooseFitSize | Forms9Patch/Forms9Patch.Droid/Renderers/LabelRenderer.cs:237-260 | Which fit mode applies. An unbounded height with `Lines == 0`, or `AutoFit.None`, keeps the size. Only `AutoFit.Lines` with an unbounded height presets a height, and it then keeps the size. `AutoFit.Lines` with a bounded height chooses the `Lines` formula's size, which `FitLinesFontSizeFits` is about. |
| DroidLabelRenderer.ReportedFittedFontSize | Forms9Patch/Forms9Patch.Droid/Renderers/LabelRenderer.cs:271-284 | -1 exactly when the fit is the requested size, or the default size standing for `FontSize` -1. Otherwise the fitted size. |
| DroidLabelRenderer.SyncedFontSize | Forms9Patch/Forms9Patch.Droid/Renderers/LabelRenderer.cs:287-289 | A non-negative synchronised size wins; otherwise the fitted size. |
| DroidLabelRenderer.FittingLineCount | Forms9Patch/Forms9Patch.Droid/Renderers/LabelRenderer.cs:296-306 | The count of leading lines whose bottom fits: all counted lines fit and the next one does not. |
| DroidLabelRenderer.FittingLineCountUnique | Forms9Patch/Forms9Patch.Droid/Renderers/LabelRenderer.cs:296-306 | Any count with the two properties is the fitting-line count, so the count is characterised by them. |
| DroidLabelRenderer.CountFittingLines | Forms9Patch/Forms9Patch.Droid/Renderers/LabelRenderer.cs:296-306 | The counting loop computes `FittingLineCount` against the height less the layout's padding. |
| DroidLabelRenderer.ReportedLines | Forms9Patch/Forms9Patch.Droid/Renderers/LabelRenderer.cs:318 | The measured line count: the limit capped at the layout's line count, or all lines without a limit. |
| DroidLabelRenderer.MaxCeilWidth | Forms9Patch/Forms9Patch.Droid/Renderers/LabelRenderer.cs:319-328 | At least the start value, covers every line's width ceiling, and is one of them or the start. |
| DroidLabelRenderer.LineExtent | Forms9Patch/Forms9Patch.Droid/Renderers/LabelRenderer.cs:319-328 | The extent loop computes the widest line ceiling and the last measured bottom. |
| DroidLabelRenderer.LaidOutText | Forms9Patch/Forms9Patch.Droid/Renderers/LabelRenderer.cs:292-317 | The layout after counting and truncation; the single-line ellipsis path is taken only for `Lines == 1`. |
| DroidLabelRenderer.RequestOf | Forms9Patch/Forms9Patch.Droid/Renderers/LabelRenderer.cs:348 | The request is the measured size; the minimum is 10 wide and as tall as the request. |
| DroidLabelRenderer.MeasuredWidthCoversLines | Forms9Patch/Forms9Patch.Droid/Renderers/LabelRenderer.cs:318-328 | The requested width covers the ceiling of every measured line and is one of them, or -1 with none. |
| DroidLabelRenderer.MeasuredHeightIsLastBottom | Forms9Patch/Forms9Patch.Droid/Renderers/LabelRenderer.cs:318-339 | Unless dynamically sized to lines, the height is the last measured line's bottom, or the height preset with no line. |
| DroidLabelRenderer.CountedLinesAreTheFittingOnes | Forms9Patch/Forms9Patch.Droid/Renderers/LabelRenderer.cs:292-318 | With no fit and no line limit and no truncation, the measured lines are the fitting ones, or all lines when none fits. |
| DroidLabelRenderer.MaxLineWidth | Forms9Patch/Forms9Patch.Droid/Renderers/LabelRenderer.cs:134-144 | The largest line width, never below 0, and attained by a line when positive. |
| DroidLabelRenderer.MaxLineBottom | Forms9Patch/Forms9Patch.Droid/Renderers/LabelRenderer.cs:134-144 | The largest line bottom, never below 0, and attained by a line when positive. |
| DroidLabelRenderer.LineMaxima | Forms9Patch/Forms9Patch.Droid/Renderers/LabelRenderer.cs:134-144 | The loop of `LabelXamarinSize` computes both maxima. |
| DroidLabelRenderer.LabelRenderer.constructor | Forms9Patch/Forms9Patch.Droid/Renderers/LabelRenderer.cs:404-415 | A new element gives a fresh state from its lines, fit, line break mode and synchronised size, and no last state. |
| DroidLabelRenderer.LabelRenderer.GetDesiredSize | Forms9Patch/Forms9Patch.Droid/Renderers/LabelRenderer.cs:179-379 | Five outcomes. No text or control: zero, with nothing changed. The available size is stored, `int.MaxValue/2` when unspecified. A non-positive size: zero. A state `==` the last one with a memo: the memo. Otherwise a full pass. The result is the request of the measured extent of the old inputs, memoised, with a copy of the state. The control ends as the pass decided: text size, single line (including `NoWrap`), line limit, ellipsis, no font padding, the shown text, and the typeface kept. `fontScaling` becomes the scaled density. The fitted size is reported to the element's setter. |
| DroidLabelRenderer.LabelRenderer.MeasurePass | Forms9Patch/Forms9Patch.Droid/Renderers/LabelRenderer.cs:204-377 | The full pass: the request of `MeasuredExtent`, the memo and the copy. The control ends in the state the pass decided, with its typeface kept. `fontScaling` becomes `Control.TextSize / tmpFontSize`, which is the scaled density, and is left alone for a start size of 0. A fitted size that differs from the element's goes through the element's setter, as -1 when it is the requested size. |
| DroidLabelRenderer.LabelRenderer.ChooseFontSize | Forms9Patch/Forms9Patch.Droid/Renderers/LabelRenderer.cs:204-265 | The start size is bounded and set on the control in pixels, with `fontScaling` their ratio (the scaled density). The control is reset to multi-line, `int.MaxValue/2` lines, no font padding and no ellipsis. The fit-mode choice is bounded again. |
| DroidLabelRenderer.LabelRenderer.ReportFittedFontSize | Forms9Patch/Forms9Patch.Droid/Renderers/LabelRenderer.cs:271-284 | The element's fitted size changes only through its setter, and only when the fit differs from it. |
| DroidLabelRenderer.LabelRenderer.LayOutAndMeasure | Forms9Patch/Forms9Patch.Droid/Renderers/LabelRenderer.cs:287-377 | The control's size, single-line flag, line limit, ellipsis and text end as the pass decided, and the request is that of `MeasuredExtent`. |
| DroidLabelRenderer.LabelRenderer.LayOutText | Forms9Patch/Forms9Patch.Droid/Renderers/LabelRenderer.cs:292-317 | Computes `LaidOutText`; a single-line label taller than the space is made single-line with one line and ellipsised. |
| DroidLabelRenderer.LabelRenderer.FinishPass | Forms9Patch/Forms9Patch.Droid/Renderers/LabelRenderer.cs:318-377 | The line limit for `AutoFit.None`, the shown text, `NoWrap` single-line, the request, the memo and the copy. |
| DroidLabelRenderer.LabelRenderer.MeasureLines | Forms9Patch/Forms9Patch.Droid/Renderers/LabelRenderer.cs:318-339 | The extent of the measured lines, or the `Lines` height in the control's current metrics when dynamically sized. |
| DroidLabelRenderer.LabelRenderer.LabelXamarinSize | Forms9Patch/Forms9Patch.Droid/Renderers/LabelRenderer.cs:129-164 | Zero without text. Otherwise the ceilings of the largest line width and bottom of the layout. The layout width is `int.MaxValue/2` above `double.MaxValue/3`, and the size falls back to the default below 0.001. |
| IosFontExtensions.ToLower | Forms9Patch/Forms9Patch.iOS/Extensions/FontExtensions.cs:283-287 | Same length, each character folded (ASCII). |
| IosFontExtensions.ResolveFamilyAliases | Forms9Patch/Forms9Patch.iOS/Extensions/FontExtensions.cs:281-288 | Null → Arial; monospace → Menlo; serif → Times New Roman; sans-serif → Arial (any case); others kept; resolving is idempotent. |
| IosFontExtensions.ResolveSize | Forms9Patch/Forms9Patch.iOS/Extensions/FontExtensions.cs:290-291 | A negative size is `LabelFontSize × |size|`; others kept; never negative when the label size is not. |
| IosFontExtensions.NamedSizePoints | Forms9Patch/Forms9Patch.iOS/Extensions/FontExtensions.cs:145-165 | Micro 12, Small 14, Large 22, every other named size 17. |
| IosFontExtensions.FirstShortest | Forms9Patch/Forms9Patch.iOS/Extensions/FontExtensions.cs:333-337 | A base pick exists exactly when there are names, and it indexes one of them. |
| IosFontExtensions.FirstShortestMatch | Forms9Patch/Forms9Patch.iOS/Extensions/FontExtensions.cs:340-344 | A requested pick indexes a name of the requested bold and italic style. |
| IosFontExtensions.FirstShortestSpec | Forms9Patch/Forms9Patch.iOS/Extensions/FontExtensions.cs:333-337 | The base pick is the earliest name of least length. |
| IosFontExtensions.FirstShortestMatchSpec | Forms9Patch/Forms9Patch.iOS/Extensions/FontExtensions.cs:340-344 | The requested pick is the earliest least-length name of the requested style. There is one exactly when some name has that style. |
| IosFontExtensions.RegularSpec | Forms9Patch/Forms9Patch.iOS/Extensions/FontExtensions.cs:346-355 | The first and the last "-regular" names, null exactly when there is none. |
| IosFontExtensions.FirstRegularOfPrefix | Forms9Patch/Forms9Patch.iOS/Extensions/FontExtensions.cs:346-355 | The first "-regular" name of a prefix stays the first of the whole list, which is why the loop may stop there. |
| IosFontExtensions.SelectedFacesSpec | Forms9Patch/Forms9Patch.iOS/Extensions/FontExtensions.cs:311-357 | There is a base face exactly when there are names. Picks come from the names. A bold/italic request with several names only picks a face of that style, and with one name picks none. |
| IosFontExtensions.ScanName | Forms9Patch/Forms9Patch.iOS/Extensions/FontExtensions.cs:329-355 | One loop body: it stops exactly at a "-regular" name for a plain request, with that name as both faces; otherwise it takes one `Step`. |
| IosFontExtensions.ScanStep | Forms9Patch/Forms9Patch.iOS/Extensions/FontExtensions.cs:327-356 | The state after one more name is the state of the shorter list advanced by one `Step`, which is the loop's invariant step. |
| IosFontExtensions.SelectFaceNames | Forms9Patch/Forms9Patch.iOS/Extensions/FontExtensions.cs:311-357 | The selection loop computes `SelectedFaces`. |
| IosFontExtensions.EmbeddedFontResultSpec | Forms9Patch/Forms9Patch.iOS/Extensions/FontExtensions.cs:208-269 | Registration keeps every entry and adds at most the requested id. A wrong extension throws before loading. A non-resource id gives null. A throw registers nothing. |
| IosFontExtensions.SystemFamilyFontStyled | Forms9Patch/Forms9Patch.iOS/Extensions/FontExtensions.cs:361-364 | A bold or italic request never falls back to the base face. |
| IosFontExtensions.BestFontCacheDiscipline | Forms9Patch/Forms9Patch.iOS/Extensions/FontExtensions.cs:295-386 | A hit is answered with nothing changed. Entries are never replaced, and at most the request's key is added, mapped to the returned font. A throw leaves the cache alone. |
| IosFontExtensions.SettleDiscipline | Forms9Patch/Forms9Patch.iOS/Extensions/FontExtensions.cs:375-386 | Caching a found font keeps every entry, adds at most the key and maps it to the result. |
| IosFontExtensions.BestFontFallbackNotCached | Forms9Patch/Forms9Patch.iOS/Extensions/FontExtensions.cs:388-401 | With nothing found the system font of the style is returned and nothing is cached. |
| IosFontExtensions.BestFontRepeatable | Forms9Patch/Forms9Patch.iOS/Extensions/FontExtensions.cs:295-302 | Once a font is cached, the same request is a hit with the same font and no change. |
| IosFontExtensions.SystemFamilyAttempt | Forms9Patch/Forms9Patch.iOS/Extensions/FontExtensions.cs:303-365 | The system-family branch computes `SystemFamilyFont`. |
| IosFontExtensions.SystemFallbackFont | Forms9Patch/Forms9Patch.iOS/Extensions/FontExtensions.cs:388-401 | The fallback chain; without bold-and-italic it is the system font of exactly that style. |
| IosFontExtensions.FontRegistry.constructor | Forms9Patch/Forms9Patch.iOS/Extensions/FontExtensions.cs:295-296 | The process starts with an empty font cache and no registered embedded fonts. |
| IosFontExtensions.FontRegistry.EmbeddedFont | Forms9Patch/Forms9Patch.iOS/Extensions/FontExtensions.cs:208-269 | The method computes `EmbeddedFontResult` on the registry it starts from, including its new registry. |
| IosFontExtensions.FontRegistry.ResolveFamilyName | Forms9Patch/Forms9Patch.iOS/Extensions/FontExtensions.cs:281-288 | The alias chain computes `ResolveFamily`. |
| IosFontExtensions.FontRegistry.BestFont | Forms9Patch/Forms9Patch.iOS/Extensions/FontExtensions.cs:278-402 | The font, the new cache and the new registry are `BestFontResult` of the old cache and registry. |
| IosFontExtensions.FontRegistry.FontToUIFont | Forms9Patch/Forms9Patch.iOS/Extensions/FontExtensions.cs:142-204 | `BestFont` at the named size's points when a named size is used, else at the font size. |
| NSObjectExtensions.ObjCTypeCodeTable | Forms9Patch/Forms9Patch.Source.iOS/Extensions/NSObjectExtensions.cs:283-302 | Exactly the twelve codes have a type; `i` and `l` both give `int`; `c`, `C`, `B`, `d`, `f` give char, byte, bool, double and float. |
| NSObjectExtensions.ToObjectOutcomes | Forms9Patch/Forms9Patch.Source.iOS/Extensions/NSObjectExtensions.cs:183-338 | Throws exactly for a non-empty dictionary with a repeated key. Null exactly for an unknown object or an unmapped number code. Every pair has a type. |
| NSObjectExtensions.UnifiedType | Forms9Patch/Forms9Patch.Source.iOS/Extensions/NSObjectExtensions.cs:150-160 | A type other than `object` is the non-null type of every element; any null element type gives `object`. |
| NSObjectExtensions.ElementPair | Forms9Patch/Forms9Patch.Source.iOS/Extensions/NSObjectExtensions.cs:136-147 | A converted element's pair, or (null, null) when its conversion throws or is null. |
| NSObjectExtensions.ElementPairUntypedIffFailed | Forms9Patch/Forms9Patch.Source.iOS/Extensions/NSObjectExtensions.cs:136-147 | An element's type is null exactly when its conversion failed. That is a nested dictionary with a repeated key, an unknown object, or a number with an unmapped type code. |
| NSObjectExtensions.ElementPairs | Forms9Patch/Forms9Patch.Source.iOS/Extensions/NSObjectExtensions.cs:134-148 | One pair per array element, in order, each the element's caught conversion. |
| NSObjectExtensions.EntryPairs | Forms9Patch/Forms9Patch.Source.iOS/Extensions/NSObjectExtensions.cs:87-101 | One pair per dictionary entry, in order, each the entry value's caught conversion. |
| NSObjectExtensions.AllSame | Forms9Patch/Forms9Patch.Source.iOS/Extensions/NSObjectExtensions.cs:150-159 | The flag holds exactly when every type equals the first. |
| NSObjectExtensions.ToList | Forms9Patch/Forms9Patch.Source.iOS/Extensions/NSObjectExtensions.cs:129-172 | The method computes `ListConversion`. |
| NSObjectExtensions.ToDictionary | Forms9Patch/Forms9Patch.Source.iOS/Extensions/NSObjectExtensions.cs:81-127 | The method computes `DictionaryConversion`. |
| NSObjectExtensions.HasDuplicateKey | Forms9Patch/Forms9Patch.Source.iOS/Extensions/NSObjectExtensions.cs:120-123 | Is true exactly when some key repeats, which is when `Dictionary.Add` throws. |
| NSObjectExtensions.Implements | Forms9Patch/Forms9Patch.Source.iOS/Extensions/NSObjectExtensions.cs:174-181 | True exactly when the interface is among the implemented ones. |
| NSObjectExtensions.ToNSDictionary | Forms9Patch/Forms9Patch.Source.iOS/Extensions/NSObjectExtensions.cs:19-34 | Succeeds exactly for a generic type keyed by `string`, with each entry converted in order. A non-generic type throws the "Generic" message. |
| NSObjectExtensions.ListConversionKeepsItems | Forms9Patch/Forms9Patch.Source.iOS/Extensions/NSObjectExtensions.cs:129-172 | Items keep count and order; a failed element is null. |
| NSObjectExtensions.ListConversionType | Forms9Patch/Forms9Patch.Source.iOS/Extensions/NSObjectExtensions.cs:150-171 | `List<T>` exactly when the array is non-empty and all elements have non-null type T. Otherwise `List<object>`, including for any failed element and the empty array. |
| NSObjectExtensions.DictionaryConversionSpec | Forms9Patch/Forms9Patch.Source.iOS/Extensions/NSObjectExtensions.cs:81-127 | Empty gives (null, `Dictionary<string,object>`). It throws exactly on a repeated key. Otherwise keys and values are kept in order, and the value type is the common non-null type or `object`. |
| NSObjectExtensions.NestedFailureIsCaught | Forms9Patch/Forms9Patch.Source.iOS/Extensions/NSObjectExtensions.cs:136-147 | A throwing element does not escape its array: the element is null and the list is `List<object>`. |
| HardwareKeyListening.FirstListenerBehavior | Forms9Patch/Forms9Patch/HardwareKeyListener/HardwareKeyListenerBehavior.cs:35-37 | Finds a behaviour exactly when the list has one, and it is the first of them. |
| HardwareKeyListening.FirstListenerBehaviorAfterAppend | Forms9Patch/Forms9Patch/HardwareKeyListener/HardwareKeyListenerBehavior.cs:39-41 | After a new behaviour is appended to a list without one, the search finds exactly that behaviour. |
| HardwareKeyListening.RemoveFirstKeyMatchAbsent | Forms9Patch/Forms9Patch.Source/HardwareKeyListener/HardwareKeyListenerExtensions.cs:226-239 | With no listener for the key and modifiers, removal changes nothing. |
| HardwareKeyListening.RemoveFirstKeyMatchAt | Forms9Patch/Forms9Patch.Source/HardwareKeyListener/HardwareKeyListenerExtensions.cs:226-239 | Otherwise exactly the first matching listener is dropped, the rest in order. |
| HardwareKeyListening.RemoveFirstAbsent | Forms9Patch/Forms9Patch.Source/HardwareKeyListener/HardwareKeyListenerExtensions.cs:267-272 | Removing an absent listener changes nothing. |
| HardwareKeyListening.RemoveFirstAt | Forms9Patch/Forms9Patch.Source/HardwareKeyListener/HardwareKeyListenerExtensions.cs:267-272 | Removing a present listener drops its first occurrence only, the rest in order. |
| HardwareKeyListening.RemoveFirstCount | Forms9Patch/Forms9Patch.Source/HardwareKeyListener/HardwareKeyListenerExtensions.cs:267-272 | Removing a present listener removes exactly one occurrence (as a multiset). |
| HardwareKeyListening.ListenerCollection.Contains | Forms9Patch/Forms9Patch.Source/HardwareKeyListener/HardwareKeyListenerExtensions.cs:270 | True exactly when the listener is in the collection. |
| HardwareKeyListening.ListenerCollection.Add | Forms9Patch/Forms9Patch.Source/HardwareKeyListener/HardwareKeyListenerExtensions.cs:71-77 | The listener is appended after the others. |
| HardwareKeyListening.ListenerCollection.RemoveAt | Forms9Patch/Forms9Patch.Source/HardwareKeyListener/HardwareKeyListenerExtensions.cs:226-239 | Exactly the item at the index is dropped, the others in order. |
| HardwareKeyListening.ListenerCollection.Remove | Forms9Patch/Forms9Patch.Source/HardwareKeyListener/HardwareKeyListenerExtensions.cs:267-272 | The listener's first occurrence is dropped. |
| HardwareKeyListening.ListenerCollection.Clear | Forms9Patch/Forms9Patch.Source/HardwareKeyListener/HardwareKeyListenerExtensions.cs:45-49 | The collection becomes empty. |
| HardwareKeyListening.HardwareKeyListenerBehavior.GetFor | Forms9Patch/Forms9Patch/HardwareKeyListener/HardwareKeyListenerBehavior.cs:31-42 | Null for null. Otherwise the first attached behaviour, with the list unchanged, or a fresh one with no listeners appended. The result is then the element's first behaviour. |
| HardwareKeyListening.HardwareKeyListenerBehavior.OnDetachingFrom | Forms9Patch/Forms9Patch/HardwareKeyListener/HardwareKeyListenerBehavior.cs:22-29 | The listeners are cleared and the focus is reset only if it was this element. |
| HardwareKeyListening.GetForTwice | Forms9Patch/Forms9Patch/HardwareKeyListener/HardwareKeyListenerBehavior.cs:31-42 | `GetFor` is idempotent: a second call returns the same behaviour, and the behaviours grow by at most one. |
| HardwareKeyListenerExtensions.GetHardwareKeyListeners | Forms9Patch/Forms9Patch.Source/HardwareKeyListener/HardwareKeyListenerExtensions.cs:12-16 | The behaviour's collection, with the listeners unchanged; a fresh one only if there was none. |
| HardwareKeyListenerExtensions.ClearHardwareKeyListeners | Forms9Patch/Forms9Patch.Source/HardwareKeyListener/HardwareKeyListenerExtensions.cs:45-49 | The element has no listeners afterwards. |
| HardwareKeyListenerExtensions.AddHardwareKeyListener | Forms9Patch/Forms9Patch.Source/HardwareKeyListener/HardwareKeyListenerExtensions.cs:71-77 | A fresh listener with the given key, modifiers, title and handler is appended and returned. |
| HardwareKeyListenerExtensions.AddUntitledHardwareKeyListener | Forms9Patch/Forms9Patch.Source/HardwareKeyListener/HardwareKeyListenerExtensions.cs:98 | The same with no discoverable title. |
| HardwareKeyListenerExtensions.AddUnmodifiedHardwareKeyListener | Forms9Patch/Forms9Patch.Source/HardwareKeyListener/HardwareKeyListenerExtensions.cs:107 | The same with no modifiers and no title. |
| HardwareKeyListenerExtensions.AddPlainHardwareKeyListener | Forms9Patch/Forms9Patch.Source/HardwareKeyListener/HardwareKeyListenerExtensions.cs:115 | The same with no modifiers, no title and no handler. |
| HardwareKeyListenerExtensions.AddExistingHardwareKeyListener | Forms9Patch/Forms9Patch.Source/HardwareKeyListener/HardwareKeyListenerExtensions.cs:194-198 | The given listener is appended (even if present) and returned. |
| HardwareKeyListenerExtensions.RemoveHardwareKeyListenerByKey | Forms9Patch/Forms9Patch.Source/HardwareKeyListener/HardwareKeyListenerExtensions.cs:226-239 | The listeners become `RemoveFirstKeyMatch` of the old ones. |
| HardwareKeyListenerExtensions.RemoveHardwareKeyListener | Forms9Patch/Forms9Patch.Source/HardwareKeyListener/HardwareKeyListenerExtensions.cs:267-272 | The listeners become `RemoveFirst` of the old ones. |
| HardwareKeyListenerExtensions.HardwareKeyFocus | Forms9Patch/Forms9Patch.Source/HardwareKeyListener/HardwareKeyListenerExtensions.cs:297 | The element becomes the focused element. |
| HardwareKeyListenerExtensions.HardwareKeyUnfocus | Forms9Patch/Forms9Patch.Source/HardwareKeyListener/HardwareKeyListenerExtensions.cs:323-327 | Focus is dropped only if this element holds it. |
| HardwareKeyListenerExtensions.RemoveAppended | Forms9Patch/Forms9Patch.Source/HardwareKeyListener/HardwareKeyListenerExtensions.cs:267-272 | Removing the only occurrence of a listener just appended restores the list. |
| HardwareKeyListenerExtensions.AddThenRemoveRestores | Forms9Patch/Forms9Patch.Source/HardwareKeyListener/HardwareKeyListenerExtensions.cs:71-77 | Adding a listener and then removing it leaves the element's listeners as they were. |

## Left out

- Native services are oracles, parameters of `RendererEnvironment` and `FontEnvironment`. These are `StaticLayout`, `Paint.GetFontMetrics`, `F9PTextView.ZeroLinesFit`/`WidthFit`/`Truncate`, `ToEllipsize`, `UIFont.FromName`/`FamilyNames`/`FromDescriptor`, `FontFamilies.FontsForFamily` and the loading and registration of embedded font files. Their own correctness is not modelled.
- `F9PTextView.Truncate`'s own contract is not modelled; its source is not part of this model.
- Floats are reals. NaN and infinities are not modelled.
  - Where the `Lines` formula would divide by zero the size is kept, where the source would compute an infinity or NaN.
  - `fontScaling` is left unchanged when the start size is 0, where the source would store NaN.
  - Float rounding of sizes is not modelled.
- `Truncate`: the `(int)` casts of values outside the `int` range are not modelled; C# leaves them unspecified.
- `_aStupidWayToImplementFontScaling` is a static field in the source and one field per renderer here.
- Android's `SetSingleLine` also changes the maximum line count internally. The model records only what the renderer sets itself.
- Gravity, colours, debug output, thread marshalling (`BeginInvokeOnMainThread`), locks and the parent's `ForceLayout` are not modelled.
- The renderer's property-change handlers and `UpdateText` are not modelled, apart from the `ControlState` setters they call. The `OnElementChanged` event wiring is reduced to the renderer constructor.
- `DroidLabelRenderer.LabelRenderer.LabelXamarinSize`: requires a control; the source would throw a null reference without one.
- `Control.Text = text.ToString()` versus `Control.TextFormatted = text` is modelled as the shown string only.
- `ToNSArray` is not modelled. Its only decision is whether the element type implements `IDictionary`, which `Implements` covers.
- The typed `ToObject(nsO, type)` paths are not modelled: dictionaries and arrays to a requested type, and numbers to a requested type. `ToObject` models the untyped entry point that `ToList` and `ToDictionary` use.
- Leaf conversions are represented by the Foundation object they come from. These are strings, data, dates, decimal parsing, number values and `new Uri(...)`. A malformed URL or decimal that would throw is not modelled.
- `NSObject.FromObject` is a parameter of `ToNSDictionary`.
- `NSObjectExtensions.ToNSDictionary`: the `fromObject` parameter always returns an object. A `FromObject` that returns null for a value it cannot box, with the dictionary then rejecting the null value, is not modelled. So the contract's "succeeds exactly when" holds only under that totality.
- `DroidLabelRenderer.CharSeq`: a Java character sequence is modelled by its characters only. Span styling of a formatted text cannot influence the layout or fitting oracles.
- `HardwareKeyListening.ListenerCollection`: the `CollectionChanged` notifications of the source's `ObservableCollection` are not modelled, only its contents.
- Case folding is ASCII only; culture-sensitive `ToLower` is not modelled.
- `OnAttachedTo` attaches a platform effect and `OnDetachingFrom` detaches it (`HardwareKeyListenerEffect.DetachFrom`); neither effect call is modelled.
- The `View`, `HardwareKeyPage` and `PopupBase` overloads of the extension methods are casts to `VisualElement` and forward, so only the `VisualElement` versions are modelled. Null elements for the extensions are not modelled. `GetFor(null)` is.
- `BestFont(MetaFont, UIFont)` and the older `_ToUIFont`/`ToUIFont(family, size, attributes)` paths are not modelled. Neither is `ToUIFont(IFontElement)`: it is a one-line forward to `BestFont` with the element's family, size and bold/italic attribute flags, so it is not modelled separately.
- `IosFontExtensions.FontRegistry.FontToUIFont`: the `(float)` cast of the size is not modelled.
- `LabelElement.Label.InvalidateMeasure`: the call into the base class and the parent's forced layout are not modelled, only the state it changes.
- `LabelElement.Label.OnTapped`: the gesture listener is a flag (`hasTapListener`); listener disposal is not modelled.
- `DroidLabelRenderer.FitLinesFontSizeFits`: states the fit only for metrics proportional to the font size with a line height at least the font size, which is what the formula assumes.
- `DroidLabelRenderer.LinesFormulaFits`: requires a line-height ratio of at least 1. Below that the formula can overshoot: `LinesFormulaOvershootsBelowUnitRatio` gives 2 lines, ratio 0.5 and leading ratio 1, where the lines are 4/3 of the height.
