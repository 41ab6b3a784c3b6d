/** iOS font resolution by family name, size and style: generic family
    aliases, negative-size scaling, the named-size table, the pick of a base
    and a requested face among a family's face names, embedded-resource font
    names, and the process-wide font cache that only ever gains entries. */
module IosFontExtensions {
  import opened Wrappers

  /** `int.MaxValue`, the starting "shortest length" of the face-name search. */
  const IntMax: int := 2147483647

  // ----- Strings (ordinal, ASCII case folding) -----

  function ToLowerChar(c: char): char {
    if 'A' <= c <= 'Z' then (c as int + 32) as char else c
  }

  /** `ToLower()`: same length, every upper-case letter folded. */
  function ToLower(s: string): (r: string)
    ensures |r| == |s| && forall i :: 0 <= i < |s| ==> r[i] == ToLowerChar(s[i])
  {
    seq(|s|, i requires 0 <= i < |s| => ToLowerChar(s[i]))
  }

  /** `Contains`: `sub` occurs somewhere in `s`. */
  predicate Contains(s: string, sub: string)
    decreases |s|
  {
    |sub| <= |s| && (s[..|sub|] == sub || Contains(s[1..], sub))
  }

  predicate EndsWith(s: string, suffix: string) {
    |suffix| <= |s| && s[|s| - |suffix|..] == suffix
  }

  // ----- Family, size and named sizes -----

  /** The family `BestFont` looks up: null means "sans-serif", and the three
      generic names (in any case) become Menlo, Times New Roman and Arial. */
  function ResolveFamily(family: Option<string>): string {
    var f0 := if family.Null? then "sans-serif" else family.value;
    var f1 := if ToLower(f0) == "monospace" then "Menlo" else f0;
    var f2 := if ToLower(f1) == "serif" then "Times New Roman" else f1;
    if ToLower(f2) == "sans-serif" then "Arial" else f2
  }

  /** The aliases, one by one; every other family is left as it is, and a
      resolved family resolves to itself. */
  lemma ResolveFamilyAliases(family: Option<string>)
    ensures family.Null? ==> ResolveFamily(family) == "Arial"
    ensures family.Some? && ToLower(family.value) == "monospace" ==> ResolveFamily(family) == "Menlo"
    ensures family.Some? && ToLower(family.value) == "serif" ==> ResolveFamily(family) == "Times New Roman"
    ensures family.Some? && ToLower(family.value) == "sans-serif" ==> ResolveFamily(family) == "Arial"
    ensures family.Some? && ToLower(family.value) !in {"monospace", "serif", "sans-serif"} ==>
      ResolveFamily(family) == family.value
    ensures ResolveFamily(Some(ResolveFamily(family))) == ResolveFamily(family)
  {
    assert ToLower("Menlo") == "menlo";
    assert ToLower("Times New Roman") == "times new roman";
    assert ToLower("Arial") == "arial";
    assert ToLower("sans-serif") == "sans-serif";
    assert ToLower("serif") == "serif";
    assert ToLower("monospace") == "monospace";
  }

  /** A negative size is a multiple of the label font size. */
  function ResolveSize(size: real, labelFontSize: real): (r: real)
    ensures size >= 0.0 ==> r == size
    ensures size < 0.0 ==> r == labelFontSize * -size
    ensures labelFontSize >= 0.0 ==> r >= 0.0
  {
    if size < 0.0 then labelFontSize * Abs(size) else size
  }

  datatype NamedSize = Default | Micro | Small | Medium | Large | OtherNamedSize(value: int)

  /** The points of a named size in `ToUIFont(Font)`. */
  function NamedSizePoints(n: NamedSize): (points: real)
    ensures n == Micro ==> points == 12.0
    ensures n == Small ==> points == 14.0
    ensures n == Large ==> points == 22.0
    ensures n != Micro && n != Small && n != Large ==> points == 17.0
  {
    match n
    case Micro => 12.0
    case Small => 14.0
    case Medium => 17.0
    case Large => 22.0
    case _ => 17.0
  }

  // ----- Face names -----

  predicate HasBold(name: string) {
    Contains(ToLower(name), "bold") || ToLower(name) == "avenir-black"
  }

  predicate HasItalic(name: string) {
    Contains(ToLower(name), "italic") || Contains(ToLower(name), "oblique")
  }

  predicate IsRegular(name: string) {
    Contains(ToLower(name), "-regular")
  }

  predicate StyleMatches(name: string, bold: bool, italic: bool) {
    HasBold(name) == bold && HasItalic(name) == italic
  }

  /** The first of the shortest names, scanning left to right. */
  function FirstShortest(names: seq<string>): (r: Option<nat>)
    ensures r.Some? <==> |names| > 0
    ensures r.Some? ==> r.value < |names|
  {
    if |names| == 0 then Null
    else
      var p := FirstShortest(names[..|names| - 1]);
      if p.Null? || |names[|names| - 1]| < |names[p.value]| then Some(|names| - 1) else p
  }

  /** The first of the shortest names whose style matches. */
  function FirstShortestMatch(names: seq<string>, bold: bool, italic: bool): (r: Option<nat>)
    ensures r.Some? ==> r.value < |names| && StyleMatches(names[r.value], bold, italic)
  {
    if |names| == 0 then Null
    else
      var p := FirstShortestMatch(names[..|names| - 1], bold, italic);
      var last := names[|names| - 1];
      if StyleMatches(last, bold, italic) && (p.Null? || |last| < |names[p.value]|) then Some(|names| - 1) else p
  }

  function FirstRegular(names: seq<string>): (r: Option<nat>)
    ensures r.Some? ==> r.value < |names|
  {
    if |names| == 0 then Null
    else
      var p := FirstRegular(names[..|names| - 1]);
      if p.Null? && IsRegular(names[|names| - 1]) then Some(|names| - 1) else p
  }

  function LastRegular(names: seq<string>): (r: Option<nat>)
    ensures r.Some? ==> r.value < |names|
  {
    if |names| == 0 then Null
    else if IsRegular(names[|names| - 1]) then Some(|names| - 1)
    else LastRegular(names[..|names| - 1])
  }

  /** `FirstShortest` is the earliest of the names of least length. */
  lemma {:induction false} FirstShortestSpec(names: seq<string>)
    ensures FirstShortest(names).Some? ==>
      var k := FirstShortest(names).value;
      && (forall j :: 0 <= j < |names| ==> |names[k]| <= |names[j]|)
      && (forall j :: 0 <= j < k ==> |names[j]| > |names[k]|)
  {
    if |names| > 0 {
      var pre := names[..|names| - 1];
      FirstShortestSpec(pre);
      assert forall j :: 0 <= j < |pre| ==> pre[j] == names[j];
    }
  }

  /** `FirstShortestMatch` is the earliest of the least-length names with the
      requested style, and there is one exactly when some name has that style. */
  lemma {:induction false} FirstShortestMatchSpec(names: seq<string>, bold: bool, italic: bool)
    ensures FirstShortestMatch(names, bold, italic).Null? <==>
      forall j :: 0 <= j < |names| ==> !StyleMatches(names[j], bold, italic)
    ensures FirstShortestMatch(names, bold, italic).Some? ==>
      var k := FirstShortestMatch(names, bold, italic).value;
      && (forall j :: 0 <= j < |names| && StyleMatches(names[j], bold, italic) ==> |names[k]| <= |names[j]|)
      && (forall j :: 0 <= j < k && StyleMatches(names[j], bold, italic) ==> |names[j]| > |names[k]|)
  {
    if |names| > 0 {
      var pre := names[..|names| - 1];
      FirstShortestMatchSpec(pre, bold, italic);
      assert forall j :: 0 <= j < |pre| ==> pre[j] == names[j];
    }
  }

  /** `FirstRegular` and `LastRegular` are the least and the greatest index of
      a "-regular" name; both are null exactly when there is none. */
  lemma {:induction false} RegularSpec(names: seq<string>)
    ensures FirstRegular(names).Null? <==> forall j :: 0 <= j < |names| ==> !IsRegular(names[j])
    ensures LastRegular(names).Null? <==> forall j :: 0 <= j < |names| ==> !IsRegular(names[j])
    ensures FirstRegular(names).Some? ==>
      var k := FirstRegular(names).value;
      IsRegular(names[k]) && forall j :: 0 <= j < k ==> !IsRegular(names[j])
    ensures LastRegular(names).Some? ==>
      var k := LastRegular(names).value;
      IsRegular(names[k]) && forall j :: k < j < |names| ==> !IsRegular(names[j])
  {
    if |names| > 0 {
      var pre := names[..|names| - 1];
      RegularSpec(pre);
      assert forall j :: 0 <= j < |pre| ==> pre[j] == names[j];
    }
  }

  /** A "-regular" name found in a prefix stays the first one. */
  lemma {:induction false} FirstRegularOfPrefix(names: seq<string>, k: nat)
    requires k <= |names| && FirstRegular(names[..k]).Some?
    ensures FirstRegular(names) == FirstRegular(names[..k])
    decreases |names| - k
  {
    if k < |names| {
      assert names[..k + 1][..k] == names[..k];
      FirstRegularOfPrefix(names, k + 1);
    } else {
      assert names[..k] == names;
    }
  }

  /** The base and the requested face name a family yields. */
  datatype FaceChoice = FaceChoice(baseName: Option<string>, reqName: Option<string>)

  function NameAt(names: seq<string>, k: Option<nat>): Option<string>
    requires k.Some? ==> k.value < |names|
  {
    if k.Some? then Some(names[k.value]) else Null
  }

  /** Which faces the selection loop settles on. A single name is the base, and
      also the requested face for a plain request. Among several, a plain
      request stops at the first "-regular" name, which is then both; otherwise
      the base is the last "-regular" name or else the first shortest name,
      and the requested face the first shortest name of the requested style. */
  function SelectedFaces(names: seq<string>, bold: bool, italic: bool): FaceChoice {
    if |names| == 0 then FaceChoice(Null, Null)
    else if |names| == 1 then FaceChoice(Some(names[0]), if !bold && !italic then Some(names[0]) else Null)
    else if !bold && !italic && FirstRegular(names).Some? then
      FaceChoice(NameAt(names, FirstRegular(names)), NameAt(names, FirstRegular(names)))
    else
      var baseIndex := if LastRegular(names).Some? then LastRegular(names) else FirstShortest(names);
      FaceChoice(NameAt(names, baseIndex), NameAt(names, FirstShortestMatch(names, bold, italic)))
  }

  /** What the selection promises: a requested face always has the requested
      style (or is the single name, or a "-regular" name for a plain request);
      there is a base face whenever there are names; and a bold or italic
      request never settles on a face of another style. */
  lemma SelectedFacesSpec(names: seq<string>, bold: bool, italic: bool)
    ensures SelectedFaces(names, bold, italic).baseName.Some? <==> |names| > 0
    ensures SelectedFaces(names, bold, italic).baseName.Some? ==> SelectedFaces(names, bold, italic).baseName.value in names
    ensures SelectedFaces(names, bold, italic).reqName.Some? ==> SelectedFaces(names, bold, italic).reqName.value in names
    ensures (bold || italic) && |names| >= 2 && SelectedFaces(names, bold, italic).reqName.Some? ==>
      StyleMatches(SelectedFaces(names, bold, italic).reqName.value, bold, italic)
    ensures (bold || italic) && |names| == 1 ==> SelectedFaces(names, bold, italic).reqName.Null?
    ensures |names| >= 2 && (forall j :: 0 <= j < |names| ==> !IsRegular(names[j])) ==>
      (SelectedFaces(names, bold, italic).reqName.Null? <==>
        forall j :: 0 <= j < |names| ==> !StyleMatches(names[j], bold, italic))
  {
    RegularSpec(names);
    FirstShortestMatchSpec(names, bold, italic);
  }

  /** The four variables of the selection loop. */
  datatype ScanState = ScanState(baseName: Option<string>, reqName: Option<string>, shortestBase: int, shortestMatch: int)

  /** The loop variables after scanning `pre` without stopping. */
  ghost function Expected(pre: seq<string>, bold: bool, italic: bool): ScanState {
    var fs := FirstShortest(pre);
    var fm := FirstShortestMatch(pre, bold, italic);
    var lr := LastRegular(pre);
    ScanState(
      if lr.Some? then NameAt(pre, lr) else NameAt(pre, fs),
      NameAt(pre, fm),
      if lr.Some? then -1 else if fs.Null? then IntMax else |pre[fs.value]|,
      if fm.Null? then IntMax else |pre[fm.value]|)
  }

  /** One pass of the loop body over `name`, when it does not stop there. */
  ghost function Step(st: ScanState, name: string, bold: bool, italic: bool): ScanState {
    var baseName := if |name| < st.shortestBase then Some(name) else st.baseName;
    var shortestBase := if |name| < st.shortestBase then |name| else st.shortestBase;
    var matches := StyleMatches(name, bold, italic) && |name| < st.shortestMatch;
    var reqName := if matches then Some(name) else st.reqName;
    var shortestMatch := if matches then |name| else st.shortestMatch;
    if IsRegular(name) then ScanState(Some(name), reqName, -1, shortestMatch)
    else ScanState(baseName, reqName, shortestBase, shortestMatch)
  }

  lemma ScanStep(pre: seq<string>, name: string, bold: bool, italic: bool)
    requires |name| < IntMax && ShortNames(pre)
    ensures Expected(pre + [name], bold, italic) == Step(Expected(pre, bold, italic), name, bold, italic)
  {
    var next := pre + [name];
    assert next[..|pre|] == pre;
    assert forall k :: 0 <= k < |pre| ==> next[k] == pre[k];
  }

  /** The body of the selection loop for one face name: a shorter name becomes
      the base, a shorter name of the requested style the requested face, and a
      "-regular" name the base, ending the loop for a plain request. */
  method ScanName(fontName: string, bold: bool, italic: bool, baseName: Option<string>, reqName: Option<string>,
                  shortestBase: int, shortestMatch: int)
    returns (baseFontName: Option<string>, reqFontName: Option<string>,
             shortestBaseLength: int, shortestMatchLength: int, stop: bool)
    ensures stop <==> IsRegular(fontName) && !bold && !italic
    ensures stop ==> baseFontName == Some(fontName) && reqFontName == Some(fontName)
    ensures !stop ==> ScanState(baseFontName, reqFontName, shortestBaseLength, shortestMatchLength)
                      == Step(ScanState(baseName, reqName, shortestBase, shortestMatch), fontName, bold, italic)
  {
    baseFontName, reqFontName, shortestBaseLength, shortestMatchLength := baseName, reqName, shortestBase, shortestMatch;
    stop := false;
    var lowerName := ToLower(fontName);
    var nameHasBold := Contains(lowerName, "bold") || lowerName == "avenir-black";
    var nameHasItalic := Contains(lowerName, "italic") || Contains(lowerName, "oblique");
    if |lowerName| < shortestBaseLength {
      baseFontName := Some(fontName);
      shortestBaseLength := |lowerName|;
    }
    if nameHasBold == bold && nameHasItalic == italic && |lowerName| < shortestMatchLength {
      reqFontName := Some(fontName);
      shortestMatchLength := |lowerName|;
    }
    if Contains(lowerName, "-regular") {
      baseFontName := Some(fontName);
      shortestBaseLength := -1;
      if !bold && !italic {
        reqFontName := Some(fontName);
        shortestMatchLength := -1;
        stop := true;
      }
    }
  }

  /** The selection loop of `BestFont` over a system family's face names. */
  method SelectFaceNames(fontNames: seq<string>, bold: bool, italic: bool) returns (baseFontName: Option<string>, reqFontName: Option<string>)
    requires ShortNames(fontNames)
    ensures FaceChoice(baseFontName, reqFontName) == SelectedFaces(fontNames, bold, italic)
  {
    baseFontName := Null;
    reqFontName := Null;
    if |fontNames| == 0 {
      return;
    }
    if |fontNames| == 1 {
      baseFontName := Some(fontNames[0]);
      if !bold && !italic {
        reqFontName := Some(fontNames[0]);
      }
      return;
    }
    var shortestMatchLength := IntMax;
    var shortestBaseLength := IntMax;
    var i := 0;
    while i < |fontNames|
      invariant 0 <= i <= |fontNames|
      invariant !(!bold && !italic && FirstRegular(fontNames[..i]).Some?)
      invariant ScanState(baseFontName, reqFontName, shortestBaseLength, shortestMatchLength)
                == Expected(fontNames[..i], bold, italic)
    {
      assert fontNames[..i + 1] == fontNames[..i] + [fontNames[i]];
      assert fontNames[..i + 1][..i] == fontNames[..i];
      var stop;
      baseFontName, reqFontName, shortestBaseLength, shortestMatchLength, stop :=
        ScanName(fontNames[i], bold, italic, baseFontName, reqFontName, shortestBaseLength, shortestMatchLength);
      if stop {
        assert FirstRegular(fontNames[..i + 1]) == Some(i);
        FirstRegularOfPrefix(fontNames, i + 1);
        return;
      }
      ScanStep(fontNames[..i], fontNames[i], bold, italic);
      i := i + 1;
    }
    assert fontNames[..i] == fontNames;
  }

  // ----- Fonts, the environment and embedded resources -----

  datatype UIFont = NamedFont(name: string, pointSize: real) | SystemFont(pointSize: real, bold: bool, italic: bool)

  /** What UIKit and the app bundle answer: `UIFont.LabelFontSize`,
      `UIFont.FamilyNames`, `FontFamilies.FontsForFamily`, `UIFont.FromName`,
      the bold-italic system font made from a descriptor, and the loading and
      registration of an embedded font file (its PostScript name, null when the
      resource or its data cannot be opened, or an exception). */
  datatype FontEnvironment = FontEnvironment(
    labelFontSize: real,
    familyNames: set<string>,
    fontsForFamily: string -> Option<seq<string>>,
    fromName: (string, real) -> Option<UIFont>,
    boldItalicSystemFont: real -> Option<UIFont>,
    loadEmbeddedFont: string -> Result<Option<string>, string>)

  /** Face names are .NET strings, shorter than `int.MaxValue`. */
  ghost predicate ValidEnvironment(env: FontEnvironment) {
    forall family :: env.fontsForFamily(family).Some? ==> ShortNames(env.fontsForFamily(family).value)
  }

  predicate ShortNames(names: seq<string>) {
    forall k :: 0 <= k < |names| ==> |names[k]| < IntMax
  }

  const StixGeneralResource := "Forms9Patch.Resources.Fonts.STIXGeneral.otf"
  const EmbeddedFontsMarker := ".Resources.Fonts."
  const EmbeddedExtensionMessage := "Embedded Font file names must end with \".ttf\" or \".otf\"."

  /** The resource id `EmbeddedFont` works with. */
  function EmbeddedResourceId(resourceId: string): string {
    if resourceId == "STIXGeneral" then StixGeneralResource else resourceId
  }

  predicate HasFontFileExtension(resourceId: string) {
    EndsWith(ToLower(resourceId), ".ttf") || EndsWith(ToLower(resourceId), ".otf")
  }

  datatype EmbeddedOutcome = EmbeddedOutcome(font: Result<Option<UIFont>, string>, registered: map<string, string>)

  /** `EmbeddedFont`: a known resource id gives the font of its registered
      family; an embedded-resource id without a .ttf/.otf extension throws;
      a loadable one is registered under its PostScript name; anything else
      gives null. */
  function EmbeddedFontResult(resourceId: string, size: real, env: FontEnvironment, registered: map<string, string>)
    : EmbeddedOutcome
  {
    var id := EmbeddedResourceId(resourceId);
    if id in registered then EmbeddedOutcome(Ok(env.fromName(registered[id], size)), registered)
    else if !Contains(id, EmbeddedFontsMarker) then EmbeddedOutcome(Ok(Null), registered)
    else if !HasFontFileExtension(id) then EmbeddedOutcome(Throws(EmbeddedExtensionMessage), registered)
    else match env.loadEmbeddedFont(id)
      case Throws(e) => EmbeddedOutcome(Throws(e), registered)
      case Ok(Null) => EmbeddedOutcome(Ok(Null), registered)
      case Ok(Some(postScriptName)) =>
        EmbeddedOutcome(Ok(env.fromName(postScriptName, size)), registered[id := postScriptName])
  }

  /** Embedded-font registration only adds the id it was asked for, never
      replaces an entry, and rejects exactly the embedded-resource ids with a
      wrong extension before touching the resource. */
  lemma EmbeddedFontResultSpec(resourceId: string, size: real, env: FontEnvironment, registered: map<string, string>)
    ensures var o := EmbeddedFontResult(resourceId, size, env, registered);
      && (forall id :: id in registered ==> id in o.registered && o.registered[id] == registered[id])
      && o.registered.Keys <= registered.Keys + {EmbeddedResourceId(resourceId)}
    ensures var id := EmbeddedResourceId(resourceId);
      id !in registered && Contains(id, EmbeddedFontsMarker) && !HasFontFileExtension(id) ==>
        EmbeddedFontResult(resourceId, size, env, registered) == EmbeddedOutcome(Throws(EmbeddedExtensionMessage), registered)
    ensures var id := EmbeddedResourceId(resourceId);
      id !in registered && !Contains(id, EmbeddedFontsMarker) ==>
        EmbeddedFontResult(resourceId, size, env, registered) == EmbeddedOutcome(Ok(Null), registered)
    ensures EmbeddedFontResult(resourceId, size, env, registered).font.Throws? ==>
      EmbeddedFontResult(resourceId, size, env, registered).registered == registered
    ensures EmbeddedResourceId("STIXGeneral") == StixGeneralResource
  {
  }

  /** The last resort: a system font of the size and style. */
  function SystemFallback(size: real, bold: bool, italic: bool, env: FontEnvironment): UIFont {
    if bold && italic && env.boldItalicSystemFont(size).Some? then env.boldItalicSystemFont(size).value
    else if italic then SystemFont(size, false, true)
    else if bold then SystemFont(size, true, false)
    else SystemFont(size, false, false)
  }

  /** The face chosen for a system family, or null: the requested face first,
      and the base face only for a plain request. */
  function SystemFamilyFont(family: string, size: real, bold: bool, italic: bool, env: FontEnvironment): Option<UIFont> {
    var names := env.fontsForFamily(family);
    var choice := if names.Some? then SelectedFaces(names.value, bold, italic) else FaceChoice(Null, Null);
    var requested := if choice.reqName.Some? then env.fromName(choice.reqName.value, size) else Null;
    if requested.Null? && choice.baseName.Some? && !bold && !italic then env.fromName(choice.baseName.value, size)
    else requested
  }

  /** A bold or italic request never falls back to the base face. */
  lemma SystemFamilyFontStyled(family: string, size: real, bold: bool, italic: bool, env: FontEnvironment)
    requires bold || italic
    ensures var names := env.fontsForFamily(family);
      var choice := if names.Some? then SelectedFaces(names.value, bold, italic) else FaceChoice(Null, Null);
      SystemFamilyFont(family, size, bold, italic, env) ==
        (if choice.reqName.Some? then env.fromName(choice.reqName.value, size) else Null)
  {
  }

  datatype FontKey = FontKey(family: string, size: real, bold: bool, italic: bool)

  datatype BestFontOutcome = BestFontOutcome(
    font: Result<UIFont, string>, cache: map<FontKey, UIFont>, registered: map<string, string>)

  /** Caches a found font under `key` unless the key is present by now;
      the system fallback is returned without caching. */
  function Settle(found: Option<UIFont>, key: FontKey, env: FontEnvironment, cache: map<FontKey, UIFont>,
                  registered: map<string, string>): BestFontOutcome
  {
    if found.Some? then
      BestFontOutcome(Ok(found.value), if key in cache then cache else cache[key := found.value], registered)
    else BestFontOutcome(Ok(SystemFallback(key.size, key.bold, key.italic, env)), cache, registered)
  }

  /** `BestFont(family, size, bold, italic)` from the cache and registry it
      starts with. */
  function BestFontResult(family: Option<string>, size: real, bold: bool, italic: bool, env: FontEnvironment,
                          cache: map<FontKey, UIFont>, registered: map<string, string>): BestFontOutcome
  {
    var fam := ResolveFamily(family);
    var sz := ResolveSize(size, env.labelFontSize);
    var key := FontKey(fam, sz, bold, italic);
    if key in cache then BestFontOutcome(Ok(cache[key]), cache, registered)
    else if fam in env.familyNames then Settle(SystemFamilyFont(fam, sz, bold, italic, env), key, env, cache, registered)
    else
      var embedded := EmbeddedFontResult(fam, sz, env, registered);
      match embedded.font
      case Throws(e) => BestFontOutcome(Throws(e), cache, embedded.registered)
      case Ok(found) => Settle(found.OrElse(env.fromName(fam, sz)), key, env, cache, embedded.registered)
  }

  /** The cache discipline: a hit is answered from the cache with nothing
      changed; existing entries are never replaced; at most the request's key
      is added, and then it maps to the returned font; a fallback system font
      and a thrown exception leave the cache as it was. */
  lemma BestFontCacheDiscipline(family: Option<string>, size: real, bold: bool, italic: bool, env: FontEnvironment,
                                cache: map<FontKey, UIFont>, registered: map<string, string>)
    ensures var key := FontKey(ResolveFamily(family), ResolveSize(size, env.labelFontSize), bold, italic);
      var o := BestFontResult(family, size, bold, italic, env, cache, registered);
      && (key in cache ==> o == BestFontOutcome(Ok(cache[key]), cache, registered))
      && (forall k :: k in cache ==> k in o.cache && o.cache[k] == cache[k])
      && o.cache.Keys <= cache.Keys + {key}
      && (key in o.cache && key !in cache ==> o.font == Ok(o.cache[key]))
      && (o.font.Throws? ==> o.cache == cache)
  {
    var fam := ResolveFamily(family);
    var sz := ResolveSize(size, env.labelFontSize);
    var key := FontKey(fam, sz, bold, italic);
    if key !in cache {
      if fam in env.familyNames {
        SettleDiscipline(SystemFamilyFont(fam, sz, bold, italic, env), key, env, cache, registered);
      } else {
        var embedded := EmbeddedFontResult(fam, sz, env, registered);
        if embedded.font.Ok? {
          SettleDiscipline(embedded.font.value.OrElse(env.fromName(fam, sz)), key, env, cache, embedded.registered);
        }
      }
    }
  }

  /** `Settle` keeps every entry, adds at most `key`, and then maps it to the
      returned font. */
  lemma SettleDiscipline(found: Option<UIFont>, key: FontKey, env: FontEnvironment, cache: map<FontKey, UIFont>,
                         registered: map<string, string>)
    requires key !in cache
    ensures var o := Settle(found, key, env, cache, registered);
      && (forall k :: k in cache ==> k in o.cache && o.cache[k] == cache[k])
      && o.cache.Keys <= cache.Keys + {key}
      && (key in o.cache ==> o.font == Ok(o.cache[key]))
      && o.font.Ok?
  {
  }

  /** The fallback is not cached: when no face and no named font is found the
      cache is unchanged and the answer is the system font of the style. */
  lemma BestFontFallbackNotCached(family: Option<string>, size: real, bold: bool, italic: bool, env: FontEnvironment,
                                  cache: map<FontKey, UIFont>, registered: map<string, string>)
    requires var fam := ResolveFamily(family);
      var sz := ResolveSize(size, env.labelFontSize);
      && FontKey(fam, sz, bold, italic) !in cache && fam in env.familyNames
      && SystemFamilyFont(fam, sz, bold, italic, env).Null?
    ensures var o := BestFontResult(family, size, bold, italic, env, cache, registered);
      o.cache == cache && o.registered == registered
      && o.font == Ok(SystemFallback(ResolveSize(size, env.labelFontSize), bold, italic, env))
  {
  }

  /** A second identical request after a found font is a cache hit with the
      same answer. */
  lemma BestFontRepeatable(family: Option<string>, size: real, bold: bool, italic: bool, env: FontEnvironment,
                           cache: map<FontKey, UIFont>, registered: map<string, string>)
    requires var o := BestFontResult(family, size, bold, italic, env, cache, registered);
      var key := FontKey(ResolveFamily(family), ResolveSize(size, env.labelFontSize), bold, italic);
      key in o.cache
    ensures var o := BestFontResult(family, size, bold, italic, env, cache, registered);
      var again := BestFontResult(family, size, bold, italic, env, o.cache, o.registered);
      again.cache == o.cache && again.registered == o.registered
      && (var key := FontKey(ResolveFamily(family), ResolveSize(size, env.labelFontSize), bold, italic);
          again.font == Ok(o.cache[key]))
  {
  }

  /** The system-family branch of `BestFont`: the requested face, else the
      base face for a plain request. */
  method SystemFamilyAttempt(family: string, size: real, bold: bool, italic: bool, env: FontEnvironment)
    returns (bestAttemptFont: Option<UIFont>)
    requires ValidEnvironment(env)
    ensures bestAttemptFont == SystemFamilyFont(family, size, bold, italic, env)
  {
    bestAttemptFont := Null;
    var fontNames := env.fontsForFamily(family);
    var baseFontName: Option<string> := Null;
    var reqFontName: Option<string> := Null;
    if fontNames.Some? && |fontNames.value| > 0 {
      baseFontName, reqFontName := SelectFaceNames(fontNames.value, bold, italic);
    }
    if reqFontName.Some? {
      bestAttemptFont := env.fromName(reqFontName.value, size);
    }
    if bestAttemptFont.Null? && baseFontName.Some? && !bold && !italic {
      bestAttemptFont := env.fromName(baseFontName.value, size);
    }
  }

  /** The fall-back chain of `BestFont`: bold-italic from a descriptor, then
      italic, bold and plain system fonts. */
  method SystemFallbackFont(size: real, bold: bool, italic: bool, env: FontEnvironment) returns (font: UIFont)
    ensures font == SystemFallback(size, bold, italic, env)
    ensures !(bold && italic) ==> font == SystemFont(size, bold, italic)
  {
    var fallback: Option<UIFont> := Null;
    if bold && italic {
      fallback := env.boldItalicSystemFont(size);
    }
    if fallback.Null? && italic {
      fallback := Some(SystemFont(size, false, true));
    }
    if fallback.Null? && bold {
      fallback := Some(SystemFont(size, true, false));
    }
    if fallback.Null? {
      fallback := Some(SystemFont(size, false, false));
    }
    font := fallback.value;
  }

  /** The two process-wide dictionaries: `UiFontCache` and
      `_embeddedResourceFonts` (resource id to PostScript name). */
  class FontRegistry {
    var uiFontCache: map<FontKey, UIFont>
    var embeddedResourceFonts: map<string, string>

    constructor ()
      ensures uiFontCache == map[] && embeddedResourceFonts == map[]
    {
      uiFontCache := map[];
      embeddedResourceFonts := map[];
    }

    /** `EmbeddedFont(resourceId, size)`. */
    method EmbeddedFont(resourceId: string, size: real, env: FontEnvironment) returns (font: Result<Option<UIFont>, string>)
      modifies this`embeddedResourceFonts
      ensures EmbeddedOutcome(font, embeddedResourceFonts) == EmbeddedFontResult(resourceId, size, env, old(embeddedResourceFonts))
    {
      var id := resourceId;
      if id == "STIXGeneral" {
        id := StixGeneralResource;
      }
      if id in embeddedResourceFonts {
        var family := embeddedResourceFonts[id];
        return Ok(env.fromName(family, size));
      }
      if Contains(id, EmbeddedFontsMarker) {
        if !EndsWith(ToLower(id), ".ttf") && !EndsWith(ToLower(id), ".otf") {
          return Throws(EmbeddedExtensionMessage);
        }
        var loaded := env.loadEmbeddedFont(id);
        if loaded.Throws? {
          return Throws(loaded.error);
        }
        if loaded.value.Null? {
          return Ok(Null);
        }
        var postScriptName := loaded.value.value;
        embeddedResourceFonts := embeddedResourceFonts[id := postScriptName];
        return Ok(env.fromName(postScriptName, size));
      }
      return Ok(Null);
    }

    /** The alias replacement at the head of `BestFont`, one `if` after another. */
    static method ResolveFamilyName(family0: Option<string>) returns (family: string)
      ensures family == ResolveFamily(family0)
    {
      family := if family0.Null? then "sans-serif" else family0.value;
      if ToLower(family) == "monospace" {
        family := "Menlo";
      }
      if ToLower(family) == "serif" {
        family := "Times New Roman";
      }
      if ToLower(family) == "sans-serif" {
        family := "Arial";
      }
    }

    /** `BestFont(family, size, bold, italic)`. */
    method BestFont(family0: Option<string>, size0: real, bold: bool, italic: bool, env: FontEnvironment)
      returns (font: Result<UIFont, string>)
      requires ValidEnvironment(env)
      modifies this
      ensures BestFontOutcome(font, uiFontCache, embeddedResourceFonts)
              == BestFontResult(family0, size0, bold, italic, env, old(uiFontCache), old(embeddedResourceFonts))
    {
      var family := ResolveFamilyName(family0);
      var size := size0;
      if size < 0.0 {
        size := env.labelFontSize * Abs(size);
      }
      assert size == ResolveSize(size0, env.labelFontSize);
      var key := FontKey(family, size, bold, italic);
      if key in uiFontCache {
        return Ok(uiFontCache[key]);
      }
      var bestAttemptFont: Option<UIFont> := Null;
      if family in env.familyNames {
        bestAttemptFont := SystemFamilyAttempt(family, size, bold, italic, env);
      } else {
        var embedded := EmbeddedFont(family, size, env);
        if embedded.Throws? {
          return Throws(embedded.error);
        }
        bestAttemptFont := embedded.value;
        if bestAttemptFont.Null? {
          bestAttemptFont := env.fromName(family, size);
        }
      }
      if bestAttemptFont.Some? {
        if key !in uiFontCache {
          uiFontCache := uiFontCache[key := bestAttemptFont.value];
        }
        return Ok(bestAttemptFont.value);
      }
      var fallback := SystemFallbackFont(size, bold, italic, env);
      return Ok(fallback);
    }

    /** `ToUIFont(Font)`: a named size is replaced by its points before the
        lookup. */
    method FontToUIFont(family: Option<string>, fontSize: real, useNamedSize: bool, namedSize: NamedSize,
                        bold: bool, italic: bool, env: FontEnvironment) returns (font: Result<UIFont, string>)
      requires ValidEnvironment(env)
      modifies this
      ensures var size := if useNamedSize then NamedSizePoints(namedSize) else fontSize;
        BestFontOutcome(font, uiFontCache, embeddedResourceFonts)
          == BestFontResult(family, size, bold, italic, env, old(uiFontCache), old(embeddedResourceFonts))
    {
      var size := fontSize;
      if useNamedSize {
        size := NamedSizePoints(namedSize);
      }
      font := BestFont(family, size, bold, italic, env);
    }
  }
}
