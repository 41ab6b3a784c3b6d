/** Conversion of Foundation objects into CLR values on iOS: every
    `ToObject` answer is a pair (value, runtime type), and `ToList` and
    `ToDictionary` pick a typed collection only when all their elements
    agree on one type. CLR types are an abstract datatype; the conversions of
    leaf objects (strings, data, dates, decimals, numbers, URLs) into CLR
    values are represented by the object they came from. */
module NSObjectExtensions {
  import opened Wrappers

  /** A CLR `Type`: a plain named type, or a constructed generic one. */
  datatype ClrType =
    | Named(name: string)
    | Generic(definition: string, args: seq<ClrType>)

  const CharType: ClrType := Named("System.Char")
  const IntType: ClrType := Named("System.Int32")
  const ShortType: ClrType := Named("System.Int16")
  const LongType: ClrType := Named("System.Int64")
  const ByteType: ClrType := Named("System.Byte")
  const UShortType: ClrType := Named("System.UInt16")
  const UIntType: ClrType := Named("System.UInt32")
  const ULongType: ClrType := Named("System.UInt64")
  const FloatType: ClrType := Named("System.Single")
  const DoubleType: ClrType := Named("System.Double")
  const BoolType: ClrType := Named("System.Boolean")
  const StringType: ClrType := Named("System.String")
  const ByteArrayType: ClrType := Named("System.Byte[]")
  const DateTimeType: ClrType := Named("System.DateTime")
  const DecimalType: ClrType := Named("System.Decimal")
  const UriType: ClrType := Named("System.Uri")
  const ObjectType: ClrType := Named("System.Object")

  /** `List<T>`. */
  function ListOf(t: ClrType): ClrType {
    Generic("System.Collections.Generic.List`1", [t])
  }

  /** `Dictionary<K, V>`. */
  function DictionaryOf(k: ClrType, v: ClrType): ClrType {
    Generic("System.Collections.Generic.Dictionary`2", [k, v])
  }

  /** `Type.IsGenericType`. */
  predicate IsGenericType(t: ClrType) {
    t.Generic? && |t.args| > 0
  }

  /** A Foundation object. A dictionary's keys are given by their `ToString()`. */
  datatype NSObject =
    | NSDictionary(entries: seq<NSEntry>)
    | NSArray(items: seq<NSObject>)
    | NSString(text: string)
    | NSData(bytes: seq<bv8>)
    | NSDate(secondsSinceReference: int)
    | NSDecimalNumber(digits: string)
    | NSNumber(objCType: string, bits: int)
    | NSUrl(absoluteString: string)
    | OtherNSObject(id: nat)

  datatype NSEntry = NSEntry(key: string, value: NSObject)

  /** A CLR value produced by a conversion. */
  datatype ClrValue =
    | Leaf(source: NSObject)
    | ListValue(elementType: ClrType, items: seq<Option<ClrValue>>)
    | DictValue(valueType: ClrType, keys: seq<string>, values: seq<Option<ClrValue>>)

  /** `Tuple<object, Type>`: either part may be null. */
  datatype Converted = Converted(value: Option<ClrValue>, clrType: Option<ClrType>)

  /** The pair a failed element conversion is recorded as. */
  const NullPair := Converted(Null, Null)

  const DuplicateKeyMessage := "An item with the same key has already been added."
  const NotGenericMessage := "Only works with Generic IDictionary objects"
  const NotStringKeyedMessage := "Only works with Dictionary<string,T> objects"

  /** The CLR type an `NSNumber`'s Objective-C type code stands for; null for any
      other code (strings, objects, classes, structures, pointers and unknowns). */
  function ObjCTypeCode(code: string): Option<ClrType> {
    match code
    case "c" => Some(CharType)
    case "i" => Some(IntType)
    case "s" => Some(ShortType)
    case "l" => Some(IntType)
    case "q" => Some(LongType)
    case "C" => Some(ByteType)
    case "S" => Some(UShortType)
    case "L" => Some(UIntType)
    case "Q" => Some(ULongType)
    case "f" => Some(FloatType)
    case "d" => Some(DoubleType)
    case "B" => Some(BoolType)
    case _ => Null
  }

  /** The twelve codes with a CLR type. */
  const KnownTypeCodes: set<string> := {"c", "i", "s", "l", "q", "C", "S", "L", "Q", "f", "d", "B"}

  /** A code has a type exactly when it is one of the twelve; `i` and `l` both
      give `int`, and every other type comes from exactly one code. */
  lemma ObjCTypeCodeTable(code: string)
    ensures ObjCTypeCode(code).Some? <==> code in KnownTypeCodes
    ensures ObjCTypeCode(code) == Some(IntType) <==> code == "i" || code == "l"
    ensures ObjCTypeCode(code) == Some(CharType) <==> code == "c"
    ensures ObjCTypeCode(code) == Some(ByteType) <==> code == "C"
    ensures ObjCTypeCode(code) == Some(BoolType) <==> code == "B"
    ensures ObjCTypeCode(code) == Some(DoubleType) <==> code == "d"
    ensures ObjCTypeCode(code) == Some(FloatType) <==> code == "f"
  {
  }

  /** Every type in the list equals the first. */
  predicate AllSameType(types: seq<Option<ClrType>>) {
    forall i :: 0 <= i < |types| ==> types[i] == types[0]
  }

  /** The element type a collection built from these conversions gets: the
      common type when there is one and it is not null, otherwise `object`. */
  function UnifiedType(types: seq<Option<ClrType>>): (t: ClrType)
    ensures t != ObjectType ==> |types| > 0 && forall i :: 0 <= i < |types| ==> types[i] == Some(t)
    ensures (exists i :: 0 <= i < |types| && types[i].Null?) ==> t == ObjectType
  {
    if |types| > 0 && AllSameType(types) && types[0].Some? then types[0].value else ObjectType
  }

  function ValuesOf(pairs: seq<Converted>): (r: seq<Option<ClrValue>>)
    ensures |r| == |pairs| && forall i :: 0 <= i < |pairs| ==> r[i] == pairs[i].value
  {
    seq(|pairs|, i requires 0 <= i < |pairs| => pairs[i].value)
  }

  function TypesOf(pairs: seq<Converted>): (r: seq<Option<ClrType>>)
    ensures |r| == |pairs| && forall i :: 0 <= i < |pairs| ==> r[i] == pairs[i].clrType
  {
    seq(|pairs|, i requires 0 <= i < |pairs| => pairs[i].clrType)
  }

  predicate DistinctKeys(keys: seq<string>) {
    forall i, j :: 0 <= i < j < |keys| ==> keys[i] != keys[j]
  }

  function KeysOf(entries: seq<NSEntry>): (r: seq<string>)
    ensures |r| == |entries| && forall i :: 0 <= i < |entries| ==> r[i] == entries[i].key
  {
    seq(|entries|, i requires 0 <= i < |entries| => entries[i].key)
  }

  /** `ToObject(nsO)` with no requested type: a pair, or null when there is no
      conversion; a dictionary whose keys collide throws. */
  function ToObject(nsO: NSObject): Result<Option<Converted>, string>
    decreases nsO, 2
  {
    match nsO
    case NSDictionary(_) =>
      (match DictionaryConversion(nsO)
       case Ok(pair) => Ok(Some(pair))
       case Throws(e) => Throws(e))
    case NSArray(_) => Ok(Some(ListConversion(nsO)))
    case NSString(_) => Ok(Some(Converted(Some(Leaf(nsO)), Some(StringType))))
    case NSData(_) => Ok(Some(Converted(Some(Leaf(nsO)), Some(ByteArrayType))))
    case NSDate(_) => Ok(Some(Converted(Some(Leaf(nsO)), Some(DateTimeType))))
    case NSDecimalNumber(_) => Ok(Some(Converted(Some(Leaf(nsO)), Some(DecimalType))))
    case NSNumber(code, _) =>
      (match ObjCTypeCode(code)
       case Some(t) => Ok(Some(Converted(Some(Leaf(nsO)), Some(t))))
       case Null => Ok(Null))
    case NSUrl(_) => Ok(Some(Converted(Some(Leaf(nsO)), Some(UriType))))
    case OtherNSObject(_) => Ok(Null)
  }

  /** What `ToObject` can answer: it throws only for a dictionary with a
      repeated key; it is null only for an object it does not know or a number
      whose type code has no CLR type; every pair it gives carries a type. */
  lemma ToObjectOutcomes(nsO: NSObject)
    ensures ToObject(nsO).Throws? <==>
      nsO.NSDictionary? && |nsO.entries| > 0 && !DistinctKeys(KeysOf(nsO.entries))
    ensures ToObject(nsO) == Ok(Null) <==>
      nsO.OtherNSObject? || (nsO.NSNumber? && nsO.objCType !in KnownTypeCodes)
    ensures ToObject(nsO).Ok? && ToObject(nsO).value.Some? ==> ToObject(nsO).value.value.clrType.Some?
  {
    match nsO
    case NSDictionary(_) => DictionaryConversionSpec(nsO);
    case NSNumber(code, _) => ObjCTypeCodeTable(code);
    case _ =>
  }

  /** One element's pair inside `ToList`/`ToDictionary`: a thrown exception, or
      a null pair (whose `Item1` throws), is caught and recorded as (null, null). */
  function ElementPair(nsO: NSObject): (r: Converted)
    ensures ToObject(nsO).Ok? && ToObject(nsO).value.Some? ==> r == ToObject(nsO).value.value
    ensures !(ToObject(nsO).Ok? && ToObject(nsO).value.Some?) ==> r == NullPair
    decreases nsO, 3
  {
    match ToObject(nsO)
    case Ok(Some(pair)) => pair
    case _ => NullPair
  }

  /** An element's pair has no type exactly when its conversion failed: a
      nested dictionary with a repeated key, an unknown object, or a number of
      an unmapped type code. Only then do `ToList` and `ToDictionary` fall back
      to `object` because of that element. */
  lemma ElementPairUntypedIffFailed(nsO: NSObject)
    ensures ElementPair(nsO).clrType.Null? <==>
      || (nsO.NSDictionary? && |nsO.entries| > 0 && !DistinctKeys(KeysOf(nsO.entries)))
      || nsO.OtherNSObject?
      || (nsO.NSNumber? && nsO.objCType !in KnownTypeCodes)
  {
    ToObjectOutcomes(nsO);
  }

  function ElementPairs(nsArray: NSObject): (r: seq<Converted>)
    requires nsArray.NSArray?
    ensures |r| == |nsArray.items| && forall i :: 0 <= i < |r| ==> r[i] == ElementPair(nsArray.items[i])
    decreases nsArray, 0
  {
    seq(|nsArray.items|, i requires 0 <= i < |nsArray.items| => ElementPair(nsArray.items[i]))
  }

  function EntryPairs(nsDictionary: NSObject): (r: seq<Converted>)
    requires nsDictionary.NSDictionary?
    ensures |r| == |nsDictionary.entries|
    ensures forall i :: 0 <= i < |r| ==> r[i] == ElementPair(nsDictionary.entries[i].value)
    decreases nsDictionary, 0
  {
    seq(|nsDictionary.entries|, i requires 0 <= i < |nsDictionary.entries| => ElementPair(nsDictionary.entries[i].value))
  }

  /** What `ToList` returns for an array. */
  function ListConversion(nsArray: NSObject): Converted
    requires nsArray.NSArray?
    decreases nsArray, 1
  {
    ListOfPairs(ElementPairs(nsArray))
  }

  function ListOfPairs(pairs: seq<Converted>): Converted {
    var t := UnifiedType(TypesOf(pairs));
    Converted(Some(ListValue(t, ValuesOf(pairs))), Some(ListOf(t)))
  }

  /** What `ToDictionary` returns for a dictionary. */
  function DictionaryConversion(nsDictionary: NSObject): Result<Converted, string>
    requires nsDictionary.NSDictionary?
    decreases nsDictionary, 1
  {
    DictionaryOfPairs(KeysOf(nsDictionary.entries), EntryPairs(nsDictionary))
  }

  function DictionaryOfPairs(keys: seq<string>, pairs: seq<Converted>): Result<Converted, string>
    requires |keys| == |pairs|
  {
    if |pairs| == 0 then Ok(Converted(Null, Some(DictionaryOf(StringType, ObjectType))))
    else if !DistinctKeys(keys) then Throws(DuplicateKeyMessage)
    else
      var t := UnifiedType(TypesOf(pairs));
      Ok(Converted(Some(DictValue(t, keys, ValuesOf(pairs))), Some(DictionaryOf(StringType, t))))
  }

  /** The `allSame` flag of `ToList` and `ToDictionary`. */
  method AllSame(types: seq<Option<ClrType>>) returns (allSame: bool)
    ensures allSame <==> AllSameType(types)
  {
    allSame := true;
    if |types| > 1 {
      var i := 1;
      while i < |types|
        invariant 1 <= i <= |types|
        invariant forall j :: 0 <= j < i ==> types[j] == types[0]
      {
        if types[i] != types[0] {
          allSame := false;
          break;
        }
        i := i + 1;
      }
    }
  }

  /** `ToList`: converts each item in order, then builds a `List<T>` when all
      items share a non-null type T, otherwise a `List<object>`. */
  method ToList(nsArray: NSObject) returns (r: Converted)
    requires nsArray.NSArray?
    ensures r == ListConversion(nsArray)
  {
    var itemList: seq<Option<ClrValue>> := [];
    var typeList: seq<Option<ClrType>> := [];
    var i := 0;
    while i < |nsArray.items|
      invariant 0 <= i <= |nsArray.items|
      invariant itemList == ValuesOf(ElementPairs(nsArray)[..i])
      invariant typeList == TypesOf(ElementPairs(nsArray)[..i])
    {
      var pair := ElementPair(nsArray.items[i]);
      itemList := itemList + [pair.value];
      typeList := typeList + [pair.clrType];
      i := i + 1;
    }
    assert ElementPairs(nsArray)[..i] == ElementPairs(nsArray);
    var allSame := AllSame(typeList);
    if allSame && |typeList| > 0 && typeList[0].Some? {
      var elementType := typeList[0].value;
      r := Converted(Some(ListValue(elementType, itemList)), Some(ListOf(elementType)));
    } else {
      r := Converted(Some(ListValue(ObjectType, itemList)), Some(ListOf(ObjectType)));
    }
  }

  /** `ToDictionary`: collects keys and converted values in order; an empty
      dictionary gives (null, `Dictionary<string, object>`); otherwise the value
      type is the common non-null type or `object`, and a repeated key makes
      `Dictionary.Add` throw. */
  method ToDictionary(nsDictionary: NSObject) returns (r: Result<Converted, string>)
    requires nsDictionary.NSDictionary?
    ensures r == DictionaryConversion(nsDictionary)
  {
    var entries := nsDictionary.entries;
    var keyList: seq<string> := [];
    var valueList: seq<Option<ClrValue>> := [];
    var typeList: seq<Option<ClrType>> := [];
    var i := 0;
    while i < |entries|
      invariant 0 <= i <= |entries|
      invariant keyList == KeysOf(entries[..i])
      invariant valueList == ValuesOf(EntryPairs(nsDictionary)[..i])
      invariant typeList == TypesOf(EntryPairs(nsDictionary)[..i])
    {
      keyList := keyList + [entries[i].key];
      var pair := ElementPair(entries[i].value);
      valueList := valueList + [pair.value];
      typeList := typeList + [pair.clrType];
      i := i + 1;
    }
    assert EntryPairs(nsDictionary)[..i] == EntryPairs(nsDictionary);
    assert entries[..i] == entries;
    var allSame := AllSame(typeList);
    if |typeList| > 0 {
      var elementType := if allSame && typeList[0].Some? then typeList[0].value else ObjectType;
      var duplicate := HasDuplicateKey(keyList);
      if duplicate {
        return Throws(DuplicateKeyMessage);
      }
      return Ok(Converted(Some(DictValue(elementType, keyList, valueList)), Some(DictionaryOf(StringType, elementType))));
    }
    r := Ok(Converted(Null, Some(DictionaryOf(StringType, ObjectType))));
  }

  /** The `Dictionary.Add` loop of `ToDictionary`, as far as it can throw:
      whether some key repeats an earlier one. */
  method HasDuplicateKey(keys: seq<string>) returns (duplicate: bool)
    ensures duplicate <==> !DistinctKeys(keys)
  {
    var seen: set<string> := {};
    for k := 0 to |keys|
      invariant seen == set j | 0 <= j < k :: keys[j]
      invariant DistinctKeys(keys[..k])
    {
      if keys[k] in seen {
        var j :| 0 <= j < k && keys[j] == keys[k];
        return true;
      }
      seen := seen + {keys[k]};
    }
    assert keys[..|keys|] == keys;
    return false;
  }

  /** `Type.Implements`: whether the requested interface is among the type's
      implemented interfaces. */
  method Implements(implementedInterfaces: seq<ClrType>, requestedInterface: ClrType) returns (found: bool)
    ensures found <==> requestedInterface in implementedInterfaces
  {
    for i := 0 to |implementedInterfaces|
      invariant requestedInterface !in implementedInterfaces[..i]
    {
      if implementedInterfaces[i] == requestedInterface {
        return true;
      }
    }
    assert implementedInterfaces[..|implementedInterfaces|] == implementedInterfaces;
    return false;
  }

  /** A CLR dictionary entry, with the key already a string. */
  datatype ClrEntry = ClrEntry(key: string, value: Option<ClrValue>)

  /** `ToNSDictionary`: only dictionaries of a generic type whose first type
      argument is `string` are converted, entry by entry, through
      `NSObject.FromObject` (a parameter here). */
  function ToNSDictionary(dictionaryType: ClrType, entries: seq<ClrEntry>, fromObject: Option<ClrValue> -> NSObject)
    : (r: Result<NSObject, string>)
    ensures r.Ok? <==> IsGenericType(dictionaryType) && dictionaryType.args[0] == StringType
    ensures !IsGenericType(dictionaryType) ==> r == Throws(NotGenericMessage)
    ensures r.Ok? ==> r.value.NSDictionary? && |r.value.entries| == |entries|
    ensures r.Ok? ==> forall i :: 0 <= i < |entries| ==>
      r.value.entries[i] == NSEntry(entries[i].key, fromObject(entries[i].value))
  {
    if !IsGenericType(dictionaryType) then Throws(NotGenericMessage)
    else if dictionaryType.args[0] != StringType then Throws(NotStringKeyedMessage)
    else Ok(NSDictionary(seq(|entries|, i requires 0 <= i < |entries| => NSEntry(entries[i].key, fromObject(entries[i].value)))))
  }

  /** `ToList` keeps the item count and order: item i is what converting array
      element i gives, and null when that conversion failed. */
  lemma ListConversionKeepsItems(nsArray: NSObject, i: nat)
    requires nsArray.NSArray? && i < |nsArray.items|
    ensures ListConversion(nsArray).value.Some? && ListConversion(nsArray).value.value.ListValue?
    ensures |ListConversion(nsArray).value.value.items| == |nsArray.items|
    ensures ListConversion(nsArray).value.value.items[i] == ElementPair(nsArray.items[i]).value
    ensures (ToObject(nsArray.items[i]).Throws? || ToObject(nsArray.items[i]) == Ok(Null)) ==>
      ListConversion(nsArray).value.value.items[i].Null?
  {
  }

  /** `ToList` is typed exactly when the array is non-empty and every element
      converted to one and the same non-null type T; then it is a `List<T>`,
      and otherwise a `List<object>`. */
  lemma ListConversionType(nsArray: NSObject)
    requires nsArray.NSArray?
    ensures var t := ListConversion(nsArray).clrType.value.args[0];
      && ListConversion(nsArray).clrType == Some(ListOf(t))
      && ListConversion(nsArray).value.value.elementType == t
      && (t != ObjectType ==> |nsArray.items| > 0 && forall i :: 0 <= i < |nsArray.items| ==>
            ElementPair(nsArray.items[i]).clrType == Some(t))
    ensures forall t :: (|nsArray.items| > 0 && forall i :: 0 <= i < |nsArray.items| ==>
              ElementPair(nsArray.items[i]).clrType == Some(t)) ==>
      ListConversion(nsArray).clrType == Some(ListOf(t))
    ensures (exists i :: 0 <= i < |nsArray.items| && ElementPair(nsArray.items[i]).clrType.Null?) ==>
      ListConversion(nsArray).clrType == Some(ListOf(ObjectType))
    ensures |nsArray.items| == 0 ==> ListConversion(nsArray) == Converted(Some(ListValue(ObjectType, [])), Some(ListOf(ObjectType)))
  {
    var types := TypesOf(ElementPairs(nsArray));
    forall t | |nsArray.items| > 0 && forall i :: 0 <= i < |nsArray.items| ==> ElementPair(nsArray.items[i]).clrType == Some(t)
      ensures ListConversion(nsArray).clrType == Some(ListOf(t))
    {
      assert types[0] == Some(t);
    }
    if exists i :: 0 <= i < |nsArray.items| && ElementPair(nsArray.items[i]).clrType.Null? {
      var i :| 0 <= i < |nsArray.items| && ElementPair(nsArray.items[i]).clrType.Null?;
      assert types[i].Null?;
    }
  }

  /** `ToDictionary` of an empty dictionary; of one with a repeated key; and
      otherwise: the keys in order, values converted in order, and the value
      type the common non-null type of all values, or `object`. */
  lemma DictionaryConversionSpec(nsDictionary: NSObject)
    requires nsDictionary.NSDictionary?
    ensures |nsDictionary.entries| == 0 ==>
      DictionaryConversion(nsDictionary) == Ok(Converted(Null, Some(DictionaryOf(StringType, ObjectType))))
    ensures DictionaryConversion(nsDictionary).Throws? <==>
      |nsDictionary.entries| > 0 && !DistinctKeys(KeysOf(nsDictionary.entries))
    ensures DictionaryConversion(nsDictionary).Ok? && |nsDictionary.entries| > 0 ==>
      var r := DictionaryConversion(nsDictionary).value;
      && r.value.Some? && r.value.value.DictValue?
      && r.value.value.keys == KeysOf(nsDictionary.entries)
      && |r.value.value.values| == |nsDictionary.entries|
      && (forall i :: 0 <= i < |nsDictionary.entries| ==>
            r.value.value.values[i] == ElementPair(nsDictionary.entries[i].value).value)
      && r.clrType == Some(DictionaryOf(StringType, r.value.value.valueType))
      && (r.value.value.valueType != ObjectType ==> forall i :: 0 <= i < |nsDictionary.entries| ==>
            ElementPair(nsDictionary.entries[i].value).clrType == Some(r.value.value.valueType))
  {
  }

  /** A nested conversion that throws does not escape an enclosing array: the
      element becomes null and the array a `List<object>`. */
  lemma NestedFailureIsCaught(nsArray: NSObject, i: nat)
    requires nsArray.NSArray? && i < |nsArray.items|
    requires ToObject(nsArray.items[i]).Throws?
    ensures ToObject(nsArray).Ok?
    ensures ListConversion(nsArray).value.Some? && ListConversion(nsArray).value.value.ListValue?
    ensures |ListConversion(nsArray).value.value.items| == |nsArray.items|
    ensures ListConversion(nsArray).value.value.items[i].Null?
    ensures ListConversion(nsArray).clrType == Some(ListOf(ObjectType))
  {
    ListConversionType(nsArray);
    assert ElementPair(nsArray.items[i]).clrType.Null?;
  }
}
