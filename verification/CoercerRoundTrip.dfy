/** Parameters written as a form sends them are coerced to the values they were written from. */
module CoercerRoundTrip {
  import opened Json
  import opened OpenApi
  import opened Decimal
  import opened Coercer
  import opened CoercerLaws
  import opened IndexedMaps

  // Numbers and booleans as text.

  function PrintInt(n: int): string {
    if n < 0 then "-" + Print(-n) else Print(n)
  }

  /** The whole numbers of 64 bits. */
  predicate Fits(n: int) {
    -0x8000_0000_0000_0000 <= n <= 0x7fff_ffff_ffff_ffff
  }

  /** A numeral is read with or without a sign, if its value has 64 bits. */
  lemma NumeralReads(s: string)
    requires IsNumeral(s)
    ensures ParseInt(s) == ParseInt("+" + s) == if Fits(Value(s)) then Some(Value(s)) else None
    ensures ParseInt("-" + s) == if Fits(0 - Value(s)) then Some(0 - Value(s)) else None
  {
    hide Value;
    assert ("+" + s)[1..] == s == ("-" + s)[1..];
    assert s[0] in s;
  }

  lemma IntPrintThenRead(n: int)
    ensures ParseInt(PrintInt(n)) == if Fits(n) then Some(n) else None
  {
    hide Print, Value, ParseInt;
    var m := if n < 0 then -n else n;
    PrintThenRead(m);
    NumeralReads(Print(m));
  }

  /** A key is an index exactly if it is all digits and has 64 bits, and then it is the number it is read as. */
  lemma IndexIsRead(key: string)
    ensures Index(key).Some? <==> IsNumeral(key) && ParseInt(key).Some?
    ensures Index(key).Some? ==> ParseInt(key) == Some(Index(key).value)
  {
    if IsNumeral(key) {
      NumeralReads(key);
    }
  }

  /** A plus sign and zeros in front make no difference; without a digit there is no number. */
  lemma SignsAndZeros(s: string)
    requires IsNumeral(s)
    ensures ParseInt("+" + s) == ParseInt(s) == ParseInt("0" + s)
    ensures ParseInt("") == ParseInt("+") == ParseInt("-") == None
  {
    hide Value;
    NumeralReads(s);
    ZeroInFront(s);
    NumeralReads("0" + s);
    hide ParseInt;
    NoDigits();
  }

  lemma NoDigits()
    ensures ParseInt("") == ParseInt("+") == ParseInt("-") == None
  {
  }

  lemma {:induction false} ZeroInFront(s: string)
    requires forall c | c in s :: IsDigit(c)
    ensures (forall c | c in "0" + s :: IsDigit(c)) && Value("0" + s) == Value(s)
  {
    var n := |s|;
    if s == "" {
      assert ("0" + s)[..0] == "" && ("0" + s)[0] == '0';
    } else {
      assert s == s[..n - 1] + [s[n - 1]] && forall c | c in s[..n - 1] :: c in s;
      ZeroInFront(s[..n - 1]);
      assert ("0" + s)[..n] == "0" + s[..n - 1] && ("0" + s)[n] == s[n - 1];
    }
  }

  /** Anything else than digits after an optional sign is no number. */
  lemma OnlyNumeralsRead(s: string)
    ensures ParseInt(s).Some? ==> IsNumeral(s) || (|s| > 1 && (s[0] == '+' || s[0] == '-') && IsNumeral(s[1..]))
  {
  }

  /** The text of a value of a primitive type. */
  ghost predicate PrimitiveText(parse: FloatParser, v: Json, kind: string, t: string) {
    match v
    case Bool(b) => kind == "boolean" && t == (if b then "true" else "false")
    case Num(x) =>
      || (kind == "integer" && x == x.Floor as real && Fits(x.Floor) && t == PrintInt(x.Floor))
      || (kind == "number" && parse(t) == Some(x))
    case Str(s) => kind == "string" && t == s
    case _ => false
  }

  /**
   * `t` is a text form of `v` by the schema `s`: booleans, numbers and strings as text, objects field by field, lists
   * as lists or as maps with the indices as keys. By a schema with branches, it is a text form by one of them, and
   * the branches before do not take it.
   */
  ghost predicate Written(parse: FloatParser, v: Json, s: Schema, t: Json)
    decreases s, 2
  {
    if s.properties != map[] then
      v.Obj? && t.Obj? && v.fields.Keys == t.fields.Keys && forall k | k in v.fields ::
        if k in s.properties then Written(parse, v.fields[k], s.properties[k], t.fields[k]) else t.fields[k] == v.fields[k]
    else if s.kind in {"boolean", "integer", "number", "string"} then
      // An enumeration holds no numbers: a numeral is left to another branch.
      t.Str? && PrimitiveText(parse, v, s.kind, t.s) && (s.enumeration.Some? ==> parse(t.s).None?)
    else if s.additionalProperties.Some? && t.Obj? then
      v.Obj? && v.fields.Keys == t.fields.Keys && forall k | k in v.fields ::
        (v.fields[k] == t.fields[k] == Null) || Written(parse, v.fields[k], s.additionalProperties.value, t.fields[k])
    else
      || (exists i | 0 <= i < |s.anyOf| :: PassesTo(parse, s, t, i) && Written(parse, v, s.anyOf[i], t))
      || (PassesTo(parse, s, t, |s.anyOf|) && s.kind == "array" && ListWritten(parse, v, s, t))
  }

  /** The branches before `i` neither take the value nor change it. */
  ghost predicate PassesTo(parse: FloatParser, s: Schema, t: Json, i: nat)
    requires i <= |s.anyOf|
  {
    forall j | 0 <= j < i :: CoerceValue(parse, t, s.anyOf[j]) == Done(t, false, Null)
  }

  ghost predicate ListWritten(parse: FloatParser, v: Json, s: Schema, t: Json)
    decreases s, 1
  {
    && v.Arr?
    && exists texts: seq<Json> :: AsList(t, texts) && |texts| == |v.items| && forall i | 0 <= i < |texts| ::
         if s.items.None? then texts[i] == v.items[i]
         else (v.items[i] == texts[i] == Null) || Written(parse, v.items[i], s.items.value, texts[i])
  }

  /** A list, or the map that has its indices as keys. */
  ghost predicate AsList(t: Json, texts: seq<Json>) {
    t == Arr(texts) || (1 <= |texts| <= 1001 && t == Obj(Indexed(texts)))
  }

  lemma PrimitiveReads(parse: FloatParser, v: Json, kind: string, t: string)
    requires PrimitiveText(parse, v, kind, t)
    ensures CoercePrimitive(parse, Str(t), kind) == Some(v)
  {
    match v
    case Num(x) =>
      if kind == "integer" {
        IntPrintThenRead(x.Floor);
      }
    case _ =>
  }

  /** No schema takes null, and none changes it. */
  lemma {:induction false} NullIsNotTaken(parse: FloatParser, s: Schema)
    ensures CoerceValue(parse, Null, s) == Done(Null, false, Null)
    decreases s, 1
  {
    if s.properties == map[] && !IsPrimitive(s) {
      NullPasses(parse, s, 0);
    }
  }

  lemma {:induction false} NullPasses(parse: FloatParser, s: Schema, i: nat)
    requires i <= |s.anyOf|
    ensures CoerceAnyOf(parse, Null, s, i) == Done(Null, false, Null)
    decreases s, 0, |s.anyOf| - i
  {
    if i < |s.anyOf| {
      NullIsNotTaken(parse, s.anyOf[i]);
      NullPasses(parse, s, i + 1);
    }
  }

  lemma {:induction false} BranchTaken(parse: FloatParser, s: Schema, t: Json, i: nat, from: nat)
    requires from <= i <= |s.anyOf| && PassesTo(parse, s, t, i)
    ensures CoerceAnyOf(parse, t, s, from) == CoerceAnyOf(parse, t, s, i)
    decreases i - from
  {
    hide CoerceValue, CoerceArray;
    if from < i {
      BranchTaken(parse, s, t, i, from + 1);
    }
  }

  ghost predicate Takes(c: Coercion, v: Json) {
    c.Done? && c.ok && c.result == v
  }

  /** A text form of a value is coerced to that value, whatever the schema. */
  lemma {:induction false} WrittenIsRead(parse: FloatParser, v: Json, s: Schema, t: Json)
    requires Written(parse, v, s, t)
    ensures Takes(CoerceValue(parse, t, s), v)
    decreases s, 5
  {
    hide CoerceParams, CoerceFields, CoerceAnyOf;
    if s.properties != map[] {
      ParamsAreRead(parse, v.fields, s, t.fields);
    } else if IsPrimitive(s) {
      PrimitiveReads(parse, v, s.kind, t.s);
      hide PrimitiveText;
    } else if s.additionalProperties.Some? && t.Obj? {
      FieldsAreRead(parse, v.fields, s.additionalProperties.value, t.fields);
    } else {
      BranchesAreRead(parse, v, s, t);
    }
  }

  lemma {:induction false} BranchesAreRead(parse: FloatParser, v: Json, s: Schema, t: Json)
    requires s.properties == map[] && !IsPrimitive(s) && !(s.additionalProperties.Some? && t.Obj?) && Written(parse, v, s, t)
    ensures Takes(CoerceAnyOf(parse, t, s, 0), v)
    decreases s, 4
  {
    hide CoerceValue, CoerceArray;
    if i :| 0 <= i < |s.anyOf| && PassesTo(parse, s, t, i) && Written(parse, v, s.anyOf[i], t) {
      WrittenIsRead(parse, v, s.anyOf[i], t);
      BranchTaken(parse, s, t, i, 0);
    } else {
      BranchTaken(parse, s, t, |s.anyOf|, 0);
      ListIsRead(parse, v, s, t);
    }
  }

  /** The parameters of an object whose named fields were written as text; the other fields stay as they are. */
  lemma {:induction false} ParamsAreRead(parse: FloatParser, v: map<string, Json>, s: Schema, t: map<string, Json>)
    requires v.Keys == t.Keys
    requires forall k | k in v :: if k in s.properties then Written(parse, v[k], s.properties[k], t[k]) else t[k] == v[k]
    ensures CoerceParams(parse, s, t) == Done(Obj(v), true, Obj(v))
    decreases s, 4
  {
    forall k | k in v && k in s.properties ensures Takes(CoerceValue(parse, t[k], s.properties[k]), v[k]) {
      WrittenIsRead(parse, v[k], s.properties[k], t[k]);
    }
    hide CoerceValue, Written;
    assert CoerceParams(parse, s, t).Done?;
    assert CoerceParams(parse, s, t).result.fields == v;
  }

  lemma {:induction false} FieldsAreRead(parse: FloatParser, v: map<string, Json>, item: Schema, t: map<string, Json>)
    requires v.Keys == t.Keys && forall k | k in v :: (v[k] == t[k] == Null) || Written(parse, v[k], item, t[k])
    ensures CoerceFields(parse, t, item) == Done(Obj(v), true, Obj(v))
    decreases item, 6
  {
    NullIsNotTaken(parse, item);
    forall k | k in v ensures (v[k] == t[k] == Null) || Takes(CoerceValue(parse, t[k], item), v[k]) {
      if Written(parse, v[k], item, t[k]) {
        WrittenIsRead(parse, v[k], item, t[k]);
      }
    }
    hide CoerceValue, Written;
    assert CoerceFields(parse, t, item).Done?;
    assert CoerceFields(parse, t, item).result.fields == v;
  }

  lemma {:induction false} ItemsAreRead(parse: FloatParser, v: seq<Json>, item: Schema, t: seq<Json>)
    requires |v| == |t| && forall i | 0 <= i < |v| :: (v[i] == t[i] == Null) || Written(parse, v[i], item, t[i])
    ensures CoerceItems(parse, t, item) == Done(Arr(v), true, Arr(v))
    decreases item, 6
  {
    NullIsNotTaken(parse, item);
    forall i | 0 <= i < |v| ensures (v[i] == t[i] == Null) || Takes(CoerceValue(parse, t[i], item), v[i]) {
      if Written(parse, v[i], item, t[i]) {
        WrittenIsRead(parse, v[i], item, t[i]);
      }
    }
    hide CoerceValue, Written;
    assert CoerceItems(parse, t, item).Done?;
    assert CoerceItems(parse, t, item).result.items == v;
  }

  lemma {:induction false} ListIsRead(parse: FloatParser, v: Json, s: Schema, t: Json)
    requires s.kind == "array" && ListWritten(parse, v, s, t)
    ensures Takes(CoerceArray(parse, t, s), v)
    decreases s, 3
  {
    hide CoerceValue, CoerceArray, CoerceItems, Indexed, AsList;
    var texts: seq<Json> :| AsList(t, texts) && |texts| == |v.items| && forall i | 0 <= i < |texts| ::
         if s.items.None? then texts[i] == v.items[i]
         else (v.items[i] == texts[i] == Null) || Written(parse, v.items[i], s.items.value, texts[i]);
    ArrayOf(parse, s, t, texts);
    if s.items.Some? {
      ItemsAreRead(parse, v.items, s.items.value, texts);
    } else {
      assert texts == v.items;
    }
  }

  /** A list and the map that has its indices as keys are coerced to the same list. */
  lemma ArrayOf(parse: FloatParser, s: Schema, t: Json, texts: seq<Json>)
    requires s.kind == "array" && AsList(t, texts)
    ensures s.items.None? ==> Takes(CoerceArray(parse, t, s), Arr(texts))
    ensures s.items.Some? && CoerceItems(parse, texts, s.items.value).Done? && CoerceItems(parse, texts, s.items.value).ok ==>
      Takes(CoerceArray(parse, t, s), CoerceItems(parse, texts, s.items.value).inPlace)
  {
    hide CoerceValue, CoerceItems, Indexed, Index, Biggest, AtIndex, Collide;
    if t != Arr(texts) {
      ReadsBack(texts);
    }
  }

  // Values that are not taken.

  /** A value of the schema, or one the schema neither takes nor changes. */
  ghost predicate WrittenOrLeft(parse: FloatParser, v: Json, s: Schema, t: Json) {
    Written(parse, v, s, t) || (v == t && CoerceValue(parse, t, s) == Done(t, false, Null))
  }

  lemma ReadOrLeft(parse: FloatParser, v: Json, s: Schema, t: Json)
    requires WrittenOrLeft(parse, v, s, t)
    ensures var c := CoerceValue(parse, t, s); c.Done? && Kept(c) == v && (c.ok <==> Takes(c, v))
  {
    hide Written, CoerceValue;
    if Written(parse, v, s, t) {
      WrittenIsRead(parse, v, s, t);
    }
  }

  /** Parameters the schema does not take stay as they are, and do not keep the others from being read. */
  lemma ParamsPartlyRead(parse: FloatParser, s: Schema, v: map<string, Json>, t: map<string, Json>)
    requires v.Keys == t.Keys
    requires forall k | k in v :: if k in s.properties then WrittenOrLeft(parse, v[k], s.properties[k], t[k]) else t[k] == v[k]
    ensures CoerceParams(parse, s, t) == Done(Obj(v), true, Obj(v))
  {
    hide CoerceValue, Written, WrittenOrLeft;
    forall k | k in v && k in s.properties
      ensures var c := CoerceValue(parse, t[k], s.properties[k]); c.Done? && Kept(c) == v[k]
    {
      ReadOrLeft(parse, v[k], s.properties[k], t[k]);
    }
    assert CoerceParams(parse, s, t).Done?;
    assert CoerceParams(parse, s, t).result.fields == v;
  }

  /** The same for the fields of a map, which is taken exactly if all of them are, nulls aside. */
  lemma FieldsPartlyRead(parse: FloatParser, v: map<string, Json>, item: Schema, t: map<string, Json>)
    requires v.Keys == t.Keys && forall k | k in v :: WrittenOrLeft(parse, v[k], item, t[k])
    ensures var c := CoerceFields(parse, t, item);
      && c.Done? && c.inPlace == Obj(v)
      && (c.ok <==> forall k | k in v :: t[k] == Null || Takes(CoerceValue(parse, t[k], item), v[k]))
  {
    hide CoerceValue, Written, WrittenOrLeft;
    forall k | k in v ensures var c := CoerceValue(parse, t[k], item); c.Done? && Kept(c) == v[k] && (c.ok <==> Takes(c, v[k])) {
      ReadOrLeft(parse, v[k], item, t[k]);
    }
    assert CoerceFields(parse, t, item).Done?;
    assert CoerceFields(parse, t, item).inPlace.fields == v;
  }

  /** And for the items of a list, which keeps the ones that were read. */
  lemma ItemsPartlyRead(parse: FloatParser, v: seq<Json>, item: Schema, t: seq<Json>)
    requires |v| == |t| && forall i | 0 <= i < |v| :: WrittenOrLeft(parse, v[i], item, t[i])
    ensures var c := CoerceItems(parse, t, item);
      && c.Done? && c.inPlace == Arr(v)
      && (c.ok <==> forall i | 0 <= i < |v| :: t[i] == Null || Takes(CoerceValue(parse, t[i], item), v[i]))
  {
    hide CoerceValue, Written, WrittenOrLeft;
    forall i | 0 <= i < |v|
      ensures var c := CoerceValue(parse, t[i], item); c.Done? && Kept(c) == v[i] && (c.ok <==> Takes(c, v[i]))
    {
      ReadOrLeft(parse, v[i], item, t[i]);
    }
    assert CoerceItems(parse, t, item).Done?;
    assert CoerceItems(parse, t, item).inPlace.items == v;
  }

  /** An item of a list of objects: an object that was written, or something else. */
  ghost predicate ObjectOrOther(parse: FloatParser, v: Json, item: Schema, t: Json) {
    if t.Obj? then v.Obj? && Written(parse, v, item, t) else v == t
  }

  lemma ObjectRead(parse: FloatParser, v: Json, item: Schema, t: Json)
    requires item.properties != map[] && ObjectOrOther(parse, v, item, t)
    ensures var c := CoerceValue(parse, t, item); c.Done? && c.inPlace == v && (c.ok <==> t.Obj?)
  {
    if t.Obj? {
      ParamsAreRead(parse, v.fields, item, t.fields);
      hide CoerceParams;
    }
  }

  /**
   * A map that was to be a list of objects, and holds something else as well, stays a map; the objects in it have
   * been coerced all the same.
   */
  lemma MapKeepsObjects(parse: FloatParser, s: Schema, v: map<string, Json>, t: map<string, Json>, other: string)
    requires s.kind == "array" && s.items.Some? && s.items.value.properties != map[]
    requires v.Keys == t.Keys && IndexKeyed(t.Keys) && !Collide(t.Keys) && Biggest(t.Keys) <= 1000
    requires forall k | k in t :: ObjectOrOther(parse, v[k], s.items.value, t[k])
    requires other in t && !t[other].Obj? && t[other] != Null
    ensures var c := CoerceArray(parse, Obj(t), s); c.Done? && !c.ok && c.inPlace == Obj(v)
  {
    hide CoerceValue, Index, Biggest, Collide, ObjectOrOther;
    var item, a := s.items.value, SliceOf(t);
    forall i | 0 <= i < |a| ensures CoerceValue(parse, a[i], item).Done? {
      NullIsNotTaken(parse, item);
      if k :| k in t && Index(k) == Some(i) {
        AtItsIndex(t, k);
        ObjectRead(parse, v[k], item, t[k]);
      }
    }
    forall k | k in t ensures InPlaceOr(CoerceValue(parse, t[k], item), t[k]) == v[k] {
      ObjectRead(parse, v[k], item, t[k]);
    }
    assert InPlace(parse, t, item) == v;
    AtItsIndex(t, other);
    ObjectRead(parse, v[other], item, t[other]);
    assert !Fine(CoerceValue(parse, a[Index(other).value], item), a[Index(other).value]);
  }

  /** An index over 1000 is an error, in a map that is to be a list. */
  lemma TooLargeIsError(parse: FloatParser, s: Schema, m: map<string, Json>, k: string)
    requires s.kind == "array" && IndexKeyed(m.Keys) && k in m && Index(k).value > 1000
    ensures CoerceArray(parse, Obj(m), s) == Error(false, Some(Obj(m)))
  {
    hide Index;
  }

  /** A map with a key that is no index is no list. */
  lemma NamedIsNoList(parse: FloatParser, s: Schema, m: map<string, Json>)
    requires s.kind == "array" && !IndexKeyed(m.Keys)
    ensures CoerceArray(parse, Obj(m), s) == Done(Obj(m), false, Null)
  {
  }

  /** An error anywhere, the first item included, is an error of the whole. */
  lemma ErrorsStop(parse: FloatParser, s: Schema, m: map<string, Json>, k: string, a: seq<Json>, i: nat)
    requires k in m && i < |a|
    ensures k in s.properties && CoerceValue(parse, m[k], s.properties[k]).Error? ==> CoerceParams(parse, s, m).Error?
    ensures CoerceValue(parse, m[k], s).Error? ==> CoerceFields(parse, m, s).Error?
    ensures CoerceValue(parse, a[i], s).Error? ==> CoerceItems(parse, a, s).Error?
  {
    hide CoerceValue, LeftInMap, LeftInList;
  }

  // What is left by an error where the order makes no difference.

  /** A map is left as it was if each value is: the ones that fail with an error, and the ones that do not. */
  lemma UntouchedByError(m: map<string, Json>, cs: map<string, Coercion>)
    requires cs.Keys <= m.Keys
    requires forall k | k in cs :: (cs[k].Done? && Kept(cs[k]) == m[k]) || (cs[k].Error? && cs[k].left == Some(m[k]))
    ensures LeftInMap(m, cs) == Some(Obj(m))
  {
  }

  /** It is left with one value changed if only the one that fails with an error is. */
  lemma OneTouchedByError(m: map<string, Json>, cs: map<string, Coercion>, e: string, left: Json)
    requires cs.Keys <= m.Keys && e in cs && cs[e].Error? && cs[e].left == Some(left)
    requires forall k | k in cs && k != e :: cs[k].Done? && Kept(cs[k]) == m[k]
    ensures LeftInMap(m, cs) == Some(Obj(m[e := left]))
  {
    if left == m[e] {
      assert m[e := left] == m;
    } else {
      assert OnlyError(m, cs, e);
    }
  }

  /** A list is left with the items before the first error coerced, and that one as the error has left it. */
  lemma ListLeftByError(a: seq<Json>, cs: seq<Coercion>, n: nat, left: Json)
    requires |cs| == |a| && n < |a| && cs[n].Error? && cs[n].left == Some(left) && forall i | 0 <= i < n :: cs[i].Done?
    ensures var items := LeftInList(a, cs);
      && items.Some? && |items.value.0| == |items.value.1| == |a|
      && forall i | 0 <= i < |a| ::
           && items.value.0[i] == (if i < n then cs[i].inPlace else if i == n then left else a[i])
           && items.value.1[i] == (if i < n then Kept(cs[i]) else if i == n then left else a[i])
  {
    assert FirstError(cs) == n;
  }

  /** An error in an object branch ends the coercion; one in any other branch leaves it to the next. */
  lemma BranchErrors(parse: FloatParser, s: Schema, v: Json, i: nat)
    requires i < |s.anyOf| && CoerceValue(parse, v, s.anyOf[i]).Error? && CoerceValue(parse, v, s.anyOf[i]).left == Some(v)
    ensures s.anyOf[i].properties != map[] ==> CoerceAnyOf(parse, v, s, i) == Error(true, Some(v))
    ensures s.anyOf[i].properties == map[] && s.anyOf[i].anyOf == [] ==>
      CoerceAnyOf(parse, v, s, i) == CoerceAnyOf(parse, v, s, i + 1)
  {
    ErrorFlags(parse, v, s.anyOf[i]);
    hide CoerceValue;
  }

  lemma ErrorFlags(parse: FloatParser, v: Json, s: Schema)
    requires CoerceValue(parse, v, s).Error?
    ensures s.properties != map[] ==> CoerceValue(parse, v, s).ok
    ensures s.properties == map[] && s.anyOf == [] ==> !CoerceValue(parse, v, s).ok
  {
    hide CoerceArray, CoerceParams, CoerceFields;
    if s.properties != map[] {
      ParamsError(parse, v, s);
    } else if s.anyOf == [] && !IsPrimitive(s) {
      ListError(parse, v, s);
      assert CoerceAnyOf(parse, v, s, 0) == CoerceArray(parse, v, s);
      if s.additionalProperties.Some? && v.Obj? {
        var c := CoerceFields(parse, v.fields, s.additionalProperties.value);
        FieldsError(parse, v.fields, s.additionalProperties.value);
        if c.Done? {
          ListError(parse, c.inPlace, s);
          assert CoerceAnyOf(parse, c.inPlace, s, 0) == CoerceArray(parse, c.inPlace, s);
        }
      }
    }
  }

  lemma ParamsError(parse: FloatParser, v: Json, s: Schema)
    ensures v.Obj? && CoerceParams(parse, s, v.fields).Error? ==> CoerceParams(parse, s, v.fields).ok
  {
    hide CoerceValue, LeftInMap;
  }

  lemma FieldsError(parse: FloatParser, m: map<string, Json>, item: Schema)
    ensures CoerceFields(parse, m, item).Error? ==> !CoerceFields(parse, m, item).ok
  {
    hide CoerceValue, LeftInMap;
  }

  lemma ListError(parse: FloatParser, v: Json, s: Schema)
    ensures CoerceArray(parse, v, s).Error? ==> !CoerceArray(parse, v, s).ok
  {
    hide CoerceValue, Index, Biggest, AtIndex, Collide;
  }

  /** All parameters of a request at once. */
  lemma ParamsRoundTrip(parse: FloatParser, s: Schema, v: map<string, Json>, t: map<string, Json>)
    requires v.Keys == t.Keys
    requires forall k | k in v :: if k in s.properties then Written(parse, v[k], s.properties[k], t[k]) else t[k] == v[k]
    ensures CoerceParams(parse, s, t) == Done(Obj(v), true, Obj(v))
  {
    ParamsAreRead(parse, v, s, t);
  }

  /** Exactly these twelve words are booleans. */
  lemma BooleanWords(parse: FloatParser, t: string)
    ensures CoerceValue(parse, Str(t), EMPTY_SCHEMA.(kind := "boolean")) ==
      if t == "1" || t == "t" || t == "T" || t == "TRUE" || t == "true" || t == "True" then Done(Str(t), true, Bool(true))
      else if t == "0" || t == "f" || t == "F" || t == "FALSE" || t == "false" || t == "False" then Done(Str(t), true, Bool(false))
      else Done(Str(t), false, Null)
  {
  }

  /** A string that is listed, or an integer: the schema of the two lemmas below. */
  predicate ListedOrInteger(s: Schema) {
    && s.properties == map[] && s.kind == "" && s.additionalProperties.None? && |s.anyOf| == 2
    && s.anyOf[0].properties == map[] && s.anyOf[0].kind == "string" && s.anyOf[0].enumeration.Some?
    && s.anyOf[1].properties == map[] && s.anyOf[1].kind == "integer" && s.anyOf[1].enumeration.None?
  }

  /** A numeral passes over an enumeration of strings to the integer branch. */
  lemma NumeralPassesEnumeration(parse: FloatParser, s: Schema, n: int)
    requires ListedOrInteger(s) && Fits(n) && parse(PrintInt(n)).Some?
    ensures CoerceValue(parse, Str(PrintInt(n)), s) == Done(Str(PrintInt(n)), true, Num(n as real))
  {
    var t := Str(PrintInt(n));
    IntPrintThenRead(n);
    assert CoerceValue(parse, t, s.anyOf[0]) == Done(t, false, Null);
    assert CoerceValue(parse, t, s.anyOf[1]) == Done(t, true, Num(n as real));
    hide CoerceValue;
    assert CoerceAnyOf(parse, t, s, 0) == CoerceAnyOf(parse, t, s, 1);
    PassesToBranches(parse, t, s);
  }

  /** Any other string is taken by the enumeration. */
  lemma WordStaysInEnumeration(parse: FloatParser, s: Schema, t: string)
    requires ListedOrInteger(s) && parse(t).None?
    ensures CoerceValue(parse, Str(t), s) == Done(Str(t), true, Str(t))
  {
    assert CoerceValue(parse, Str(t), s.anyOf[0]) == Done(Str(t), true, Str(t));
    hide CoerceValue;
    PassesToBranches(parse, Str(t), s);
  }

  lemma PassesToBranches(parse: FloatParser, t: Json, s: Schema)
    requires s.properties == map[] && !IsPrimitive(s) && s.additionalProperties.None?
    ensures CoerceValue(parse, t, s) == CoerceAnyOf(parse, t, s, 0)
  {
    hide CoerceAnyOf;
  }
}
