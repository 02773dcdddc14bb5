/** Exactly when an array schema with `additionalProperties` coerces a value differently the second time. */
module CoercerArrays {
  import opened Json
  import opened OpenApi
  import opened Coercer
  import opened CoercerLaws
  import opened CoercerProgress

  /** An array schema that also says what the fields of a map are. */
  ghost predicate FieldArray(s: Schema) {
    && s.properties == map[] && s.anyOf == [] && s.kind == "array"
    && s.additionalProperties.Some? && Plain(s.additionalProperties.value)
    && (s.items.Some? ==> Plain(s.items.value))
  }

  /** Coercing the kept value again keeps it. */
  ghost predicate Settles(parse: FloatParser, v: Json, s: Schema) {
    var c := CoerceValue(parse, v, s);
    c.Done? ==> var d := CoerceValue(parse, Kept(c), s); d.Done? && Kept(d) == Kept(c)
  }

  /** The fields first, and the list if they do not all coerce. */
  lemma FieldsThenList(parse: FloatParser, v: Json, s: Schema)
    requires FieldArray(s)
    ensures CoerceValue(parse, v, s) ==
      if !v.Obj? then CoerceArray(parse, v, s)
      else
        var f := CoerceFields(parse, v.fields, s.additionalProperties.value);
        if f.Done? && !f.ok then CoerceArray(parse, f.inPlace, s) else f
  {
    hide CoerceFields, CoerceArray;
    assert forall x :: CoerceAnyOf(parse, x, s, 0) == CoerceArray(parse, x, s);
  }

  lemma ListAgain(parse: FloatParser, v: Json, s: Schema)
    requires FieldArray(s) && CoerceArray(parse, v, s).Done?
    ensures var c := CoerceArray(parse, v, s);
      && (var d := CoerceArray(parse, c.inPlace, s); d.Done? && d.inPlace == c.inPlace && (d.ok ==> c.ok))
      && (c.ok ==> c.result.Arr? && var d := CoerceArray(parse, c.result, s); d.Done? && Kept(d) == c.result)
      && (v.Obj? ==> c.inPlace.Obj?) && (!v.Obj? ==> !c.inPlace.Obj?)
  {
    var t := s.(additionalProperties := None);
    ArrayStable(parse, v, t);
    var c := CoerceArray(parse, v, s);
    hide CoerceValue, CoerceItems, Index, Biggest, AtIndex;
    assert forall x :: CoerceArray(parse, x, t) == CoerceArray(parse, x, s);
    ArrayValue(parse, v, t);
    ArrayValue(parse, c.inPlace, t);
    ArrayValue(parse, c.result, t);
    ListShape(parse, v, s);
  }

  lemma ListShape(parse: FloatParser, v: Json, s: Schema)
    ensures var c := CoerceArray(parse, v, s);
      c.Done? ==> (c.ok ==> c.result.Arr?) && (c.inPlace.Obj? <==> v.Obj?)
  {
    if s.items.Some? {
      match v
      case Arr(a) => ItemsAdvance(parse, a, s.items.value);
      case Obj(m) =>
        if IndexKeyed(m.Keys) {
          ItemsAdvance(parse, SliceOf(m), s.items.value);
        }
      case _ =>
    }
    hide CoerceItems, CoerceValue;
  }

  /** An index-keyed map whose list fails to coerce and changes nothing in place. */
  ghost predicate StaysMap(parse: FloatParser, m: map<string, Json>, s: Schema) {
    && IndexKeyed(m.Keys) && Biggest(m.Keys) <= MAX_SLICE_SIZE && !Collide(m.Keys) && s.items.Some?
    && var l := CoerceItems(parse, SliceOf(m), s.items.value);
       l.Done? && !l.ok && InPlace(parse, m, s.items.value) == m
  }

  /** Fields that coerce, but not again: what the list makes of them decides. */
  lemma ListOfCoerced(parse: FloatParser, m: map<string, Json>, s: Schema)
    requires FieldArray(s)
    ensures var d := CoerceArray(parse, Obj(m), s);
      d.Done? && Kept(d) == Obj(m) <==> !IndexKeyed(m.Keys) || StaysMap(parse, m, s)
  {
    if IndexKeyed(m.Keys) && s.items.Some? {
      ItemsAdvance(parse, SliceOf(m), s.items.value);
    }
    hide CoerceItems, CoerceValue, Index, Biggest, AtIndex;
  }

  /**
   * When coercion settles at once. If all fields coerce: if they do so again, or the keys are not indices, or the
   * list that is then tried fails and changes nothing. If not, the list is tried at once: if it coerces, or if
   * coercing the fields it has left in place changes nothing.
   */
  lemma SettlesExactly(parse: FloatParser, v: Json, s: Schema)
    requires FieldArray(s) && CoerceValue(parse, v, s).Done?
    ensures Settles(parse, v, s) <==>
      (v.Obj? ==>
        var item := s.additionalProperties.value;
        var f := CoerceFields(parse, v.fields, item);
        if f.Done? && f.ok then
          f.result.Obj? && var m := f.result.fields;
          var d := CoerceFields(parse, m, item);
          (d.Done? && d.ok) || !IndexKeyed(m.Keys) || StaysMap(parse, m, s)
        else
          var c := CoerceValue(parse, v, s);
          c.ok || (c.inPlace.Obj? && var g := CoerceFields(parse, c.inPlace.fields, item); g.Done? && g.inPlace == c.inPlace))
  {
    hide CoerceFields, CoerceArray, CoerceValue, Plain, StaysMap;
    var c, item := CoerceValue(parse, v, s), s.additionalProperties.value;
    FieldsThenList(parse, v, s);
    FieldsThenList(parse, Kept(c), s);
    if !v.Obj? {
      ListAgain(parse, v, s);
    } else {
      var f := CoerceFields(parse, v.fields, item);
      if f.Done? {
        FieldsSettle(parse, v.fields, item);
        if f.ok {
          ListOfCoerced(parse, f.result.fields, s);
        } else {
          ListAgain(parse, f.inPlace, s);
          if !c.ok {
            FieldsAgain(parse, c.inPlace.fields, s, c.ok);
          }
        }
      }
    }
  }

  /** Coercing fields a failed list has left: any change is for good. */
  lemma FieldsAgain(parse: FloatParser, q: map<string, Json>, s: Schema, ok: bool)
    requires FieldArray(s)
    requires var e := CoerceArray(parse, Obj(q), s); e.Done? && e.inPlace == Obj(q) && !e.ok
    ensures var g, d := CoerceFields(parse, q, s.additionalProperties.value), CoerceValue(parse, Obj(q), s);
      d.Done? && Kept(d) == Obj(q) <==> g.Done? && g.inPlace == Obj(q)
  {
    hide CoerceFields, CoerceArray, CoerceValue, Plain, Weight;
    FieldsThenList(parse, Obj(q), s);
    var g := CoerceFields(parse, q, s.additionalProperties.value);
    if g.Done? {
      FieldsAdvance(parse, q, s.additionalProperties.value);
      FieldsSettle(parse, q, s.additionalProperties.value);
      if !g.ok {
        ArrayAdvances(parse, g.inPlace, s);
      }
    }
  }

  /** All fields of a map coerce, but not all of what they become coerces again. */
  ghost predicate CoerceOnce(parse: FloatParser, m: map<string, Json>, item: Schema) {
    var f := CoerceFields(parse, m, item);
    && f.Done? && f.ok && f.result.Obj?
    && var d := CoerceFields(parse, f.result.fields, item);
       !(d.Done? && d.ok)
  }

  /** An array of underspecified items: it fails to settle exactly if its fields coerce, but not again, and its keys are indices. */
  lemma ArrayOfAnythingSettles(parse: FloatParser, v: Json, s: Schema)
    requires FieldArray(s) && s.items.None? && CoerceValue(parse, v, s).Done?
    ensures !Settles(parse, v, s) <==>
      v.Obj? && IndexKeyed(v.fields.Keys) && CoerceOnce(parse, v.fields, s.additionalProperties.value)
  {
    hide CoerceValue, Settles, Index, Plain;
    SettlesExactly(parse, v, s);
    FieldsThenList(parse, v, s);
    if v.Obj? {
      var item := s.additionalProperties.value;
      var f := CoerceFields(parse, v.fields, item);
      if f.Done? {
        FieldsSettle(parse, v.fields, item);
        assert f.result.fields.Keys == v.fields.Keys;
        if !f.ok {
          UnlistedFields(parse, f.inPlace.fields, s);
        }
      }
    }
  }

  lemma UnlistedFields(parse: FloatParser, m: map<string, Json>, s: Schema)
    requires s.kind == "array" && s.items.None?
    ensures var c := CoerceArray(parse, Obj(m), s); c.Done? ==> c.ok || c.inPlace == Obj(m)
  {
    hide Index, Biggest, AtIndex;
  }

  predicate ReadsToOther(item: Schema) {
    item.properties == map[] && (item.kind == "boolean" || item.kind == "integer" || item.kind == "number")
  }

  /**
   * With boolean, integer or number fields this can be told beforehand, whatever the schema of the list's items:
   * all keys are indices, all values are null or coerce, and one is not null. If there is a schema for the items,
   * none of those values suits it, and the map stays as it is unless an index is too large or named twice.
   */
  lemma ArrayOfReadFieldsSettles(parse: FloatParser, m: map<string, Json>, s: Schema)
    requires FieldArray(s) && ReadsToOther(s.additionalProperties.value)
    requires CoerceValue(parse, Obj(m), s).Done?
    ensures !Settles(parse, Obj(m), s) <==>
      && IndexKeyed(m.Keys)
      && (forall k | k in m :: Fine(CoerceValue(parse, m[k], s.additionalProperties.value), m[k]))
      && (exists k | k in m :: m[k] != Null)
      && (s.items.Some? ==> Biggest(m.Keys) > MAX_SLICE_SIZE || Collide(m.Keys))
  {
    hide Settles, Index, Plain, CoerceFields, CoerceValue, StaysMap, Collide, Biggest;
    SettlesExactly(parse, Obj(m), s);
    FieldsThenList(parse, Obj(m), s);
    var item := s.additionalProperties.value;
    ReadFields(parse, m, item);
    var f := CoerceFields(parse, m, item);
    forall k | k in m ensures ReadTwice(parse, m[k], item) {
      ReadOnce(parse, m[k], item);
    }
    if f.ok {
      ReadFields(parse, f.result.fields, item);
      if exists k | k in m :: m[k] != Null {
        ReadStaysMap(parse, m, f.result.fields, s);
      }
    } else {
      FieldsSettle(parse, m, item);
      FailedListSettles(parse, f.result.fields, s);
    }
  }

  /** What coercing by a boolean, integer or number schema makes of a value, once and twice. */
  ghost predicate ReadTwice(parse: FloatParser, v: Json, item: Schema) {
    var c := CoerceValue(parse, v, item);
    && c.Done? && (Kept(c) == Null <==> v == Null) && (Kept(c).Str? ==> StaysUnread(parse, Kept(c), item))
    && (Fine(c, v) ==> !Kept(c).Str? && !Kept(c).Obj? && !Kept(c).Arr?)
    && (Fine(c, v) ==> (Fine(CoerceValue(parse, Kept(c), item), Kept(c)) <==> v == Null))
  }

  ghost predicate StaysUnread(parse: FloatParser, v: Json, item: Schema) {
    var c := CoerceValue(parse, v, item);
    c.Done? && Kept(c) == v
  }

  /** What primitive items do to a map. */
  lemma ReadFields(parse: FloatParser, m: map<string, Json>, item: Schema)
    requires ReadsToOther(item)
    ensures var f := CoerceFields(parse, m, item);
      && f.Done? && f.result.Obj? && f.result.fields.Keys == m.Keys
      && (f.ok <==> forall k | k in m :: Fine(CoerceValue(parse, m[k], item), m[k]))
      && forall k | k in m :: f.result.fields[k] == Kept(CoerceValue(parse, m[k], item))
  {
    forall k | k in m ensures CoerceValue(parse, m[k], item).Done? {
      ReadOnce(parse, m[k], item);
    }
    hide CoerceValue;
  }

  lemma ReadOnce(parse: FloatParser, v: Json, item: Schema)
    requires ReadsToOther(item)
    ensures CoerceValue(parse, v, item).Done? && ReadTwice(parse, v, item)
  {
  }

  /** A value that is neither a string nor a map nor a list stays as it is. */
  lemma AtomStays(parse: FloatParser, v: Json, s: Schema)
    requires Plain(s) && !v.Str? && !v.Obj? && !v.Arr?
    ensures CoerceValue(parse, v, s) == Done(v, false, Null)
  {
    if s.properties == map[] && !IsPrimitive(s) {
      assert CoerceAnyOf(parse, v, s, 0) == CoerceArray(parse, v, s);
    }
  }

  /** The values that were read do not suit the items of the list. */
  lemma ReadStaysMap(parse: FloatParser, m: map<string, Json>, n: map<string, Json>, s: Schema)
    requires FieldArray(s) && n.Keys == m.Keys && exists k | k in m :: m[k] != Null
    requires forall k | k in n :: !n[k].Str? && !n[k].Obj? && !n[k].Arr? && (n[k] == Null <==> m[k] == Null)
    ensures StaysMap(parse, n, s) <==>
      IndexKeyed(m.Keys) && Biggest(m.Keys) <= MAX_SLICE_SIZE && !Collide(m.Keys) && s.items.Some?
  {
    hide CoerceValue, Index, Collide, Plain;
    if IndexKeyed(m.Keys) && !Collide(m.Keys) && s.items.Some? {
      var item, a := s.items.value, SliceOf(n);
      forall i | 0 <= i < |a| ensures CoerceValue(parse, a[i], item) == Done(a[i], false, Null) {
        AtomStays(parse, a[i], item);
      }
      forall k | k in n ensures CoerceValue(parse, n[k], item) == Done(n[k], false, Null) {
        AtomStays(parse, n[k], item);
      }
      assert InPlace(parse, n, item) == n;
      var k :| k in m && m[k] != Null;
      AtItsIndex(n, k);
      assert a[Index(k).value] == n[k];
    }
  }

  /** A list that fails to coerce leaves no string that was not there. */
  lemma InPlaceStrings(parse: FloatParser, v: Json, s: Schema)
    requires Plain(s)
    ensures InPlaceOr(CoerceValue(parse, v, s), v).Str? ==> InPlaceOr(CoerceValue(parse, v, s), v) == v
  {
    hide CoerceParams, CoerceFields, CoerceArray, CoerceAnyOf;
    if s.properties != map[] {
      if v.Obj? {
        ParamsShape(parse, s, v.fields);
      }
    } else if IsPrimitive(s) {
    } else if s.additionalProperties.Some? {
      FieldsValue(parse, v, s);
      if v.Obj? && CoerceFields(parse, v.fields, s.additionalProperties.value).Done? {
        FieldsSettle(parse, v.fields, s.additionalProperties.value);
      }
    } else {
      ArrayValue(parse, v, s);
      ListInPlace(parse, v, s);
    }
  }

  lemma ListInPlace(parse: FloatParser, v: Json, s: Schema)
    ensures var c := CoerceArray(parse, v, s); c.Done? && c.inPlace.Str? ==> c.inPlace == v
  {
    if s.items.Some? && v.Arr? {
      ItemsAdvance(parse, v.items, s.items.value);
    }
    hide CoerceItems;
  }

  /** Fields that failed to be read are not read from what a failing list leaves. */
  lemma FailedListSettles(parse: FloatParser, n: map<string, Json>, s: Schema)
    requires FieldArray(s) && ReadsToOther(s.additionalProperties.value)
    requires forall k | k in n :: n[k].Str? ==> StaysUnread(parse, n[k], s.additionalProperties.value)
    ensures var c := CoerceArray(parse, Obj(n), s);
      c.Done? && !c.ok ==>
        c.inPlace.Obj? && var g := CoerceFields(parse, c.inPlace.fields, s.additionalProperties.value); g.Done? && g.inPlace == c.inPlace
  {
    hide CoerceFields, CoerceValue, Plain, Index, Biggest, Collide, CoerceItems;
    var c, item := CoerceArray(parse, Obj(n), s), s.additionalProperties.value;
    if c.Done? && !c.ok {
      var q := c.inPlace.fields;
      assert q == n || q == InPlace(parse, n, s.items.value);
      forall k | k in q ensures CoerceValue(parse, q[k], item).Done? && Kept(CoerceValue(parse, q[k], item)) == q[k] {
        if s.items.Some? {
          InPlaceStrings(parse, n[k], s.items.value);
        }
        OnlyStringsRead(parse, q[k], item);
      }
      ReadFields(parse, q, item);
      FieldsSettle(parse, q, item);
    }
  }

  lemma OnlyStringsRead(parse: FloatParser, v: Json, item: Schema)
    requires ReadsToOther(item)
    ensures CoerceValue(parse, v, item).Done? && (!v.Str? ==> Kept(CoerceValue(parse, v, item)) == v)
  {
  }

  /** The map `{"0": "5"}` as an array whose fields are integers. */
  lemma ReadThenListed(parse: FloatParser)
    ensures var s := EMPTY_SCHEMA.(kind := "array", additionalProperties := Some(EMPTY_SCHEMA.(kind := "integer")));
      !Settles(parse, Obj(map["0" := Str("5")]), s)
  {
    var item := EMPTY_SCHEMA.(kind := "integer");
    var s := EMPTY_SCHEMA.(kind := "array", additionalProperties := Some(item));
    var m := map["0" := Str("5")];
    assert Decimal.ParseInt("5") == Some(5) && Index("0") == Some(0) by {
      assert "0"[..0] == "" && "5"[..0] == "";
    }
    assert CoerceValue(parse, Str("5"), item) == Done(Str("5"), true, Num(5.0));
    ReadFields(parse, m, item);
    FieldsThenList(parse, Obj(m), s);
    assert "0" in m && m["0"] != Null;
    hide CoerceFields, CoerceValue, Settles;
    ArrayOfReadFieldsSettles(parse, m, s);
  }
}
