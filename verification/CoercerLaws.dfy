/** Coercing what has already been coerced changes nothing. */
module CoercerLaws {
  import opened Json
  import opened OpenApi
  import opened Coercer

  /** No `anyOf`, and no `additionalProperties` on an array, wherever the coercion looks. */
  ghost predicate Plain(s: Schema)
    decreases s
  {
    if s.properties != map[] then forall k | k in s.properties :: Plain(s.properties[k])
    else
      IsPrimitive(s) || (
        && s.anyOf == []
        && (s.additionalProperties.Some? ==> s.kind != "array" && Plain(s.additionalProperties.value))
        && (s.items.Some? ==> Plain(s.items.value)))
  }

  /** Coercing the in-place value again, or the result, gives the same again, and null stays null. */
  ghost predicate Stable(parse: FloatParser, c: Coercion, v: Json, s: Schema) {
    c.Done? ==>
      && (c.inPlace == Null <==> v == Null)
      && (var d := CoerceValue(parse, c.inPlace, s); d.Done? && d.inPlace == c.inPlace && (d.ok ==> c.ok))
      && (c.ok ==> var d := CoerceValue(parse, c.result, s); d.Done? && Kept(d) == c.result)
  }

  /** What holds of the value a field or an item holds after coercion. */
  lemma KeptStays(parse: FloatParser, v: Json, s: Schema)
    requires var c := CoerceValue(parse, v, s); c.Done? && Stable(parse, c, v, s)
    ensures var c := CoerceValue(parse, v, s);
      var d := CoerceValue(parse, Kept(c), s);
      d.Done? && Kept(d) == Kept(c) && (Fine(d, Kept(c)) ==> Fine(c, v))
  {
    hide CoerceValue;
  }

  lemma ArrayValue(parse: FloatParser, v: Json, s: Schema)
    requires s.properties == map[] && !IsPrimitive(s) && s.anyOf == [] && s.additionalProperties.None?
    ensures CoerceValue(parse, v, s) == CoerceArray(parse, v, s)
  {
    assert CoerceAnyOf(parse, v, s, 0) == CoerceArray(parse, v, s);
  }

  lemma FieldsValue(parse: FloatParser, v: Json, s: Schema)
    requires s.properties == map[] && !IsPrimitive(s) && s.anyOf == [] && s.additionalProperties.Some? && s.kind != "array"
    ensures CoerceValue(parse, v, s) ==
      if !v.Obj? then Done(v, false, Null)
      else
        var c := CoerceFields(parse, v.fields, s.additionalProperties.value);
        if c.Done? && !c.ok then Done(c.inPlace, false, Null) else c
  {
    hide CoerceFields;
    assert forall x :: CoerceArray(parse, x, s) == Done(x, false, Null);
    assert forall x :: CoerceAnyOf(parse, x, s, 0) == CoerceArray(parse, x, s);
  }

  lemma ObjectValue(parse: FloatParser, v: Json, s: Schema)
    requires s.properties != map[] && v.Obj?
    ensures CoerceValue(parse, v, s) == CoerceParams(parse, s, v.fields)
  {
  }

  lemma {:induction false} ValueStable(parse: FloatParser, v: Json, s: Schema)
    requires Plain(s)
    ensures Stable(parse, CoerceValue(parse, v, s), v, s)
    decreases s, 2
  {
    if s.properties != map[] {
      if v.Obj? {
        ParamsStable(parse, s, v.fields);
        ObjectValue(parse, v, s);
        var c := CoerceParams(parse, s, v.fields);
        if c.Done? {
          ObjectValue(parse, c.result, s);
        }
      }
    } else if IsPrimitive(s) {
    } else if s.additionalProperties.Some? {
      FieldsStable(parse, v, s);
    } else {
      ArrayStable(parse, v, s);
    }
  }

  lemma {:induction false} ParamsStable(parse: FloatParser, s: Schema, data: map<string, Json>)
    requires forall k | k in s.properties :: Plain(s.properties[k])
    ensures var c := CoerceParams(parse, s, data);
      c.Done? ==> c.ok && c.inPlace == c.result && c.result.Obj? && CoerceParams(parse, s, c.result.fields) == c
    decreases s, 1
  {
    var c := CoerceParams(parse, s, data);
    if c.Done? {
      var after := c.result.fields;
      forall k | k in data && k in s.properties
        ensures var d := CoerceValue(parse, after[k], s.properties[k]); d.Done? && Kept(d) == after[k]
      {
        ValueStable(parse, data[k], s.properties[k]);
        KeptStays(parse, data[k], s.properties[k]);
      }
      hide CoerceValue;
      assert c.result == CoerceParams(parse, s, after).result;
    }
  }

  lemma {:induction false} FieldsStable(parse: FloatParser, v: Json, s: Schema)
    requires s.additionalProperties.Some? && s.kind != "array" && s.anyOf == [] && Plain(s.additionalProperties.value)
    requires s.properties == map[] && !IsPrimitive(s)
    ensures Stable(parse, CoerceValue(parse, v, s), v, s)
    decreases s, 1
  {
    var item := s.additionalProperties.value;
    FieldsValue(parse, v, s);
    if v.Obj? && CoerceFields(parse, v.fields, item).Done? {
      FieldsSettle(parse, v.fields, item);
      var c := CoerceFields(parse, v.fields, item);
      FieldsValue(parse, c.result, s);
      hide CoerceValue, CoerceFields;
    }
  }

  lemma {:induction false} FieldsSettle(parse: FloatParser, m: map<string, Json>, item: Schema)
    requires Plain(item) && CoerceFields(parse, m, item).Done?
    ensures var c := CoerceFields(parse, m, item);
      c.result.Obj? && c.inPlace == c.result
      && var d := CoerceFields(parse, c.result.fields, item);
         d.Done? && d.inPlace == d.result == c.result && (d.ok ==> c.ok)
    decreases item, 3
  {
    var c := CoerceFields(parse, m, item);
    var after := c.result.fields;
    forall k | k in m
      ensures var d := CoerceValue(parse, after[k], item);
        d.Done? && Kept(d) == after[k] && (Fine(d, after[k]) ==> Fine(CoerceValue(parse, m[k], item), m[k]))
    {
      ValueStable(parse, m[k], item);
      KeptStays(parse, m[k], item);
    }
    hide CoerceValue;
    assert c.result == CoerceFields(parse, after, item).result;
  }

  lemma {:induction false} ItemsStable(parse: FloatParser, a: seq<Json>, item: Schema)
    requires Plain(item)
    ensures var c := CoerceItems(parse, a, item);
      c.Done? ==>
        && c.result.Arr? && c.inPlace == c.result
        && var d := CoerceItems(parse, c.result.items, item);
           d.Done? && d.inPlace == d.result == c.result && (d.ok ==> c.ok)
    decreases item, 3
  {
    var c := CoerceItems(parse, a, item);
    if c.Done? {
      var after := c.result.items;
      forall i | 0 <= i < |a|
        ensures var d := CoerceValue(parse, after[i], item);
          d.Done? && Kept(d) == after[i] && (Fine(d, after[i]) ==> Fine(CoerceValue(parse, a[i], item), a[i]))
      {
        ValueStable(parse, a[i], item);
        KeptStays(parse, a[i], item);
      }
      hide CoerceValue;
      assert c.result == CoerceItems(parse, after, item).result;
    }
  }

  /** Without colliding keys every value of the map is at its index. */
  lemma AtItsIndex(m: map<string, Json>, k: string)
    requires k in m && IndexKeyed(m.Keys) && !Collide(m.Keys)
    ensures Index(k).value <= Biggest(m.Keys) && AtIndex(m, Index(k).value) == m[k]
  {
  }

  /** A list made from a map that then fails to coerce leaves the map with its values changed in place. */
  lemma {:induction false} MapStable(parse: FloatParser, m: map<string, Json>, item: Schema)
    requires Plain(item) && IndexKeyed(m.Keys) && !Collide(m.Keys) && CoerceItems(parse, SliceOf(m), item).Done?
    ensures var after := InPlace(parse, m, item);
      && after.Keys == m.Keys
      && var c, d := CoerceItems(parse, SliceOf(m), item), CoerceItems(parse, SliceOf(after), item);
         && d.Done? && (d.ok ==> c.ok)
         && after == InPlace(parse, after, item)
    decreases item, 4
  {
    hide CoerceValue, AtIndex, Index;
    var after := InPlace(parse, m, item);
    forall i | 0 <= i < |SliceOf(m)|
      ensures var c, d := CoerceValue(parse, SliceOf(m)[i], item), CoerceValue(parse, SliceOf(after)[i], item);
        d.Done? && (Fine(d, SliceOf(after)[i]) ==> Fine(c, SliceOf(m)[i]))
    {
      ItemOfMapStable(parse, m, item, i);
    }
    InPlaceTwice(parse, m, item);
    assert |SliceOf(m)| == |SliceOf(after)|;
  }

  lemma {:induction false} InPlaceTwice(parse: FloatParser, m: map<string, Json>, item: Schema)
    requires Plain(item)
    ensures var after := InPlace(parse, m, item); after == InPlace(parse, after, item)
    decreases item, 3
  {
    var after := InPlace(parse, m, item);
    forall k | k in m ensures InPlaceOr(CoerceValue(parse, after[k], item), after[k]) == after[k] {
      ValueStable(parse, m[k], item);
      hide CoerceValue;
    }
  }

  lemma {:induction false} ItemOfMapStable(parse: FloatParser, m: map<string, Json>, item: Schema, i: nat)
    requires Plain(item) && IndexKeyed(m.Keys) && !Collide(m.Keys) && CoerceItems(parse, SliceOf(m), item).Done?
    requires i <= Biggest(m.Keys)
    ensures var after := InPlace(parse, m, item);
      && after.Keys == m.Keys
      && var c, d := CoerceValue(parse, SliceOf(m)[i], item), CoerceValue(parse, SliceOf(after)[i], item);
         d.Done? && (Fine(d, SliceOf(after)[i]) ==> Fine(c, SliceOf(m)[i]))
    decreases item, 3
  {
    hide CoerceValue, Index, Biggest;
    var after := InPlace(parse, m, item);
    assert CoerceValue(parse, SliceOf(m)[i], item).Done?;
    if k :| k in m && Index(k) == Some(i) {
      AtItsIndex(m, k);
      AtItsIndex(after, k);
      ValueStable(parse, m[k], item);
    } else {
      assert SliceOf(m)[i] == SliceOf(after)[i] == Null;
    }
  }

  lemma {:induction false} ArrayStable(parse: FloatParser, v: Json, s: Schema)
    requires s.properties == map[] && !IsPrimitive(s) && s.anyOf == [] && s.additionalProperties.None?
    requires s.items.Some? ==> Plain(s.items.value)
    ensures Stable(parse, CoerceValue(parse, v, s), v, s)
    decreases s, 1
  {
    hide CoerceValue, CoerceItems, CoerceAnyOf, CoerceNonObject, Index, Biggest, AtIndex;
    ArrayValue(parse, v, s);
    var c := CoerceArray(parse, v, s);
    if c.Done? {
      ArrayValue(parse, c.inPlace, s);
      ArrayValue(parse, c.result, s);
    }
    if s.kind == "array" && s.items.Some? {
      match v
      case Arr(a) => ItemsStable(parse, a, s.items.value);
      case Obj(m) =>
        if IndexKeyed(m.Keys) && !Collide(m.Keys) && CoerceItems(parse, SliceOf(m), s.items.value).Done? {
          MapStable(parse, m, s.items.value);
          ItemsStable(parse, SliceOf(m), s.items.value);
        }
      case _ =>
    }
  }

  /**
   * Coercion is idempotent: the parameters an error-free coercion leaves are left alone by another one, also
   * where a coercion that reported failure had changed a map or a list in place.
   */
  lemma CoercionIsIdempotent(parse: FloatParser, s: Schema, data: map<string, Json>)
    requires forall k | k in s.properties :: Plain(s.properties[k])
    ensures var c := CoerceParams(parse, s, data);
      c.Done? ==> c.result.Obj? && CoerceParams(parse, s, c.result.fields) == c
  {
    ParamsStable(parse, s, data);
  }
}
