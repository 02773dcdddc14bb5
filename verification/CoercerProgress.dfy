/** Coercion only goes forward: it reads strings and turns maps into lists, and never back, whatever the schema. */
module CoercerProgress {
  import opened Json
  import opened OpenApi
  import opened Coercer
  import opened CoercerLaws

  /** The number of strings and maps in a value. */
  ghost function Weight(v: Json): nat
    decreases v, 1
  {
    match v
    case Str(_) => 1
    case Arr(items) => WeightOf(items)
    case Obj(m) => 1 + WeightIn(m, m.Keys)
    case _ => 0
  }

  ghost function WeightOf(items: seq<Json>): nat
    decreases items, 0
  {
    if items == [] then 0 else WeightOf(items[..|items| - 1]) + Weight(items[|items| - 1])
  }

  ghost function WeightIn(m: map<string, Json>, keys: set<string>): nat
    requires keys <= m.Keys
    decreases Obj(m), 0, keys
  {
    if keys == {} then 0
    else
      var k :| k in keys;
      Weight(m[k]) + WeightIn(m, keys - {k})
  }

  /** The same value, or one that weighs less. */
  ghost predicate Forward(v: Json, w: Json) {
    w == v || Weight(w) < Weight(v)
  }

  lemma {:induction false} WeightInAny(m: map<string, Json>, keys: set<string>, k: string)
    requires keys <= m.Keys && k in keys
    ensures WeightIn(m, keys) == Weight(m[k]) + WeightIn(m, keys - {k})
    decreases keys
  {
    hide Weight;
    var j :| j in keys && WeightIn(m, keys) == Weight(m[j]) + WeightIn(m, keys - {j});
    if j != k {
      WeightInAny(m, keys - {j}, k);
      WeightInAny(m, keys - {k}, j);
      assert keys - {j} - {k} == keys - {k} - {j};
    }
  }

  lemma {:induction false} KeysForward(m: map<string, Json>, n: map<string, Json>, keys: set<string>)
    requires keys <= m.Keys && keys <= n.Keys && forall k | k in keys :: Forward(m[k], n[k])
    ensures WeightIn(n, keys) <= WeightIn(m, keys)
    ensures WeightIn(n, keys) == WeightIn(m, keys) ==> forall k | k in keys :: n[k] == m[k]
    decreases keys
  {
    hide Weight;
    if keys != {} {
      var k :| k in keys;
      WeightInAny(m, keys, k);
      WeightInAny(n, keys, k);
      KeysForward(m, n, keys - {k});
    }
  }

  lemma MapForward(m: map<string, Json>, n: map<string, Json>)
    requires m.Keys == n.Keys && forall k | k in m :: Forward(m[k], n[k])
    ensures Forward(Obj(m), Obj(n))
  {
    KeysForward(m, n, m.Keys);
    assert (forall k | k in m :: n[k] == m[k]) ==> n == m;
  }

  lemma {:induction false} SeqForward(a: seq<Json>, b: seq<Json>)
    requires |a| == |b| && forall i | 0 <= i < |a| :: Forward(a[i], b[i])
    ensures WeightOf(b) <= WeightOf(a) && Forward(Arr(a), Arr(b))
  {
    hide Weight, WeightOf;
    ListWeight(a);
    ListWeight(b);
    LastWeight(a);
    LastWeight(b);
    if a != [] {
      var n := |a| - 1;
      SeqForward(a[..n], b[..n]);
      ListWeight(a[..n]);
      ListWeight(b[..n]);
      assert a == a[..n] + [a[n]] && b == b[..n] + [b[n]];
    }
  }

  lemma LastWeight(a: seq<Json>)
    ensures a != [] ==> WeightOf(a) == WeightOf(a[..|a| - 1]) + Weight(a[|a| - 1])
    ensures a == [] ==> WeightOf(a) == 0
  {
    hide Weight;
  }

  lemma ListWeight(a: seq<Json>)
    ensures Weight(Arr(a)) == WeightOf(a)
  {
  }

  // A map read as a list.

  ghost function KeysBelow(m: map<string, Json>, n: nat): set<string>
    requires IndexKeyed(m.Keys)
  {
    set k | k in m && Index(k).value < n
  }

  lemma {:induction false} SliceWeight(m: map<string, Json>, n: nat)
    requires IndexKeyed(m.Keys) && !Collide(m.Keys) && n <= |SliceOf(m)|
    ensures WeightOf(SliceOf(m)[..n]) == WeightIn(m, KeysBelow(m, n))
  {
    hide Weight, Index, Biggest;
    if n == 0 {
      assert KeysBelow(m, 0) == {};
    } else {
      SliceWeight(m, n - 1);
      var s := SliceOf(m);
      assert s[..n][..n - 1] == s[..n - 1];
      if k :| k in m && Index(k) == Some(n - 1) {
        AtItsIndex(m, k);
        assert KeysBelow(m, n) - {k} == KeysBelow(m, n - 1);
        WeightInAny(m, KeysBelow(m, n), k);
      } else {
        assert KeysBelow(m, n) == KeysBelow(m, n - 1);
        assert Weight(Null) == 0 by { NullWeight(); }
      }
    }
  }

  lemma NullWeight()
    ensures Weight(Null) == 0
  {
  }

  lemma SliceWeighsLess(m: map<string, Json>)
    requires IndexKeyed(m.Keys) && !Collide(m.Keys)
    ensures WeightOf(SliceOf(m)) < Weight(Obj(m))
  {
    var n := |SliceOf(m)|;
    SliceWeight(m, n);
    assert SliceOf(m)[..n] == SliceOf(m);
    assert KeysBelow(m, n) == m.Keys;
  }

  // Coercion.

  /** What a coercion leaves in place, and what it returns, are no step back. */
  ghost predicate Advances(v: Json, c: Coercion) {
    match c
    case Done(p, ok, r) => Forward(v, p) && (ok ==> Forward(v, r))
    case Error(_, left) => left.Some? ==> Forward(v, left.value)
    case Unspecified => true
  }

  lemma LeftInMapForward(m: map<string, Json>, cs: map<string, Coercion>)
    requires cs.Keys <= m.Keys && forall k | k in cs :: Advances(m[k], cs[k])
    ensures var left := LeftInMap(m, cs); left.Some? ==> Forward(Obj(m), left.value)
  {
    hide Weight;
    var left := LeftInMap(m, cs);
    if left.Some? && left.value != Obj(m) {
      var e :| e in cs && OnlyError(m, cs, e) && left == Some(Obj(m[e := cs[e].left.value]));
      MapForward(m, m[e := cs[e].left.value]);
    }
  }

  lemma LeftInListForward(a: seq<Json>, cs: seq<Coercion>)
    requires |cs| == |a| && forall i | 0 <= i < |a| :: Advances(a[i], cs[i])
    ensures var left := LeftInList(a, cs);
      left.Some? ==>
        && |left.value.0| == |left.value.1| == |a|
        && Forward(Arr(a), Arr(left.value.1))
        && forall i | 0 <= i < |a| :: Forward(a[i], left.value.0[i])
  {
    hide Weight;
    var left := LeftInList(a, cs);
    if left.Some? {
      SeqForward(a, left.value.1);
    }
  }

  lemma PrimitiveAdvances(parse: FloatParser, v: Json, kind: string)
    ensures var r := CoercePrimitive(parse, v, kind); r.Some? ==> Forward(v, r.value)
  {
  }

  lemma {:induction false} ValueAdvances(parse: FloatParser, v: Json, s: Schema)
    ensures Advances(v, CoerceValue(parse, v, s))
    decreases s, 5
  {
    hide Weight;
    if s.properties == map[] {
      NonObjectAdvances(parse, v, s);
    } else if v.Obj? {
      ParamsAdvances(parse, s, v.fields);
    }
  }

  lemma {:induction false} ParamsAdvances(parse: FloatParser, s: Schema, data: map<string, Json>)
    ensures Advances(Obj(data), CoerceParams(parse, s, data))
    decreases s, 4
  {
    var c := CoerceParams(parse, s, data);
    if c.Error? {
      hide Weight;
      var cs := map k | k in data && k in s.properties :: CoerceValue(parse, data[k], s.properties[k]);
      forall k | k in cs ensures Advances(data[k], cs[k]) {
        ValueAdvances(parse, data[k], s.properties[k]);
      }
      hide CoerceValue, LeftInMap;
      LeftInMapForward(data, cs);
    } else if c.Done? {
      hide Weight;
      var after := c.result.fields;
      forall k | k in data ensures Forward(data[k], after[k]) {
        if k in s.properties {
          ValueAdvances(parse, data[k], s.properties[k]);
        }
      }
      hide CoerceValue;
      MapForward(data, after);
    }
  }

  lemma {:induction false} NonObjectAdvances(parse: FloatParser, v: Json, s: Schema)
    ensures Advances(v, CoerceNonObject(parse, v, s))
    decreases s, 4
  {
    hide Weight, CoerceAnyOf, CoerceFields;
    if IsPrimitive(s) {
      PrimitiveAdvances(parse, v, s.kind);
    } else if s.additionalProperties.Some? && v.Obj? {
      FieldsAdvance(parse, v.fields, s.additionalProperties.value);
      var c := CoerceFields(parse, v.fields, s.additionalProperties.value);
      if c.Done? {
        AnyOfAdvances(parse, c.inPlace, s, 0);
      }
    } else {
      AnyOfAdvances(parse, v, s, 0);
    }
  }

  lemma {:induction false} FieldsAdvance(parse: FloatParser, m: map<string, Json>, item: Schema)
    ensures Advances(Obj(m), CoerceFields(parse, m, item))
    decreases item, 6
  {
    var c := CoerceFields(parse, m, item);
    if c.Error? {
      hide Weight;
      var cs := map k | k in m :: CoerceValue(parse, m[k], item);
      forall k | k in cs ensures Advances(m[k], cs[k]) {
        ValueAdvances(parse, m[k], item);
      }
      hide CoerceValue, LeftInMap;
      LeftInMapForward(m, cs);
    } else if c.Done? {
      hide Weight;
      var after := c.result.fields;
      forall k | k in m ensures Forward(m[k], after[k]) {
        ValueAdvances(parse, m[k], item);
      }
      hide CoerceValue;
      MapForward(m, after);
    }
  }

  lemma {:induction false} AnyOfAdvances(parse: FloatParser, v: Json, s: Schema, i: nat)
    requires i <= |s.anyOf|
    ensures Advances(v, CoerceAnyOf(parse, v, s, i))
    decreases s, 3, |s.anyOf| - i
  {
    hide Weight, CoerceValue, CoerceArray;
    if i == |s.anyOf| {
      ArrayAdvances(parse, v, s);
    } else {
      ValueAdvances(parse, v, s.anyOf[i]);
      var c := CoerceValue(parse, v, s.anyOf[i]);
      if c.Done? && !c.ok {
        AnyOfAdvances(parse, c.inPlace, s, i + 1);
      } else if c.Error? && c.left.Some? {
        AnyOfAdvances(parse, c.left.value, s, i + 1);
      }
    }
  }

  lemma {:induction false} ArrayAdvances(parse: FloatParser, v: Json, s: Schema)
    ensures Advances(v, CoerceArray(parse, v, s))
    decreases s, 2
  {
    if s.kind == "array" {
      match v
      case Arr(a) =>
        if s.items.Some? {
          ItemsAdvance(parse, a, s.items.value);
          hide Weight, CoerceItems;
        }
      case Obj(m) =>
        if IndexKeyed(m.Keys) && !Collide(m.Keys) {
          SliceWeighsLess(m);
          ListWeight(SliceOf(m));
          if s.items.Some? {
            ItemsAdvance(parse, SliceOf(m), s.items.value);
            InPlaceAdvances(parse, m, s.items.value);
            SharedLeft(parse, m, s.items.value);
          }
          hide Weight, CoerceItems, InPlace, Index, Biggest, AtIndex;
        }
      case _ =>
    }
  }

  lemma {:induction false} InPlaceAdvances(parse: FloatParser, m: map<string, Json>, item: Schema)
    ensures Forward(Obj(m), Obj(InPlace(parse, m, item)))
    decreases item, 6
  {
    hide Weight;
    var after := InPlace(parse, m, item);
    forall k | k in m ensures Forward(m[k], after[k]) {
      ValueAdvances(parse, m[k], item);
      hide CoerceValue;
    }
    MapForward(m, after);
  }

  lemma {:induction false} ItemsAdvance(parse: FloatParser, a: seq<Json>, item: Schema)
    ensures var c := CoerceItems(parse, a, item);
      && (c.Done? ==> c.result.Arr? && c.inPlace == c.result && WeightOf(c.result.items) <= WeightOf(a) && Forward(Arr(a), c.result))
      && (c.Error? && c.left.Some? ==> Forward(Arr(a), c.left.value))
    decreases item, 7
  {
    var c := CoerceItems(parse, a, item);
    ItemsLeft(parse, a, item);
    if c.Done? {
      hide Weight;
      var after := c.result.items;
      forall i | 0 <= i < |a| ensures Forward(a[i], after[i]) {
        ValueAdvances(parse, a[i], item);
      }
      hide CoerceValue;
      SeqForward(a, after);
    }
  }

  /** What is left of a list, and of its items, where one of them fails with an error. */
  lemma {:induction false} ItemsLeft(parse: FloatParser, a: seq<Json>, item: Schema)
    ensures var left := LeftInList(a, Outcomes(parse, a, item));
      left.Some? ==>
        && |left.value.0| == |left.value.1| == |a|
        && Forward(Arr(a), Arr(left.value.1))
        && forall i | 0 <= i < |a| :: Forward(a[i], left.value.0[i])
    decreases item, 6
  {
    hide Weight, LeftInList;
    var cs := Outcomes(parse, a, item);
    forall i | 0 <= i < |a| ensures Advances(a[i], cs[i]) {
      ValueAdvances(parse, a[i], item);
    }
    LeftInListForward(a, cs);
  }

  /** What is left of a map that was read as such a list. */
  lemma {:induction false} SharedLeft(parse: FloatParser, m: map<string, Json>, item: Schema)
    requires IndexKeyed(m.Keys) && !Collide(m.Keys)
    ensures var left := LeftShared(m, LeftInList(SliceOf(m), Outcomes(parse, SliceOf(m), item)));
      left.Some? ==> Forward(Obj(m), left.value)
    decreases item, 7
  {
    hide Weight, LeftInList, Index, Biggest, Collide, AtIndex;
    ItemsLeft(parse, SliceOf(m), item);
    var items := LeftInList(SliceOf(m), Outcomes(parse, SliceOf(m), item));
    if items.Some? {
      var after := map k | k in m :: items.value.0[Index(k).value];
      forall k | k in m ensures Forward(m[k], after[k]) {
        AtItsIndex(m, k);
      }
      MapForward(m, after);
    }
  }

  // Coercing again and again.

  /** The parameters after `n` rounds, if none of them fails. */
  ghost function Rounds(parse: FloatParser, s: Schema, data: map<string, Json>, n: nat): Coercion
    decreases n
  {
    if n == 0 then Done(Obj(data), true, Obj(data))
    else
      match Rounds(parse, s, data, n - 1)
      case Done(_, _, Obj(m)) => CoerceParams(parse, s, m)
      case c => c
  }

  /**
   * Whatever the schema, with `anyOf` or without, coercing the parameters again and again comes to an end: after
   * at most as many rounds as there are strings and maps in them, another round changes nothing.
   */
  lemma RoundsSettle(parse: FloatParser, s: Schema, data: map<string, Json>) returns (n: nat)
    requires forall k: nat :: Rounds(parse, s, data, k).Done?
    ensures n <= Weight(Obj(data)) && Rounds(parse, s, data, n + 1) == Rounds(parse, s, data, n)
  {
    n := SettlesFrom(parse, s, data, 0, data);
  }

  lemma {:induction false} SettlesFrom(parse: FloatParser, s: Schema, data: map<string, Json>, k: nat, now: map<string, Json>)
      returns (n: nat)
    requires forall j: nat :: Rounds(parse, s, data, j).Done?
    requires Rounds(parse, s, data, k) == Done(Obj(now), true, Obj(now))
    ensures n <= k + Weight(Obj(now)) && Rounds(parse, s, data, n + 1) == Rounds(parse, s, data, n)
    decreases Weight(Obj(now))
  {
    hide Weight, CoerceParams;
    n := k;
    assert Rounds(parse, s, data, k + 1) == CoerceParams(parse, s, now);
    ParamsAdvances(parse, s, now);
    ParamsShape(parse, s, now);
    var next := CoerceParams(parse, s, now).result.fields;
    if next != now {
      n := SettlesFrom(parse, s, data, k + 1, next);
    }
  }

  lemma ParamsShape(parse: FloatParser, s: Schema, data: map<string, Json>)
    ensures var c := CoerceParams(parse, s, data); c.Done? ==> c.ok && c.inPlace == c.result && c.result.Obj?
  {
    hide CoerceValue;
  }
}
