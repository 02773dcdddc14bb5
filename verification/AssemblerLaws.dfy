/** What assembly keeps of its input, and when the order of the pairs does not matter. */
module AssemblerLaws {
  import opened Json
  import opened KeyParser
  import opened Assembler

  // Conservation: no value is invented or duplicated.

  /** The strings in a value, each as often as it occurs. */
  ghost function Strings(v: Json): multiset<string>
    decreases v, 1
  {
    match v
    case Str(s) => multiset{s}
    case Arr(items) => StringsOf(items)
    case Obj(m) => StringsIn(m, m.Keys)
    case _ => multiset{}
  }

  ghost function StringsOf(items: seq<Json>): multiset<string>
    decreases items, 0
  {
    if items == [] then multiset{} else Strings(items[0]) + StringsOf(items[1..])
  }

  ghost function StringsIn(m: map<string, Json>, keys: set<string>): multiset<string>
    requires keys <= m.Keys
    decreases Obj(m), 0, keys
  {
    if keys == {} then multiset{}
    else
      var k :| k in keys;
      Strings(m[k]) + StringsIn(m, keys - {k})
  }

  lemma {:induction false} StringsInAny(m: map<string, Json>, keys: set<string>, k: string)
    requires keys <= m.Keys && k in keys
    ensures StringsIn(m, keys) == Strings(m[k]) + StringsIn(m, keys - {k})
    decreases keys
  {
    var c :| c in keys && StringsIn(m, keys) == Strings(m[c]) + StringsIn(m, keys - {c});
    if c != k {
      StringsInAny(m, keys - {c}, k);
      StringsInAny(m, keys - {k}, c);
      assert keys - {c} - {k} == keys - {k} - {c};
    }
  }

  lemma {:induction false} StringsInSame(m: map<string, Json>, n: map<string, Json>, keys: set<string>)
    requires keys <= m.Keys && keys <= n.Keys && forall k | k in keys :: m[k] == n[k]
    ensures StringsIn(m, keys) == StringsIn(n, keys)
    decreases keys
  {
    if keys != {} {
      var k :| k in keys;
      StringsInAny(m, keys, k);
      StringsInAny(n, keys, k);
      StringsInSame(m, n, keys - {k});
    }
  }

  lemma StringsUpdate(m: map<string, Json>, key: string, v: Json)
    ensures Strings(Obj(m[key := v])) == Strings(v) + StringsIn(m, m.Keys - {key})
    ensures key in m ==> Strings(Obj(m)) == Strings(m[key]) + StringsIn(m, m.Keys - {key})
    ensures StringsIn(m, m.Keys - {key}) <= Strings(Obj(m))
  {
    var n := m[key := v];
    StringsInAny(n, n.Keys, key);
    assert n.Keys - {key} == m.Keys - {key};
    StringsInSame(m, n, m.Keys - {key});
    if key in m {
      StringsInAny(m, m.Keys, key);
    } else {
      assert m.Keys - {key} == m.Keys;
    }
  }

  lemma {:induction false} StringsAppend(a: seq<Json>, b: seq<Json>)
    ensures StringsOf(a + b) == StringsOf(a) + StringsOf(b)
  {
    if a == [] {
      assert a + b == b;
    } else {
      assert (a + b)[0] == a[0] && (a + b)[1..] == a[1..] + b;
      StringsAppend(a[1..], b);
    }
  }

  ghost function SlotStrings(slot: Option<Json>): multiset<string> {
    if slot.Some? then Strings(slot.value) else multiset{}
  }

  lemma UpdateConserves(slot: Option<Json>, key: string, w: Json, v: string)
    requires Strings(w) <= SlotStrings(Lookup(FieldsAt(slot), key)) + multiset{v}
    ensures Strings(Obj(FieldsAt(slot)[key := w])) <= SlotStrings(slot) + multiset{v}
  {
    StringsUpdate(FieldsAt(slot), key, w);
  }

  lemma LastConserves(a: seq<Json>, w: Json, v: string)
    requires a != [] && Strings(w) <= Strings(a[|a| - 1]) + multiset{v}
    ensures Strings(Arr(a[|a| - 1 := w])) <= Strings(Arr(a)) + multiset{v}
  {
    var n := |a| - 1;
    assert a == a[..n] + [a[n]] && a[n := w] == a[..n] + [w];
    StringsSnoc(a[..n], a[n]);
    StringsSnoc(a[..n], w);
    hide Strings, StringsOf;
  }

  lemma StringsSnoc(a: seq<Json>, x: Json)
    ensures Strings(Arr(a + [x])) == StringsOf(a) + Strings(x)
  {
    StringsAppend(a, [x]);
  }

  lemma NewConserves(a: seq<Json>, w: Json, v: string)
    requires Strings(w) <= SlotStrings(None) + multiset{v}
    ensures Strings(Arr(a + [w])) <= Strings(Arr(a)) + multiset{v}
  {
    StringsAppend(a, [w]);
  }

  ghost function ItemsAt(slot: Option<Json>): seq<Json> {
    if slot.Some? && slot.value.Arr? then slot.value.items else []
  }

  lemma ItemsStrings(slot: Option<Json>)
    ensures Strings(Arr(ItemsAt(slot))) <= SlotStrings(slot)
  {
  }

  lemma {:induction false} PutConserves(slot: Option<Json>, path: seq<KeyPart>, v: string)
    ensures Strings(Put(slot, path, v)) <= SlotStrings(slot) + multiset{v}
    decreases |path|
  {
    if path == [] || path[0].RawPart? {
      assert Strings(Put(slot, path, v)) == multiset{v};
    } else {
      hide Strings, StringsIn, StringsOf, SlotStrings, Extends;
      if path[0].MapPart? {
        var key, m := path[0].content, FieldsAt(slot);
        PutConserves(Lookup(m, key), path[1..], v);
        UpdateConserves(slot, key, Put(Lookup(m, key), path[1..], v), v);
      } else {
        var a := ItemsAt(slot);
        ItemsStrings(slot);
        if a != [] && Extends(a[|a| - 1], path[1..]) {
          PutConserves(Some(a[|a| - 1]), path[1..], v);
          SlotOfSome(a[|a| - 1]);
          LastConserves(a, Put(Some(a[|a| - 1]), path[1..], v), v);
        } else {
          PutConserves(None, path[1..], v);
          NewConserves(a, Put(None, path[1..], v), v);
        }
      }
    }
  }

  lemma SlotOfSome(v: Json)
    ensures SlotStrings(Some(v)) == Strings(v)
  {
  }

  function Values(leaves: seq<Leaf>): multiset<string> {
    if leaves == [] then multiset{} else multiset{leaves[0].value} + Values(leaves[1..])
  }

  function FormValues(form: seq<Pair>): multiset<string> {
    if form == [] then multiset{} else multiset{form[0].value} + FormValues(form[1..])
  }

  lemma {:induction false} PutAllConserves(slot: Option<Json>, leaves: seq<Leaf>)
    ensures SlotStrings(PutAll(slot, leaves)) <= SlotStrings(slot) + Values(leaves)
    decreases |leaves|
  {
    if leaves != [] {
      var l := leaves[0];
      PutConserves(slot, l.path, l.value);
      PutAllConserves(Some(Put(slot, l.path, l.value)), leaves[1..]);
    }
  }

  lemma {:induction false} LeavesConserve(form: seq<Pair>)
    ensures Values(Leaves(form)) <= FormValues(form)
  {
    if form != [] {
      LeavesConserve(form[1..]);
      var parts := Parse(form[0].key);
      if parts != [] && parts[0].RawPart? {
        assert Leaves(form)[1..] == Leaves(form[1..]);
      }
    }
  }

  /** Every string of the result is the value of a pair of its own. */
  lemma AssembleConserves(form: seq<Pair>)
    requires Assemble(form).Params?
    ensures Strings(Obj(Assemble(form).params)) <= FormValues(form)
  {
    AssembleNeverPanics(form);
    PutAllConserves(Some(Obj(map[])), Leaves(form));
    LeavesConserve(form);
    assert Strings(Obj(map[])) == multiset{};
  }
}
