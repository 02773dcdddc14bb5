/** Assembly of keys without `[]`: the result is the tree of the given paths, whatever their order. */
module AssemblerOrder {
  import opened Json
  import opened KeyParser
  import opened Assembler

  predicate MapPath(path: seq<KeyPart>) {
    forall p | p in path :: p.MapPart?
  }

  /** What a value holds at the end of a path of map keys. */
  function At(v: Json, path: seq<KeyPart>): Option<Json>
    decreases |path|
  {
    if path == [] then Some(v)
    else if path[0].MapPart? && v.Obj? && path[0].content in v.fields then At(v.fields[path[0].content], path[1..])
    else None
  }

  predicate LeafAt(v: Json, path: seq<KeyPart>, s: string) {
    At(v, path) == Some(Str(s))
  }

  function SlotAt(slot: Option<Json>, path: seq<KeyPart>): Option<Json> {
    if slot.Some? then At(slot.value, path) else None
  }

  /** After a put, the new leaf is there, and the leaves whose paths are not comparable with its path stay. */
  lemma {:induction false} PutAt(slot: Option<Json>, path: seq<KeyPart>, v: string, q: seq<KeyPart>, s: string)
    requires MapPath(path) && MapPath(q)
    ensures LeafAt(Put(slot, path, v), q, s) <==>
      if q == path then s == v
      else !(q <= path) && !(path <= q) && SlotAt(slot, q) == Some(Str(s))
    decreases |path|
  {
    if path != [] && q != [] {
      assert path[0] in path && forall p | p in path[1..] :: p in path;
      assert q[0] in q && forall p | p in q[1..] :: p in q;
      var key, m := path[0].content, FieldsAt(slot);
      var w := Put(Lookup(m, key), path[1..], v);
      PutAt(Lookup(m, key), path[1..], v, q[1..], s);
      LeafStep(m[key := w], q, s);
      SlotStep(slot, q, s);
      hide Put, At;
      PrefixTail(q, path);
      PrefixTail(path, q);
      assert q == [q[0]] + q[1..] && path == [path[0]] + path[1..];
    }
  }

  lemma LeafStep(m: map<string, Json>, q: seq<KeyPart>, s: string)
    requires q != [] && q[0].MapPart?
    ensures LeafAt(Obj(m), q, s) <==> SlotAt(Lookup(m, q[0].content), q[1..]) == Some(Str(s))
  {
  }

  lemma SlotStep(slot: Option<Json>, q: seq<KeyPart>, s: string)
    requires q != [] && q[0].MapPart?
    ensures SlotAt(slot, q) == Some(Str(s)) <==> SlotAt(Lookup(FieldsAt(slot), q[0].content), q[1..]) == Some(Str(s))
  {
  }

  lemma PrefixTail(a: seq<KeyPart>, b: seq<KeyPart>)
    requires a != [] && b != []
    ensures a <= b <==> a[0] == b[0] && a[1..] <= b[1..]
  {
    if a[0] == b[0] && a[1..] <= b[1..] {
      assert a == [a[0]] + a[1..] && b == [b[0]] + b[1..];
    }
  }

  /** Only maps and strings, and no empty map below the root. */
  predicate Tidy(v: Json) {
    match v
    case Str(_) => true
    case Obj(m) => forall k | k in m :: m[k] != Obj(map[]) && Tidy(m[k])
    case _ => false
  }

  lemma {:induction false} PutTidy(slot: Option<Json>, path: seq<KeyPart>, v: string)
    requires MapPath(path) && (slot.Some? ==> Tidy(slot.value))
    ensures Tidy(Put(slot, path, v)) && Put(slot, path, v) != Obj(map[])
    decreases |path|
  {
    if path != [] {
      assert path[0] in path;
      assert forall p | p in path[1..] :: p in path;
      var key := path[0].content;
      var m := if slot.Some? && slot.value.Obj? then slot.value.fields else map[];
      PutTidy(Lookup(m, key), path[1..], v);
      assert key in m[key := Put(Lookup(m, key), path[1..], v)];
    }
  }

  lemma {:induction false} SomeLeaf(v: Json) returns (path: seq<KeyPart>, s: string)
    requires Tidy(v) && v != Obj(map[])
    ensures MapPath(path) && LeafAt(v, path, s)
  {
    match v
    case Str(t) => path, s := [], t;
    case Obj(m) =>
      var k :| k in m;
      var below;
      below, s := SomeLeaf(m[k]);
      path := [MapPart(k)] + below;
      assert path[1..] == below;
  }

  ghost predicate SameLeaves(a: Json, b: Json) {
    forall q, s | MapPath(q) :: LeafAt(a, q, s) <==> LeafAt(b, q, s)
  }

  lemma LeafBelow(v: Json, k: string, q: seq<KeyPart>, s: string)
    requires v.Obj?
    ensures LeafAt(v, [MapPart(k)] + q, s) <==> k in v.fields && LeafAt(v.fields[k], q, s)
  {
    assert ([MapPart(k)] + q)[1..] == q;
  }

  lemma SameKeys(a: Json, b: Json, k: string)
    requires a.Obj? && b.Obj? && Tidy(a) && SameLeaves(a, b) && k in a.fields
    ensures k in b.fields && SameLeaves(a.fields[k], b.fields[k])
  {
    var q, s := SomeLeaf(a.fields[k]);
    LeafBelow(a, k, q, s);
    LeafBelow(b, k, q, s);
    assert MapPath([MapPart(k)] + q);
    forall r, t | MapPath(r) ensures LeafAt(a.fields[k], r, t) <==> LeafAt(b.fields[k], r, t) {
      LeafBelow(a, k, r, t);
      LeafBelow(b, k, r, t);
      assert MapPath([MapPart(k)] + r);
    }
  }

  /** A tidy tree is determined by its leaves. */
  lemma {:induction false} LeavesDetermine(a: Json, b: Json)
    requires Tidy(a) && Tidy(b) && SameLeaves(a, b)
    ensures a == b
    decreases a
  {
    assert MapPath([]);
    match a
    case Str(s) =>
      assert LeafAt(a, [], s);
    case Obj(m) =>
      if b.Str? {
        assert LeafAt(b, [], b.s);
      } else {
        forall k | k in m ensures k in b.fields && m[k] == b.fields[k] {
          SameKeys(a, b, k);
          LeavesDetermine(m[k], b.fields[k]);
        }
        forall k | k in b.fields ensures k in m {
          SameKeys(b, a, k);
        }
        assert m == b.fields;
      }
  }

  /** No path is repeated, and none is a prefix of another. */
  ghost predicate PrefixFree(leaves: seq<Leaf>) {
    && (forall l | l in leaves :: MapPath(l.path) && multiset(leaves)[l] == 1)
    && (forall a, b | a in leaves && b in leaves && a != b :: !(a.path <= b.path))
  }

  lemma PrefixFreeInit(leaves: seq<Leaf>, l: Leaf)
    requires PrefixFree(leaves + [l])
    ensures PrefixFree(leaves) && l !in leaves && MapPath(l.path)
    ensures forall a | a in leaves :: !(a.path <= l.path) && !(l.path <= a.path)
  {
    var all := leaves + [l];
    assert multiset(all) == multiset(leaves) + multiset{l};
    assert l in all && forall a | a in leaves :: a in all;
    forall a | a in leaves ensures multiset(leaves)[a] == 1 && a != l {
      assert multiset(all)[a] == 1;
    }
  }

  lemma {:induction false} PutAllLeaves(leaves: seq<Leaf>)
    requires PrefixFree(leaves)
    ensures var r := PutAll(Some(Obj(map[])), leaves);
      && r.Some? && Tidy(r.value)
      && forall q, s | MapPath(q) :: LeafAt(r.value, q, s) <==> Leaf(q, s) in leaves
  {
    if leaves != [] {
      var n := |leaves| - 1;
      var l := leaves[n];
      assert leaves == leaves[..n] + [l];
      PrefixFreeInit(leaves[..n], l);
      PutAllLeaves(leaves[..n]);
      var r0 := PutAll(Some(Obj(map[])), leaves[..n]);
      PutAllSnoc(Some(Obj(map[])), leaves[..n], l);
      PutTidy(r0, l.path, l.value);
      var r := Put(r0, l.path, l.value);
      forall q, s | MapPath(q) ensures LeafAt(r, q, s) <==> Leaf(q, s) in leaves {
        PutAt(r0, l.path, l.value, q, s);
        assert LeafAt(r0.value, q, s) <==> Leaf(q, s) in leaves[..n];
        assert Leaf(q, s) in leaves <==> Leaf(q, s) in leaves[..n] || Leaf(q, s) == l;
      }
    }
  }

  lemma {:induction false} PutAllSnoc(slot: Option<Json>, leaves: seq<Leaf>, l: Leaf)
    ensures PutAll(slot, leaves + [l]) == Some(Put(PutAll(slot, leaves), l.path, l.value))
    decreases |leaves|
  {
    if leaves == [] {
      assert leaves + [l] == [l] && [l][1..] == [];
    } else {
      assert (leaves + [l])[0] == leaves[0] && (leaves + [l])[1..] == leaves[1..] + [l];
      PutAllSnoc(Some(Put(slot, leaves[0].path, leaves[0].value)), leaves[1..], l);
    }
  }

  /** The leaves of the assembled tree are exactly the given paths with their values. */
  lemma AssembledLeaves(form: seq<Pair>)
    requires Assemble(form).Params? && PrefixFree(Leaves(form))
    ensures var v := Obj(Assemble(form).params);
      && Tidy(v)
      && forall q, s | MapPath(q) :: LeafAt(v, q, s) <==> Leaf(q, s) in Leaves(form)
  {
    AssembleNeverPanics(form);
    PutAllLeaves(Leaves(form));
  }

  lemma {:induction false} LeavesAppend(a: seq<Pair>, b: seq<Pair>)
    ensures Leaves(a + b) == Leaves(a) + Leaves(b)
  {
    if a == [] {
      assert a + b == b;
    } else {
      assert (a + b)[0] == a[0] && (a + b)[1..] == a[1..] + b;
      LeavesAppend(a[1..], b);
    }
  }

  /** The first pair of `a` somewhere in its permutation `b`. */
  lemma PullOut(a: seq<Pair>, b: seq<Pair>) returns (front: seq<Pair>, back: seq<Pair>)
    requires a != [] && multiset(a) == multiset(b)
    ensures b == front + ([a[0]] + back) && multiset(front + back) == multiset(a[1..])
  {
    HeadTail(a);
    assert a[0] in multiset(b);
    var i :| 0 <= i < |b| && b[i] == a[0];
    front, back := b[..i], b[i + 1..];
    assert b == front + ([a[0]] + back);
    Middle(front, a[0], back);
    Cancel(a[0], multiset(front + back), multiset(a[1..]));
  }

  lemma Cancel(h: Pair, y: multiset<Pair>, z: multiset<Pair>)
    requires multiset{h} + y == multiset{h} + z
    ensures y == z
  {
    assert y == multiset{h} + y - multiset{h};
    assert z == multiset{h} + z - multiset{h};
  }

  lemma HeadTail(a: seq<Pair>)
    requires a != []
    ensures multiset(a) == multiset{a[0]} + multiset(a[1..])
  {
    assert a == [a[0]] + a[1..];
  }

  lemma Middle(front: seq<Pair>, h: Pair, back: seq<Pair>)
    ensures multiset(front + ([h] + back)) == multiset{h} + multiset(front + back)
  {
  }

  lemma {:induction false} LeavesPermute(a: seq<Pair>, b: seq<Pair>)
    requires multiset(a) == multiset(b)
    ensures multiset(Leaves(a)) == multiset(Leaves(b))
    decreases |a|
  {
    assert |multiset(a)| == |a| && |multiset(b)| == |b|;
    if a != [] {
      var front, back := PullOut(a, b);
      var h := a[0];
      assert a == [h] + a[1..];
      LeavesPermute(a[1..], front + back);
      LeavesAppend([h], a[1..]);
      LeavesAppend(front, [h] + back);
      LeavesAppend([h], back);
      LeavesAppend(front, back);
      hide Leaves;
      MultisetMiddle(Leaves(front), Leaves([h]), Leaves(back));
    }
  }

  lemma MultisetMiddle(a: seq<Leaf>, h: seq<Leaf>, b: seq<Leaf>)
    ensures multiset(a + (h + b)) == multiset(h) + multiset(a + b)
  {
  }

  /** Any permutation of the pairs assembles to the same tree. */
  lemma AssemblyIgnoresOrder(form1: seq<Pair>, form2: seq<Pair>)
    requires multiset(form1) == multiset(form2)
    requires Assemble(form1).Params? && PrefixFree(Leaves(form1))
    ensures Assemble(form2) == Assemble(form1)
  {
    LeavesPermute(form1, form2);
    AssembleNeverPanics(form1);
    AssembleNeverPanics(form2);
    forall p | p in form2 ensures Accepted(p.key) {
      assert p in multiset(form2);
    }
    var l1, l2 := Leaves(form1), Leaves(form2);
    assert forall l :: l in l1 <==> l in l2 by {
      assert forall l :: l in l1 <==> l in multiset(l1);
      assert forall l :: l in l2 <==> l in multiset(l2);
    }
    AssembledLeaves(form1);
    AssembledLeaves(form2);
    LeavesDetermine(Obj(Assemble(form1).params), Obj(Assemble(form2).params));
  }
}
