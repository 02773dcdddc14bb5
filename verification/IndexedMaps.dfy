/** Integer-keyed maps and the lists they stand for. */
module IndexedMaps {
  import opened Json
  import opened Decimal
  import opened Coercer
  import opened CoercerLaws

  datatype Parsed = NotIndexed | TooLarge(index: nat) | Slice(items: seq<Json>)

  /** What the list at `i` may hold: null at a gap, else the value of a key for that index. */
  ghost predicate Holds(m: map<string, Json>, i: nat, v: Json) {
    if exists k | k in m :: Index(k) == Some(i) then exists k | k in m :: Index(k) == Some(i) && v == m[k]
    else v == Null
  }

  /** Reads a map with integer keys as a list, in whatever order the map is iterated. */
  method ParseIntegerIndexedMap(valMap: map<string, Json>) returns (r: Parsed)
    ensures match r
      case NotIndexed => !IndexKeyed(valMap.Keys)
      case TooLarge(index) => IndexKeyed(valMap.Keys) && index == Biggest(valMap.Keys) > MAX_SLICE_SIZE
      case Slice(items) =>
        && IndexKeyed(valMap.Keys) && |items| == Biggest(valMap.Keys) + 1 <= MAX_SLICE_SIZE + 1
        && (forall i | 0 <= i < |items| :: Holds(valMap, i, items[i]))
        && (!Collide(valMap.Keys) ==> items == SliceOf(valMap))
  {
    hide Index, Collide;
    var allNumberedIndexes, biggestIndex := FindBiggest(valMap);
    if !allNumberedIndexes {
      return NotIndexed;
    }
    if biggestIndex > MAX_SLICE_SIZE {
      return TooLarge(biggestIndex);
    }
    var valSlice := FillSlice(valMap, biggestIndex);
    if !Collide(valMap.Keys) {
      HoldsOnce(valMap, valSlice[..]);
    }
    r := Slice(valSlice[..]);
  }

  /** Whether all keys are indices and, if so, the biggest one. */
  method FindBiggest(valMap: map<string, Json>) returns (allNumberedIndexes: bool, biggestIndex: nat)
    ensures allNumberedIndexes <==> IndexKeyed(valMap.Keys)
    ensures allNumberedIndexes ==> biggestIndex == Biggest(valMap.Keys)
  {
    hide Index;
    biggestIndex := 0;
    var rest := valMap.Keys;
    while rest != {}
      invariant rest <= valMap.Keys && IndexKeyed(valMap.Keys - rest)
      invariant forall k | k in valMap.Keys - rest :: Index(k).value <= biggestIndex
      invariant biggestIndex == 0 || exists k | k in valMap.Keys - rest :: Index(k) == Some(biggestIndex)
      decreases rest
    {
      var index :| index in rest;
      rest := rest - {index};
      if Index(index).None? {
        return false, 0;
      }
      if Index(index).value > biggestIndex {
        biggestIndex := Index(index).value;
      }
    }
    assert valMap.Keys - rest == valMap.Keys;
    allNumberedIndexes := true;
  }

  method FillSlice(valMap: map<string, Json>, biggestIndex: nat) returns (valSlice: array<Json>)
    requires IndexKeyed(valMap.Keys) && forall k | k in valMap :: Index(k).value <= biggestIndex
    ensures valSlice.Length == biggestIndex + 1
    ensures forall i | 0 <= i < valSlice.Length :: Holds(valMap, i, valSlice[i])
  {
    hide Index;
    valSlice := new Json[biggestIndex + 1](_ => Null);
    var rest := valMap.Keys;
    while rest != {}
      invariant rest <= valMap.Keys
      invariant forall i | 0 <= i <= biggestIndex :: HoldsFrom(valMap, valMap.Keys - rest, i, valSlice[i])
      decreases rest
    {
      var index :| index in rest;
      rest := rest - {index};
      valSlice[Index(index).value] := valMap[index];
    }
    assert valMap.Keys - rest == valMap.Keys;
  }

  /** Without colliding keys there is one list the map can be read as. */
  lemma HoldsOnce(m: map<string, Json>, items: seq<Json>)
    requires IndexKeyed(m.Keys) && !Collide(m.Keys) && |items| == Biggest(m.Keys) + 1
    requires forall i | 0 <= i < |items| :: Holds(m, i, items[i])
    ensures items == SliceOf(m)
  {
    hide Index;
    forall i | 0 <= i < |items| ensures items[i] == AtIndex(m, i) {
      assert Holds(m, i, items[i]);
    }
  }

  /** As `Holds`, when only `done` of the keys have been seen. */
  ghost predicate HoldsFrom(m: map<string, Json>, done: set<string>, i: nat, v: Json)
    requires done <= m.Keys
  {
    if exists k | k in done :: Index(k) == Some(i) then exists k | k in done :: Index(k) == Some(i) && v == m[k]
    else v == Null
  }

  /** A list written as a map with the indices as keys. */
  ghost function Indexed(s: seq<Json>): (m: map<string, Json>)
  {
    if s == [] then map[] else Indexed(s[..|s| - 1])[Print(|s| - 1) := s[|s| - 1]]
  }

  lemma {:induction false} IndexedHas(s: seq<Json>)
    ensures forall i | 0 <= i < |s| :: Print(i) in Indexed(s) && Indexed(s)[Print(i)] == s[i]
    ensures forall k | k in Indexed(s) :: exists i | 0 <= i < |s| :: k == Print(i)
  {
    hide Print, Index;
    if s != [] {
      var n := |s| - 1;
      IndexedHas(s[..n]);
      forall i | 0 <= i < n ensures Print(i) != Print(n) {
        PrintThenRead(i);
        PrintThenRead(n);
      }
      forall k | k in Indexed(s) ensures exists i | 0 <= i < |s| :: k == Print(i) {
        if k != Print(n) {
          assert k in Indexed(s[..n]);
        }
      }
    }
  }

  lemma PrintedIndex(i: nat)
    requires i <= MAX_SLICE_SIZE
    ensures Index(Print(i)) == Some(i)
  {
    PrintThenRead(i);
    hide Print;
  }

  /** A list of 1 to 1001 items written as a map with the indices as keys is read back as it was. */
  lemma ReadsBack(s: seq<Json>)
    requires 1 <= |s| <= MAX_SLICE_SIZE + 1
    ensures var m := Indexed(s);
      && IndexKeyed(m.Keys) && !Collide(m.Keys) && Biggest(m.Keys) == |s| - 1 <= MAX_SLICE_SIZE
      && SliceOf(m) == s
  {
    hide Index, Print, Indexed, Biggest, AtIndex, Collide, IndexKeyed;
    var m := Indexed(s);
    IndexedKeys(s);
    IndexedHas(s);
    BiggestIs(m.Keys, Print(|s| - 1), |s| - 1);
    forall i | 0 <= i < |s| ensures AtIndex(m, i) == s[i] {
      PrintedIndex(i);
      AtItsIndex(m, Print(i));
    }
  }

  /** The keys of a written list are the printed indices, one each. */
  lemma IndexedKeys(s: seq<Json>)
    requires |s| <= MAX_SLICE_SIZE + 1
    ensures var m := Indexed(s);
      && IndexKeyed(m.Keys) && !Collide(m.Keys)
      && (forall k | k in m :: Index(k).value < |s|)
      && forall i | 0 <= i < |s| :: Print(i) in m && Index(Print(i)) == Some(i)
  {
    hide Index, Print, Indexed;
    IndexedHas(s);
    forall i | 0 <= i < |s| ensures Index(Print(i)) == Some(i) {
      PrintedIndex(i);
    }
  }

  lemma BiggestIs(keys: set<string>, k: string, n: nat)
    requires IndexKeyed(keys) && k in keys && Index(k) == Some(n) && forall j | j in keys :: Index(j).value <= n
    ensures Biggest(keys) == n
  {
    hide Index;
  }

  /** Keys without leading zeros never collide. */
  lemma CanonicalKeysDoNotCollide(keys: set<string>)
    requires IndexKeyed(keys) && forall k | k in keys :: Canonical(k)
    ensures !Collide(keys)
  {
    forall j, k | j in keys && k in keys && Index(j) == Index(k) ensures j == k {
      ReadThenPrint(j);
      ReadThenPrint(k);
    }
  }
}
