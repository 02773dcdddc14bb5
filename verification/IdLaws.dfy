/** What rewriting ids does to the data as a whole. */
module IdLaws {
  import opened Json
  import opened IdRewriting

  /** Same keys, lengths and kinds, and the same values where they are not strings. */
  ghost predicate SameShape(a: Json, b: Json)
    decreases a
  {
    match (a, b)
    case (Str(_), Str(_)) => true
    case (Arr(x), Arr(y)) => |x| == |y| && forall i | 0 <= i < |x| :: SameShape(x[i], y[i])
    case (Obj(m), Obj(n)) => m.Keys == n.Keys && forall k | k in m :: SameShape(m[k], n[k])
    case _ => a == b
  }

  lemma {:induction false} RecordKeepsShape(p: PathParams, data: Json, parentKey: Option<string>, level: nat)
    ensures SameShape(data, Record(p, data, parentKey, level))
    decreases data
  {
    match data
    case Arr(items) =>
      forall i | 0 <= i < |items| ensures SameShape(items[i], Record(p, items[i], None, level + 1)) {
        RecordKeepsShape(p, items[i], None, level + 1);
      }
    case Obj(m) =>
      forall k | k in m && !m[k].Str? ensures SameShape(m[k], Record(p, m[k], Some(k), level + 1)) {
        RecordKeepsShape(p, m[k], Some(k), level + 1);
      }
    case _ =>
  }

  lemma {:induction false} DistributeKeepsShape(p: PathParams, data: Json)
    ensures SameShape(data, Distribute(p, data))
    decreases data
  {
    match data
    case Arr(items) =>
      forall i | 0 <= i < |items| ensures SameShape(items[i], Distribute(p, items[i])) {
        DistributeKeepsShape(p, items[i]);
      }
    case Obj(m) =>
      forall k | k in m && !m[k].Str? ensures SameShape(m[k], Distribute(p, m[k])) {
        DistributeKeepsShape(p, m[k]);
      }
    case _ =>
  }

  // Recorded ids.

  predicate RecordedSecondary(secondary: seq<Secondary>, s: string) {
    exists i | 0 <= i < |secondary| :: s in secondary[i].replaced
  }

  predicate Recorded(p: PathParams, s: string) {
    (p.replacedPrimary.Some? && p.primary.Some? && s == p.replacedPrimary.value) || RecordedSecondary(p.secondary, s)
  }

  predicate IsNewId(p: PathParams, s: string) {
    p.primary == Some(s) || exists i | 0 <= i < |p.secondary| :: p.secondary[i].id == s
  }

  /** No id from the path is also one of the ids it replaced. */
  ghost predicate NewIdsAreNew(p: PathParams) {
    forall s | IsNewId(p, s) :: !Recorded(p, s)
  }

  lemma {:induction false} InSecondaryFinds(secondary: seq<Secondary>, s: string)
    ensures InSecondary(secondary, s).Some? <==> RecordedSecondary(secondary, s)
    ensures InSecondary(secondary, s).Some? ==>
      exists i | 0 <= i < |secondary| :: secondary[i].id == InSecondary(secondary, s).value && s in secondary[i].replaced
  {
    if secondary != [] {
      InSecondaryFinds(secondary[1..], s);
      if s in secondary[0].replaced {
      } else if InSecondary(secondary[1..], s).Some? {
        var i :| 0 <= i < |secondary| - 1 && secondary[1..][i].id == InSecondary(secondary, s).value && s in secondary[1..][i].replaced;
        assert secondary[i + 1] == secondary[1..][i];
      } else {
        assert forall i | 1 <= i < |secondary| :: secondary[i] == secondary[1..][i - 1];
      }
    }
  }

  /** A string is replaced exactly if it was recorded, and then by an id from the path. */
  lemma InValueFinds(p: PathParams, s: string)
    ensures InValue(p, s).Some? <==> Recorded(p, s)
    ensures InValue(p, s).Some? ==> IsNewId(p, InValue(p, s).value)
  {
    InSecondaryFinds(p.secondary, s);
  }

  lemma UrlHasSlash(s: string, old': string, new': string)
    ensures ReplaceInUrl(s, old', new').Some? ==> '/' in ReplaceInUrl(s, old', new').value
  {
    var i := Occurs(s, "/" + old' + "/");
    if i.Some? {
      assert (s[..i.value] + ("/" + new' + "/") + s[i.value + |old'| + 2..])[i.value] == '/';
    }
  }

  lemma {:induction false} InUrlOfHasSlash(replaced: seq<string>, id: string, s: string)
    ensures InUrlOf(replaced, id, s).Some? ==> '/' in InUrlOf(replaced, id, s).value
  {
    if replaced != [] {
      UrlHasSlash(s, replaced[0], id);
      InUrlOfHasSlash(replaced[1..], id, s);
    }
  }

  lemma {:induction false} InSecondaryUrlHasSlash(secondary: seq<Secondary>, s: string)
    ensures InSecondaryUrl(secondary, s).Some? ==> '/' in InSecondaryUrl(secondary, s).value
  {
    if secondary != [] {
      InUrlOfHasSlash(secondary[0].replaced, secondary[0].id, s);
      InSecondaryUrlHasSlash(secondary[1..], s);
    }
  }

  lemma InUrlHasSlash(p: PathParams, s: string)
    ensures InUrl(p, s).Some? ==> '/' in InUrl(p, s).value
  {
    InSecondaryUrlHasSlash(p.secondary, s);
    if p.replacedPrimary.Some? && p.primary.Some? {
      UrlHasSlash(s, p.replacedPrimary.value, p.primary.value);
    }
  }

  predicate SlashFree(p: PathParams) {
    p.replacedPrimary.Some? ==> '/' !in p.replacedPrimary.value
  }

  // After the second pass.

  /** No field but a `url` holds a recorded id, and not even a `url` is the replaced primary id. */
  ghost predicate NothingLeft(p: PathParams, data: Json)
    decreases data
  {
    match data
    case Arr(items) => forall i | 0 <= i < |items| :: NothingLeft(p, items[i])
    case Obj(m) =>
      forall k | k in m ::
        if m[k].Str? then
          (k != "url" ==> !Recorded(p, m[k].s)) && (p.primary.Some? ==> p.replacedPrimary != Some(m[k].s))
        else NothingLeft(p, m[k])
    case _ => true
  }

  lemma StringLeft(p: PathParams, key: string, s: string)
    requires NewIdsAreNew(p) && SlashFree(p)
    ensures var t := DistributeString(p, key, s);
      && (key != "url" ==> !Recorded(p, t))
      && (p.primary.Some? ==> p.replacedPrimary != Some(t))
      && (key != "url" && !Recorded(p, s) ==> t == s)
  {
    InValueFinds(p, s);
    InUrlHasSlash(p, s);
    hide InValue, InUrl;
  }

  lemma {:induction false} DistributeLeavesNothing(p: PathParams, data: Json)
    requires NewIdsAreNew(p) && SlashFree(p)
    ensures NothingLeft(p, Distribute(p, data))
    decreases data
  {
    match data
    case Arr(items) =>
      forall i | 0 <= i < |items| ensures NothingLeft(p, Distribute(p, items[i])) {
        DistributeLeavesNothing(p, items[i]);
      }
    case Obj(m) =>
      forall k | k in m && !m[k].Str? ensures NothingLeft(p, Distribute(p, m[k])) && !Distribute(p, m[k]).Str? {
        DistributeLeavesNothing(p, m[k]);
      }
      forall k | k in m && m[k].Str?
        ensures var t := DistributeString(p, k, m[k].s);
          (k != "url" ==> !Recorded(p, t)) && (p.primary.Some? ==> p.replacedPrimary != Some(t))
      {
        StringLeft(p, k, m[k].s);
      }
      hide DistributeString, Recorded;
    case _ =>
  }

  /** Fields are equal unless they are a `url` or hold an id recorded by `p`. */
  ghost predicate SameOtherwise(p: PathParams, a: Json, b: Json)
    decreases a
  {
    match (a, b)
    case (Arr(x), Arr(y)) => |x| == |y| && forall i | 0 <= i < |x| :: SameOtherwise(p, x[i], y[i])
    case (Obj(m), Obj(n)) =>
      m.Keys == n.Keys && forall k | k in m ::
        if m[k].Str? then k == "url" || Recorded(p, m[k].s) || n[k] == m[k] else SameOtherwise(p, m[k], n[k])
    case _ => a == b
  }

  lemma {:induction false} DistributeChangesRecorded(p: PathParams, data: Json)
    ensures SameOtherwise(p, data, Distribute(p, data))
    decreases data
  {
    match data
    case Arr(items) =>
      forall i | 0 <= i < |items| ensures SameOtherwise(p, items[i], Distribute(p, items[i])) {
        DistributeChangesRecorded(p, items[i]);
      }
    case Obj(m) =>
      forall k | k in m && !m[k].Str? ensures SameOtherwise(p, m[k], Distribute(p, m[k])) {
        DistributeChangesRecorded(p, m[k]);
      }
      forall k | k in m && m[k].Str? ensures k == "url" || Recorded(p, m[k].s) || DistributeString(p, k, m[k].s) == m[k].s {
        InValueFinds(p, m[k].s);
      }
      hide DistributeString, Recorded;
    case _ =>
  }

  /** Equal but for the fields named `url`. */
  ghost predicate SameButUrls(a: Json, b: Json)
    decreases a
  {
    match (a, b)
    case (Arr(x), Arr(y)) => |x| == |y| && forall i | 0 <= i < |x| :: SameButUrls(x[i], y[i])
    case (Obj(m), Obj(n)) =>
      m.Keys == n.Keys && forall k | k in m :: if m[k].Str? then n[k].Str? && (k == "url" || n[k] == m[k]) else SameButUrls(m[k], n[k])
    case _ => a == b
  }

  lemma {:induction false} NothingToChange(p: PathParams, data: Json)
    requires NothingLeft(p, data)
    ensures SameButUrls(data, Distribute(p, data))
    decreases data
  {
    match data
    case Arr(items) =>
      forall i | 0 <= i < |items| ensures SameButUrls(items[i], Distribute(p, items[i])) {
        NothingToChange(p, items[i]);
      }
    case Obj(m) =>
      forall k | k in m && !m[k].Str? ensures SameButUrls(m[k], Distribute(p, m[k])) {
        NothingToChange(p, m[k]);
      }
      forall k | k in m && m[k].Str? ensures k == "url" || DistributeString(p, k, m[k].s) == m[k].s {
        InValueFinds(p, m[k].s);
      }
      hide DistributeString, Recorded;
    case _ =>
  }

  // Both passes.

  /** What the first pass has recorded: the ids it has replaced, in some order. */
  ghost predicate RecordedFrom(before: PathParams, data: Json, after: PathParams) {
    && after.primary == before.primary
    && after.replacedPrimary == OldPrimary(before, data)
    && |after.secondary| == |before.secondary|
    && forall i | 0 <= i < |before.secondary| ::
         && after.secondary[i].name == before.secondary[i].name && after.secondary[i].id == before.secondary[i].id
         && forall x :: x in after.secondary[i].replaced <==>
              x in before.secondary[i].replaced || WasReplaced(before, data, None, 0, i, x)
  }

  /**
   * When no id from the path is one of those it replaces, rewriting keeps the shape of the data, the root has
   * the primary id, no recorded id is left in a field other than a `url`, only those ids and urls are changed
   * by the second pass, and a third pass would change urls only.
   */
  lemma RewritingIsConsistent(before: PathParams, data: Json, after: PathParams)
    requires RecordedFrom(before, data, after) && NewIdsAreNew(after) && SlashFree(after)
    ensures var first := Record(before, data, None, 0);
      var second := Distribute(after, first);
      && SameShape(data, first) && SameShape(first, second)
      && NothingLeft(after, second)
      && SameOtherwise(after, first, second)
      && SameButUrls(second, Distribute(after, second))
      && (before.primary.Some? && data.Obj? && "id" in data.fields && data.fields["id"].Str? ==>
            second.Obj? && "id" in second.fields && second.fields["id"] == Str(before.primary.value))
  {
    var first := Record(before, data, None, 0);
    RecordKeepsShape(before, data, None, 0);
    DistributeKeepsShape(after, first);
    DistributeLeavesNothing(after, first);
    DistributeChangesRecorded(after, first);
    NothingToChange(after, Distribute(after, first));
    if before.primary.Some? && data.Obj? && "id" in data.fields && data.fields["id"].Str? {
      assert IsNewId(after, before.primary.value);
      assert first.fields["id"] == Str(before.primary.value);
      InValueFinds(after, before.primary.value);
    }
    hide SameShape, NothingLeft, SameOtherwise, SameButUrls;
  }
}
