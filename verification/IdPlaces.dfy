/** Which id is where after both passes of the rewriting. */
module IdPlaces {
  import opened Json
  import opened IdRewriting
  import opened IdLaws

  /** A step down into a value: to a field or to an item. */
  datatype Step = Key(name: string) | Item(index: nat)

  function Child(data: Json, step: Step): Option<Json> {
    match (data, step)
    case (Obj(m), Key(name)) => if name in m then Some(m[name]) else None
    case (Arr(items), Item(index)) => if index < |items| then Some(items[index]) else None
    case _ => None
  }

  /** The value at the end of a path. */
  function At(data: Json, path: seq<Step>): Option<Json> {
    if path == [] then Some(data)
    else
      match At(data, path[..|path| - 1])
      case Some(v) => Child(v, path[|path| - 1])
      case None => None
  }

  /** The name a value was found under, if it was not an item of a list. */
  function ParentKey(path: seq<Step>): Option<string> {
    if path != [] && path[|path| - 1].Key? then Some(path[|path| - 1].name) else None
  }

  /** The first path parameter with a name is number `i`. */
  predicate FirstNamed(secondary: seq<Secondary>, name: string, i: nat) {
    i < |secondary| && secondary[i].name == name && forall j | 0 <= j < i :: secondary[j].name != name
  }

  predicate NoneNamed(secondary: seq<Secondary>, name: string) {
    forall j | 0 <= j < |secondary| :: secondary[j].name != name
  }

  lemma {:induction false} NamedIsFirst(secondary: seq<Secondary>, name: string)
    ensures match Named(secondary, name)
      case Some(i) => FirstNamed(secondary, name, i)
      case None => NoneNamed(secondary, name)
  {
    if secondary != [] && secondary[0].name != name {
      NamedIsFirst(secondary[1..], name);
      assert forall j | 1 <= j < |secondary| :: secondary[j] == secondary[1..][j - 1];
    }
  }

  /** Both passes. */
  function Rewritten(before: PathParams, after: PathParams, data: Json): Json {
    Distribute(after, Record(before, data, None, 0))
  }

  /** The rewritten value at a path is the value at that path, rewritten as a part of the whole. */
  lemma {:induction false} RewrittenAt(before: PathParams, after: PathParams, data: Json, path: seq<Step>)
    requires At(data, path).Some? && (path != [] ==> !At(data, path).value.Str?)
    ensures At(Rewritten(before, after, data), path) ==
      Some(Distribute(after, Record(before, At(data, path).value, ParentKey(path), |path|)))
  {
    if path != [] {
      var n := |path| - 1;
      RewrittenAt(before, after, data, path[..n]);
    }
  }

  // Strings in fields.

  /** A string field of an object at a path. */
  predicate StringField(data: Json, path: seq<Step>, key: string, s: string) {
    At(data, path).Some? && At(data, path).value.Obj? && key in At(data, path).value.fields && At(data, path).value.fields[key] == Str(s)
  }

  /** What the `object` field of the object at a path says. */
  function ObjectName(data: Json, path: seq<Step>): Option<string> {
    match At(data, path)
    case Some(Obj(m)) => (match Child(Obj(m), Key("object")) case Some(Str(s)) => Some(s) case _ => None)
    case _ => None
  }

  lemma FieldRewritten(before: PathParams, after: PathParams, data: Json, path: seq<Step>, key: string, s: string)
    requires StringField(data, path, key, s)
    ensures var m := At(data, path).value.fields;
      StringField(Rewritten(before, after, data), path, key,
        DistributeString(after, key,
          if key == "id" then RecordId(before, s, ObjectField(m), ParentKey(path), |path|) else RecordField(before, s, key)))
    ensures ObjectName(data, path) == ObjectField(At(data, path).value.fields)
  {
    RewrittenAt(before, after, data, path);
    hide RecordId, RecordField, DistributeString;
  }

  /** A new id stays where the first pass has put it. */
  lemma NewIdStays(p: PathParams, key: string, s: string)
    requires NewIdsAreNew(p) && IsNewId(p, s) && (key == "url" ==> InUrl(p, s).None?)
    ensures DistributeString(p, key, s) == s
  {
    InValueFinds(p, s);
    hide InValue, InUrl;
  }

  /** At the top, the `id` is the primary id, if there is one. */
  lemma RootId(before: PathParams, data: Json, after: PathParams, s: string)
    requires RecordedFrom(before, data, after) && NewIdsAreNew(after) && before.primary.Some?
    requires StringField(data, [], "id", s)
    ensures StringField(Rewritten(before, after, data), [], "id", before.primary.value)
    ensures after.replacedPrimary == Some(s)
  {
    assert At(data, []) == Some(data);
    FieldRewritten(before, after, data, [], "id", s);
    NewIdStays(after, "id", before.primary.value);
  }

  /** Below the top, an object has the id of the first parameter named like the key it is under. */
  lemma ParentNamesId(before: PathParams, data: Json, after: PathParams, path: seq<Step>, s: string, i: nat)
    requires RecordedFrom(before, data, after) && NewIdsAreNew(after)
    requires path != [] && StringField(data, path, "id", s)
    requires ParentKey(path).Some? && FirstNamed(before.secondary, ParentKey(path).value, i)
    ensures StringField(Rewritten(before, after, data), path, "id", before.secondary[i].id)
  {
    NamedIsFirst(before.secondary, ParentKey(path).value);
    FieldRewritten(before, after, data, path, "id", s);
    assert after.secondary[i].id == before.secondary[i].id;
    NewIdStays(after, "id", before.secondary[i].id);
  }

  /** Otherwise it has the id of the first parameter named like its `object` field. */
  lemma ObjectNamesId(before: PathParams, data: Json, after: PathParams, path: seq<Step>, s: string, i: nat)
    requires RecordedFrom(before, data, after) && NewIdsAreNew(after)
    requires path != [] && StringField(data, path, "id", s)
    requires ParentKey(path).Some? ==> NoneNamed(before.secondary, ParentKey(path).value)
    requires ObjectName(data, path).Some? && FirstNamed(before.secondary, ObjectName(data, path).value, i)
    ensures StringField(Rewritten(before, after, data), path, "id", before.secondary[i].id)
  {
    if ParentKey(path).Some? {
      NamedIsFirst(before.secondary, ParentKey(path).value);
    }
    NamedIsFirst(before.secondary, ObjectName(data, path).value);
    FieldRewritten(before, after, data, path, "id", s);
    assert after.secondary[i].id == before.secondary[i].id;
    NewIdStays(after, "id", before.secondary[i].id);
  }

  /** A string field with the name of a parameter has its id. */
  lemma NameNamesField(before: PathParams, data: Json, after: PathParams, path: seq<Step>, key: string, s: string, i: nat)
    requires RecordedFrom(before, data, after) && NewIdsAreNew(after)
    requires key != "id" && StringField(data, path, key, s) && FirstNamed(before.secondary, key, i)
    requires key == "url" ==> '/' !in before.secondary[i].id
    ensures StringField(Rewritten(before, after, data), path, key, before.secondary[i].id)
  {
    NamedIsFirst(before.secondary, key);
    FieldRewritten(before, after, data, path, key, s);
    assert after.secondary[i].id == before.secondary[i].id;
    if key == "url" {
      NoSlashNoId(after, before.secondary[i].id);
    }
    NewIdStays(after, key, before.secondary[i].id);
  }

  // All other strings.

  /** No parameter names the field, the object it is in, or the key that object is under. */
  predicate Unnamed(p: PathParams, data: Json, path: seq<Step>, key: string) {
    if key == "id" then
      if path == [] then p.primary.None?
      else
        && (ParentKey(path).Some? ==> NoneNamed(p.secondary, ParentKey(path).value))
        && (ObjectName(data, path).Some? ==> NoneNamed(p.secondary, ObjectName(data, path).value))
    else NoneNamed(p.secondary, key)
  }

  lemma UnnamedStays(before: PathParams, data: Json, after: PathParams, path: seq<Step>, key: string, s: string)
    requires StringField(data, path, key, s) && Unnamed(before, data, path, key)
    ensures StringField(Rewritten(before, after, data), path, key, DistributeString(after, key, s))
  {
    FieldRewritten(before, after, data, path, key, s);
    if key == "id" {
      if ParentKey(path).Some? {
        NamedIsFirst(before.secondary, ParentKey(path).value);
      }
      if ObjectName(data, path).Some? {
        NamedIsFirst(before.secondary, ObjectName(data, path).value);
      }
    } else {
      NamedIsFirst(before.secondary, key);
    }
    hide DistributeString, Rewritten, Named;
  }

  predicate IsOldPrimary(p: PathParams, s: string) {
    p.primary.Some? && p.replacedPrimary == Some(s)
  }

  /** The first parameter that has recorded a string is number `i`. */
  predicate FirstRecorded(p: PathParams, s: string, i: nat) {
    i < |p.secondary| && s in p.secondary[i].replaced && forall j | 0 <= j < i :: s !in p.secondary[j].replaced
  }

  predicate NoneRecorded(p: PathParams, s: string) {
    !IsOldPrimary(p, s) && forall j | 0 <= j < |p.secondary| :: s !in p.secondary[j].replaced
  }

  lemma {:induction false} InSecondaryIsFirst(secondary: seq<Secondary>, s: string, i: nat)
    requires i < |secondary| && s in secondary[i].replaced && forall j | 0 <= j < i :: s !in secondary[j].replaced
    ensures InSecondary(secondary, s) == Some(secondary[i].id)
  {
    if i > 0 {
      assert secondary[1..][i - 1] == secondary[i] && forall j | 0 <= j < i - 1 :: secondary[1..][j] == secondary[j + 1];
      InSecondaryIsFirst(secondary[1..], s, i - 1);
    }
  }

  /** A string that was replaced somewhere as the primary id is the new primary id wherever else it is. */
  lemma OldPrimaryBecomesNew(before: PathParams, data: Json, after: PathParams, path: seq<Step>, key: string, s: string)
    requires RecordedFrom(before, data, after) && StringField(data, path, key, s) && Unnamed(before, data, path, key)
    requires IsOldPrimary(after, s)
    ensures StringField(Rewritten(before, after, data), path, key, before.primary.value)
  {
    UnnamedStays(before, data, after, path, key, s);
  }

  /** A string that was replaced somewhere by the id of a parameter is that id wherever else it is. */
  lemma RecordedBecomesNew(before: PathParams, data: Json, after: PathParams, path: seq<Step>, key: string, s: string, i: nat)
    requires RecordedFrom(before, data, after) && StringField(data, path, key, s) && Unnamed(before, data, path, key)
    requires !IsOldPrimary(after, s) && FirstRecorded(after, s, i)
    ensures StringField(Rewritten(before, after, data), path, key, before.secondary[i].id)
  {
    UnnamedStays(before, data, after, path, key, s);
    InSecondaryIsFirst(after.secondary, s, i);
    hide InSecondary;
  }

  /** A string that was replaced nowhere stays as it is, unless it is a url. */
  lemma OthersStay(before: PathParams, data: Json, after: PathParams, path: seq<Step>, key: string, s: string)
    requires StringField(data, path, key, s) && Unnamed(before, data, path, key) && NoneRecorded(after, s) && key != "url"
    ensures StringField(Rewritten(before, after, data), path, key, s)
  {
    UnnamedStays(before, data, after, path, key, s);
    InSecondaryFinds(after.secondary, s);
    hide InSecondary;
  }

  // Urls.

  predicate Holds(s: string, part: string, head: string, tail: string) {
    s == head + part + tail
  }

  lemma {:induction false} OccursFirst(s: string, part: string)
    ensures var i := Occurs(s, part);
      && (i.None? ==> forall head, tail :: !Holds(s, part, head, tail))
      && (i.Some? ==> forall head, tail | Holds(s, part, head, tail) :: i.value <= |head|)
    decreases |s|
  {
    forall head, tail | Holds(s, part, head, tail) ensures |s| >= |part| && (head == [] ==> s[..|part|] == part) {
    }
    if |s| >= |part| && s[..|part|] != part {
      OccursFirst(s[1..], part);
      forall head, tail | Holds(s, part, head, tail)
        ensures head != [] && Holds(s[1..], part, head[1..], tail)
      {
        assert head == [head[0]] + head[1..];
      }
    }
  }

  /** The first place of an old id between slashes has `head` before it and `tail` after it. */
  ghost predicate FirstPlace(s: string, id: string, head: string, tail: string) {
    var part := "/" + id + "/";
    Holds(s, part, head, tail) && forall h, t | Holds(s, part, h, t) :: |head| <= |h|
  }

  ghost predicate HoldsId(s: string, id: string) {
    exists head, tail :: Holds(s, "/" + id + "/", head, tail)
  }

  /** What comes before and after the first place of an old id is kept, and the new one is in its place. */
  ghost predicate Replaced(s: string, old': string, new': string, r: string) {
    exists head, tail :: FirstPlace(s, old', head, tail) && r == head + ("/" + new' + "/") + tail
  }

  lemma ReplacesInUrl(s: string, old': string, new': string)
    ensures match ReplaceInUrl(s, old', new')
      case None => !HoldsId(s, old')
      case Some(r) => HoldsId(s, old') && Replaced(s, old', new', r)
  {
    var part := "/" + old' + "/";
    OccursFirst(s, part);
    var i := Occurs(s, part);
    if i.Some? {
      var head, tail := s[..i.value], s[i.value + |part|..];
      assert s == head + s[i.value..i.value + |part|] + tail;
      assert Holds(s, part, head, tail) && FirstPlace(s, old', head, tail);
    }
  }

  /** The url holds no id that the parameters before number `i` have replaced. */
  ghost predicate HoldsNoneBefore(p: PathParams, s: string, i: nat)
    requires i <= |p.secondary|
  {
    forall j, x | 0 <= j < i && x in p.secondary[j].replaced :: !HoldsId(s, x)
  }

  /** One of the ids the parameter has replaced is in the url, and has been replaced there. */
  ghost predicate ReplacedBy(secondary: Secondary, s: string, r: string) {
    exists x :: x in secondary.replaced && Replaced(s, x, secondary.id, r)
  }

  lemma {:induction false} InUrlOfFinds(replaced: seq<string>, id: string, s: string)
    ensures match InUrlOf(replaced, id, s)
      case None => forall x | x in replaced :: !HoldsId(s, x)
      case Some(r) => (exists x :: x in replaced && Replaced(s, x, id, r)) && exists x | x in replaced :: HoldsId(s, x)
  {
    hide HoldsId, Replaced, ReplaceInUrl;
    if replaced != [] {
      ReplacesInUrl(s, replaced[0], id);
      InUrlOfFinds(replaced[1..], id, s);
      assert replaced == [replaced[0]] + replaced[1..] && replaced[0] in replaced;
      var r := InUrlOf(replaced, id, s);
      if ReplaceInUrl(s, replaced[0], id).None? && r.Some? {
        var x :| x in replaced[1..] && Replaced(s, x, id, r.value);
        var y :| y in replaced[1..] && HoldsId(s, y);
        assert x in replaced && y in replaced;
      }
    }
  }

  /** The first parameter with a replaced id in the url. */
  ghost predicate FirstInUrl(secondary: seq<Secondary>, s: string, r: string, i: nat) {
    && i < |secondary| && ReplacedBy(secondary[i], s, r)
    && (exists x | x in secondary[i].replaced :: HoldsId(s, x))
    && forall j, x | 0 <= j < i && x in secondary[j].replaced :: !HoldsId(s, x)
  }

  lemma FirstShifts(secondary: seq<Secondary>, s: string, r: string, i: nat)
    requires secondary != [] && FirstInUrl(secondary[1..], s, r, i) && forall x | x in secondary[0].replaced :: !HoldsId(s, x)
    ensures FirstInUrl(secondary, s, r, i + 1)
  {
    hide HoldsId, ReplacedBy;
    forall j, x | 0 <= j < i + 1 && x in secondary[j].replaced ensures !HoldsId(s, x) {
      if j > 0 {
        assert secondary[j] == secondary[1..][j - 1];
      }
    }
    assert secondary[i + 1] == secondary[1..][i];
  }

  lemma {:induction false} InSecondaryUrlFinds(secondary: seq<Secondary>, s: string) returns (i: nat)
    ensures match InSecondaryUrl(secondary, s)
      case None => forall j, x | 0 <= j < |secondary| && x in secondary[j].replaced :: !HoldsId(s, x)
      case Some(r) => FirstInUrl(secondary, s, r, i)
  {
    hide HoldsId, Replaced, InUrlOf;
    i := 0;
    if secondary != [] {
      InUrlOfFinds(secondary[0].replaced, secondary[0].id, s);
      if InUrlOf(secondary[0].replaced, secondary[0].id, s).None? {
        var j := InSecondaryUrlFinds(secondary[1..], s);
        assert forall j | 1 <= j < |secondary| :: secondary[j] == secondary[1..][j - 1];
        if InSecondaryUrl(secondary[1..], s).Some? {
          FirstShifts(secondary, s, InSecondaryUrl(secondary[1..], s).value, j);
          i := j + 1;
        }
      }
    }
  }

  /**
   * A url that is not itself a replaced id: the old primary id is looked for in it first, then the ids each parameter
   * has replaced, in the order of the parameters. The first one found gives way to its new id, once; a url in which
   * none is found stays as it is.
   */
  lemma UrlRewritten(before: PathParams, data: Json, after: PathParams, path: seq<Step>, s: string) returns (r: string)
    requires StringField(data, path, "url", s) && NoneNamed(before.secondary, "url") && NoneRecorded(after, s)
    ensures StringField(Rewritten(before, after, data), path, "url", r)
    ensures
      if exists old' :: IsOldPrimary(after, old') && HoldsId(s, old') then
        exists old' :: IsOldPrimary(after, old') && Replaced(s, old', after.primary.value, r)
      else if exists i, x | 0 <= i < |after.secondary| && x in after.secondary[i].replaced :: HoldsId(s, x) then
        exists i: nat :: FirstInUrl(after.secondary, s, r, i)
      else r == s
  {
    UnnamedStays(before, data, after, path, "url", s);
    r := UrlField(after, s);
    hide HoldsId, Replaced, FirstInUrl, NoneRecorded, Rewritten, DistributeString;
  }

  lemma UrlField(p: PathParams, s: string) returns (r: string)
    requires NoneRecorded(p, s)
    ensures r == DistributeString(p, "url", s)
    ensures
      if exists old' :: IsOldPrimary(p, old') && HoldsId(s, old') then
        exists old' :: IsOldPrimary(p, old') && Replaced(s, old', p.primary.value, r)
      else if exists i, x | 0 <= i < |p.secondary| && x in p.secondary[i].replaced :: HoldsId(s, x) then
        exists i: nat :: FirstInUrl(p.secondary, s, r, i)
      else r == s
  {
    hide HoldsId, Replaced, InSecondary, InSecondaryUrl, ReplaceInUrl;
    r := DistributeString(p, "url", s);
    InSecondaryFinds(p.secondary, s);
    var i := InSecondaryUrlFinds(p.secondary, s);
    if p.replacedPrimary.Some? && p.primary.Some? {
      ReplacesInUrl(s, p.replacedPrimary.value, p.primary.value);
      assert IsOldPrimary(p, p.replacedPrimary.value);
    }
  }

  // What is recorded.

  /** The parameter number `i` names the string field: its key, or for an `id` below the top the object or the key it is under. */
  predicate NamesField(p: PathParams, data: Json, path: seq<Step>, key: string, parentKey: Option<string>, top: bool, i: nat) {
    if key == "id" then
      !top && ((parentKey.Some? && FirstNamed(p.secondary, parentKey.value, i))
               || (ObjectName(data, path).Some? && FirstNamed(p.secondary, ObjectName(data, path).value, i)))
    else FirstNamed(p.secondary, key, i)
  }

  /** The string `x` is in a field that the parameter number `i` names. */
  ghost predicate Somewhere(p: PathParams, data: Json, parentKey: Option<string>, level: nat, i: nat, x: string) {
    exists path: seq<Step>, key ::
      StringField(data, path, key, x)
      && NamesField(p, data, path, key, if path == [] then parentKey else ParentKey(path), level + |path| == 0, i)
  }

  lemma {:induction false} AtBelow(data: Json, step: Step, path: seq<Step>)
    ensures At(data, [step] + path) == match Child(data, step) case Some(v) => At(v, path) case None => None
  {
    if path == [] {
      assert [step] + path == [step] && [step][..0] == [];
      assert At(data, []) == Some(data);
    } else {
      var n := |path| - 1;
      assert ([step] + path)[..n + 1] == [step] + path[..n] && ([step] + path)[n + 1] == path[n];
      AtBelow(data, step, path[..n]);
    }
  }

  /** What a field of an object names, seen from the object and from the field. */
  lemma {:induction false} RecordedIsSomewhere(p: PathParams, data: Json, parentKey: Option<string>, level: nat, i: nat, x: string)
    requires WasReplaced(p, data, parentKey, level, i, x)
    ensures x != "" && Somewhere(p, data, parentKey, level, i, x)
    decreases data
  {
    match data
    case Arr(items) =>
      var j :| 0 <= j < |items| && WasReplaced(p, items[j], None, level + 1, i, x);
      RecordedIsSomewhere(p, items[j], None, level + 1, i, x);
      SomewhereBelow(p, data, Item(j), parentKey, level, i, x);
    case Obj(m) =>
      if k :| k in m && m[k].Str? && m[k].s == x != "" && Replaces(p, m, k, parentKey, level, i) {
        RecordedHere(p, m, k, parentKey, level, i);
        assert At(data, []) == Some(data);
        assert StringField(data, [], k, x) && NamesField(p, data, [], k, parentKey, level == 0, i);
      } else {
        var k :| k in m && !m[k].Str? && WasReplaced(p, m[k], Some(k), level + 1, i, x);
        RecordedIsSomewhere(p, m[k], Some(k), level + 1, i, x);
        SomewhereBelow(p, data, Key(k), parentKey, level, i, x);
      }
    case _ =>
  }

  lemma RecordedHere(p: PathParams, m: map<string, Json>, k: string, parentKey: Option<string>, level: nat, i: nat)
    requires k in m && m[k].Str?
    ensures Replaces(p, m, k, parentKey, level, i) <==> NamesField(p, Obj(m), [], k, parentKey, level == 0, i)
  {
    hide Named;
    NamedIsFirst(p.secondary, k);
    if parentKey.Some? {
      NamedIsFirst(p.secondary, parentKey.value);
    }
    if ObjectField(m).Some? {
      NamedIsFirst(p.secondary, ObjectField(m).value);
    }
    assert At(Obj(m), []) == Some(Obj(m));
  }

  /** The key the child at `step` is under. */
  function Under(step: Step): Option<string> {
    if step.Key? then Some(step.name) else None
  }

  lemma SomewhereBelow(p: PathParams, data: Json, step: Step, parentKey: Option<string>, level: nat, i: nat, x: string)
    requires Child(data, step).Some? && Somewhere(p, Child(data, step).value, Under(step), level + 1, i, x)
    ensures Somewhere(p, data, parentKey, level, i, x)
  {
    var v := Child(data, step).value;
    var path: seq<Step>, key :| StringField(v, path, key, x)
      && NamesField(p, v, path, key, if path == [] then Under(step) else ParentKey(path), level + 1 + |path| == 0, i);
    AtBelow(data, step, path);
    var full := [step] + path;
    assert ParentKey(full) == if path == [] then Under(step) else ParentKey(path);
    assert StringField(data, full, key, x) && NamesField(p, data, full, key, ParentKey(full), false, i);
  }

  lemma {:induction false} SomewhereIsRecorded(p: PathParams, data: Json, parentKey: Option<string>, level: nat, i: nat, x: string,
                                               path: seq<Step>, key: string)
    requires x != "" && StringField(data, path, key, x)
    requires NamesField(p, data, path, key, if path == [] then parentKey else ParentKey(path), level + |path| == 0, i)
    ensures WasReplaced(p, data, parentKey, level, i, x)
    decreases |path|
  {
    if path == [] {
      RecordedHere(p, data.fields, key, parentKey, level, i);
    } else {
      var step, rest := path[0], path[1..];
      assert path == [step] + rest;
      AtBelow(data, step, rest);
      var v := Child(data, step).value;
      assert ParentKey(path) == if rest == [] then Under(step) else ParentKey(rest);
      assert ObjectName(v, rest) == ObjectName(data, path);
      NotAString(v, rest, key, x);
      SomewhereIsRecorded(p, v, Under(step), level + 1, i, x, rest, key);
    }
  }

  lemma {:induction false} NotAString(v: Json, path: seq<Step>, key: string, x: string)
    requires StringField(v, path, key, x)
    ensures !v.Str?
  {
    if path != [] {
      PrefixExists(v, path, 0);
    }
  }

  lemma {:induction false} PrefixExists(v: Json, path: seq<Step>, n: nat)
    requires At(v, path).Some? && n < |path|
    ensures At(v, path[..n]).Some? && Child(At(v, path[..n]).value, path[n]).Some?
    decreases |path|
  {
    var last := |path| - 1;
    if n < last {
      PrefixExists(v, path[..last], n);
      assert path[..last][..n] == path[..n];
    }
  }

  /** A parameter records exactly the non-empty strings of the fields it names. */
  lemma RecordsExactly(before: PathParams, data: Json, after: PathParams, i: nat, x: string)
    requires RecordedFrom(before, data, after) && i < |before.secondary|
    ensures x in after.secondary[i].replaced <==>
      x in before.secondary[i].replaced || (x != "" && Somewhere(before, data, None, 0, i, x))
  {
    if WasReplaced(before, data, None, 0, i, x) {
      RecordedIsSomewhere(before, data, None, 0, i, x);
    }
    if x != "" && Somewhere(before, data, None, 0, i, x) {
      var path: seq<Step>, key :| StringField(data, path, key, x)
        && NamesField(before, data, path, key, if path == [] then None else ParentKey(path), 0 + |path| == 0, i);
      SomewhereIsRecorded(before, data, None, 0, i, x, path, key);
    }
    hide WasReplaced, Somewhere;
  }

  lemma IdHasSlash(s: string, id: string)
    ensures HoldsId(s, id) ==> '/' in s
  {
    if head, tail :| Holds(s, "/" + id + "/", head, tail) {
      assert s[|head|] == '/';
    }
  }

  /** A text without slashes holds no id between slashes. */
  lemma NoSlashNoId(p: PathParams, s: string)
    requires '/' !in s
    ensures InUrl(p, s).None?
  {
    forall id ensures !HoldsId(s, id) {
      IdHasSlash(s, id);
    }
    hide HoldsId, Replaced, InSecondaryUrl, ReplaceInUrl;
    var i := InSecondaryUrlFinds(p.secondary, s);
    if p.replacedPrimary.Some? && p.primary.Some? {
      ReplacesInUrl(s, p.replacedPrimary.value, p.primary.value);
    }
  }
}
