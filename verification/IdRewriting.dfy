/**
 * Rewriting of ids in generated data. A first pass puts the ids of the request's path into the data and
 * records the ids they replace; a second pass replaces what is left of the recorded ids.
 */
module IdRewriting {
  import opened Json

  /** An id from the path, the name of its parameter, and the ids it has replaced. */
  datatype Secondary = Secondary(name: string, id: string, replaced: seq<string>)

  datatype PathParams = PathParams(primary: Option<string>, replacedPrimary: Option<string>, secondary: seq<Secondary>)

  // The first pass.

  /** The first parameter with a name. */
  function Named(secondary: seq<Secondary>, name: string): (i: Option<nat>)
    ensures i.Some? ==> i.value < |secondary| && secondary[i.value].name == name
  {
    if secondary == [] then None
    else if secondary[0].name == name then Some(0)
    else match Named(secondary[1..], name) case Some(i) => Some(i + 1) case None => None
  }

  function NamedBy(secondary: seq<Secondary>, name: Option<string>): (i: Option<nat>)
    ensures i.Some? ==> i.value < |secondary|
  {
    if name.Some? then Named(secondary, name.value) else None
  }

  /** What is in the `object` field, if that is a string. */
  function ObjectField(m: map<string, Json>): Option<string> {
    if "object" in m && m["object"].Str? then Some(m["object"].s) else None
  }

  function RecordId(p: PathParams, val: string, object': Option<string>, parentKey: Option<string>, level: nat): string {
    if level == 0 then
      if p.primary.Some? then p.primary.value else val
    else
      match NamedBy(p.secondary, parentKey)
      case Some(i) => p.secondary[i].id
      case None =>
        match NamedBy(p.secondary, object')
        case Some(i) => p.secondary[i].id
        case None => val
  }

  function RecordField(p: PathParams, val: string, key: string): string {
    match Named(p.secondary, key)
    case Some(i) => p.secondary[i].id
    case None => val
  }

  /** The data after the first pass. */
  function Record(p: PathParams, data: Json, parentKey: Option<string>, level: nat): Json
    decreases data
  {
    match data
    case Arr(items) => Arr(seq(|items|, i requires 0 <= i < |items| => Record(p, items[i], None, level + 1)))
    case Obj(m) =>
      Obj(map k | k in m ::
        if m[k].Str? then
          Str(if k == "id" then RecordId(p, m[k].s, ObjectField(m), parentKey, level) else RecordField(p, m[k].s, k))
        else Record(p, m[k], Some(k), level + 1))
    case _ => data
  }

  /** Whether the first pass replaces a field by the secondary id number `i`, or would if no other did. */
  predicate Replaces(p: PathParams, m: map<string, Json>, k: string, parentKey: Option<string>, level: nat, i: nat)
    requires k in m && m[k].Str?
  {
    if k == "id" then level > 0 && (NamedBy(p.secondary, ObjectField(m)) == Some(i) || NamedBy(p.secondary, parentKey) == Some(i))
    else Named(p.secondary, k) == Some(i)
  }

  /** Whether the first pass records `x` as replaced by the secondary id number `i`; the empty string never is. */
  predicate WasReplaced(p: PathParams, data: Json, parentKey: Option<string>, level: nat, i: nat, x: string)
    decreases data
  {
    match data
    case Arr(items) => exists j | 0 <= j < |items| :: WasReplaced(p, items[j], None, level + 1, i, x)
    case Obj(m) =>
      exists k | k in m ::
        if m[k].Str? then m[k].s == x != "" && Replaces(p, m, k, parentKey, level, i)
        else WasReplaced(p, m[k], Some(k), level + 1, i, x)
    case _ => false
  }

  /** The id the first pass records as replaced by the primary id. */
  function OldPrimary(p: PathParams, data: Json): Option<string> {
    if p.primary.Some? && data.Obj? && "id" in data.fields && data.fields["id"].Str? then Some(data.fields["id"].s)
    else p.replacedPrimary
  }

  // The second pass.

  function InSecondary(secondary: seq<Secondary>, s: string): Option<string> {
    if secondary == [] then None
    else if s in secondary[0].replaced then Some(secondary[0].id)
    else InSecondary(secondary[1..], s)
  }

  /** The id that replaces a string, if it was recorded; there is a primary id if one was replaced. */
  function InValue(p: PathParams, s: string): Option<string> {
    if p.replacedPrimary.Some? && p.primary.Some? && s == p.replacedPrimary.value then p.primary
    else InSecondary(p.secondary, s)
  }

  /** Where `part` first occurs in `s`. */
  function Occurs(s: string, part: string): (i: Option<nat>)
    ensures i.Some? ==> i.value + |part| <= |s| && s[i.value..i.value + |part|] == part
  {
    if |s| < |part| then None
    else if s[..|part|] == part then Some(0)
    else match Occurs(s[1..], part) case Some(i) => Some(i + 1) case None => None
  }

  /** The first occurrence of an old id between slashes, replaced. */
  function ReplaceInUrl(s: string, old': string, new': string): Option<string> {
    match Occurs(s, "/" + old' + "/")
    case Some(i) => Some(s[..i] + ("/" + new' + "/") + s[i + |old'| + 2..])
    case None => None
  }

  function InUrlOf(replaced: seq<string>, id: string, s: string): Option<string> {
    if replaced == [] then None
    else if ReplaceInUrl(s, replaced[0], id).Some? then ReplaceInUrl(s, replaced[0], id)
    else InUrlOf(replaced[1..], id, s)
  }

  function InSecondaryUrl(secondary: seq<Secondary>, s: string): Option<string> {
    if secondary == [] then None
    else
      var r := InUrlOf(secondary[0].replaced, secondary[0].id, s);
      if r.Some? then r else InSecondaryUrl(secondary[1..], s)
  }

  function InUrl(p: PathParams, s: string): Option<string> {
    var r := if p.replacedPrimary.Some? && p.primary.Some? then ReplaceInUrl(s, p.replacedPrimary.value, p.primary.value) else None;
    if r.Some? then r else InSecondaryUrl(p.secondary, s)
  }

  function DistributeString(p: PathParams, key: string, s: string): string {
    match InValue(p, s)
    case Some(n) => n
    case None =>
      if key == "url" && InUrl(p, s).Some? then InUrl(p, s).value else s
  }

  /** The data after the second pass; strings directly in lists are left alone. */
  function Distribute(p: PathParams, data: Json): Json
    decreases data
  {
    match data
    case Arr(items) => Arr(seq(|items|, i requires 0 <= i < |items| => Distribute(p, items[i])))
    case Obj(m) => Obj(map k | k in m :: if m[k].Str? then Str(DistributeString(p, k, m[k].s)) else Distribute(p, m[k]))
    case _ => data
  }
}
