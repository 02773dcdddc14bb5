/**
 * Schema-directed coercion of request parameters. Coercion changes maps and lists in place and also returns
 * a value; a coercion that reports failure keeps its in-place changes, so an outcome holds both.
 */
module Coercer {
  import opened Json
  import opened OpenApi
  import opened Decimal

  /**
   * `Done` holds the value as it was changed in place and, if the coercion succeeded, the value that replaces
   * it. `Error` is the error for an index that is too large, with the flag that goes with it and what it has left
   * of the value, if that does not depend on the order in which a map is iterated. `Unspecified` is an outcome
   * that depends on that order.
   */
  datatype Coercion = Done(inPlace: Json, ok: bool, result: Json) | Error(ok: bool, left: Option<Json>) | Unspecified

  const MAX_SLICE_SIZE := 1000

  const TRUE_WORDS := {"1", "t", "T", "TRUE", "true", "True"}

  const FALSE_WORDS := {"0", "f", "F", "FALSE", "false", "False"}

  /** How floating-point numbers are read. */
  type FloatParser = string -> Option<real>

  // Primitive values.

  predicate IsPrimitive(s: Schema) {
    s.kind == "boolean" || s.kind == "integer" || s.kind == "number" || s.kind == "string"
  }

  function CoercePrimitive(parse: FloatParser, v: Json, kind: string): Option<Json> {
    if !v.Str? then None
    else if kind == "boolean" then
      if v.s in TRUE_WORDS then Some(Bool(true)) else if v.s in FALSE_WORDS then Some(Bool(false)) else None
    else if kind == "integer" then
      match ParseInt(v.s) case Some(n) => Some(Num(n as real)) case None => None
    else if kind == "number" then
      match parse(v.s) case Some(x) => Some(Num(x)) case None => None
    else if kind == "string" then Some(v)
    else None
  }

  // Maps with integer keys.

  function Index(key: string): Option<nat> {
    if IsNumeral(key) && Value(key) <= MAX_INT then Some(Value(key)) else None
  }

  predicate IndexKeyed(keys: set<string>) {
    forall k | k in keys :: Index(k).Some?
  }

  /** Two keys for one index, such as 0 and 00. */
  predicate Collide(keys: set<string>) {
    exists j, k | j in keys && k in keys :: j != k && Index(j) == Index(k)
  }

  ghost function Biggest(keys: set<string>): (n: nat)
    requires IndexKeyed(keys)
    ensures forall k | k in keys :: Index(k).value <= n
    ensures n == 0 || exists k | k in keys :: Index(k) == Some(n)
  {
    if keys == {} then 0
    else
      var k :| k in keys;
      var m := Biggest(keys - {k});
      if Index(k).value > m then Index(k).value else m
  }

  ghost function AtIndex(m: map<string, Json>, i: nat): Json {
    if exists k | k in m :: Index(k) == Some(i) then
      var k :| k in m && Index(k) == Some(i); m[k]
    else Null
  }

  /** The list an integer-keyed map stands for; gaps are null. */
  ghost function SliceOf(m: map<string, Json>): seq<Json>
    requires IndexKeyed(m.Keys)
  {
    seq(Biggest(m.Keys) + 1, i requires 0 <= i => AtIndex(m, i))
  }

  // Coercion.

  /** What a field holds after its value has been coerced. */
  function Kept(c: Coercion): Json
    requires c.Done?
  {
    if c.ok then c.result else c.inPlace
  }

  /** An item that fails to coerce does no harm when it is null. */
  predicate Fine(c: Coercion, v: Json) {
    c.Done? && (c.ok || v == Null)
  }

  // What an error leaves.

  /** Coercing a value leaves it as it was. */
  predicate Leaves(c: Coercion, v: Json) {
    match c
    case Done(_, _, _) => Kept(c) == v
    case Error(_, left) => left == Some(v)
    case Unspecified => false
  }

  /** One key fails with an error, and no other key changes. */
  ghost predicate OnlyError(m: map<string, Json>, cs: map<string, Coercion>, e: string)
    requires cs.Keys <= m.Keys && e in cs
  {
    cs[e].Error? && cs[e].left.Some? && forall k | k in cs && k != e :: cs[k].Done? && Leaves(cs[k], m[k])
  }

  /** A map in which one of the keys `cs` is about fails with an error: the order decides which others were coerced before. */
  ghost function LeftInMap(m: map<string, Json>, cs: map<string, Coercion>): Option<Json>
    requires cs.Keys <= m.Keys
  {
    if forall k | k in cs :: Leaves(cs[k], m[k]) then Some(Obj(m))
    else if exists e | e in cs :: OnlyError(m, cs, e) then
      var e :| e in cs && OnlyError(m, cs, e);
      Some(Obj(m[e := cs[e].left.value]))
    else None
  }

  /** The position of the first error, or the length if there is none. */
  function FirstError(cs: seq<Coercion>): (n: nat)
    ensures n <= |cs| && (n < |cs| ==> cs[n].Error?) && forall i | 0 <= i < n :: !cs[i].Error?
  {
    if cs == [] || cs[0].Error? then 0 else 1 + FirstError(cs[1..])
  }

  /** The items of a list and what the list holds when one of them fails with an error: the ones before it are coerced. */
  ghost function LeftInList(a: seq<Json>, cs: seq<Coercion>): Option<(seq<Json>, seq<Json>)>
    requires |cs| == |a|
  {
    var n := FirstError(cs);
    if n < |cs| && cs[n].left.Some? && forall i | 0 <= i < n :: cs[i].Done? then
      Some((seq(|a|, i requires 0 <= i < |a| => if i < n then cs[i].inPlace else if i == n then cs[n].left.value else a[i]),
            seq(|a|, i requires 0 <= i < |a| => if i < n then Kept(cs[i]) else if i == n then cs[n].left.value else a[i])))
    else None
  }

  ghost function CoerceParams(parse: FloatParser, s: Schema, data: map<string, Json>): Coercion
    decreases s, 4
  {
    if exists k | k in data && k in s.properties :: CoerceValue(parse, data[k], s.properties[k]).Error? then
      Error(true, LeftInMap(data, map k | k in data && k in s.properties :: CoerceValue(parse, data[k], s.properties[k])))
    else if exists k | k in data && k in s.properties :: CoerceValue(parse, data[k], s.properties[k]).Unspecified? then Unspecified
    else
      var after := Obj(map k | k in data ::
        if k in s.properties then Kept(CoerceValue(parse, data[k], s.properties[k])) else data[k]);
      Done(after, true, after)
  }

  ghost function CoerceValue(parse: FloatParser, v: Json, s: Schema): Coercion
    decreases s, 5
  {
    if s.properties == map[] then CoerceNonObject(parse, v, s)
    else if v.Obj? then CoerceParams(parse, s, v.fields)
    else Done(v, false, Null)
  }

  ghost function CoerceNonObject(parse: FloatParser, v: Json, s: Schema): Coercion
    decreases s, 4
  {
    if IsPrimitive(s) then
      if s.enumeration.Some? && CoercePrimitive(parse, v, "number").Some? then Done(v, false, Null)
      else
        match CoercePrimitive(parse, v, s.kind)
        case Some(r) => Done(v, true, r)
        case None => Done(v, false, Null)
    else if s.additionalProperties.Some? && v.Obj? then
      var c := CoerceFields(parse, v.fields, s.additionalProperties.value);
      if c.Done? && !c.ok then CoerceAnyOf(parse, c.inPlace, s, 0) else c
    else CoerceAnyOf(parse, v, s, 0)
  }

  /** All values of a map, by one schema. */
  ghost function CoerceFields(parse: FloatParser, m: map<string, Json>, item: Schema): Coercion
    decreases item, 6
  {
    if exists k | k in m :: CoerceValue(parse, m[k], item).Error? then
      Error(false, LeftInMap(m, map k | k in m :: CoerceValue(parse, m[k], item)))
    else if exists k | k in m :: CoerceValue(parse, m[k], item).Unspecified? then Unspecified
    else
      var after := Obj(map k | k in m :: Kept(CoerceValue(parse, m[k], item)));
      Done(after, forall k | k in m :: Fine(CoerceValue(parse, m[k], item), m[k]), after)
  }

  /** The first branch that succeeds; each is tried on what the ones before, failed or with an error, have left. */
  ghost function CoerceAnyOf(parse: FloatParser, v: Json, s: Schema, i: nat): Coercion
    requires i <= |s.anyOf|
    decreases s, 3, |s.anyOf| - i
  {
    if i == |s.anyOf| then CoerceArray(parse, v, s)
    else
      match CoerceValue(parse, v, s.anyOf[i])
      case Done(p, ok, r) => if ok then Done(p, true, r) else CoerceAnyOf(parse, p, s, i + 1)
      case Error(ok, left) =>
        if ok then Error(true, left) else if left.Some? then CoerceAnyOf(parse, left.value, s, i + 1) else Unspecified
      case Unspecified => Unspecified
  }

  ghost function CoerceArray(parse: FloatParser, v: Json, s: Schema): Coercion
    decreases s, 2
  {
    if s.kind != "array" then Done(v, false, Null)
    else
      match v
      case Arr(a) =>
        if s.items.None? then Done(v, true, v)
        else
          (match CoerceItems(parse, a, s.items.value)
           case Done(p, ok, _) => Done(p, ok, p)
           case c => c)
      case Obj(m) =>
        if !IndexKeyed(m.Keys) then Done(v, false, Null)
        else if Biggest(m.Keys) > MAX_SLICE_SIZE then Error(false, Some(v))
        else if Collide(m.Keys) then Unspecified
        else if s.items.None? then Done(v, true, Arr(SliceOf(m)))
        else
          // The list is new, but the maps and lists in it are those of the map.
          (match CoerceItems(parse, SliceOf(m), s.items.value)
           case Done(p, ok, _) =>
             Done(Obj(InPlace(parse, m, s.items.value)), ok, p)
           case Error(ok, _) => Error(ok, LeftShared(m, LeftInList(SliceOf(m), Outcomes(parse, SliceOf(m), s.items.value))))
           case Unspecified => Unspecified)
      case _ => Done(v, false, Null)
  }

  /** A map that holds the items of the list it was read as. */
  ghost function LeftShared(m: map<string, Json>, items: Option<(seq<Json>, seq<Json>)>): Option<Json>
    requires IndexKeyed(m.Keys) && (items.Some? ==> |items.value.0| == Biggest(m.Keys) + 1)
  {
    if items.Some? then Some(Obj(map k | k in m :: items.value.0[Index(k).value])) else None
  }

  /** The values of a map as coercing them changes them in place. */
  ghost function InPlace(parse: FloatParser, m: map<string, Json>, item: Schema): map<string, Json>
    decreases item, 6
  {
    map k | k in m :: InPlaceOr(CoerceValue(parse, m[k], item), m[k])
  }

  function InPlaceOr(c: Coercion, v: Json): Json {
    if c.Done? then c.inPlace else v
  }

  /** All items of a list, by one schema. */
  ghost function CoerceItems(parse: FloatParser, a: seq<Json>, item: Schema): Coercion
    decreases item, 7
  {
    if exists i | 0 <= i < |a| :: CoerceValue(parse, a[i], item).Error? then
      var left := LeftInList(a, Outcomes(parse, a, item));
      Error(false, if left.Some? then Some(Arr(left.value.1)) else None)
    else if exists i | 0 <= i < |a| :: CoerceValue(parse, a[i], item).Unspecified? then Unspecified
    else
      var after := Arr(seq(|a|, i requires 0 <= i < |a| => KeptOr(CoerceValue(parse, a[i], item), a[i])));
      Done(after, forall i | 0 <= i < |a| :: Fine(CoerceValue(parse, a[i], item), a[i]), after)
  }

  ghost function Outcomes(parse: FloatParser, a: seq<Json>, item: Schema): seq<Coercion>
    decreases item, 6
  {
    seq(|a|, i requires 0 <= i < |a| => CoerceValue(parse, a[i], item))
  }

  function KeptOr(c: Coercion, v: Json): Json {
    if c.Done? then Kept(c) else v
  }
}
