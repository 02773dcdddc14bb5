/** The trie of requested expansions, and what can be found in it. */
module ExpansionTrie {
  import opened Json

  datatype Level = Level(expansions: map<string, Level>, wildcard: bool)

  const EMPTY_LEVEL := Level(map[], false)

  // Dotted paths.

  function Split(s: string): (parts: seq<string>)
    ensures parts != []
  {
    if '.' !in s then [s]
    else
      var i := FirstDot(s);
      [s[..i]] + Split(s[i + 1..])
  }

  function FirstDot(s: string): (i: nat)
    requires '.' in s
    ensures i < |s| && s[i] == '.' && '.' !in s[..i]
  {
    if s[0] == '.' then 0
    else
      var i := 1 + FirstDot(s[1..]);
      assert s[..i] == [s[0]] + s[1..][..i - 1];
      i
  }

  function Join(parts: seq<string>): string
    requires parts != []
  {
    if |parts| == 1 then parts[0] else parts[0] + "." + Join(parts[1..])
  }

  predicate Dotless(parts: seq<string>) {
    forall i | 0 <= i < |parts| :: '.' !in parts[i]
  }

  lemma {:induction false} SplitDotless(s: string)
    ensures Dotless(Split(s)) && Join(Split(s)) == s
  {
    if '.' in s {
      var i := FirstDot(s);
      SplitDotless(s[i + 1..]);
      assert Split(s)[1..] == Split(s[i + 1..]);
      assert s == s[..i] + "." + s[i + 1..];
    }
  }

  lemma {:induction false} SplitJoin(parts: seq<string>)
    requires parts != [] && Dotless(parts)
    ensures Split(Join(parts)) == parts
  {
    hide FirstDot;
    if |parts| > 1 {
      var s := Join(parts);
      SplitJoin(parts[1..]);
      assert s[|parts[0]|] == '.';
      assert FirstDot(s) == |parts[0]| by {
        DotAt(s, |parts[0]|);
      }
      assert s[|parts[0]| + 1..] == Join(parts[1..]);
      assert s[..|parts[0]|] == parts[0];
    }
  }

  lemma DotAt(s: string, i: nat)
    requires i < |s| && s[i] == '.' && '.' !in s[..i]
    ensures FirstDot(s) == i
  {
    var j := FirstDot(s);
    forall k | 0 <= k < i ensures s[k] != '.' {
      assert s[..i][k] in s[..i];
    }
    forall k | 0 <= k < j ensures s[k] != '.' {
      assert s[..j][k] in s[..j];
    }
  }

  // Parsing.

  /** The paths of more than one part, by their first part, without it. */
  function Groups(raw: seq<string>): map<string, seq<string>> {
    if raw == [] then map[]
    else
      var g, parts := Groups(raw[..|raw| - 1]), Split(raw[|raw| - 1]);
      if |parts| == 1 then g
      else g[parts[0] := (if parts[0] in g then g[parts[0]] else []) + [Join(parts[1..])]]
  }

  /** `rest` is what is left of a path in `raw` after its first part, `key`. */
  ghost predicate Continues(raw: seq<string>, key: string, rest: string) {
    exists s :: s in raw && |Split(s)| > 1 && Split(s)[0] == key && rest == Join(Split(s)[1..])
  }

  lemma {:induction false} GroupsHold(raw: seq<string>, key: string)
    ensures key in Groups(raw) ==> Groups(raw)[key] != []
    ensures forall rest :: (key in Groups(raw) && rest in Groups(raw)[key]) <==> Continues(raw, key, rest)
  {
    if raw != [] {
      var n := |raw| - 1;
      GroupsHold(raw[..n], key);
      hide Split, Join;
      assert forall s :: s in raw <==> s in raw[..n] || s == raw[n];
      assert forall rest :: Continues(raw, key, rest) <==> Continues(raw[..n], key, rest) || Continues([raw[n]], key, rest);
    }
  }

  function MaxLength(raw: seq<string>): nat {
    if raw == [] then 0
    else
      var n := |raw| - 1;
      if MaxLength(raw[..n]) > |raw[n]| + 1 then MaxLength(raw[..n]) else |raw[n]| + 1
  }

  lemma {:induction false} MaxLengthBounds(raw: seq<string>)
    ensures forall s | s in raw :: |s| < MaxLength(raw)
    ensures raw != [] ==> exists s :: s in raw && MaxLength(raw) == |s| + 1
  {
    if raw != [] {
      var n := |raw| - 1;
      MaxLengthBounds(raw[..n]);
      assert forall s :: s in raw <==> s in raw[..n] || s == raw[n];
    }
  }

  lemma {:induction false} JoinLength(parts: seq<string>)
    requires |parts| > 1
    ensures |Join(parts[1..])| < |Join(parts)|
  {
  }

  lemma GroupsShrink(raw: seq<string>, key: string)
    requires key in Groups(raw)
    ensures MaxLength(Groups(raw)[key]) < MaxLength(raw)
  {
    GroupsHold(raw, key);
    var group := Groups(raw)[key];
    MaxLengthBounds(raw);
    MaxLengthBounds(group);
    forall rest | rest in group ensures |rest| + 1 < MaxLength(raw) {
      var s :| s in raw && |Split(s)| > 1 && Split(s)[0] == key && rest == Join(Split(s)[1..]);
      SplitDotless(s);
      JoinLength(Split(s));
    }
  }

  function Singles(raw: seq<string>): set<string> {
    set s | s in raw && |Split(s)| == 1 && s != "*"
  }

  function Parse(raw: seq<string>): Level
    decreases MaxLength(raw)
  {
    var g := Groups(raw);
    Level(map key | key in Singles(raw) + g.Keys :: if key in g then (GroupsShrink(raw, key); Parse(g[key])) else EMPTY_LEVEL,
          "*" in raw)
  }

  /** Reads the paths one by one, then the groups in any order. */
  method ParseExpansionLevel(raw: seq<string>) returns (level: Level)
    ensures level == Parse(raw)
    decreases MaxLength(raw)
  {
    hide Split, Join, MaxLength, Groups, Singles, Parse;
    var wildcard, expansions, groups := ReadPaths(raw);
    var rest := groups.Keys;
    while rest != {}
      invariant rest <= groups.Keys
      invariant expansions.Keys == Singles(raw) + (groups.Keys - rest)
      invariant forall key | key in expansions ::
        expansions[key] == if key in groups.Keys - rest then Parse(groups[key]) else EMPTY_LEVEL
      decreases MaxLength(raw), rest
    {
      var key :| key in rest;
      rest := rest - {key};
      GroupsShrink(raw, key);
      var sub := ParseExpansionLevel(groups[key]);
      expansions := expansions[key := sub];
    }
    assert groups.Keys - rest == groups.Keys;
    ParsedLevel(raw, expansions);
    level := Level(expansions, wildcard);
  }

  lemma ParsedLevel(raw: seq<string>, expansions: map<string, Level>)
    requires expansions.Keys == Singles(raw) + Groups(raw).Keys
    requires forall key | key in expansions ::
      expansions[key] == if key in Groups(raw) then Parse(Groups(raw)[key]) else EMPTY_LEVEL
    ensures Parse(raw) == Level(expansions, "*" in raw)
  {
    hide Split, Join, MaxLength, Groups, Singles;
    assert Parse(raw).expansions == expansions;
  }

  method ReadPaths(raw: seq<string>)
      returns (wildcard: bool, expansions: map<string, Level>, groups: map<string, seq<string>>)
    ensures wildcard <==> "*" in raw
    ensures groups == Groups(raw)
    ensures expansions.Keys == Singles(raw) && forall key | key in expansions :: expansions[key] == EMPTY_LEVEL
  {
    hide Split, Join;
    wildcard, expansions, groups := false, map[], map[];
    for i := 0 to |raw|
      invariant wildcard <==> "*" in raw[..i]
      invariant groups == Groups(raw[..i])
      invariant expansions.Keys == Singles(raw[..i]) && forall key | key in expansions :: expansions[key] == EMPTY_LEVEL
    {
      assert raw[..i + 1][..i] == raw[..i];
      assert forall s :: s in raw[..i + 1] <==> s in raw[..i] || s == raw[i];
      var parts := Split(raw[i]);
      SplitOne(raw[i]);
      if |parts| == 1 {
        if parts[0] == "*" {
          wildcard := true;
        } else {
          expansions := expansions[parts[0] := EMPTY_LEVEL];
        }
      } else {
        var before := if parts[0] in groups then groups[parts[0]] else [];
        groups := groups[parts[0] := before + [Join(parts[1..])]];
      }
    }
    assert raw[..|raw|] == raw;
  }

  lemma SplitOne(s: string)
    ensures |Split(s)| == 1 ==> Split(s) == [s]
    ensures Split("*") == ["*"]
  {
  }

  // What can be found.

  /** The level a path leads to. */
  function Find(level: Level, path: seq<string>): Option<Level> {
    if path == [] then Some(level)
    else if path[0] in level.expansions then Find(level.expansions[path[0]], path[1..])
    else None
  }

  /** A path without a wildcard at its end. */
  function WithoutStar(parts: seq<string>): seq<string> {
    if parts != [] && parts[|parts| - 1] == "*" then parts[..|parts| - 1] else parts
  }

  ghost predicate Reaches(raw: seq<string>, path: seq<string>) {
    exists s :: s in raw && path <= WithoutStar(Split(s))
  }

  ghost predicate Starred(raw: seq<string>, path: seq<string>) {
    exists s :: s in raw && Split(s) == path + ["*"]
  }

  /** A path in `raw` of more than one part goes on in the group of its first part. */
  lemma GroupOf(raw: seq<string>, s: string)
    requires s in raw && |Split(s)| > 1
    ensures var parts := Split(s);
      && parts[0] in Groups(raw)
      && Join(parts[1..]) in Groups(raw)[parts[0]] && Split(Join(parts[1..])) == parts[1..]
  {
    var parts := Split(s);
    GroupsHold(raw, parts[0]);
    assert Continues(raw, parts[0], Join(parts[1..]));
    SplitDotless(s);
    SplitJoin(parts[1..]);
  }

  /** And what is in a group is such a path without its first part. */
  lemma InGroup(raw: seq<string>, key: string, rest: string) returns (s: string)
    requires key in Groups(raw) && rest in Groups(raw)[key]
    ensures s in raw && |Split(s)| > 1 && Split(s) == [key] + Split(rest)
  {
    GroupsHold(raw, key);
    s :| s in raw && |Split(s)| > 1 && Split(s)[0] == key && rest == Join(Split(s)[1..]);
    SplitDotless(s);
    SplitJoin(Split(s)[1..]);
  }

  lemma ReachesDown(raw: seq<string>, path: seq<string>)
    requires path != [] && Reaches(raw, path)
    ensures |path| > 1 ==> path[0] in Groups(raw) && Reaches(Groups(raw)[path[0]], path[1..])
    ensures |path| == 1 ==> path[0] in Singles(raw) || path[0] in Groups(raw)
  {
    hide Join, Groups;
    var s :| s in raw && path <= WithoutStar(Split(s));
    SplitOne(s);
    if |Split(s)| > 1 {
      GroupOf(raw, s);
      assert path[1..] <= WithoutStar(Split(s)[1..]);
    }
  }

  lemma ReachesUp(raw: seq<string>, path: seq<string>)
    requires path != [] && path[0] in Groups(raw) && (|path| > 1 ==> Reaches(Groups(raw)[path[0]], path[1..]))
    ensures Reaches(raw, path)
  {
    hide Join, Groups, Split;
    var key := path[0];
    GroupsHold(raw, key);
    var rest := Groups(raw)[key][0];
    if |path| > 1 {
      rest :| rest in Groups(raw)[key] && path[1..] <= WithoutStar(Split(rest));
    }
    var s := InGroup(raw, key, rest);
    assert path == [key] + path[1..] && path <= WithoutStar(Split(s));
  }

  lemma SingleReaches(raw: seq<string>, key: string)
    requires key in Singles(raw)
    ensures Reaches(raw, [key])
  {
    SplitOne(key);
    assert [key] <= WithoutStar(Split(key));
  }

  lemma ReachesInGroup(raw: seq<string>, path: seq<string>)
    requires path != []
    ensures |path| > 1 ==> (Reaches(raw, path) <==> path[0] in Groups(raw) && Reaches(Groups(raw)[path[0]], path[1..]))
    ensures |path| == 1 ==> (Reaches(raw, path) <==> path[0] in Singles(raw) || path[0] in Groups(raw))
  {
    hide Groups, Reaches, Singles;
    if Reaches(raw, path) {
      ReachesDown(raw, path);
    } else if path[0] in Groups(raw) && (|path| > 1 ==> Reaches(Groups(raw)[path[0]], path[1..])) {
      ReachesUp(raw, path);
    } else if |path| == 1 && path[0] in Singles(raw) {
      assert path == [path[0]];
      SingleReaches(raw, path[0]);
    }
  }

  /** A path can be followed exactly if it starts one of the requested paths, a wildcard at the end not counted. */
  lemma {:induction false} FindsPrefixes(raw: seq<string>, path: seq<string>)
    requires path != []
    ensures Find(Parse(raw), path).Some? <==> Reaches(raw, path)
    decreases |path|
  {
    ReachesInGroup(raw, path);
    hide Split, Reaches, Groups, Singles;
    if path[0] in Groups(raw) && |path| > 1 {
      FindsPrefixes(Groups(raw)[path[0]], path[1..]);
    }
  }

  lemma StarredInGroup(raw: seq<string>, path: seq<string>)
    ensures path == [] ==> (Starred(raw, path) <==> "*" in raw)
    ensures path != [] ==> (Starred(raw, path) <==> path[0] in Groups(raw) && Starred(Groups(raw)[path[0]], path[1..]))
  {
    hide Join, Groups, MaxLength;
    if Starred(raw, path) {
      var s :| s in raw && Split(s) == path + ["*"];
      SplitOne(s);
      if path != [] {
        GroupOf(raw, s);
        assert Split(s)[1..] == path[1..] + ["*"];
      }
    }
    if path == [] {
      SplitOne("*");
      assert path + ["*"] == ["*"];
    } else if path[0] in Groups(raw) && Starred(Groups(raw)[path[0]], path[1..]) {
      var rest :| rest in Groups(raw)[path[0]] && Split(rest) == path[1..] + ["*"];
      var s := InGroup(raw, path[0], rest);
      assert Split(s) == path + ["*"];
    }
  }

  /** A level is a wildcard exactly if its path followed by a star was requested. */
  lemma {:induction false} FindsWildcards(raw: seq<string>, path: seq<string>)
    ensures (var found := Find(Parse(raw), path); found.Some? && found.value.wildcard) <==> Starred(raw, path)
    decreases |path|
  {
    StarredInGroup(raw, path);
    hide Split, Starred, Groups, Singles;
    if path != [] && path[0] in Groups(raw) {
      FindsWildcards(Groups(raw)[path[0]], path[1..]);
    }
  }

  /** The order of the requested paths, and paths requested more than once, make no difference. */
  lemma {:induction false} OrderAndDuplicatesIgnored(raw: seq<string>, other: seq<string>)
    requires forall s :: s in raw <==> s in other
    ensures Parse(raw) == Parse(other)
    decreases MaxLength(raw)
  {
    hide Split, Join, MaxLength, Groups;
    forall key | key in Groups(raw) || key in Groups(other)
      ensures key in Groups(raw) && key in Groups(other) && Parse(Groups(raw)[key]) == Parse(Groups(other)[key])
    {
      GroupsHold(raw, key);
      GroupsHold(other, key);
      assert forall rest :: Continues(raw, key, rest) <==> Continues(other, key, rest);
      SameGroups(raw, other, key);
      GroupsShrink(raw, key);
      OrderAndDuplicatesIgnored(Groups(raw)[key], Groups(other)[key]);
    }
    assert Groups(raw).Keys == Groups(other).Keys && Singles(raw) == Singles(other);
    assert Parse(raw).expansions == Parse(other).expansions;
  }

  lemma SameGroups(raw: seq<string>, other: seq<string>, key: string)
    requires forall s :: s in raw <==> s in other
    requires key in Groups(raw) || key in Groups(other)
    ensures key in Groups(raw) && key in Groups(other)
    ensures forall rest :: rest in Groups(raw)[key] <==> rest in Groups(other)[key]
  {
    hide Split, Join, Groups;
    GroupsHold(raw, key);
    GroupsHold(other, key);
    assert forall rest :: Continues(raw, key, rest) <==> Continues(other, key, rest);
    if key in Groups(raw) {
      assert Groups(raw)[key][0] in Groups(raw)[key] && Continues(other, key, Groups(raw)[key][0]);
    }
    if key in Groups(other) {
      assert Groups(other)[key][0] in Groups(other)[key] && Continues(raw, key, Groups(other)[key][0]);
    }
  }
}
