/** Rack-style parameter keys: `name[]`, `name[key]`, `name[][key]` and so on. */
module KeyParser {
  datatype KeyPart = ArrayPart | MapPart(content: string) | RawPart(content: string)

  /** The position of the first `c` in `s`, or `|s|` when there is none. */
  function Find(c: char, s: string): (n: nat)
    ensures n <= |s|
    ensures c !in s[..n]
    ensures n < |s| ==> s[n] == c
  {
    if s == "" || s[0] == c then 0 else 1 + Find(c, s[1..])
  }

  lemma {:induction false} FindUnique(c: char, s: string, n: nat)
    requires n <= |s| && c !in s[..n] && (n < |s| ==> s[n] == c)
    ensures Find(c, s) == n
  {
    if n > 0 {
      assert s[..n][0] == s[0] && s[1..][..n - 1] == s[..n][1..];
      FindUnique(c, s[1..], n - 1);
    }
  }

  /** The parts of a key, read off from the positions of its brackets. */
  function Parse(key: string): seq<KeyPart> {
    var n := Find('[', key);
    if n < |key| then Name(key[..n]) + Brackets(key[n..]) else Name(key)
  }

  function Name(content: string): seq<KeyPart> {
    if content == "" then [] else [RawPart(content)]
  }

  /** The parts of a string that starts with an opening bracket. */
  function Brackets(s: string): seq<KeyPart>
    requires s != "" && s[0] == '['
    decreases |s|, 0
  {
    if |s| == 1 then []
    else if s[1] == ']' then [ArrayPart] + Rest(s[2..])
    else
      var n := Find(']', s[1..]);
      if 1 + n == |s| then [] else [MapPart(s[1..1 + n])] + Rest(s[2 + n..])
  }

  /** The parts that follow a closing bracket; a trailing name is dropped. */
  function Rest(s: string): seq<KeyPart>
    decreases |s|, 1
  {
    var n := Find('[', s);
    if n == |s| then [] else Name(s[..n]) + Brackets(s[n..])
  }

  datatype State = Raw | InMapOrArray | InMap

  /** What the scanner still has to add, in each of the three states of its jump-driven loop. */
  ghost function Pending(state: State, first: bool, raw: string, content: string, s: string): seq<KeyPart> {
    match state
    case Raw =>
      var n := Find('[', s);
      if n < |s| then Name(raw + s[..n]) + Brackets(s[n..])
      else if first then Name(raw + s)
      else []
    case InMapOrArray => Brackets("[" + s)
    case InMap =>
      var n := Find(']', s);
      if n == |s| then [] else [MapPart(content + s[..n])] + Rest(s[n + 1..])
  }

  lemma RawStep(first: bool, raw: string, s: string)
    requires s != ""
    ensures s[0] == '[' ==> Pending(Raw, first, raw, "", s) == Name(raw) + Pending(InMapOrArray, false, "", "", s[1..])
    ensures s[0] != '[' ==> Pending(Raw, first, raw, "", s) == Pending(Raw, first, raw + [s[0]], "", s[1..])
  {
    var n := Find('[', s);
    if s[0] == '[' {
      assert s[..0] == "" && raw + "" == raw && s[0..] == s == "[" + s[1..];
    } else {
      assert n == 1 + Find('[', s[1..]);
      assert raw + s[..n] == raw + [s[0]] + s[1..][..n - 1];
      assert s[n..] == s[1..][n - 1..];
      assert raw + s == raw + [s[0]] + s[1..];
    }
  }

  lemma BracketStep(first: bool, s: string)
    requires s != ""
    ensures s[0] == ']' ==>
      Pending(InMapOrArray, first, "", "", s) == [ArrayPart] + Pending(Raw, false, "", "", s[1..])
    ensures s[0] != ']' ==> Pending(InMapOrArray, first, "", "", s) == Pending(InMap, first, "", [s[0]], s[1..])
  {
    var b := "[" + s;
    assert b[1..] == s && b[2..] == s[1..];
    if s[0] == ']' {
      RestPending(s[1..]);
    } else {
      var n := Find(']', s);
      assert n == 1 + Find(']', s[1..]);
      assert b[1..1 + n] == [s[0]] + s[1..][..n - 1];
      if n < |s| {
        assert b[2 + n..] == s[1..][n..];
      }
    }
  }

  lemma MapStep(first: bool, content: string, s: string)
    requires s != ""
    ensures s[0] == ']' ==>
      Pending(InMap, first, "", content, s) == [MapPart(content)] + Pending(Raw, false, "", "", s[1..])
    ensures s[0] != ']' ==>
      Pending(InMap, first, "", content, s) == Pending(InMap, first, "", content + [s[0]], s[1..])
  {
    var n := Find(']', s);
    if s[0] == ']' {
      assert content + s[..0] == content;
      RestPending(s[1..]);
    } else {
      assert n == 1 + Find(']', s[1..]);
      assert content + s[..n] == content + [s[0]] + s[1..][..n - 1];
      if n < |s| {
        assert s[n + 1..] == s[1..][n..];
      }
    }
  }

  lemma RestPending(s: string)
    ensures Rest(s) == Pending(Raw, false, "", "", s)
  {
    var n := Find('[', s);
    assert "" + s[..n] == s[..n];
  }

  /** The scanner's invariant: `keyParts` and what is still to be found make up the parts of `key`. */
  ghost predicate Scanning(key: string, keyParts: seq<KeyPart>, state: State, raw: string, content: string, s: string) {
    && (state != Raw ==> raw == "")
    && (state != InMap ==> content == "")
    && keyParts + Pending(state, keyParts == [], raw, content, s) == Parse(key)
  }

  lemma ScanRaw(key: string, keyParts: seq<KeyPart>, raw: string, s: string)
    requires s != "" && Scanning(key, keyParts, Raw, raw, "", s)
    ensures s[0] == '[' && raw == "" ==> Scanning(key, keyParts, InMapOrArray, "", "", s[1..])
    ensures s[0] == '[' && raw != "" ==> Scanning(key, keyParts + [RawPart(raw)], InMapOrArray, "", "", s[1..])
    ensures s[0] != '[' ==> Scanning(key, keyParts, Raw, raw + [s[0]], "", s[1..])
  {
    hide Brackets, Rest, Find;
    RawStep(keyParts == [], raw, s);
    var rest := Pending(InMapOrArray, false, "", "", s[1..]);
    assert keyParts + (Name(raw) + rest) == keyParts + Name(raw) + rest;
  }

  lemma ScanBracket(key: string, keyParts: seq<KeyPart>, s: string)
    requires s != "" && Scanning(key, keyParts, InMapOrArray, "", "", s)
    ensures s[0] == ']' ==> Scanning(key, keyParts + [ArrayPart], Raw, "", "", s[1..])
    ensures s[0] != ']' ==> Scanning(key, keyParts, InMap, "", [s[0]], s[1..])
  {
    BracketStep(keyParts == [], s);
    var rest := Pending(Raw, false, "", "", s[1..]);
    assert keyParts + ([ArrayPart] + rest) == keyParts + [ArrayPart] + rest;
  }

  lemma ScanMap(key: string, keyParts: seq<KeyPart>, content: string, s: string)
    requires s != "" && Scanning(key, keyParts, InMap, "", content, s)
    ensures s[0] == ']' ==> Scanning(key, keyParts + [MapPart(content)], Raw, "", "", s[1..])
    ensures s[0] != ']' ==> Scanning(key, keyParts, InMap, "", content + [s[0]], s[1..])
  {
    MapStep(keyParts == [], content, s);
    var rest := Pending(Raw, false, "", "", s[1..]);
    assert keyParts + ([MapPart(content)] + rest) == keyParts + [MapPart(content)] + rest;
  }

  lemma ScanStart(key: string)
    ensures Scanning(key, [], Raw, "", "", key)
  {
    hide Brackets, Rest;
    var n := Find('[', key);
    assert "" + key[..n] == key[..n] && "" + key == key;
  }

  lemma ScanEnd(key: string, keyParts: seq<KeyPart>, state: State, raw: string, content: string)
    requires Scanning(key, keyParts, state, raw, content, "")
    ensures Parse(key) == if keyParts == [] && raw != "" then [RawPart(raw)] else keyParts
  {
    assert raw + "" == raw;
    assert "[" + "" == "[";
  }

  /** The scanner itself: one character a round, `state` saying where the next round resumes. */
  method ParseKey(key: string) returns (keyParts: seq<KeyPart>)
    ensures keyParts == Parse(key)
  {
    hide *;
    keyParts := [];
    var state, i, mapContent, rawContent := Raw, 0, "", "";
    ScanStart(key);
    ghost var s := key;
    while i < |key|
      invariant 0 <= i <= |key| && s == key[i..]
      invariant state != Raw ==> rawContent == ""
      invariant state != InMap ==> mapContent == ""
      invariant Scanning(key, keyParts, state, rawContent, mapContent, s)
    {
      var c := key[i];
      i := i + 1;
      match state {
        case Raw =>
          ScanRaw(key, keyParts, rawContent, s);
          if c == '[' {
            if |rawContent| > 0 {
              keyParts := keyParts + [RawPart(rawContent)];
              rawContent := "";
            }
            state := InMapOrArray;
          } else {
            rawContent := rawContent + [c];
          }
        case InMapOrArray =>
          ScanBracket(key, keyParts, s);
          if c == ']' {
            keyParts := keyParts + [ArrayPart];
            state := Raw;
          } else {
            assert mapContent + [c] == [c];
            mapContent := mapContent + [c];
            state := InMap;
          }
        case InMap =>
          ScanMap(key, keyParts, mapContent, s);
          if c == ']' {
            keyParts := keyParts + [MapPart(mapContent)];
            mapContent := "";
            state := Raw;
          } else {
            mapContent := mapContent + [c];
          }
      }
      s := s[1..];
    }
    ScanEnd(key, keyParts, state, rawContent, mapContent);
    if |keyParts| == 0 && |rawContent| > 0 {
      keyParts := keyParts + [RawPart(rawContent)];
      rawContent := "";
    }
  }
}
