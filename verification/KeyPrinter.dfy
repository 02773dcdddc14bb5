/** Printing the parts of a key back, and when the scanner undoes it. */
module KeyPrinter {
  import opened KeyParser

  function PrintPart(p: KeyPart): string {
    match p
    case ArrayPart => "[]"
    case MapPart(content) => "[" + content + "]"
    case RawPart(content) => content
  }

  function Print(parts: seq<KeyPart>): string {
    if parts == [] then "" else PrintPart(parts[0]) + Print(parts[1..])
  }

  predicate ContentOk(p: KeyPart) {
    match p
    case ArrayPart => true
    case MapPart(content) => content != "" && ']' !in content
    case RawPart(content) => content != "" && '[' !in content
  }

  /** Every content can be told apart from the brackets around it, and no two names are adjacent. */
  predicate Readable(parts: seq<KeyPart>) {
    && (forall p | p in parts :: ContentOk(p))
    && (forall i | 0 <= i < |parts| - 1 :: parts[i].RawPart? ==> !parts[i + 1].RawPart?)
  }

  /** A name that nothing follows: the scanner keeps one only when it is the whole key. */
  predicate Dangling(parts: seq<KeyPart>) {
    |parts| > 1 && parts[|parts| - 1].RawPart?
  }

  lemma BracketsOfArray(t: string)
    ensures Rest("[]" + t) == Brackets("[]" + t) == [ArrayPart] + Rest(t)
  {
    var s := "[]" + t;
    FindUnique('[', s, 0);
    assert s[0..] == s && s[2..] == t;
  }

  lemma BracketsOfMap(content: string, t: string)
    requires ContentOk(MapPart(content))
    ensures var s := "[" + content + "]" + t; s[0] == '[' && Rest(s) == Brackets(s) == [MapPart(content)] + Rest(t)
  {
    var s := "[" + content + "]" + t;
    FindUnique('[', s, 0);
    assert s[0..] == s && s[1..][..|content|] == content;
    FindUnique(']', s[1..], |content|);
    assert s[1..1 + |content|] == content && s[2 + |content|..] == t;
    assert s[1] == content[0];
  }

  lemma RestOfName(content: string, t: string)
    requires ContentOk(RawPart(content)) && t != "" && t[0] == '['
    ensures Rest(content + t) == [RawPart(content)] + Brackets(t)
  {
    var s := content + t;
    assert s[..|content|] == content && s[|content|..] == t;
    FindUnique('[', s, |content|);
  }

  lemma {:induction false} RestUndoesPrint(parts: seq<KeyPart>, tail: string)
    requires Readable(parts) && '[' !in tail
    requires parts != [] ==> !parts[|parts| - 1].RawPart?
    ensures Rest(Print(parts) + tail) == parts
    ensures parts != [] && !parts[0].RawPart? ==>
      Print(parts) != "" && Print(parts)[0] == '[' && Brackets(Print(parts) + tail) == parts
  {
    hide Rest, Brackets, Find;
    var s := Print(parts) + tail;
    if parts == [] {
      assert s == tail;
      RestOfTail(tail);
    } else {
      var p, more := parts[0], parts[1..];
      var t := Print(more) + tail;
      assert s == PrintPart(p) + t;
      assert forall i | 0 <= i < |more| :: more[i] == parts[i + 1];
      RestUndoesPrint(more, tail);
      match p
      case ArrayPart => BracketsOfArray(t);
      case MapPart(content) => BracketsOfMap(content, t);
      case RawPart(content) =>
        assert !parts[1].RawPart?;
        RestOfName(content, t);
    }
  }

  lemma RestOfTail(tail: string)
    requires '[' !in tail
    ensures Rest(tail) == []
    ensures Parse(tail) == Name(tail)
  {
    assert tail[..|tail|] == tail;
    FindUnique('[', tail, |tail|);
  }

  lemma {:induction false} RestIsReadable(s: string)
    ensures Readable(Rest(s))
    ensures s != "" && s[0] == '[' ==>
      Readable(Brackets(s)) && (Brackets(s) != [] ==> !Brackets(s)[0].RawPart?)
    decreases |s|
  {
    if s != "" && s[0] == '[' {
      BracketsAreReadable(s);
    }
    var n := Find('[', s);
    if n < |s| {
      BracketsAreReadable(s[n..]);
      var name, b := Name(s[..n]), Brackets(s[n..]);
      assert forall i | 0 <= i < |b| :: (name + b)[|name| + i] == b[i];
    }
  }

  lemma {:induction false} BracketsAreReadable(s: string)
    requires s != "" && s[0] == '['
    ensures Readable(Brackets(s)) && (Brackets(s) != [] ==> !Brackets(s)[0].RawPart?)
    decreases |s|, 0
  {
    if |s| > 1 {
      if s[1] == ']' {
        RestIsReadable(s[2..]);
      } else {
        var n := Find(']', s[1..]);
        assert s[1..1 + n] == s[1..][..n];
        if 1 + n < |s| {
          RestIsReadable(s[2 + n..]);
        }
      }
    }
  }

  lemma ParseIsReadable(key: string)
    ensures Readable(Parse(key))
  {
    var n := Find('[', key);
    if n < |key| {
      RestIsReadable(key);
    }
  }

  lemma {:induction false} PrintAppend(a: seq<KeyPart>, b: seq<KeyPart>)
    ensures Print(a + b) == Print(a) + Print(b)
  {
    if a == [] {
      assert a + b == b;
    } else {
      assert (a + b)[0] == a[0] && (a + b)[1..] == a[1..] + b;
      PrintAppend(a[1..], b);
    }
  }

  /** The scanner undoes the printer on exactly the readable part lists with no dangling name. */
  lemma ParsePrint(parts: seq<KeyPart>)
    ensures Parse(Print(parts)) == parts <==> Readable(parts) && !Dangling(parts)
  {
    var s := Print(parts);
    ParseIsReadable(s);
    if Readable(parts) {
      if Dangling(parts) {
        DanglingIsDropped(parts);
      } else if |parts| == 1 && parts[0].RawPart? {
        assert s == parts[0].content + Print(parts[1..]) == parts[0].content;
        assert ContentOk(parts[0]);
        RestOfTail(s);
        assert parts == [parts[0]];
      } else {
        assert s + "" == s;
        RestUndoesPrint(parts, "");
        RestOfBracketed(s);
      }
    }
  }

  lemma RestOfBracketed(s: string)
    requires Rest(s) != [] || s == ""
    ensures Parse(s) == Rest(s)
  {
  }

  lemma DanglingIsDropped(parts: seq<KeyPart>)
    requires Readable(parts) && Dangling(parts)
    ensures Parse(Print(parts)) == parts[..|parts| - 1]
  {
    hide Rest, Brackets, Find, Parse;
    var last := parts[|parts| - 1];
    var kept := parts[..|parts| - 1];
    assert parts == kept + [last];
    PrintAppend(kept, [last]);
    assert Print([last]) == last.content;
    assert forall p | p in kept :: p in parts;
    assert last in parts;
    RestUndoesPrint(kept, last.content);
    RestOfBracketed(Print(parts));
  }

  // Which keys lose a name, read off their text.

  /** The text begins with a name, and the bracket after it is never closed. */
  predicate NameThenOpen(s: string) {
    var n := Find('[', s);
    0 < n < |s| && ']' !in s[n..]
  }

  /** The bracket at the start of the text is closed, and after it come a name and a bracket that is never closed. */
  predicate ClosedThenName(s: string) {
    var n := Find(']', s);
    n < |s| && NameThenOpen(s[n + 1..])
  }

  ghost predicate LosesName(s: string) {
    exists b | 0 <= b < |s| && s[b] == '[' :: ClosedThenName(s[b..])
  }

  predicate EndsInName(parts: seq<KeyPart>) {
    parts != [] && parts[|parts| - 1].RawPart?
  }

  /** Where the first bracket closes, that one or a later one loses a name. */
  lemma LosesAfterClose(s: string, n: nat)
    requires s != "" && s[0] == '[' && n < |s| && n == Find(']', s)
    ensures LosesName(s) <==> NameThenOpen(s[n + 1..]) || LosesName(s[n + 1..])
  {
    hide NameThenOpen, ClosedThenName, Find;
    var t := s[n + 1..];
    assert s[0..] == s;
    SameClose(s, 0, n);
    if LosesName(s) {
      var b :| 0 <= b < |s| && s[b] == '[' && ClosedThenName(s[b..]);
      if b < n {
        SameClose(s, b, n);
      } else {
        assert t[b - n - 1..] == s[b..] && t[b - n - 1] == '[';
      }
    }
    if LosesName(t) {
      var b :| 0 <= b < |t| && t[b] == '[' && ClosedThenName(t[b..]);
      assert s[n + 1 + b..] == t[b..] && s[n + 1 + b] == '[';
    }
  }

  lemma SameClose(s: string, b: nat, n: nat)
    requires b <= n < |s| && n == Find(']', s)
    ensures ClosedThenName(s[b..]) <==> NameThenOpen(s[n + 1..])
  {
    hide NameThenOpen, Find;
    FindShift(s, b, n);
    assert s[b..][n - b + 1..] == s[n + 1..];
  }

  lemma FindShift(s: string, b: nat, n: nat)
    requires b <= n < |s| && n == Find(']', s)
    ensures Find(']', s[b..]) == n - b
  {
    assert s[b..][..n - b] == s[..n][b..];
    FindUnique(']', s[b..], n - b);
  }

  lemma NoClose(s: string)
    requires ']' !in s
    ensures !LosesName(s)
  {
    hide NameThenOpen, Find;
    forall b | 0 <= b < |s| && s[b] == '[' ensures !ClosedThenName(s[b..]) {
      assert forall k | 0 <= k < |s| - b :: s[b..][k] in s;
    }
  }

  /** A name in front makes no difference. */
  lemma LosesAfterName(s: string, n: nat)
    requires n == Find('[', s)
    ensures LosesName(s) <==> n < |s| && LosesName(s[n..])
  {
    hide ClosedThenName, Find;
    var t := s[n..];
    assert forall k | 0 <= k < n :: s[..n][k] == s[k];
    if LosesName(s) {
      var b :| 0 <= b < |s| && s[b] == '[' && ClosedThenName(s[b..]);
      assert t[b - n..] == s[b..] && t[b - n] == '[';
    }
    if n < |s| && LosesName(t) {
      var b :| 0 <= b < |t| && t[b] == '[' && ClosedThenName(t[b..]);
      assert s[n + b..] == t[b..] && s[n + b] == '[';
    }
  }

  /** Brackets give no parts exactly when none of them is closed. */
  lemma FirstClose(s: string)
    requires s != "" && s[0] == '['
    ensures ']' !in s ==> Brackets(s) == []
    ensures ']' in s ==>
      var n := Find(']', s);
      n < |s| && Brackets(s) != [] && !Brackets(s)[0].RawPart? && Brackets(s)[1..] == Rest(s[n + 1..])
  {
    hide Rest, Find;
    var n := Find(']', s);
    if ']' in s {
      CloseFound(s, n);
      FindShift(s, 1, n);
      if s[1] == ']' {
        FindUnique(']', s, 1);
      }
    } else if |s| > 1 {
      assert s[1] in s;
      FindUnique(']', s[1..], |s| - 1);
    }
  }

  lemma CloseFound(s: string, n: nat)
    requires ']' in s && n == Find(']', s)
    ensures n < |s|
  {
    assert s[..|s|] == s;
  }

  lemma RestIs(s: string, n: nat)
    requires n == Find('[', s)
    ensures Rest(s) == if n == |s| then [] else Name(s[..n]) + Brackets(s[n..])
  {
    hide Brackets;
  }

  lemma {:induction false} RestEndsInName(s: string)
    ensures EndsInName(Rest(s)) <==> NameThenOpen(s) || LosesName(s)
    decreases |s|, 1
  {
    hide LosesName, Brackets, Rest, Find;
    var n := Find('[', s);
    LosesAfterName(s, n);
    RestIs(s, n);
    if n < |s| {
      if ']' !in s[n..] {
        NoClose(s[n..]);
      }
      BracketsEndInName(s[n..]);
      FirstClose(s[n..]);
    }
  }

  lemma {:induction false} BracketsEndInName(s: string)
    requires s != "" && s[0] == '['
    ensures EndsInName(Brackets(s)) <==> LosesName(s)
    decreases |s|, 0
  {
    hide LosesName, Brackets, Rest, NameThenOpen, Find;
    FirstClose(s);
    var n := Find(']', s);
    if ']' in s {
      LosesAfterClose(s, n);
      RestEndsInName(s[n + 1..]);
    } else {
      NoClose(s);
    }
  }

  /** What dangling means for the text of the key. */
  lemma DanglingKeys(key: string)
    ensures Dangling(Parse(key)) <==> LosesName(key)
  {
    hide LosesName, Brackets, Find;
    var n := Find('[', key);
    LosesAfterName(key, n);
    if n < |key| {
      BracketsEndInName(key[n..]);
      FirstClose(key[n..]);
      assert Parse(key) == Name(key[..n]) + Brackets(key[n..]);
    }
  }

  /**
   * Printing what the scanner found and scanning it again changes nothing, unless a name dangles: that is, unless
   * the key has a closed bracket followed by a name and a bracket that is never closed.
   */
  lemma ParseNormalForm(key: string)
    ensures Parse(Print(Parse(key))) == Parse(key) <==> !LosesName(key)
  {
    ParseIsReadable(key);
    ParsePrint(Parse(key));
    DanglingKeys(key);
  }

  /** A key that loses a name when it is printed and scanned again: `a[]b[`. */
  lemma DanglingExample()
    ensures Parse("a[]b[") == [RawPart("a"), ArrayPart, RawPart("b")]
    ensures Parse(Print(Parse("a[]b["))) == [RawPart("a"), ArrayPart]
  {
    var key := "a[]b[";
    FindUnique('[', key, 1);
    assert key[..1] == "a" && key[1..] == "[]b[" && key[1..][2..] == "b[";
    FindUnique('[', "b[", 1);
    assert "b["[..1] == "b" && "b["[1..] == "[";
    ParseIsReadable(key);
    DanglingIsDropped(Parse(key));
  }
}
