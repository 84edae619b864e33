/** Splitting and joining of strings at one separator character. */
module Text {

  function IndexOf(s: string, c: char): (r: nat)
    ensures r <= |s|
    ensures c !in s[..r]
    ensures r < |s| ==> s[r] == c
  {
    if s == "" || s[0] == c then 0 else 1 + IndexOf(s[1..], c)
  }

  /** The text before the first `c`, or all of it. */
  function Before(s: string, c: char): (r: string) {
    s[..IndexOf(s, c)]
  }

  /** The text after the first `c`, or nothing. */
  function After(s: string, c: char): (r: string) {
    if IndexOf(s, c) < |s| then s[IndexOf(s, c) + 1..] else ""
  }

  /** No part contains the separator. */
  predicate Separated(parts: seq<string>, c: char) {
    forall k :: 0 <= k < |parts| ==> c !in parts[k]
  }

  function Split(s: string, c: char): (parts: seq<string>)
    ensures parts != []
    ensures Separated(parts, c)
    decreases |s|
  {
    if IndexOf(s, c) == |s| then [s] else [Before(s, c)] + Split(After(s, c), c)
  }

  function Join(parts: seq<string>, c: char): (s: string)
    requires parts != []
  {
    if |parts| == 1 then parts[0] else parts[0] + ([c] + Join(parts[1..], c))
  }

  function Last(parts: seq<string>): (p: string)
    requires parts != []
  {
    parts[|parts| - 1]
  }

  lemma {:induction false} FirstIndex(a: string, c: char, b: string)
    requires c !in a
    ensures IndexOf(a + ([c] + b), c) == |a|
    decreases |a|
  {
    if a != "" {
      assert (a + ([c] + b))[1..] == a[1..] + ([c] + b);
      FirstIndex(a[1..], c, b);
    }
  }

  lemma NoIndex(s: string, c: char)
    requires c !in s
    ensures IndexOf(s, c) == |s| && Before(s, c) == s && After(s, c) == ""
  {
  }

  lemma SplitsAt(a: string, c: char, b: string)
    requires c !in a
    ensures Before(a + ([c] + b), c) == a
    ensures After(a + ([c] + b), c) == b
  {
    FirstIndex(a, c, b);
  }

  lemma JoinFirst(a: string, parts: seq<string>, c: char)
    requires parts != []
    ensures Join([a] + parts, c) == a + ([c] + Join(parts, c))
  {
    assert ([a] + parts)[1..] == parts;
  }

  lemma CutAndPaste(s: string, c: char)
    requires IndexOf(s, c) < |s|
    ensures Before(s, c) + ([c] + After(s, c)) == s
  {
  }

  /** Joining undoes splitting. */
  lemma {:induction false} JoinSplit(s: string, c: char)
    ensures Join(Split(s, c), c) == s
    decreases |s|
  {
    if IndexOf(s, c) < |s| {
      JoinSplit(After(s, c), c);
      JoinFirst(Before(s, c), Split(After(s, c), c), c);
      CutAndPaste(s, c);
    }
  }

  lemma SplitFirst(a: string, c: char, b: string)
    requires c !in a
    ensures Split(a + ([c] + b), c) == [a] + Split(b, c)
  {
    FirstIndex(a, c, b);
    SplitsAt(a, c, b);
  }

  /** Splitting undoes joining, when no part contains the separator. */
  lemma {:induction false} SplitJoin(parts: seq<string>, c: char)
    requires parts != [] && Separated(parts, c)
    ensures Split(Join(parts, c), c) == parts
    decreases |parts|
  {
    if |parts| == 1 {
      NoIndex(parts[0], c);
    } else {
      SplitJoin(parts[1..], c);
      SplitFirst(parts[0], c, Join(parts[1..], c));
      assert parts == [parts[0]] + parts[1..];
    }
  }

  /** Text appended to a joined list is appended to its last part. */
  lemma {:induction false} JoinAppend(parts: seq<string>, c: char, t: string)
    requires parts != []
    ensures Join(parts[..|parts| - 1] + [Last(parts) + t], c) == Join(parts, c) + t
    decreases |parts|
  {
    if |parts| > 1 {
      var longer := parts[..|parts| - 1] + [Last(parts) + t];
      assert longer[1..] == parts[1..][..|parts| - 2] + [Last(parts[1..]) + t];
      JoinAppend(parts[1..], c, t);
    }
  }

  lemma {:induction false} JoinedChars(parts: seq<string>, c: char, x: char)
    requires parts != []
    ensures x in Join(parts, c) ==> x == c || exists p :: p in parts && x in p
    decreases |parts|
  {
    if |parts| > 1 && x in Join(parts, c) {
      JoinedChars(parts[1..], c, x);
      if x in parts[0] {
        assert parts[0] in parts;
      } else if x != c {
        var p :| p in parts[1..] && x in p;
        assert p in parts;
      }
    } else if x in Join(parts, c) {
      assert parts[0] in parts;
    }
  }

  lemma {:induction false} PartChars(parts: seq<string>, c: char, p: string, x: char)
    requires p in parts && x in p
    ensures x in Join(parts, c)
    decreases |parts|
  {
    if |parts| > 1 && p != parts[0] {
      assert p in parts[1..];
      PartChars(parts[1..], c, p, x);
    }
  }
}
