/** The pieces of Go's strings package that several files use. */
module Text {
  import opened Prelude

  /** unicode.IsSpace. */
  predicate IsSpace(c: char) {
    '\t' <= c <= '\r' || c == ' '
    || c == '\U{85}' || c == '\U{A0}' || c == '\U{1680}' || '\U{2000}' <= c <= '\U{200A}'
    || c == '\U{2028}' || c == '\U{2029}' || c == '\U{202F}' || c == '\U{205F}' || c == '\U{3000}'
  }

  function TrimLeft(s: string): string {
    if s == "" || !IsSpace(s[0]) then s else TrimLeft(s[1..])
  }

  function TrimRight(s: string): string {
    if s == "" || !IsSpace(s[|s| - 1]) then s else TrimRight(s[..|s| - 1])
  }

  function TrimSpace(s: string): string {
    TrimRight(TrimLeft(s))
  }

  predicate Trimmed(s: string) {
    s == "" || (!IsSpace(s[0]) && !IsSpace(s[|s| - 1]))
  }

  predicate Blank(s: string) {
    forall i | 0 <= i < |s| :: IsSpace(s[i])
  }

  lemma {:induction false} TrimLeftCuts(s: string)
    ensures
      var r := TrimLeft(s);
      |r| <= |s| && r == s[|s| - |r|..] && Blank(s[..|s| - |r|]) && (r != "" ==> !IsSpace(r[0]))
  {
    if s != "" && IsSpace(s[0]) {
      var n := |TrimLeft(s[1..])|;
      TrimLeftCuts(s[1..]);
      assert s[..|s| - n] == [s[0]] + s[1..][..|s| - 1 - n];
    }
  }

  lemma {:induction false} TrimRightCuts(s: string)
    ensures var r := TrimRight(s); |r| <= |s| && r == s[..|r|] && Blank(s[|r|..]) && (r != "" ==> !IsSpace(r[|r| - 1]))
  {
    if s != "" && IsSpace(s[|s| - 1]) {
      var init := s[..|s| - 1];
      var n := |TrimRight(init)|;
      TrimRightCuts(init);
      assert s[..n] == init[..n] && s[n..] == init[n..] + [s[|s| - 1]];
    }
  }

  /** `r` is `s` without some white space at both ends. */
  predicate Middle(s: string, r: string) {
    exists i, j | 0 <= i <= j <= |s| :: r == s[i..j] && Blank(s[..i]) && Blank(s[j..])
  }

  /** Trimming cuts only white space, and all of it at both ends. */
  lemma TrimSpaceTrims(s: string)
    ensures Trimmed(TrimSpace(s)) && Middle(s, TrimSpace(s))
    ensures TrimSpace(s) == "" <==> Blank(s)
  {
    var l, r := TrimLeft(s), TrimSpace(s);
    TrimLeftCuts(s);
    TrimRightCuts(l);
    var i, j := |s| - |l|, |s| - |l| + |r|;
    assert r == s[i..j] && s[j..] == l[|r|..];
    if r == "" {
      assert l[0..] == l;
    } else {
      assert r[0] == l[0] == s[|s| - |l|];
    }
  }

  lemma TrimSpaceKeeps(s: string)
    requires Trimmed(s)
    ensures TrimSpace(s) == s
  {
  }

  /** bytes.IndexByte; None stands for a negative index. */
  function IndexOf(s: string, c: char): (i: Option<nat>)
    ensures i.Some? ==> i.value < |s| && s[i.value] == c && c !in s[..i.value]
    ensures i.None? ==> c !in s
  {
    if s == "" then None
    else if s[0] == c then Some(0)
    else
      match IndexOf(s[1..], c)
      case None => None
      case Some(i) => (assert s[..i + 1] == [s[0]] + s[1..][..i]; Some(i + 1))
  }

  /** The pieces of a text between the separators. */
  function Split(s: string, c: char): (parts: seq<string>)
    ensures parts != []
    decreases |s|
  {
    match IndexOf(s, c)
    case None => [s]
    case Some(i) => [s[..i]] + Split(s[i + 1..], c)
  }

  function Join(parts: seq<string>, c: char): string {
    if parts == [] then ""
    else if |parts| == 1 then parts[0]
    else parts[0] + [c] + Join(parts[1..], c)
  }

  function Last(parts: seq<string>): string
    requires parts != []
  {
    parts[|parts| - 1]
  }

  function Init(parts: seq<string>): seq<string>
    requires parts != []
  {
    parts[..|parts| - 1]
  }

  /** The pieces are what the separator separates: joined they give the text back, and none holds the separator. */
  lemma {:induction false} SplitIsSeparation(s: string, c: char)
    ensures Join(Split(s, c), c) == s
    ensures forall k | 0 <= k < |Split(s, c)| :: c !in Split(s, c)[k]
    decreases |s|
  {
    var i := IndexOf(s, c);
    if i.Some? {
      var n := i.value;
      SplitIsSeparation(s[n + 1..], c);
      assert s == s[..n] + [c] + s[n + 1..];
      assert Split(s, c)[1..] == Split(s[n + 1..], c);
    }
  }

  lemma InitAndLast(a: seq<string>, b: seq<string>)
    requires b != []
    ensures Init(a + b) == a + Init(b) && Last(a + b) == Last(b)
  {
  }

  lemma PrefixSlices(a: string, b: string, n: nat)
    requires n < |a|
    ensures (a + b)[..n] == a[..n] && (a + b)[n] == a[n] && (a + b)[n + 1..] == a[n + 1..] + b
  {
  }

  lemma SplitAtFirst(s: string, n: nat, c: char)
    requires n < |s| && s[n] == c && c !in s[..n]
    ensures Split(s, c) == [s[..n]] + Split(s[n + 1..], c)
  {
    FirstIndex(s, n, c);
  }

  lemma {:induction false} FirstIndex(s: string, n: nat, c: char)
    requires n < |s| && s[n] == c && c !in s[..n]
    ensures IndexOf(s, c) == Some(n)
  {
    if n == 0 {
    } else {
      assert s[0] in s[..n] && s[1..][..n - 1] == s[..n][1..];
      FirstIndex(s[1..], n - 1, c);
    }
  }

  /** Splitting a text cut in two: the cut piece is completed by what follows. */
  lemma {:induction false} SplitContinues(a: string, b: string, c: char)
    ensures Split(a + b, c) == Init(Split(a, c)) + Split(Last(Split(a, c)) + b, c)
    decreases |a|
  {
    var i := IndexOf(a, c);
    if i.Some? {
      var n := i.value;
      var first, rest := a[..n], a[n + 1..];
      SplitContinues(rest, b, c);
      PrefixSlices(a, b, n);
      SplitAtFirst(a + b, n, c);
      InitAndLast([first], Split(rest, c));
      assert [first] + Init(Split(rest, c)) + Split(Last(Split(rest, c)) + b, c)
          == [first] + (Init(Split(rest, c)) + Split(Last(Split(rest, c)) + b, c));
    } else {
      assert Init([a]) + Split(a + b, c) == Split(a + b, c);
    }
  }

  lemma CatSlices(a: string, p: string, n: nat)
    requires n < |p|
    ensures (a + p)[..|a| + n] == a + p[..n] && (a + p)[|a| + n] == p[n] && (a + p)[|a| + n + 1..] == p[n + 1..]
  {
  }

  /** A separator that neither head contains separates in one way only. */
  lemma SplitsAt(a: string, x: string, b: string, y: string, separator: char)
    requires separator !in a && separator !in b && a + [separator] + x == b + [separator] + y
    ensures a == b && x == y
  {
    var s := a + [separator] + x;
    assert s[|a|] == separator && s[|b|] == separator;
    assert forall i | 0 <= i < |a| :: s[i] == a[i];
    assert forall i | 0 <= i < |b| :: s[i] == b[i];
    assert a == s[..|a|] && b == s[..|b|];
    assert x == s[|a| + 1..] && y == s[|b| + 1..];
  }

  lemma SplitHead(head: string, tail: string, c: char)
    requires c !in head
    ensures Split(head + [c] + tail, c) == [head] + Split(tail, c)
  {
    var s := head + [c] + tail;
    assert s[..|head|] == head && s[|head|] == c && s[|head| + 1..] == tail;
    SplitAtFirst(s, |head|, c);
  }
}
