/** String helpers with the meaning the TypeScript runtime gives them:
    `trim()`-emptiness, `split(sep)`, `join(sep)`, `slice` on a list of
    pieces and ASCII lower-casing. */
module Strings {

  /** The characters `String.prototype.trim` removes: ECMAScript WhiteSpace
      (TAB, VT, FF, ZWNBSP and the Zs space separators) and LineTerminator
      (LF, CR, LS, PS). */
  predicate IsWhitespace(c: char) {
    c == '\t' || c == '\n' || c == '\U{000B}' || c == '\U{000C}' || c == '\r' || c == ' '
    || c == '\U{00A0}' || c == '\U{1680}' || ('\U{2000}' <= c <= '\U{200A}')
    || c == '\U{2028}' || c == '\U{2029}' || c == '\U{202F}' || c == '\U{205F}'
    || c == '\U{3000}' || c == '\U{FEFF}'
  }

  /** `s.trim().length === 0`. */
  predicate IsBlank(s: string) {
    forall i :: 0 <= i < |s| ==> IsWhitespace(s[i])
  }

  predicate StartsWith(s: string, prefix: string) {
    |prefix| <= |s| && s[..|prefix|] == prefix
  }

  predicate EndsWith(s: string, suffix: string) {
    |suffix| <= |s| && s[|s| - |suffix|..] == suffix
  }

  function CountChar(s: string, c: char): nat {
    if |s| == 0 then 0 else (if s[0] == c then 1 else 0) + CountChar(s[1..], c)
  }

  /** `s.split(c)`: the pieces between occurrences of `c`; there is always at
      least one piece, and "" splits into [""]. */
  function Split(s: string, c: char): (pieces: seq<string>)
    ensures |pieces| >= 1
  {
    if |s| == 0 then [""]
    else if s[0] == c then [""] + Split(s[1..], c)
    else
      var rest := Split(s[1..], c);
      [[s[0]] + rest[0]] + rest[1..]
  }

  /** `pieces.join(c)`. */
  function Join(pieces: seq<string>, c: char): string {
    if |pieces| == 0 then ""
    else if |pieces| == 1 then pieces[0]
    else pieces[0] + [c] + Join(pieces[1..], c)
  }

  /** `pieces.slice(-n)`: the last n pieces, or all of them when there are fewer. */
  function LastN<T>(pieces: seq<T>, n: nat): (r: seq<T>)
    ensures |r| == if |pieces| <= n then |pieces| else n
  {
    if |pieces| <= n then pieces else pieces[|pieces| - n..]
  }

  /** `pieces.slice(0, n)`. */
  function FirstN<T>(pieces: seq<T>, n: nat): (r: seq<T>)
    ensures |r| == if |pieces| <= n then |pieces| else n
  {
    if |pieces| <= n then pieces else pieces[..n]
  }

  /** `toLowerCase` on the ASCII letters; other characters are kept. */
  function LowerChar(c: char): char {
    if 'A' <= c <= 'Z' then (c as int + 32) as char else c
  }

  function Lower(s: string): (r: string)
    ensures |r| == |s|
    ensures forall i :: 0 <= i < |s| ==> r[i] == LowerChar(s[i])
  {
    if |s| == 0 then "" else [LowerChar(s[0])] + Lower(s[1..])
  }

  function Min(a: int, b: int): int {
    if a <= b then a else b
  }

  lemma PrefixOfAppend(a: string, b: string)
    ensures StartsWith(a + b, a) && (a + b)[|a|..] == b
  {
    assert (a + b)[..|a|] == a;
  }

  lemma PrefixOfLonger(a: string, b: string, p: string)
    requires StartsWith(a, p)
    ensures StartsWith(a + b, p)
  {
    assert (a + b)[..|p|] == a[..|p|];
  }

  lemma AppendAssoc(a: string, b: string, c: string)
    ensures a + b + c == a + (b + c)
  {
  }

  /** A single space separates two pieces, so a string splits on ' ' into one
      more piece than it has spaces: every string, even "", is at least one word. */
  lemma {:induction false} SplitLength(s: string, c: char)
    ensures |Split(s, c)| == CountChar(s, c) + 1
  {
    if |s| > 0 {
      SplitLength(s[1..], c);
    }
  }

  lemma {:induction false} CountCharAppend(a: string, b: string, c: char)
    ensures CountChar(a + b, c) == CountChar(a, c) + CountChar(b, c)
  {
    if |a| > 0 {
      assert (a + b)[1..] == a[1..] + b;
      CountCharAppend(a[1..], b, c);
    } else {
      assert a + b == b;
    }
  }

  /** No piece of a split contains the separator. */
  lemma {:induction false} SplitPiecesFree(s: string, c: char)
    ensures forall k :: 0 <= k < |Split(s, c)| ==> CountChar(Split(s, c)[k], c) == 0
  {
    if |s| > 0 {
      SplitPiecesFree(s[1..], c);
      var rest := Split(s[1..], c);
      if s[0] != c {
        assert ([s[0]] + rest[0])[1..] == rest[0];
      }
    }
  }

  lemma JoinCons(p: string, ps: seq<string>, c: char)
    requires |ps| >= 1
    ensures Join([p] + ps, c) == p + [c] + Join(ps, c)
  {
    assert ([p] + ps)[1..] == ps;
  }

  /** Joining the pieces of a split gives the original string back. */
  lemma {:induction false} JoinSplit(s: string, c: char)
    ensures Join(Split(s, c), c) == s
  {
    if |s| > 0 {
      JoinSplit(s[1..], c);
      var rest := Split(s[1..], c);
      if s[0] == c {
        JoinCons("", rest, c);
        assert [c] + s[1..] == s;
      } else if |rest| == 1 {
        assert [s[0]] + rest[0] == s;
      } else {
        JoinCons([s[0]] + rest[0], rest[1..], c);
        JoinCons(rest[0], rest[1..], c);
        assert [rest[0]] + rest[1..] == rest;
        assert [s[0]] + s[1..] == s;
      }
    }
  }

  /** Joining around a cut: the first i pieces, the separator, the rest. */
  lemma {:induction false} JoinCut(ps: seq<string>, i: nat, c: char)
    requires 0 < i < |ps|
    ensures Join(ps, c) == Join(ps[..i], c) + [c] + Join(ps[i..], c)
  {
    if i == 1 {
      assert ps[..1] == [ps[0]];
      assert ps[1..] == ps[i..];
    } else {
      JoinCut(ps[1..], i - 1, c);
      assert ps[1..][..i - 1] == ps[..i][1..];
      assert ps[1..][i - 1..] == ps[i..];
    }
  }

  /** Joined pieces that hold no separator contain exactly one separator fewer
      than there are pieces. */
  lemma {:induction false} JoinCount(ps: seq<string>, c: char)
    requires |ps| >= 1
    requires forall k :: 0 <= k < |ps| ==> CountChar(ps[k], c) == 0
    ensures CountChar(Join(ps, c), c) == |ps| - 1
  {
    if |ps| > 1 {
      JoinCount(ps[1..], c);
      CountCharAppend(ps[0], [c], c);
      CountCharAppend(ps[0] + [c], Join(ps[1..], c), c);
    }
  }

  /** A run of pieces taken from pieces that hold no separator holds none. */
  lemma FreeSlice(ps: seq<string>, lo: nat, hi: nat, c: char)
    requires lo <= hi <= |ps|
    requires forall k :: 0 <= k < |ps| ==> CountChar(ps[k], c) == 0
    ensures forall k :: 0 <= k < |ps[lo..hi]| ==> CountChar(ps[lo..hi][k], c) == 0
  {
    forall k | 0 <= k < |ps[lo..hi]|
      ensures CountChar(ps[lo..hi][k], c) == 0
    {
      assert ps[lo..hi][k] == ps[lo + k];
    }
  }

  lemma AroundSeparator(a: string, c: char, b: string)
    ensures var s := a + [c] + b;
      && EndsWith(s, b) && s[|s| - |b| - 1] == c && b != s
      && StartsWith(s, a) && s[|a|] == c && a != s
  {
    var s := a + [c] + b;
    assert s[|s| - |b|..] == b;
    assert s[..|a|] == a;
  }

  /** Joining a list, its last n pieces joined form a suffix right after a
      separator. */
  lemma JoinLastPieces(ps: seq<string>, n: nat, c: char)
    requires 1 <= n < |ps|
    ensures var r := Join(ps[|ps| - n..], c);
      var s := Join(ps, c);
      |r| < |s| && EndsWith(s, r) && s[|s| - |r| - 1] == c
  {
    JoinCut(ps, |ps| - n, c);
    AroundSeparator(Join(ps[..|ps| - n], c), c, Join(ps[|ps| - n..], c));
  }

  /** Joining a list, its first n pieces joined form a prefix right before a
      separator. */
  lemma JoinFirstPieces(ps: seq<string>, n: nat, c: char)
    requires 1 <= n < |ps|
    ensures var r := Join(ps[..n], c);
      var s := Join(ps, c);
      |r| < |s| && StartsWith(s, r) && s[|r|] == c
  {
    JoinCut(ps, n, c);
    AroundSeparator(Join(ps[..n], c), c, Join(ps[n..], c));
  }

  /** `s.split(c).slice(-n).join(c)` is the last n lines of s (all of them when
      there are fewer): a suffix of s that starts s or follows a separator, and
      holds min(n - 1, separators in s) separators. */
  lemma LastLines(s: string, c: char, n: nat)
    requires n >= 1
    ensures var r := Join(LastN(Split(s, c), n), c);
      && EndsWith(s, r)
      && CountChar(r, c) == Min(n - 1, CountChar(s, c))
      && (r == s || s[|s| - |r| - 1] == c)
  {
    var xs := Split(s, c);
    JoinSplit(s, c);
    SplitLength(s, c);
    SplitPiecesFree(s, c);
    assert CountChar(s, c) == |xs| - 1;
    if |xs| > n {
      var i := |xs| - n;
      var tail := xs[i..];
      assert LastN(xs, n) == tail;
      JoinLastPieces(xs, n, c);
      FreeSlice(xs, i, |xs|, c);
      assert xs[i..|xs|] == tail;
      JoinCount(tail, c);
      assert CountChar(Join(tail, c), c) == n - 1;
    } else {
      assert LastN(xs, n) == xs;
      JoinCount(xs, c);
    }
  }

  /** `s.split(c).slice(0, n).join(c)` is the first n lines of s (all of them
      when there are fewer): a prefix of s that ends s or is followed by a
      separator, and holds min(n - 1, separators in s) separators. */
  lemma FirstLines(s: string, c: char, n: nat)
    requires n >= 1
    ensures var r := Join(FirstN(Split(s, c), n), c);
      && StartsWith(s, r)
      && CountChar(r, c) == Min(n - 1, CountChar(s, c))
      && (r == s || s[|r|] == c)
  {
    var xs := Split(s, c);
    JoinSplit(s, c);
    SplitLength(s, c);
    SplitPiecesFree(s, c);
    if |xs| > n {
      assert FirstN(xs, n) == xs[..n];
      JoinFirstPieces(xs, n, c);
      FreeSlice(xs, 0, n, c);
      assert xs[0..n] == xs[..n];
      JoinCount(xs[..n], c);
    } else {
      JoinCount(xs, c);
    }
  }
}
