/** Python string and list operations that the statLM core depends on,
    written out so that their edge cases are explicit:
    `str.split(" ")`, `" ".join(...)`, and the list slices `s[:n]`, `s[1:]`
    and `s[i:]` (including negative `i`). */
module Tokens {

  const Space: char := ' '

  function Min(a: int, b: int): int { if a <= b then a else b }

  function Max(a: int, b: int): int { if a >= b then a else b }

  /** Index of the first space in `s`, or `|s|` when there is none. */
  function SpaceIndex(s: string): (i: nat)
    ensures i <= |s|
    ensures forall j :: 0 <= j < i ==> s[j] != Space
    ensures i < |s| ==> s[i] == Space
  {
    if |s| == 0 then 0
    else if s[0] == Space then 0
    else 1 + SpaceIndex(s[1..])
  }

  /** `s.split(" ")`: cut at every single space. The result is never empty
      (`"".split(" ") == [""]`) and two adjacent spaces give an empty token. */
  function Split(s: string): (r: seq<string>)
    ensures |r| >= 1
    ensures NoSpaces(r)
    decreases |s|
  {
    var i := SpaceIndex(s);
    if i == |s| then [s] else [s[..i]] + Split(s[i + 1..])
  }

  /** `" ".join(ts)`. */
  function Join(ts: seq<string>): string
  {
    if |ts| == 0 then ""
    else if |ts| == 1 then ts[0]
    else ts[0] + [Space] + Join(ts[1..])
  }

  predicate NoSpaces(ts: seq<string>)
  {
    forall i :: 0 <= i < |ts| ==> Space !in ts[i]
  }

  lemma {:induction false} SpaceIndexOfWord(w: string, rest: string)
    requires Space !in w
    ensures SpaceIndex(w + [Space] + rest) == |w|
    ensures SpaceIndex(w) == |w|
  {
    if |w| > 0 {
      assert (w + [Space] + rest)[1..] == w[1..] + [Space] + rest;
      SpaceIndexOfWord(w[1..], rest);
    }
  }

  /** Splitting peels off a leading space-free word. */
  lemma {:induction false} SplitWord(w: string, rest: string)
    requires Space !in w
    ensures Split(w + [Space] + rest) == [w] + Split(rest)
  {
    var s := w + [Space] + rest;
    SpaceIndexOfWord(w, rest);
    assert s[..|w|] == w;
    assert s[|w| + 1..] == rest;
  }

  /** A space-free string is a single token. */
  lemma {:induction false} SplitSingleWord(w: string)
    requires Space !in w
    ensures Split(w) == [w]
  {
    SpaceIndexOfWord(w, "");
  }

  /** Joining a token onto a non-empty list puts one space between them. */
  lemma {:induction false} JoinCons(t: string, ts: seq<string>)
    requires |ts| >= 1
    ensures Join([t] + ts) == t + [Space] + Join(ts)
  {
    assert ([t] + ts)[1..] == ts;
  }

  /** Joining the pieces of a split gives the string back. */
  lemma {:induction false} JoinSplit(s: string)
    ensures Join(Split(s)) == s
    decreases |s|
  {
    var i := SpaceIndex(s);
    if i < |s| {
      var head, tail := s[..i], s[i + 1..];
      var rest := Split(tail);
      SplitAtSpace(s);
      JoinSplit(tail);
      JoinCons(head, rest);
      AroundSpace(s, i);
    } else {
      assert Split(s) == [s];
    }
  }

  /** A string is the text before its `i`-th character, a space, and the text after. */
  lemma {:induction false} AroundSpace(s: string, i: nat)
    requires i < |s| && s[i] == Space
    ensures s[..i] + [Space] + s[i + 1..] == s
  {
  }

  /** Splitting a join of space-free tokens gives the tokens back. */
  lemma {:induction false} SplitJoin(ts: seq<string>)
    requires |ts| >= 1 && NoSpaces(ts)
    ensures Split(Join(ts)) == ts
  {
    if |ts| == 1 {
      SplitSingleWord(ts[0]);
    } else {
      var rest := ts[1..];
      assert [ts[0]] + rest == ts;
      assert Space !in ts[0];
      JoinCons(ts[0], rest);
      SplitWord(ts[0], Join(rest));
      SplitJoin(rest);
    }
  }

  /** `s[:n]` for `n >= 0`: the first `n` elements, or all of `s` when it is shorter. */
  function Prefix<T>(s: seq<T>, n: nat): (r: seq<T>)
    ensures |r| == Min(n, |s|)
    ensures r == s[..|r|]
  {
    if n <= |s| then s[..n] else s
  }

  /** `s[1:]`: everything but the first element; `[]` for `[]`. */
  function DropFirst<T>(s: seq<T>): (r: seq<T>)
    ensures |r| == Max(|s| - 1, 0)
    ensures r == s[|s| - |r|..]
  {
    if |s| == 0 then [] else s[1..]
  }

  /** `s[start:]` with Python's reading of a negative start: it counts from
      the end, and a start beyond either end is clamped. */
  function SliceFrom<T>(s: seq<T>, start: int): (r: seq<T>)
    ensures start >= 0 ==> |r| == Max(|s| - start, 0)
    ensures start < 0 ==> |r| == Min(-start, |s|)
    ensures r == s[|s| - |r|..]
  {
    if start >= 0 then (if start <= |s| then s[start..] else [])
    else (if -start <= |s| then s[|s| + start..] else s)
  }

  /** The last piece of `s.split(" ")` is the text after the last space of
      `s`, or all of `s` when it has none. */
  lemma {:induction false} LastOfSplit(s: string)
    ensures EndsWithToken(s, Last(Split(s)))
    decreases |s|
  {
    var i := SpaceIndex(s);
    if i < |s| {
      var rest := s[i + 1..];
      var w := Last(Split(rest));
      LastOfSplit(rest);
      SplitAtSpace(s);
      LastCons(s[..i], Split(rest));
      SuffixAfterSpace(s, i, rest, w);
    } else {
      assert Split(s) == [s];
      WholeToken(s);
    }
  }

  /** `w` is the text of `s` after its last space (all of `s` if it has none). */
  predicate EndsWithToken(s: string, w: string)
  {
    && Space !in w && |w| <= |s| && w == s[|s| - |w|..]
    && (|w| < |s| ==> s[|s| - |w| - 1] == Space)
  }

  lemma {:induction false} WholeToken(s: string)
    requires Space !in s
    ensures EndsWithToken(s, s)
  {
    assert s[0..] == s;
  }

  /** The text after the last space of `s[i + 1..]` is the text after the
      last space of `s` when `s[i]` is a space. */
  lemma {:induction false} SuffixAfterSpace(s: string, i: nat, rest: string, w: string)
    requires i < |s| && s[i] == Space && rest == s[i + 1..]
    requires EndsWithToken(rest, w)
    ensures EndsWithToken(s, w)
  {
    assert |rest| == |s| - i - 1;
    forall j | 0 <= j < |w| ensures w[j] == s[|s| - |w| + j] {
      assert w[j] == rest[|rest| - |w| + j];
    }
  }

  lemma {:induction false} SplitAtSpace(s: string)
    requires SpaceIndex(s) < |s|
    ensures Split(s) == [s[..SpaceIndex(s)]] + Split(s[SpaceIndex(s) + 1..])
  {
    var i := SpaceIndex(s);
    assert Split(s) == if i == |s| then [s] else [s[..i]] + Split(s[i + 1..]);
  }

  lemma {:induction false} LastCons<T>(x: T, s: seq<T>)
    requires |s| >= 1
    ensures Last([x] + s) == Last(s)
  {
  }

  /** `s[-1]` on a non-empty list. */
  function Last<T>(s: seq<T>): T
    requires |s| >= 1
  {
    s[|s| - 1]
  }
}
