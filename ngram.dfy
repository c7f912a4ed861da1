/** `NGramFrequenzy`: a table of n-gram counts.

    The table is the Counter held in the private `__ngram_freq` field. It is
    written here as the sequence of its `(ngram, count)` entries in insertion
    order, one entry per key, because `most_common` breaks ties by that order.
    The table is never changed after construction, so every operation is a
    function returning a new value. */
module NGram {
  import opened Wrappers
  import opened Tokens

  /** An `(ngram, count)` pair; the ngram is the space-joined string key. */
  type Entry = (string, real)

  predicate UniqueKeys(s: seq<Entry>)
  {
    forall i, j :: 0 <= i < j < |s| ==> s[i].0 != s[j].0
  }

  /** The entries of a Counter (a Python dict): keys are distinct. */
  type Table = s: seq<Entry> | UniqueKeys(s) witness []

  predicate Positive(s: seq<Entry>)
  {
    forall i :: 0 <= i < |s| ==> s[i].1 > 0.0
  }

  predicate NonNegative(s: seq<Entry>)
  {
    forall i :: 0 <= i < |s| ==> s[i].1 >= 0.0
  }

  /** What the vectorizer yields: each n-gram of the corpus with its number
      of occurrences, which is positive. */
  type Occurrences = t: Table | Positive(t) witness []

  /** `CountVectorizer(**kwargs)` fitted on a corpus, then
      `Counter(dict(zip(vocab, word_counts)))`; a foreign computation that the
      model takes as a parameter. */
  type Extractor = seq<string> -> Occurrences

  predicate Distinct<T(==)>(s: seq<T>)
  {
    forall i, j :: 0 <= i < j < |s| ==> s[i] != s[j]
  }

  /** `a` is `b` with some elements left out, the others kept in order. */
  predicate Subsequence<T(==)>(a: seq<T>, b: seq<T>)
    decreases |b|
  {
    a == [] || (b != [] && ((a[0] == b[0] && Subsequence(a[1..], b[1..])) || Subsequence(a, b[1..])))
  }

  lemma {:induction false} SubsequenceAppend<T>(a: seq<T>, b: seq<T>, c: seq<T>, d: seq<T>)
    requires Subsequence(a, c) && Subsequence(b, d)
    ensures Subsequence(a + b, c + d)
    decreases |c| + |d|
  {
    if a == [] {
      SubsequenceOfSuffix(b, c, d);
      assert a + b == b;
    } else if a[0] == c[0] && Subsequence(a[1..], c[1..]) {
      SubsequenceAppend(a[1..], b, c[1..], d);
      assert (a + b)[1..] == a[1..] + b;
      assert (c + d)[1..] == c[1..] + d;
    } else {
      SubsequenceAppend(a, b, c[1..], d);
      assert (c + d)[1..] == c[1..] + d;
    }
  }

  lemma {:induction false} SubsequenceOfSuffix<T>(b: seq<T>, c: seq<T>, d: seq<T>)
    requires Subsequence(b, d)
    ensures Subsequence(b, c + d)
    decreases |c|
  {
    if c != [] && b != [] {
      SubsequenceOfSuffix(b, c[1..], d);
      assert (c + d)[1..] == c[1..] + d;
    } else if c == [] {
      assert c + d == d;
    }
  }

  /** `keys()`: the ngrams, in insertion order. */
  function Keys(t: seq<Entry>): (ks: seq<string>)
    ensures |ks| == |t|
    ensures forall i :: 0 <= i < |t| ==> ks[i] == t[i].0
  {
    seq(|t|, i requires 0 <= i < |t| => t[i].0)
  }

  /** The keys of a table are distinct, as a dict's are. */
  lemma KeysDistinct(t: Table)
    ensures Distinct(Keys(t))
  {
  }

  /** `values()`: the counts, in insertion order. */
  function Values(t: seq<Entry>): (vs: seq<real>)
    ensures |vs| == |t|
    ensures forall i :: 0 <= i < |t| ==> vs[i] == t[i].1
  {
    seq(|t|, i requires 0 <= i < |t| => t[i].1)
  }

  function Sum(xs: seq<real>): real
  {
    if |xs| == 0 then 0.0 else xs[0] + Sum(xs[1..])
  }

  /** `sum(values())`. */
  function Total(t: seq<Entry>): real
  {
    Sum(Values(t))
  }

  lemma TotalCons(e: Entry, t: seq<Entry>)
    ensures Total([e] + t) == e.1 + Total(t)
  {
    assert Values([e] + t)[1..] == Values(t);
  }

  lemma KeysCons(e: Entry, t: seq<Entry>)
    ensures Keys([e] + t) == [e.0] + Keys(t)
  {
  }

  lemma KeysAppend(a: seq<Entry>, b: seq<Entry>)
    ensures Keys(a + b) == Keys(a) + Keys(b)
  {
  }

  lemma KeysTail(t: seq<Entry>)
    requires |t| > 0
    ensures Keys(t[1..]) == Keys(t)[1..]
  {
  }

  // ---------------------------------------------------------------------
  // Exact lookup

  /** `self.__ngram_freq[key]`: the stored count, or 0 for an absent key. */
  function Lookup(t: Table, key: string): (c: real)
    ensures key !in Keys(t) ==> c == 0.0
  {
    if |t| == 0 then 0.0
    else if t[0].0 == key then t[0].1
    else
      KeysTail(t);
      Lookup(t[1..], key)
  }

  /** The stored count of a present key is the count of its entry. */
  lemma {:induction false} LookupAt(t: Table, i: int)
    requires 0 <= i < |t|
    ensures Lookup(t, t[i].0) == t[i].1
  {
    if i > 0 {
      LookupAt(t[1..], i - 1);
    }
  }

  lemma LookupAll(t: Table)
    ensures forall i :: 0 <= i < |t| ==> Lookup(t, t[i].0) == t[i].1
  {
    forall i | 0 <= i < |t| ensures Lookup(t, t[i].0) == t[i].1 {
      LookupAt(t, i);
    }
  }

  lemma LookupNonNegative(t: Table, key: string)
    requires NonNegative(t)
    ensures Lookup(t, key) >= 0.0
  {
    if key in Keys(t) {
      var i :| 0 <= i < |t| && Keys(t)[i] == key;
      LookupAt(t, i);
    }
  }

  lemma {:induction false} LookupAppend(a: Table, b: Table, key: string)
    requires UniqueKeys(a + b)
    ensures Lookup(a + b, key) == if key in Keys(a) then Lookup(a, key) else Lookup(b, key)
  {
    KeysAppend(a, b);
    if key in Keys(a) {
      var i :| 0 <= i < |a| && Keys(a)[i] == key;
      assert (a + b)[i] == a[i];
      LookupAt(a + b, i);
      LookupAt(a, i);
    } else if key in Keys(b) {
      var i :| 0 <= i < |b| && Keys(b)[i] == key;
      assert (a + b)[|a| + i] == b[i];
      LookupAt(a + b, |a| + i);
      LookupAt(b, i);
    }
  }

  // ---------------------------------------------------------------------
  // Prefix search

  /** The test in `search_ngrams`: `ngram.split(" ")[:len(query)] == query`. */
  predicate Matches(ngram: string, query: seq<string>)
  {
    Prefix(Split(ngram), |query|) == query
  }

  /** A key matches exactly when it has at least `|query|` tokens and its
      leading ones are the query, so an empty query matches every ngram. */
  lemma MatchesPrefix(ngram: string, query: seq<string>)
    ensures Matches(ngram, query) <==> |query| <= |Split(ngram)| && Split(ngram)[..|query|] == query
  {
  }

  /** The entries of `t` whose key satisfies `keep`, in order. */
  function Filter(t: seq<Entry>, keep: string -> bool): seq<Entry>
  {
    if |t| == 0 then []
    else if keep(t[0].0) then [t[0]] + Filter(t[1..], keep)
    else Filter(t[1..], keep)
  }

  lemma {:induction false} FilterMembers(t: seq<Entry>, keep: string -> bool)
    ensures forall e :: e in Filter(t, keep) <==> e in t && keep(e.0)
  {
    if |t| > 0 {
      FilterMembers(t[1..], keep);
      assert t == [t[0]] + t[1..];
    }
  }

  lemma {:induction false} FilterLength(t: seq<Entry>, keep: string -> bool)
    ensures |Filter(t, keep)| <= |t|
  {
    if |t| > 0 {
      FilterLength(t[1..], keep);
    }
  }

  lemma {:induction false} FilterUnique(t: seq<Entry>, keep: string -> bool)
    requires UniqueKeys(t)
    ensures UniqueKeys(Filter(t, keep))
  {
    if |t| > 0 {
      var rest := Filter(t[1..], keep);
      FilterUnique(t[1..], keep);
      FilterMembers(t[1..], keep);
      if keep(t[0].0) {
        forall i, j | 0 <= i < j < |[t[0]] + rest| ensures ([t[0]] + rest)[i].0 != ([t[0]] + rest)[j].0 {
          if i == 0 {
            assert rest[j - 1] in rest;
          } else {
            assert ([t[0]] + rest)[i] == rest[i - 1];
          }
        }
      }
    }
  }

  /** When the kept entries form the block `t[lo..hi]`, the filter returns exactly that block. */
  lemma FilterBlock(t: seq<Entry>, keep: string -> bool, lo: nat, hi: nat)
    requires lo <= hi <= |t|
    requires forall i :: 0 <= i < |t| ==> (keep(t[i].0) <==> lo <= i < hi)
    ensures Filter(t, keep) == t[lo..hi]
  {
    var x, y, z := t[0..lo], t[lo..hi], t[hi..|t|];
    FilterNoneIn(t, keep, 0, lo);
    FilterAllIn(t, keep, lo, hi);
    FilterNoneIn(t, keep, hi, |t|);
    assert Filter(x + y, keep) == y by {
      FilterAppend(x, y, keep);
      assert [] + y == y;
    }
    assert Filter(x + y + z, keep) == y by {
      FilterAppend(x + y, z, keep);
      assert y + [] == y;
    }
    ThreeSlices(t, lo, hi);
  }

  lemma ThreeSlices<T>(t: seq<T>, lo: nat, hi: nat)
    requires lo <= hi <= |t|
    ensures t[0..lo] + t[lo..hi] + t[hi..|t|] == t
  {
  }

  lemma FilterNoneIn(t: seq<Entry>, keep: string -> bool, lo: nat, hi: nat)
    requires lo <= hi <= |t|
    requires forall i :: lo <= i < hi ==> !keep(t[i].0)
    ensures Filter(t[lo..hi], keep) == []
  {
    var s := t[lo..hi];
    forall i | 0 <= i < |s| ensures !keep(s[i].0) {
      assert s[i] == t[lo + i];
    }
    FilterNone(s, keep);
  }

  lemma FilterAllIn(t: seq<Entry>, keep: string -> bool, lo: nat, hi: nat)
    requires lo <= hi <= |t|
    requires forall i :: lo <= i < hi ==> keep(t[i].0)
    ensures Filter(t[lo..hi], keep) == t[lo..hi]
  {
    var s := t[lo..hi];
    forall i | 0 <= i < |s| ensures keep(s[i].0) {
      assert s[i] == t[lo + i];
    }
    FilterAll(s, keep);
  }

  lemma {:induction false} FilterAppend(x: seq<Entry>, y: seq<Entry>, keep: string -> bool)
    ensures Filter(x + y, keep) == Filter(x, keep) + Filter(y, keep)
  {
    if |x| == 0 {
      assert x + y == y;
    } else {
      assert (x + y)[1..] == x[1..] + y;
      FilterAppend(x[1..], y, keep);
    }
  }

  lemma {:induction false} FilterAll(t: seq<Entry>, keep: string -> bool)
    requires forall i :: 0 <= i < |t| ==> keep(t[i].0)
    ensures Filter(t, keep) == t
  {
    if |t| > 0 {
      var tail := t[1..];
      forall i | 0 <= i < |tail| ensures keep(tail[i].0) {
        assert tail[i] == t[i + 1];
      }
      FilterAll(tail, keep);
      assert t == [t[0]] + tail;
    }
  }

  lemma {:induction false} FilterNone(t: seq<Entry>, keep: string -> bool)
    requires forall i :: 0 <= i < |t| ==> !keep(t[i].0)
    ensures Filter(t, keep) == []
  {
    if |t| > 0 {
      var tail := t[1..];
      forall i | 0 <= i < |tail| ensures !keep(tail[i].0) {
        assert tail[i] == t[i + 1];
      }
      FilterNone(tail, keep);
    }
  }

  /** The test of `search_ngrams` as a predicate on keys. */
  function StartsWith(query: seq<string>): string -> bool
  {
    k => Matches(k, query)
  }

  /** The dict comprehension of `search_ngrams`: the matching entries, counts
      unchanged, in table order. */
  function Matching(t: Table, query: seq<string>): (r: Table)
    ensures |r| <= |t|
    ensures forall i :: 0 <= i < |r| ==> Matches(r[i].0, query) && r[i] in t
  {
    FilterUnique(t, StartsWith(query));
    FilterMembers(t, StartsWith(query));
    FilterLength(t, StartsWith(query));
    Filter(t, StartsWith(query))
  }

  /** The matches are exactly the entries of the table whose key starts with the query. */
  lemma MatchingMembers(t: Table, query: seq<string>)
    ensures forall e :: e in Matching(t, query) <==> e in t && Matches(e.0, query)
  {
    FilterMembers(t, StartsWith(query));
  }

  /** The matches keep their table order. */
  lemma {:induction false} MatchingKeepsOrder(t: Table, query: seq<string>)
    ensures Subsequence(Matching(t, query), t)
  {
    if |t| > 0 {
      MatchingKeepsOrder(t[1..], query);
    }
  }

  /** When the entries that match form the block `t[lo..hi]`, the search
      returns exactly that block, in table order. */
  lemma MatchingBlock(t: Table, query: seq<string>, lo: nat, hi: nat)
    requires lo <= hi <= |t|
    requires forall i :: 0 <= i < |t| ==> (Matches(t[i].0, query) <==> lo <= i < hi)
    ensures Matching(t, query) == t[lo..hi]
  {
    FilterBlock(t, StartsWith(query), lo, hi);
  }

  /** The empty query matches every ngram: `split(" ")[:0] == []`. */
  lemma EmptyQueryMatchesAll(t: Table)
    ensures Matching(t, []) == t
  {
    MatchingBlock(t, [], 0, |t|);
    assert t[0..|t|] == t;
  }

  /** Every count divided by `d`. */
  function Scale(t: Table, d: real): (r: Table)
    requires d != 0.0
    ensures |r| == |t|
    ensures forall i :: 0 <= i < |t| ==> r[i] == (t[i].0, t[i].1 / d)
    ensures Keys(r) == Keys(t)
  {
    seq(|t|, i requires 0 <= i < |t| => (t[i].0, t[i].1 / d))
  }

  lemma DivideSum(a: real, b: real, d: real)
    requires d != 0.0
    ensures a / d + b / d == (a + b) / d
  {
    var x, y := a / d, b / d;
    assert x * d == a && y * d == b;
    assert (x + y) * d == a + b;
  }

  lemma {:induction false} ScaleTotal(t: Table, d: real)
    requires d != 0.0
    ensures Total(Scale(t, d)) == Total(t) / d
  {
    if |t| > 0 {
      var r := Scale(t, d);
      ScaleTotal(t[1..], d);
      assert Scale(t[1..], d) == r[1..];
      assert Total(t) == t[0].1 + Total(t[1..]) by {
        TotalCons(t[0], t[1..]);
        assert t == [t[0]] + t[1..];
      }
      assert Total(r) == r[0].1 + Total(r[1..]) by {
        TotalCons(r[0], r[1..]);
        assert r == [r[0]] + r[1..];
      }
      DivideSum(t[0].1, Total(t[1..]), d);
    }
  }

  /** The `normalize=True` branch of `search_ngrams`: each count divided by
      the sum of all counts. Over no entries no division happens at all; a
      non-empty sum of zero raises ZeroDivisionError. */
  function Normalized(t: Table): (r: Result<Table>)
    ensures r.Err? <==> t != [] && Total(t) == 0.0
    ensures r.Err? ==> r.error == DivisionByZero
    ensures t == [] ==> r == Ok([])
    ensures r.Ok? ==> Keys(r.value) == Keys(t)
    ensures r.Ok? && t != [] ==> Total(r.value) == 1.0
    ensures r.Ok? && t != [] ==>
      forall i :: 0 <= i < |t| ==> r.value[i] == (t[i].0, t[i].1 / Total(t))
  {
    if |t| == 0 then Ok([])
    else
      var total := Total(t);
      if total == 0.0 then Err(DivisionByZero)
      else
        ScaleTotal(t, total);
        assert total / total == 1.0;
        Ok(Scale(t, total))
  }

  /** The `query` argument of `search_ngrams`: a string or a list of tokens. */
  datatype Query = Text(text: string) | Words(words: seq<string>)

  /** `query.split(" ") if isinstance(query, str) else query`. */
  function Parse(query: Query): (r: seq<string>)
    ensures query.Words? ==> r == query.words
    ensures query.Text? ==> |r| >= 1 && NoSpaces(r) && Join(r) == query.text
  {
    match query
    case Text(s) =>
      JoinSplit(s);
      Split(s)
    case Words(ws) => ws
  }

  /** `search_ngrams(query, normalize)`: the entries whose leading tokens are
      the query, as a new table; with `normalize` their counts become shares
      of their sum. */
  function SearchNGrams(t: Table, query: Query, normalize: bool): (r: Result<Table>)
    ensures !normalize ==> r.Ok?
  {
    var found := Matching(t, Parse(query));
    if !normalize then Ok(found) else Normalized(found)
  }

  /** What the search returns: without normalisation the matching entries
      themselves, in table order; in either mode exactly the keys of the
      table that start with the query; normalised shares sum to 1; and only
      normalisation can fail, with ZeroDivisionError. */
  lemma SearchResult(t: Table, query: Query, normalize: bool)
    ensures var r := SearchNGrams(t, query, normalize);
      && (!normalize ==> r.Ok?)
      && (!normalize ==> forall e :: e in r.value <==> e in t && Matches(e.0, Parse(query)))
      && (!normalize ==> Subsequence(r.value, t))
      && (r.Ok? ==> forall k :: k in Keys(r.value) <==> k in Keys(t) && Matches(k, Parse(query)))
      && (normalize && r.Ok? && r.value != [] ==> Total(r.value) == 1.0)
      && (r.Err? ==> normalize && r.error == DivisionByZero)
  {
    var q := Parse(query);
    MatchingKeepsOrder(t, q);
    MatchingMembers(t, q);
    MatchingKeys(t, q);
  }

  /** The keys of the matches are exactly the keys of the table that start
      with the query. */
  lemma MatchingKeys(t: Table, query: seq<string>)
    ensures forall k :: k in Keys(Matching(t, query)) <==> k in Keys(t) && Matches(k, query)
  {
    var found := Matching(t, query);
    MatchingMembers(t, query);
    forall k ensures k in Keys(found) <==> k in Keys(t) && Matches(k, query) {
      if k in Keys(found) {
        var i :| 0 <= i < |found| && Keys(found)[i] == k;
        assert found[i] in found;
      }
      if k in Keys(t) && Matches(k, query) {
        var i :| 0 <= i < |t| && Keys(t)[i] == k;
        assert t[i] in t;
        var j :| 0 <= j < |found| && found[j] == t[i];
        assert Keys(found)[j] == k;
      }
    }
  }

  lemma SearchWithoutNormalize(t: Table, query: seq<string>)
    ensures SearchNGrams(t, Words(query), false) == Ok(Matching(t, query))
  {
  }

  lemma SearchNormalized(t: Table, query: seq<string>)
    ensures SearchNGrams(t, Words(query), true) == Normalized(Matching(t, query))
  {
  }

  /** A string query is the same search as its list of space-separated tokens. */
  lemma TextQueryIsWordsQuery(t: Table, s: string, normalize: bool)
    ensures SearchNGrams(t, Text(s), normalize) == SearchNGrams(t, Words(Split(s)), normalize)
  {
  }

  // ---------------------------------------------------------------------
  // Ranking

  /** Counts never increase from left to right. */
  predicate NonIncreasing(s: seq<Entry>)
  {
    forall i, j :: 0 <= i < j < |s| ==> s[i].1 >= s[j].1
  }

  /** The entries whose count is `c`, in order. */
  function WithCount(s: seq<Entry>, c: real): seq<Entry>
  {
    if |s| == 0 then []
    else (if s[0].1 == c then [s[0]] else []) + WithCount(s[1..], c)
  }

  lemma {:induction false} WithCountPrefix(s: seq<Entry>, n: nat, c: real)
    requires n <= |s|
    ensures WithCount(s[..n], c) <= WithCount(s, c)
  {
    if n > 0 {
      WithCountPrefix(s[1..], n - 1, c);
      assert s[..n][1..] == s[1..][..n - 1];
    }
  }

  /** The first entry with count `c` heads the entries with that count. */
  lemma {:induction false} WithCountHead(s: seq<Entry>, i: nat)
    requires i < |s|
    requires forall j :: 0 <= j < i ==> s[j].1 != s[i].1
    ensures |WithCount(s, s[i].1)| > 0 && WithCount(s, s[i].1)[0] == s[i]
  {
    if i > 0 {
      WithCountHead(s[1..], i - 1);
    }
  }

  /** Inserts `x` in front of the first entry whose count is at most its own:
      one step of a stable sort by decreasing count. */
  function Insert(x: Entry, s: seq<Entry>): (r: seq<Entry>)
    ensures multiset(r) == multiset{x} + multiset(s)
  {
    if |s| == 0 || x.1 >= s[0].1 then [x] + s
    else
      assert s == [s[0]] + s[1..];
      [s[0]] + Insert(x, s[1..])
  }

  lemma {:induction false} InsertSorted(x: Entry, s: seq<Entry>)
    requires NonIncreasing(s)
    ensures NonIncreasing(Insert(x, s))
  {
    if |s| > 0 && x.1 < s[0].1 {
      var rest := Insert(x, s[1..]);
      InsertSorted(x, s[1..]);
      forall e | e in rest ensures e.1 <= s[0].1 {
        assert e in multiset(rest);
        if e != x {
          assert e in s[1..];
        }
      }
    }
  }

  lemma {:induction false} InsertWithCount(x: Entry, s: seq<Entry>, c: real)
    requires NonIncreasing(s)
    ensures WithCount(Insert(x, s), c) == (if x.1 == c then [x] else []) + WithCount(s, c)
  {
    var r := Insert(x, s);
    if |s| == 0 || x.1 >= s[0].1 {
      assert r == [x] + s && r[0] == x && r[1..] == s;
    } else {
      var rest := Insert(x, s[1..]);
      assert r == [s[0]] + rest && r[0] == s[0] && r[1..] == rest;
      InsertWithCount(x, s[1..], c);
      var head := if s[0].1 == c then [s[0]] else [];
      var mine := if x.1 == c then [x] else [];
      assert WithCount(r, c) == head + WithCount(rest, c);
      assert WithCount(s, c) == head + WithCount(s[1..], c);
      assert WithCount(rest, c) == mine + WithCount(s[1..], c);
      assert head == [] || mine == [];
    }
  }

  /** Sorts by decreasing count; entries with equal counts keep their order,
      as in the stable sort behind `Counter.most_common`. */
  function SortByCount(s: seq<Entry>): (r: seq<Entry>)
    ensures multiset(r) == multiset(s)
    ensures NonIncreasing(r)
    ensures forall c :: WithCount(r, c) == WithCount(s, c)
  {
    if |s| == 0 then []
    else
      var rest := SortByCount(s[1..]);
      assert s == [s[0]] + s[1..];
      InsertSorted(s[0], rest);
      forall c ensures WithCount(Insert(s[0], rest), c) == WithCount(s, c) {
        InsertWithCount(s[0], rest, c);
      }
      Insert(s[0], rest)
  }

  /** `most_common(n)`: at most `n` entries of the table, the highest counts
      first; every entry left out counts no more than any returned one, and
      entries of equal count come in table order. */
  function MostCommon(t: Table, n: int): (r: seq<Entry>)
    ensures |r| == if n <= 0 then 0 else Min(n, |t|)
    ensures forall e :: e in r ==> e in t
    ensures NonIncreasing(r)
    ensures forall i, e :: 0 <= i < |r| && e in t && e !in r ==> e.1 <= r[i].1
    ensures forall c :: WithCount(r, c) <= WithCount(t, c)
  {
    var sorted := SortByCount(t);
    var r := Prefix(sorted, if n <= 0 then 0 else n);
    assert |sorted| == |multiset(sorted)| == |t|;
    RankedPrefix(t, sorted, |r|);
    r
  }

  lemma RankedPrefix(t: seq<Entry>, sorted: seq<Entry>, m: nat)
    requires m <= |sorted|
    requires multiset(sorted) == multiset(t)
    requires NonIncreasing(sorted)
    requires forall c :: WithCount(sorted, c) == WithCount(t, c)
    ensures forall e :: e in sorted[..m] ==> e in t
    ensures NonIncreasing(sorted[..m])
    ensures forall i, e :: 0 <= i < m && e in t && e !in sorted[..m] ==> e.1 <= sorted[i].1
    ensures forall c :: WithCount(sorted[..m], c) <= WithCount(t, c)
  {
    var r := sorted[..m];
    forall e | e in r ensures e in t {
      assert e in multiset(sorted);
    }
    forall i, e | 0 <= i < m && e in t && e !in r ensures e.1 <= sorted[i].1 {
      assert e in multiset(sorted);
      var j :| 0 <= j < |sorted| && sorted[j] == e;
    }
    forall c ensures WithCount(r, c) <= WithCount(t, c) {
      WithCountPrefix(sorted, m, c);
    }
  }

  /** The top entry of `most_common(1)` is the first entry, in table order,
      whose count is the largest. */
  lemma MostCommonTop(t: Table) returns (i: nat)
    requires |t| > 0
    ensures i < |t| && MostCommon(t, 1) == [t[i]]
    ensures forall j :: 0 <= j < |t| ==> t[j].1 <= t[i].1
    ensures forall j :: 0 <= j < i ==> t[j].1 < t[i].1
  {
    i := TopOfRanking(t, MostCommon(t, 1));
  }

  /** A one-entry ranking of `t` that nothing left out outranks, and that
      keeps ties in table order, holds the first entry of largest count. */
  lemma TopOfRanking(t: Table, r: seq<Entry>) returns (i: nat)
    requires |t| > 0 && |r| == 1
    requires forall e :: e in r ==> e in t
    requires forall k, e :: 0 <= k < |r| && e in t && e !in r ==> e.1 <= r[k].1
    requires forall c :: WithCount(r, c) <= WithCount(t, c)
    ensures i < |t| && r == [t[i]]
    ensures forall j :: 0 <= j < |t| ==> t[j].1 <= t[i].1
    ensures forall j :: 0 <= j < i ==> t[j].1 < t[i].1
  {
    var top := r[0];
    assert top in r;
    var m :| 0 <= m < |t| && t[m] == top;
    forall j | 0 <= j < |t| ensures t[j].1 <= top.1 {
      if t[j] != top {
        assert t[j] !in r;
      }
    }
    i := FirstWithCount(t, top.1, m);
    WithCountHead(t, i);
    assert WithCount(r, top.1) == [top] by {
      assert r == [top];
      assert r[1..] == [];
    }
    assert WithCount(r, top.1) <= WithCount(t, top.1);
  }

  /** The first index whose count is `c`, given one at index `i`. */
  lemma FirstWithCount(t: seq<Entry>, c: real, i: nat) returns (k: nat)
    requires i < |t| && t[i].1 == c
    ensures k <= i && t[k].1 == c
    ensures forall j :: 0 <= j < k ==> t[j].1 != c
  {
    k := 0;
    while t[k].1 != c
      invariant k <= i
      invariant forall j :: 0 <= j < k ==> t[j].1 != c
      decreases i - k
    {
      k := k + 1;
    }
  }

  /** Dividing by a positive number keeps the order of two counts. */
  lemma DivideMonotone(a: real, b: real, d: real)
    requires d > 0.0
    ensures a <= b <==> a / d <= b / d
    ensures a < b <==> a / d < b / d
  {
    var x, y := a / d, b / d;
    assert x * d == a && y * d == b;
    if x <= y {
      assert x * d <= y * d;
    }
    if x < y {
      assert x * d < y * d;
    }
  }

  /** Ranking does not change when every count is divided by the same
      positive number: the top entry of the shares is the top entry of the
      counts, divided. */
  lemma MostCommonScaled(t: Table, s: Table, d: real)
    requires |t| > 0 && d > 0.0 && |s| == |t|
    requires forall i :: 0 <= i < |t| ==> s[i] == (t[i].0, t[i].1 / d)
    ensures MostCommon(s, 1) == [(MostCommon(t, 1)[0].0, MostCommon(t, 1)[0].1 / d)]
  {
    var i := MostCommonTop(t);
    var k := MostCommonTop(s);
    DivideMonotone(t[k].1, t[i].1, d);
    assert i == k;
  }

  lemma {:induction false} PositiveTotal(t: seq<Entry>)
    requires Positive(t) && |t| > 0
    ensures Total(t) > 0.0
  {
    TotalCons(t[0], t[1..]);
    assert [t[0]] + t[1..] == t;
    if |t| > 1 {
      PositiveTotal(t[1..]);
    } else {
      assert Total(t[1..]) == 0.0;
    }
  }

  /** No single count exceeds the sum of non-negative counts. */
  lemma {:induction false} EntryAtMostTotal(t: seq<Entry>, i: nat)
    requires NonNegative(t) && i < |t|
    ensures t[i].1 <= Total(t)
  {
    TotalCons(t[0], t[1..]);
    assert [t[0]] + t[1..] == t;
    NonNegativeTotal(t[1..]);
    if i > 0 {
      EntryAtMostTotal(t[1..], i - 1);
    }
  }

  lemma {:induction false} NonNegativeTotal(t: seq<Entry>)
    requires NonNegative(t)
    ensures Total(t) >= 0.0
  {
    if |t| > 0 {
      TotalCons(t[0], t[1..]);
      assert [t[0]] + t[1..] == t;
      NonNegativeTotal(t[1..]);
    }
  }

  /** The first entry of the normalised table, by count, is the first entry
      of the table with its share of the total. */
  lemma NormalizedTop(t: Table)
    requires Positive(t) && |t| > 0
    ensures Normalized(t).Ok?
    ensures MostCommon(Normalized(t).value, 1) == [(MostCommon(t, 1)[0].0, MostCommon(t, 1)[0].1 / Total(t))]
  {
    PositiveTotal(t);
    var shares := Normalized(t).value;
    assert |Keys(shares)| == |Keys(t)|;
    MostCommonScaled(t, shares, Total(t));
  }

  /** The share of any entry of a table with positive counts lies in (0, 1]. */
  lemma TopShare(t: Table, i: nat)
    requires Positive(t) && i < |t|
    ensures Total(t) > 0.0
    ensures 0.0 < t[i].1 / Total(t) <= 1.0
  {
    var total := Total(t);
    PositiveTotal(t);
    EntryAtMostTotal(t, i);
    DivideMonotone(t[i].1, total, total);
    DivideMonotone(0.0, t[i].1, total);
    DivideSelf(total);
  }

  lemma DivideSelf(d: real)
    requires d != 0.0
    ensures d / d == 1.0
  {
  }

  // ---------------------------------------------------------------------
  // Merge: Counter addition

  /** `x` if it is positive, else 0: what Counter addition keeps of a sum. */
  function PositivePart(x: real): real
  {
    if x > 0.0 then x else 0.0
  }

  lemma KeyInTail(t: Table, k: string)
    requires |t| > 0 && k in Keys(t[1..])
    ensures k in Keys(t) && k != t[0].0
  {
    KeysTail(t);
  }

  lemma KeysConsMember(e: Entry, rest: seq<Entry>, k: string)
    ensures k in Keys([e] + rest) <==> k == e.0 || k in Keys(rest)
  {
    KeysCons(e, rest);
  }

  /** Prepending an entry with a fresh key keeps the keys distinct. */
  lemma ConsUnique(e: Entry, rest: Table)
    requires e.0 !in Keys(rest)
    ensures UniqueKeys([e] + rest)
  {
    var r := [e] + rest;
    forall j | 0 < j < |r| ensures r[j].0 != e.0 {
      assert r[j].0 == Keys(rest)[j - 1];
    }
  }

  /** The first loop of `Counter.__add__`: every key of `a`, in `a`'s order,
      with its summed count, when that sum is positive. */
  function AddLeft(a: Table, b: Table): (r: Table)
    ensures forall k :: k in Keys(r) ==> k in Keys(a)
  {
    if |a| == 0 then []
    else
      var sum := a[0].1 + Lookup(b, a[0].0);
      var rest := AddLeft(a[1..], b);
      if sum > 0.0 then
        assert a[0].0 !in Keys(rest) by {
          if a[0].0 in Keys(rest) {
            KeyInTail(a, a[0].0);
          }
        }
        ConsUnique((a[0].0, sum), rest);
        AddLeftCons(a, b, rest, sum);
        [(a[0].0, sum)] + rest
      else
        assert forall k :: k in Keys(rest) ==> k in Keys(a) by {
          forall k | k in Keys(rest) ensures k in Keys(a) {
            KeyInTail(a, k);
          }
        }
        rest
  }

  lemma AddLeftCons(a: Table, b: Table, rest: Table, sum: real)
    requires |a| > 0 && forall k :: k in Keys(rest) ==> k in Keys(a[1..])
    ensures forall k :: k in Keys([(a[0].0, sum)] + rest) ==> k in Keys(a)
  {
    forall k | k in Keys([(a[0].0, sum)] + rest) ensures k in Keys(a) {
      KeysConsMember((a[0].0, sum), rest, k);
      if k != a[0].0 {
        KeyInTail(a, k);
      }
    }
  }

  lemma {:induction false} AddLeftFacts(a: Table, b: Table, k: string)
    ensures k in Keys(AddLeft(a, b)) <==> k in Keys(a) && Lookup(a, k) + Lookup(b, k) > 0.0
    ensures k in Keys(AddLeft(a, b)) ==> Lookup(AddLeft(a, b), k) == Lookup(a, k) + Lookup(b, k)
  {
    if |a| > 0 {
      var sum := a[0].1 + Lookup(b, a[0].0);
      var rest := AddLeft(a[1..], b);
      AddLeftFacts(a[1..], b, k);
      KeysTail(a);
      if k != a[0].0 {
        assert Lookup(a, k) == Lookup(a[1..], k);
      }
      if sum > 0.0 {
        KeysConsMember((a[0].0, sum), rest, k);
      } else if k == a[0].0 {
        assert k !in Keys(rest) by {
          if k in Keys(rest) { KeyInTail(a, k); }
        }
      }
    }
  }

  lemma {:induction false} AddLeftPositive(a: Table, b: Table)
    ensures Positive(AddLeft(a, b))
    ensures Subsequence(Keys(AddLeft(a, b)), Keys(a))
  {
    if |a| > 0 {
      AddLeftPositive(a[1..], b);
      var sum := a[0].1 + Lookup(b, a[0].0);
      var rest := AddLeft(a[1..], b);
      KeysTail(a);
      if sum > 0.0 {
        KeysCons((a[0].0, sum), rest);
      }
    }
  }

  /** The second loop of `Counter.__add__`: the keys of `b` absent from `a`,
      in `b`'s order, when their count is positive. */
  function AddRight(b: Table, a: Table): (r: Table)
    ensures forall k :: k in Keys(r) ==> k in Keys(b) && k !in Keys(a)
  {
    if |b| == 0 then []
    else
      var rest := AddRight(b[1..], a);
      assert forall k :: k in Keys(rest) ==> k in Keys(b) && k != b[0].0 by {
        forall k | k in Keys(rest) ensures k in Keys(b) && k != b[0].0 {
          KeyInTail(b, k);
        }
      }
      if b[0].0 !in Keys(a) && b[0].1 > 0.0 then
        ConsUnique(b[0], rest);
        assert forall k :: k in Keys([b[0]] + rest) ==> k in Keys(b) && k !in Keys(a) by {
          forall k | k in Keys([b[0]] + rest) ensures k in Keys(b) && k !in Keys(a) {
            KeysConsMember(b[0], rest, k);
          }
        }
        [b[0]] + rest
      else
        rest
  }

  lemma {:induction false} AddRightFacts(b: Table, a: Table, k: string)
    ensures k in Keys(AddRight(b, a)) <==> k in Keys(b) && k !in Keys(a) && Lookup(b, k) > 0.0
    ensures k in Keys(AddRight(b, a)) ==> Lookup(AddRight(b, a), k) == Lookup(b, k)
  {
    if |b| > 0 {
      var rest := AddRight(b[1..], a);
      AddRightFacts(b[1..], a, k);
      KeysTail(b);
      if k != b[0].0 {
        assert Lookup(b, k) == Lookup(b[1..], k);
      }
      if b[0].0 !in Keys(a) && b[0].1 > 0.0 {
        KeysConsMember(b[0], rest, k);
      } else if k == b[0].0 {
        assert k !in Keys(rest) by {
          if k in Keys(rest) { KeyInTail(b, k); }
        }
      }
    }
  }

  lemma {:induction false} AddRightPositive(b: Table, a: Table)
    ensures Positive(AddRight(b, a))
    ensures Subsequence(Keys(AddRight(b, a)), Keys(b))
  {
    if |b| > 0 {
      AddRightPositive(b[1..], a);
      var rest := AddRight(b[1..], a);
      KeysTail(b);
      if b[0].0 !in Keys(a) && b[0].1 > 0.0 {
        KeysCons(b[0], rest);
      }
    }
  }

  lemma AppendUnique(x: Table, y: Table)
    requires forall k :: k in Keys(x) ==> k !in Keys(y)
    ensures UniqueKeys(x + y)
  {
    forall i, j | 0 <= i < j < |x + y| ensures (x + y)[i].0 != (x + y)[j].0 {
      if i < |x| && j >= |x| {
        assert Keys(x)[i] == x[i].0 && Keys(y)[j - |x|] == y[j - |x|].0;
        assert Keys(x)[i] in Keys(x) && Keys(y)[j - |x|] in Keys(y);
        assert (x + y)[i] == x[i] && (x + y)[j] == y[j - |x|];
      } else if i < |x| {
        assert (x + y)[i] == x[i] && (x + y)[j] == x[j];
      } else {
        assert (x + y)[i] == y[i - |x|] && (x + y)[j] == y[j - |x|];
      }
    }
  }

  /** `self.__ngram_freq + other.__ngram_freq` (`__add__`): each key gets the
      sum of its two counts, and keys whose sum is not positive are dropped.
      Keys of the left operand come first, in its order, then the keys found
      only in the right operand, in its order. */
  function Merge(a: Table, b: Table): (r: Table)
    ensures forall k :: Lookup(r, k) == PositivePart(Lookup(a, k) + Lookup(b, k))
    ensures forall k :: k in Keys(r) <==> Lookup(a, k) + Lookup(b, k) > 0.0
    ensures Positive(r)
  {
    var left := AddLeft(a, b);
    var right := AddRight(b, a);
    AppendUnique(left, right);
    MergeShape(a, b, left, right);
    forall k ensures Lookup(left + right, k) == PositivePart(Lookup(a, k) + Lookup(b, k))
      && (k in Keys(left + right) <==> Lookup(a, k) + Lookup(b, k) > 0.0)
    {
      MergeKey(a, b, left, right, k);
    }
    left + right
  }

  /** The merged keys come in the operands' order: those of `a` first, in
      `a`'s order, then the remaining ones of `b`, in `b`'s order. */
  lemma MergeKeyOrder(a: Table, b: Table)
    ensures Subsequence(Keys(Merge(a, b)), Keys(a) + Keys(b))
    ensures var r := Merge(a, b);
      forall i, j :: 0 <= i < j < |r| && r[j].0 in Keys(a) ==> r[i].0 in Keys(a)
    ensures var r := Merge(a, b);
      exists m :: 0 <= m <= |r| && Subsequence(Keys(r[..m]), Keys(a)) && Subsequence(Keys(r[m..]), Keys(b))
        && forall i :: 0 <= i < |r| ==> (i < m <==> r[i].0 in Keys(a))
  {
    var left, right := MergePasses(a, b);
    MergeShape(a, b, left, right);
    MergeBlocks(a, b, left, right);
  }

  lemma MergeBlocks(a: Table, b: Table, left: Table, right: Table)
    requires left == AddLeft(a, b) && right == AddRight(b, a) && UniqueKeys(left + right)
    ensures var r: Table := left + right;
      exists m :: 0 <= m <= |r| && Subsequence(Keys(r[..m]), Keys(a)) && Subsequence(Keys(r[m..]), Keys(b))
        && forall i :: 0 <= i < |r| ==> (i < m <==> r[i].0 in Keys(a))
  {
    AddLeftPositive(a, b);
    AddRightPositive(b, a);
    TwoBlocks(Keys(a), Keys(b), left, right);
  }

  /** The merge is the first pass of `__add__` followed by the second. */
  lemma MergePasses(a: Table, b: Table) returns (left: Table, right: Table)
    ensures left == AddLeft(a, b) && right == AddRight(b, a)
    ensures Merge(a, b) == left + right
  {
    left, right := AddLeft(a, b), AddRight(b, a);
  }

  /** A table made of a block whose keys are all in `ka`, in its order, and
      a block whose keys are none of them, in `kb`'s order. */
  lemma TwoBlocks(ka: seq<string>, kb: seq<string>, left: Table, right: Table)
    requires Subsequence(Keys(left), ka) && Subsequence(Keys(right), kb)
    requires forall k :: k in Keys(left) ==> k in ka
    requires forall k :: k in Keys(right) ==> k !in ka
    requires UniqueKeys(left + right)
    ensures var r: Table := left + right;
      exists m :: 0 <= m <= |r| && Subsequence(Keys(r[..m]), ka) && Subsequence(Keys(r[m..]), kb)
        && forall i :: 0 <= i < |r| ==> (i < m <==> r[i].0 in ka)
  {
    var r: Table := left + right;
    var m := |left|;
    assert r[..m] == left && r[m..] == right;
    forall i | 0 <= i < |r| ensures i < m <==> r[i].0 in ka {
      if i < m {
        assert r[i] == left[i] && Keys(left)[i] == r[i].0;
      } else {
        assert r[i] == right[i - m] && Keys(right)[i - m] == r[i].0;
      }
    }
  }

  lemma MergeKey(a: Table, b: Table, left: Table, right: Table, k: string)
    requires left == AddLeft(a, b) && right == AddRight(b, a) && UniqueKeys(left + right)
    ensures Lookup(left + right, k) == PositivePart(Lookup(a, k) + Lookup(b, k))
    ensures k in Keys(left + right) <==> Lookup(a, k) + Lookup(b, k) > 0.0
  {
    AddLeftFacts(a, b, k);
    AddRightFacts(b, a, k);
    MergeKeyIn(a, b, left, right, k);
    MergeKeyLookup(a, b, left, right, k);
    LookupAppend(left, right, k);
  }

  /** The count of `k` in the merge, from what each loop of `__add__` stored. */
  lemma MergeKeyLookup(a: Table, b: Table, left: Table, right: Table, k: string)
    requires k in Keys(left) <==> k in Keys(a) && Lookup(a, k) + Lookup(b, k) > 0.0
    requires k in Keys(left) ==> Lookup(left, k) == Lookup(a, k) + Lookup(b, k)
    requires k in Keys(right) <==> k in Keys(b) && k !in Keys(a) && Lookup(b, k) > 0.0
    requires k in Keys(right) ==> Lookup(right, k) == Lookup(b, k)
    ensures (if k in Keys(left) then Lookup(left, k) else Lookup(right, k)) == PositivePart(Lookup(a, k) + Lookup(b, k))
  {
  }

  lemma MergeKeyIn(a: Table, b: Table, left: Table, right: Table, k: string)
    requires k in Keys(left) <==> k in Keys(a) && Lookup(a, k) + Lookup(b, k) > 0.0
    requires k in Keys(right) <==> k in Keys(b) && k !in Keys(a) && Lookup(b, k) > 0.0
    ensures k in Keys(left + right) <==> Lookup(a, k) + Lookup(b, k) > 0.0
  {
    KeysAppend(left, right);
    if k !in Keys(a) {
      assert Lookup(a, k) == 0.0;
      if k !in Keys(b) {
        assert Lookup(b, k) == 0.0;
      }
    }
  }

  lemma MergeShape(a: Table, b: Table, left: Table, right: Table)
    requires left == AddLeft(a, b) && right == AddRight(b, a)
    ensures Positive(left + right)
    ensures Subsequence(Keys(left + right), Keys(a) + Keys(b))
    ensures forall i, j :: 0 <= i < j < |left + right| && (left + right)[j].0 in Keys(a) ==> (left + right)[i].0 in Keys(a)
  {
    var r := left + right;
    KeysAppend(left, right);
    AddLeftPositive(a, b);
    AddRightPositive(b, a);
    SubsequenceAppend(Keys(left), Keys(right), Keys(a), Keys(b));
    forall i, j | 0 <= i < j < |r| && r[j].0 in Keys(a) ensures r[i].0 in Keys(a) {
      assert r[i] == left[i];
      assert Keys(left)[i] == r[i].0;
      assert Keys(left)[i] in Keys(left);
    }
  }

  /** Counter addition counts do not depend on the operand order. */
  lemma MergeCountsCommute(a: Table, b: Table, k: string)
    ensures Lookup(Merge(a, b), k) == Lookup(Merge(b, a), k)
  {
  }

  /** Count conservation: over non-negative counts merging adds the counts,
      including those of ngrams absent from one side. */
  lemma MergeAddsCounts(a: Table, b: Table, k: string)
    requires NonNegative(a) && NonNegative(b)
    ensures Lookup(Merge(a, b), k) == Lookup(a, k) + Lookup(b, k)
  {
    LookupNonNegative(a, k);
    LookupNonNegative(b, k);
  }

  /** Over non-negative counts merging is associative, count by count. */
  lemma MergeAssociative(a: Table, b: Table, c: Table, k: string)
    requires NonNegative(a) && NonNegative(b) && NonNegative(c)
    ensures Lookup(Merge(Merge(a, b), c), k) == Lookup(Merge(a, Merge(b, c)), k)
  {
    MergeAddsCounts(a, b, k);
    MergeAddsCounts(b, c, k);
    MergeAddsCounts(Merge(a, b), c, k);
    MergeAddsCounts(a, Merge(b, c), k);
  }

  /** With a negative count, dropping non-positive sums breaks associativity:
      (-2 + 1) + 2 keeps 2, while -2 + (1 + 2) keeps 1. */
  lemma MergeNotAssociativeWithNegatives()
    ensures var a: Table, b: Table, c: Table := [("x", -2.0)], [("x", 1.0)], [("x", 2.0)];
      Lookup(Merge(Merge(a, b), c), "x") == 2.0 && Lookup(Merge(a, Merge(b, c)), "x") == 1.0
  {
    var a: Table, b: Table, c: Table := [("x", -2.0)], [("x", 1.0)], [("x", 2.0)];
    assert Lookup(a, "x") == -2.0 && Lookup(b, "x") == 1.0 && Lookup(c, "x") == 2.0;
    assert Lookup(Merge(a, b), "x") == 0.0;
    assert Lookup(Merge(b, c), "x") == 3.0;
  }

  /** Adding the empty Counter to one with positive counts changes nothing,
      order included. */
  lemma {:induction false} MergeEmptyRight(t: Table)
    requires Positive(t)
    ensures Merge(t, []) == t
  {
    AddLeftEmpty(t);
    assert AddRight([], t) == [];
    assert t + [] == t;
  }

  /** Adding one with positive counts to the empty Counter gives it back,
      order included. */
  lemma MergeEmptyLeft(t: Table)
    requires Positive(t)
    ensures Merge([], t) == t
  {
    AddRightEmpty(t);
    assert AddLeft([], t) == [];
    assert [] + t == t;
  }

  lemma {:induction false} AddRightEmpty(t: Table)
    requires Positive(t)
    ensures AddRight(t, []) == t
  {
    if |t| > 0 {
      AddRightEmpty(t[1..]);
      assert t == [t[0]] + t[1..];
    }
  }

  lemma {:induction false} AddLeftEmpty(t: Table)
    requires Positive(t)
    ensures AddLeft(t, []) == t
  {
    if |t| > 0 {
      AddLeftEmpty(t[1..]);
      assert t == [(t[0].0, t[0].1)] + t[1..];
    }
  }

  /** The counts of `t` at the keys `ks`, summed. */
  function SumAt(t: Table, ks: seq<string>): real
  {
    if |ks| == 0 then 0.0 else Lookup(t, ks[0]) + SumAt(t, ks[1..])
  }

  lemma {:induction false} SumAtMerge(a: Table, b: Table, ks: seq<string>)
    requires NonNegative(a) && NonNegative(b)
    ensures SumAt(Merge(a, b), ks) == SumAt(a, ks) + SumAt(b, ks)
  {
    if |ks| > 0 {
      SumAtMerge(a, b, ks[1..]);
      MergeAddsCounts(a, b, ks[0]);
    }
  }

  lemma {:induction false} SumAtCons(t: Table, ks: seq<string>)
    requires |t| > 0 && Distinct(ks)
    ensures SumAt(t, ks) == SumAt(t[1..], ks) + (if t[0].0 in ks then t[0].1 else 0.0)
  {
    if |ks| > 0 {
      SumAtCons(t, ks[1..]);
      KeysTail(t);
      if ks[0] == t[0].0 {
        assert t[0].0 !in Keys(t[1..]);
        assert t[0].0 !in ks[1..];
      } else {
        assert Lookup(t, ks[0]) == Lookup(t[1..], ks[0]);
      }
    }
  }

  /** Summing the counts at a list of distinct keys gives the total, as long
      as every key left out of the list has count 0. */
  lemma {:induction false} SumAtTotal(t: Table, ks: seq<string>)
    requires Distinct(ks)
    requires forall i :: 0 <= i < |t| && t[i].0 !in ks ==> t[i].1 == 0.0
    ensures SumAt(t, ks) == Total(t)
  {
    if |t| == 0 {
      SumAtEmpty(t, ks);
    } else {
      SumAtCons(t, ks);
      SumAtTotal(t[1..], ks);
      TotalCons(t[0], t[1..]);
      assert [t[0]] + t[1..] == t;
    }
  }

  lemma {:induction false} SumAtEmpty(t: Table, ks: seq<string>)
    requires |t| == 0
    ensures SumAt(t, ks) == 0.0
  {
    if |ks| > 0 {
      SumAtEmpty(t, ks[1..]);
    }
  }

  /** Over non-negative counts the merged total is the sum of the totals:
      `sum((a + b).values()) == sum(a.values()) + sum(b.values())`. */
  lemma MergeTotal(a: Table, b: Table)
    requires NonNegative(a) && NonNegative(b)
    ensures Total(Merge(a, b)) == Total(a) + Total(b)
  {
    var r := Merge(a, b);
    var ks := Keys(r);
    forall i | 0 <= i < |a| && a[i].0 !in ks ensures a[i].1 == 0.0 {
      LookupAt(a, i);
      LookupNonNegative(b, a[i].0);
    }
    forall i | 0 <= i < |b| && b[i].0 !in ks ensures b[i].1 == 0.0 {
      LookupAt(b, i);
      LookupNonNegative(a, b[i].0);
    }
    SumAtTotal(r, ks);
    SumAtTotal(a, ks);
    SumAtTotal(b, ks);
    SumAtMerge(a, b, ks);
  }

  // ---------------------------------------------------------------------
  // Construction

  /** The `frequency` argument, by its Python type: a dict, a Counter, or
      anything else (with its truth value). */
  datatype FrequencyArg = DictArg(dict: Table) | CounterArg(counter: Table) | OtherArg(truthy: bool)

  /** The `corpus` argument of `from_corpus`: a list of documents or anything else. */
  datatype CorpusArg = ListCorpus(documents: seq<string>) | OtherCorpus

  function Truthy(frequency: FrequencyArg): bool
  {
    match frequency
    case DictArg(d) => d != []
    case CounterArg(c) => c != []
    case OtherArg(b) => b
  }

  /** `NGramFrequenzy(corpus, frequency, **kwargs)`, with `extract` standing
      for the vectorizer configured by `kwargs`. A non-empty corpus wins; else
      a non-empty dict or Counter is copied (a Counter is a dict, so it takes
      the dict branch); any other truthy frequency raises ValueError; with
      neither the table is empty. */
  function Create(corpus: seq<string>, frequency: FrequencyArg, extract: Extractor): (r: Result<Table>)
    ensures |corpus| > 0 ==> r == Ok(extract(corpus))
    ensures r.Err? <==> |corpus| == 0 && frequency.OtherArg? && frequency.truthy
    ensures r.Err? ==> r.error == InvalidFrequency
    ensures |corpus| == 0 && frequency.DictArg? ==> r == Ok(frequency.dict)
    ensures |corpus| == 0 && frequency.CounterArg? ==> r == Ok(frequency.counter)
    ensures |corpus| == 0 && !Truthy(frequency) ==> r == Ok([])
  {
    if |corpus| > 0 then Ok(extract(corpus))
    else if Truthy(frequency) then
      match frequency
      case DictArg(d) => Ok(d)
      case CounterArg(c) => Ok(c)
      case OtherArg(_) => Err(InvalidFrequency)
    else Ok([])
  }

  /** The table of a non-empty corpus, or the empty table for an empty one:
      `NGramFrequenzy(corpus=corpus, **kwargs)` with the default frequency. */
  function FromCorpusDefault(corpus: seq<string>, extract: Extractor): (t: Table)
    ensures Create(corpus, DictArg([]), extract) == Ok(t)
    ensures Positive(t)
  {
    if |corpus| > 0 then extract(corpus) else []
  }

  /** `NGramFrequenzy.from_corpus(corpus, **kwargs)`: ValueError unless the
      corpus is a list; else the vectorizer's counts. */
  function FromCorpus(corpus: CorpusArg, extract: Extractor): (r: Result<Table>)
    ensures corpus.OtherCorpus? ==> r == Err(InvalidCorpus)
    ensures corpus.ListCorpus? ==> r == Ok(extract(corpus.documents))
  {
    match corpus
    case ListCorpus(docs) => Create([], DictArg(extract(docs)), extract)
    case OtherCorpus => Err(InvalidCorpus)
  }

  /** `NGramFrequenzy.from_frequency(frequency)`: ValueError unless the
      argument is a dict or a Counter, even a falsy one; else a copy. */
  function FromFrequency(frequency: FrequencyArg): (r: Result<Table>)
    ensures frequency.OtherArg? ==> r == Err(InvalidFrequency)
    ensures frequency.DictArg? ==> r == Ok(frequency.dict)
    ensures frequency.CounterArg? ==> r == Ok(frequency.counter)
  {
    match frequency
    case DictArg(_) => Create([], frequency, _ => [])
    case CounterArg(_) => Create([], frequency, _ => [])
    case OtherArg(_) => Err(InvalidFrequency)
  }

  // ---------------------------------------------------------------------
  // Subscripting

  /** The value inside `table[...]`, by its Python type. */
  datatype Subscript = StrKey(key: string) | ListKey(words: seq<string>) | OtherKey

  /** What `table[...]` yields: a count, or a sub-table. */
  datatype Item = Count(count: real) | Found(table: Table)

  /** `__getitem__`: a string is an exact lookup (0 when absent), a list is a
      prefix search without normalisation, anything else raises ValueError. */
  function GetItem(t: Table, val: Subscript): (r: Result<Item>)
    ensures val.StrKey? ==> r.Ok? && r.value.Count?
    ensures val.StrKey? && val.key !in Keys(t) ==> r == Ok(Count(0.0))
    ensures val.StrKey? ==> forall i :: 0 <= i < |t| && t[i].0 == val.key ==> r == Ok(Count(t[i].1))
    ensures val.ListKey? ==> r.Ok? && r.value.Found?
    ensures val.ListKey? ==> SearchNGrams(t, Words(val.words), false) == Ok(r.value.table)
    ensures val.OtherKey? ==> r == Err(InvalidSubscript)
  {
    match val
    case StrKey(key) =>
      LookupAll(t);
      Ok(Count(Lookup(t, key)))
    case ListKey(words) =>
      var found := SearchNGrams(t, Words(words), false);
      Ok(Found(found.value))
    case OtherKey => Err(InvalidSubscript)
  }
}
