/** `BaseStatisticalModel` and `RecursiveNextWord`: one count table per
    n-gram order, and the next-word prediction that backs off from the
    highest order to lower ones. */
module StatisticalModels {
  import opened Wrappers
  import opened Tokens
  import opened NGram

  /** `model_frequencies`: n-gram order -> table of that order. */
  type Frequencies = map<int, Table>

  /** The vectorizer for order `n`: `CountVectorizer(ngram_range=(n, n))`. */
  type Vectorizer = int -> Extractor

  /** The orders `1..n`. */
  function Orders(n: int): (s: set<int>)
    ensures forall k :: k in s <==> 1 <= k <= n
    decreases n
  {
    if n <= 0 then {} else Orders(n - 1) + {n}
  }

  lemma {:induction false} OrdersSize(n: nat)
    ensures |Orders(n)| == n
  {
    if n > 0 {
      OrdersSize(n - 1);
    }
  }

  // ---------------------------------------------------------------------
  // Building and merging the per-order tables

  /** The dict built by `_generate_freq`: for every order `n` in
      `range(1, n_max + 1)` the table `NGramFrequenzy(corpus=corpus,
      ngram_range=(n, n))`, and no other order. */
  function GeneratedFrequencies(corpus: seq<string>, nMax: int, vectorizer: Vectorizer): (f: Frequencies)
    ensures f.Keys == Orders(nMax)
    ensures forall n :: n in f ==> Create(corpus, DictArg([]), vectorizer(n)) == Ok(f[n])
    ensures forall n :: n in f ==> Positive(f[n])
  {
    map n | 1 <= n <= nMax :: FromCorpusDefault(corpus, vectorizer(n))
  }

  /** `model_frequencies.get(n, NGramFrequenzy())`. */
  function Get(f: Frequencies, n: int): (t: Table)
    ensures n !in f ==> t == []
    ensures n in f ==> t == f[n]
  {
    if n in f then f[n] else []
  }

  /** The dict built by `BaseStatisticalModel.__add__`: orders from 1 to the
      larger of the two NUMBERS of orders, each the merge of both sides'
      tables, a missing side counting as the empty table. */
  function MergeFrequencies(left: Frequencies, right: Frequencies): (f: Frequencies)
    ensures f.Keys == Orders(Max(|left|, |right|))
    ensures forall n :: n in f ==> f[n] == Merge(Get(left, n), Get(right, n))
  {
    map n | 1 <= n <= Max(|left|, |right|) :: Merge(Get(left, n), Get(right, n))
  }

  /** Merging two fitted models: orders `1..max(a, b)`, at each order the sum
      of both sides' counts, one side missing counting as zero. */
  lemma MergeFittedFrequencies(left: Frequencies, right: Frequencies, a: nat, b: nat, n: int, k: string)
    requires left.Keys == Orders(a) && right.Keys == Orders(b)
    requires forall m :: m in left ==> NonNegative(left[m])
    requires forall m :: m in right ==> NonNegative(right[m])
    ensures MergeFrequencies(left, right).Keys == Orders(Max(a, b))
    ensures 1 <= n <= Max(a, b) ==>
      Lookup(MergeFrequencies(left, right)[n], k) == Lookup(Get(left, n), k) + Lookup(Get(right, n), k)
  {
    OrdersSize(a);
    OrdersSize(b);
    if 1 <= n <= Max(a, b) {
      MergeAddsCounts(Get(left, n), Get(right, n), k);
    }
  }

  /** An order present on one side only is carried through unchanged,
      whichever side holds it. */
  lemma MergeKeepsOneSidedOrder(left: Frequencies, right: Frequencies, n: int)
    ensures 1 <= n <= |left| && n in left && n !in right && Positive(left[n]) ==>
      MergeFrequencies(left, right)[n] == left[n]
    ensures 1 <= n <= |right| && n in right && n !in left && Positive(right[n]) ==>
      MergeFrequencies(left, right)[n] == right[n]
  {
    if n in left && Positive(left[n]) {
      MergeEmptyRight(left[n]);
    }
    if n in right && Positive(right[n]) {
      MergeEmptyLeft(right[n]);
    }
  }

  /** The number of orders, not the highest order, bounds the merge: of
      orders {1, 3} only order 1 survives, and an empty order 2 appears. */
  lemma MergeCountsOrders(t: Table)
    ensures MergeFrequencies(map[1 := t, 3 := t], map[]).Keys == {1, 2}
  {
    var left := map[1 := t, 3 := t];
    assert left.Keys == {1, 3};
    assert |left| == 2;
    assert Orders(2) == {1, 2};
  }

  // ---------------------------------------------------------------------
  // The summary printed by `__repr__`

  /** Per order: `len(freq.keys())` and `sum(freq.values())`. */
  datatype OrderSummary = OrderSummary(count: nat, freq: real)

  /** `__repr__` without its text layout: `n_max` and either "not fitted"
      or the per-order statistics. */
  datatype Report = Unfitted(nMax: int) | FittedReport(nMax: int, orders: map<int, OrderSummary>)

  /** The summary of a model: "not fitted" exactly when `model_frequencies`
      is None or empty; otherwise one line per order with its number of
      distinct ngrams and the sum of their counts. */
  function Summarize(nMax: int, frequencies: Option<Frequencies>): (r: Report)
    ensures r.nMax == nMax
    ensures r.Unfitted? <==> frequencies.None? || frequencies.value == map[]
    ensures r.FittedReport? ==> r.orders.Keys == frequencies.value.Keys
    ensures r.FittedReport? ==> forall n :: n in r.orders ==>
      r.orders[n].count == |Keys(frequencies.value[n])| && r.orders[n].freq == Total(frequencies.value[n])
  {
    match frequencies
    case None => Unfitted(nMax)
    case Some(f) =>
      if f == map[] then Unfitted(nMax)
      else FittedReport(nMax, map n | n in f :: OrderSummary(|Keys(f[n])|, Total(f[n])))
  }

  /** After merging two fitted models, each order's summed count is the sum
      of the two sides' summed counts. */
  lemma SummaryOfMerge(left: Frequencies, right: Frequencies, n: int)
    requires forall m :: m in left ==> NonNegative(left[m])
    requires forall m :: m in right ==> NonNegative(right[m])
    requires 1 <= n <= Max(|left|, |right|)
    ensures Summarize(2, Some(MergeFrequencies(left, right))).FittedReport?
    ensures Summarize(2, Some(MergeFrequencies(left, right))).orders[n].freq
      == Total(Get(left, n)) + Total(Get(right, n))
  {
    var f := MergeFrequencies(left, right);
    var x, y := Get(left, n), Get(right, n);
    assert n in f && f[n] == Merge(x, y);
    assert NonNegative(x) && NonNegative(y);
    SummaryAt(f, x, y, n);
  }

  /** The summary line of an order holding a merge of two non-negative tables. */
  lemma SummaryAt(f: Frequencies, x: Table, y: Table, n: int)
    requires n in f && f[n] == Merge(x, y) && NonNegative(x) && NonNegative(y)
    ensures Summarize(2, Some(f)).FittedReport?
    ensures n in Summarize(2, Some(f)).orders && Summarize(2, Some(f)).orders[n].freq == Total(x) + Total(y)
  {
    MergeTotal(x, y);
  }

  // ---------------------------------------------------------------------
  // The back-off search

  /** `_recursive_search(parsed_query, n, top_n, **kwargs)`: search order `n`
      and return the top entry if there is one; otherwise drop the first
      query token and retry one order lower, with `top_n=1` and without
      normalisation, as long as that order exceeds 1; else the sentinel. */
  function RecursiveSearch(frequencies: Option<Frequencies>, query: seq<string>, n: int, topN: int, normalize: bool)
    : (r: Result<Option<Entry>>)
    ensures frequencies.None? ==> r == Err(NotFitted)
    ensures frequencies.Some? && n !in frequencies.value ==> r == Err(MissingOrder)
    ensures r.Err? ==> r.error == NotFitted || r.error == MissingOrder || (normalize && r.error == DivisionByZero)
    ensures !normalize && r.Ok? && r.value.Some? ==>
      exists k :: Floor(n) <= k <= n && k in frequencies.value && r.value.value in frequencies.value[k]
    decreases n
  {
    if frequencies.None? then Err(NotFitted)
    else if n !in frequencies.value then Err(MissingOrder)
    else
      SearchResult(frequencies.value[n], Words(query), normalize);
      match SearchNGrams(frequencies.value[n], Words(query), normalize)
      case Err(e) => Err(e)
      case Ok(found) =>
        var ranked := MostCommon(found, topN);
        if |ranked| > 0 then Ok(Some(ranked[0]))
        else if n - 1 > 1 then RecursiveSearch(frequencies, DropFirst(query), n - 1, 1, false)
        else Ok(None)
  }

  /** The lowest order a search started at order `n` consults. */
  function Floor(n: int): int
  {
    if n > 2 then 2 else n
  }

  /** The query as the search sees it `d` orders down: `d` leading tokens dropped. */
  function Shift(query: seq<string>, d: nat): (r: seq<string>)
    ensures |r| == Max(|query| - d, 0)
  {
    query[Min(d, |query|)..]
  }

  lemma ShiftDropFirst(query: seq<string>, d: nat)
    ensures Shift(DropFirst(query), d) == Shift(query, d + 1)
  {
  }

  /** Order `k` has an entry whose leading tokens are the query of a search
      started at order `n`. */
  predicate MatchAt(frequencies: Frequencies, query: seq<string>, n: int, k: int)
    requires k <= n
  {
    k in frequencies && Matching(frequencies[k], Shift(query, n - k)) != []
  }

  /** `k` is the highest order, from `n` down to `Floor(n)`, with a match. */
  predicate HighestMatch(frequencies: Frequencies, query: seq<string>, n: int, k: int)
  {
    && Floor(n) <= k <= n
    && MatchAt(frequencies, query, n, k)
    && forall j :: k < j <= n ==> !MatchAt(frequencies, query, n, j)
  }

  /** The first entry of order `k`'s matches, by count. */
  function TopAt(frequencies: Frequencies, query: seq<string>, n: int, k: int): Entry
    requires k <= n && MatchAt(frequencies, query, n, k)
  {
    var found := Matching(frequencies[k], Shift(query, n - k));
    MostCommon(found, 1)[0]
  }

  /** One step of the search without normalisation at an order that is present. */
  lemma SearchStep(frequencies: Frequencies, query: seq<string>, n: int)
    requires n in frequencies
    ensures var found := Matching(frequencies[n], query);
      RecursiveSearch(Some(frequencies), query, n, 1, false)
        == if found != [] then Ok(Some(MostCommon(found, 1)[0]))
           else if n - 1 > 1 then RecursiveSearch(Some(frequencies), DropFirst(query), n - 1, 1, false)
           else Ok(None)
  {
    SearchWithoutNormalize(frequencies[n], query);
  }

  /** The back-off search, stated without recursion: started at order `n`,
      it does not fail; it finds nothing exactly when no order from `n` down
      to `Floor(n)` has a match; and otherwise it returns the top entry of
      the HIGHEST order with a match. */
  ghost predicate BacksOff(frequencies: Frequencies, query: seq<string>, n: int)
  {
    var r := RecursiveSearch(Some(frequencies), query, n, 1, false);
    && r.Ok?
    && (r.value.None? <==> forall k :: Floor(n) <= k <= n ==> !MatchAt(frequencies, query, n, k))
    && (forall k :: HighestMatch(frequencies, query, n, k) ==> r == Ok(Some(TopAt(frequencies, query, n, k))))
  }

  /** On a model holding every order from `Floor(n)` to `n`, the search
      started at order `n` backs off as `BacksOff` says. */
  lemma {:induction false} Backoff(frequencies: Frequencies, query: seq<string>, n: int)
    requires forall k :: Floor(n) <= k <= n ==> k in frequencies
    ensures BacksOff(frequencies, query, n)
    decreases n
  {
    if MatchAt(frequencies, query, n, n) {
      BackoffFound(frequencies, query, n);
    } else if n - 1 > 1 {
      Backoff(frequencies, DropFirst(query), n - 1);
      BackoffLower(frequencies, query, n);
    } else {
      BackoffBottom(frequencies, query, n);
    }
  }

  /** A match at order `n` itself ends the search there. */
  lemma BackoffFound(frequencies: Frequencies, query: seq<string>, n: int)
    requires MatchAt(frequencies, query, n, n)
    ensures BacksOff(frequencies, query, n)
  {
    assert Shift(query, 0) == query;
    SearchStep(frequencies, query, n);
    assert Floor(n) <= n;
  }

  /** No match at order `n`, and no lower order left: the sentinel. */
  lemma BackoffBottom(frequencies: Frequencies, query: seq<string>, n: int)
    requires n in frequencies && !MatchAt(frequencies, query, n, n) && n <= 2
    ensures BacksOff(frequencies, query, n)
  {
    assert Shift(query, 0) == query;
    SearchStep(frequencies, query, n);
    assert Floor(n) == n;
  }

  /** No match at order `n > 2`: the search goes on one order lower with the
      first token dropped, and what holds there holds at order `n`. */
  lemma BackoffLower(frequencies: Frequencies, query: seq<string>, n: int)
    requires n in frequencies && !MatchAt(frequencies, query, n, n) && n > 2
    requires BacksOff(frequencies, DropFirst(query), n - 1)
    ensures BacksOff(frequencies, query, n)
  {
    var rest, m := DropFirst(query), n - 1;
    assert Shift(query, 0) == query;
    SearchStep(frequencies, query, n);
    assert Floor(m) == Floor(n);
    LowerNone(frequencies, query, n, rest, m);
    LowerHighest(frequencies, query, n);
  }

  /** No order from `n` down matches iff none from `n - 1` down matches the shortened query. */
  lemma LowerNone(frequencies: Frequencies, query: seq<string>, n: int, rest: seq<string>, m: int)
    requires !MatchAt(frequencies, query, n, n) && n > 2
    requires rest == DropFirst(query) && m == n - 1
    ensures (forall k :: Floor(n) <= k <= n ==> !MatchAt(frequencies, query, n, k))
      <==> (forall k :: Floor(m) <= k <= m ==> !MatchAt(frequencies, rest, m, k))
  {
    if forall k :: Floor(n) <= k <= n ==> !MatchAt(frequencies, query, n, k) {
      forall k | Floor(m) <= k <= m ensures !MatchAt(frequencies, rest, m, k) {
        LowerAt(frequencies, query, n, k);
      }
    } else {
      var k :| Floor(n) <= k <= n && MatchAt(frequencies, query, n, k);
      LowerAt(frequencies, query, n, k);
      assert MatchAt(frequencies, rest, m, k);
    }
  }

  /** The highest matching order is the same one order lower, and so is its top entry. */
  lemma LowerHighest(frequencies: Frequencies, query: seq<string>, n: int)
    requires !MatchAt(frequencies, query, n, n) && n > 2
    ensures forall k :: HighestMatch(frequencies, query, n, k) ==>
      && HighestMatch(frequencies, DropFirst(query), n - 1, k)
      && TopAt(frequencies, DropFirst(query), n - 1, k) == TopAt(frequencies, query, n, k)
  {
    var rest, m := DropFirst(query), n - 1;
    forall k | HighestMatch(frequencies, query, n, k)
      ensures HighestMatch(frequencies, rest, m, k) && TopAt(frequencies, rest, m, k) == TopAt(frequencies, query, n, k)
    {
      LowerAt(frequencies, query, n, k);
      forall j | k < j <= m ensures !MatchAt(frequencies, rest, m, j) {
        LowerAt(frequencies, query, n, j);
      }
    }
  }

  /** One order lower, with the first token dropped, order `k` sees the same query. */
  lemma LowerAt(frequencies: Frequencies, query: seq<string>, n: int, k: int)
    requires k <= n - 1
    ensures MatchAt(frequencies, DropFirst(query), n - 1, k) <==> MatchAt(frequencies, query, n, k)
    ensures MatchAt(frequencies, query, n, k) ==>
      TopAt(frequencies, DropFirst(query), n - 1, k) == TopAt(frequencies, query, n, k)
  {
    ShiftDropFirst(query, n - 1 - k);
  }

  /** Only the orders from `n` down to `Floor(n)` are ever consulted: in
      particular the unigram table is never read by a search started above
      order 1. */
  lemma {:induction false} SearchConsultsOnly(f: Frequencies, g: Frequencies, query: seq<string>, n: int, topN: int, normalize: bool)
    requires forall k :: Floor(n) <= k <= n ==> (k in f <==> k in g)
    requires forall k :: Floor(n) <= k <= n && k in f ==> f[k] == g[k]
    ensures RecursiveSearch(Some(f), query, n, topN, normalize) == RecursiveSearch(Some(g), query, n, topN, normalize)
    decreases n
  {
    if n in f && n - 1 > 1 {
      SearchConsultsOnly(f, g, DropFirst(query), n - 1, 1, false);
    }
  }

  /** Hence removing the unigram table changes no search started at order 2 or above. */
  lemma UnigramsNeverConsulted(f: Frequencies, query: seq<string>, n: int)
    requires n >= 2
    ensures RecursiveSearch(Some(f), query, n, 1, false) == RecursiveSearch(Some(f - {1}), query, n, 1, false)
  {
    SearchConsultsOnly(f, f - {1}, query, n, 1, false);
  }

  /** `predict_proba`'s search at an order with a match: the top ngram of
      that order with its share of the matching counts, which lies in (0, 1]. */
  lemma ProbaAtMatchingOrder(frequencies: Frequencies, query: seq<string>, n: int)
    requires n in frequencies && Positive(frequencies[n])
    requires Matching(frequencies[n], query) != []
    ensures var found := Matching(frequencies[n], query);
      var top := MostCommon(found, 1)[0];
      && Total(found) > 0.0
      && RecursiveSearch(Some(frequencies), query, n, 1, true) == Ok(Some((top.0, top.1 / Total(found))))
      && 0.0 < top.1 / Total(found) <= 1.0
  {
    var found := Matching(frequencies[n], query);
    MatchingMembers(frequencies[n], query);
    assert Positive(found) by {
      forall i | 0 <= i < |found| ensures found[i].1 > 0.0 {
        assert found[i] in found;
      }
    }
    SearchNormalized(frequencies[n], query);
    NormalizedTop(found);
    var i := MostCommonTop(found);
    TopShare(found, i);
  }

  /** Without a match at order `n > 2`, `predict_proba`'s search goes on
      exactly as `predict`'s does: the lower orders are searched without
      normalisation, so what comes back from there is a raw count. */
  lemma ProbaBacksOffRaw(frequencies: Frequencies, query: seq<string>, n: int, topN: int)
    requires n in frequencies && n > 2 && Matching(frequencies[n], query) == []
    ensures RecursiveSearch(Some(frequencies), query, n, topN, true)
      == RecursiveSearch(Some(frequencies), DropFirst(query), n - 1, 1, false)
  {
    SearchNormalized(frequencies[n], query);
  }

  // ---------------------------------------------------------------------
  // Prediction

  /** `predict`'s query adjustment: with more than `n_max - 1` tokens keep
      `parsed_query[-(n_max - 1):]`. For `n_max >= 2` these are the last
      `n_max - 1` tokens; for `n_max == 1` the slice `[-0:]` keeps them all. */
  function TruncateQuery(tokens: seq<string>, nMax: int): (r: seq<string>)
    ensures nMax >= 2 ==> r == tokens[|tokens| - Min(|tokens|, nMax - 1)..]
    ensures nMax == 1 ==> r == tokens
    ensures nMax <= 1 && |tokens| > 0 ==> r == tokens[Min(1 - nMax, |tokens|)..]
  {
    if |tokens| > nMax - 1 then SliceFrom(tokens, -(nMax - 1)) else tokens
  }

  /** `predict_proba`'s query adjustment, `parsed_query[n_max + 1:]` when the
      query has more than `n_max - 1` tokens: it drops the FIRST `n_max + 1`
      tokens rather than keeping the last `n_max - 1`. */
  function TruncateQueryProba(tokens: seq<string>, nMax: int): (r: seq<string>)
    ensures |tokens| <= nMax - 1 ==> r == tokens
    ensures nMax >= -1 && |tokens| > nMax - 1 ==> r == tokens[Min(nMax + 1, |tokens|)..]
  {
    if |tokens| > nMax - 1 then SliceFrom(tokens, nMax + 1) else tokens
  }

  /** One iteration of `predict`: split the query, adjust it, search from
      order `n_max`, and keep the last token of the matched ngram. */
  function PredictOne(frequencies: Option<Frequencies>, nMax: int, query: string): (r: Result<Option<string>>)
    ensures frequencies.None? ==> r == Err(NotFitted)
    ensures frequencies.Some? && nMax !in frequencies.value ==> r == Err(MissingOrder)
    ensures r.Err? ==> r.error == NotFitted || r.error == MissingOrder
    ensures r.Ok? && r.value.Some? ==> Space !in r.value.value
  {
    LastToken(RecursiveSearch(frequencies, TruncateQuery(Split(query), nMax), nMax, 1, false))
  }

  /** `res[0].split(" ")[-1]` of a search result, passing errors and the sentinel through. */
  function LastToken(r: Result<Option<Entry>>): (p: Result<Option<string>>)
    ensures p.Err? <==> r.Err?
    ensures p.Err? ==> p.error == r.error
    ensures p == Ok(None) <==> r == Ok(None)
    ensures p.Ok? && p.value.Some? ==> var k, w := r.value.value.0, p.value.value;
      && Space !in w && |w| <= |k| && w == k[|k| - |w|..] && (|w| < |k| ==> k[|k| - |w| - 1] == Space)
  {
    match r
    case Err(e) => Err(e)
    case Ok(None) => Ok(None)
    case Ok(Some(e)) =>
      LastOfSplit(e.0);
      Ok(Some(Last(Split(e.0))))
  }

  /** One iteration of `predict_proba`: split, adjust, and search from order
      `n_max` with normalisation; the search result is returned as it is. */
  function PredictProbaOne(frequencies: Option<Frequencies>, nMax: int, query: string): (r: Result<Option<Entry>>)
    ensures frequencies.None? ==> r == Err(NotFitted)
    ensures frequencies.Some? && nMax !in frequencies.value ==> r == Err(MissingOrder)
    ensures r.Err? ==> r.error == NotFitted || r.error == MissingOrder || r.error == DivisionByZero
  {
    RecursiveSearch(frequencies, TruncateQueryProba(Split(query), nMax), nMax, 1, true)
  }

  /** `predict` on one query of a model with tables for the orders from
      `Floor(n_max)` to `n_max`: no error; no prediction exactly when no
      order matches the truncated query; otherwise the last token of the top
      ngram of the highest matching order. */
  lemma PredictBackoff(frequencies: Frequencies, nMax: int, query: string)
    requires forall k :: Floor(nMax) <= k <= nMax ==> k in frequencies
    ensures PredictsTop(frequencies, TruncateQuery(Split(query), nMax), nMax, PredictOne(Some(frequencies), nMax, query))
  {
    var q := TruncateQuery(Split(query), nMax);
    Backoff(frequencies, q, nMax);
    LastTokenOfBackoff(frequencies, q, nMax, PredictOne(Some(frequencies), nMax, query));
  }

  /** `p` is what `predict` should answer for the truncated query `q`: no
      error; no prediction exactly when no order from `Floor(nMax)` to
      `nMax` matches; otherwise the last token of the top ngram of the
      highest matching order. */
  ghost predicate PredictsTop(frequencies: Frequencies, q: seq<string>, nMax: int, p: Result<Option<string>>)
  {
    && p.Ok?
    && (p.value.None? <==> forall k :: Floor(nMax) <= k <= nMax ==> !MatchAt(frequencies, q, nMax, k))
    && (forall k :: HighestMatch(frequencies, q, nMax, k) ==> p == Ok(Some(Last(Split(TopAt(frequencies, q, nMax, k).0)))))
  }

  lemma LastTokenOfBackoff(frequencies: Frequencies, q: seq<string>, nMax: int, p: Result<Option<string>>)
    requires BacksOff(frequencies, q, nMax)
    requires p == LastToken(RecursiveSearch(Some(frequencies), q, nMax, 1, false))
    ensures PredictsTop(frequencies, q, nMax, p)
  {
  }

  /** `predict` after `fit`: a model with `n_max >= 1` answers every query;
      with `n_max <= 0` no table of order `n_max` exists and the search
      raises KeyError. */
  lemma PredictAfterFit(corpus: seq<string>, nMax: int, vectorizer: Vectorizer, query: string)
    ensures PredictOne(Some(GeneratedFrequencies(corpus, nMax, vectorizer)), nMax, query).Err? <==> nMax <= 0
    ensures nMax <= 0 ==> PredictOne(Some(GeneratedFrequencies(corpus, nMax, vectorizer)), nMax, query) == Err(MissingOrder)
  {
    if nMax >= 1 {
      PredictBackoff(GeneratedFrequencies(corpus, nMax, vectorizer), nMax, query);
    }
  }

  /** `__repr__` after `fit`: a model with `n_max >= 1` reports the orders
      `1..n_max`; with `n_max <= 0` the dict of tables is empty and the
      model still reports "not fitted". */
  lemma SummaryAfterFit(corpus: seq<string>, nMax: int, vectorizer: Vectorizer)
    ensures Summarize(nMax, Some(GeneratedFrequencies(corpus, nMax, vectorizer))).Unfitted? <==> nMax <= 0
    ensures nMax >= 1 ==> Summarize(nMax, Some(GeneratedFrequencies(corpus, nMax, vectorizer))).orders.Keys == Orders(nMax)
  {
    var f := GeneratedFrequencies(corpus, nMax, vectorizer);
    if nMax >= 1 {
      assert 1 in f;
    } else {
      assert f.Keys == {};
    }
  }

  /** The first `|queries|` results of one prediction per query, or the
      error of the first query that raised one. */
  predicate PredictedAll<R(==)>(queries: seq<string>, one: string -> Result<R>, r: Result<seq<R>>)
  {
    && (r.Ok? ==> |r.value| == |queries| && forall i :: 0 <= i < |queries| ==> one(queries[i]) == Ok(r.value[i]))
    && (r.Err? ==> exists i :: 0 <= i < |queries| && one(queries[i]) == Err(r.error)
                           && forall j :: 0 <= j < i ==> one(queries[j]).Ok?)
  }

  /** When every query succeeds, the call returns the list of their results
      and nothing else. */
  lemma PredictedAllOk<R>(queries: seq<string>, one: string -> Result<R>, expected: seq<R>, r: Result<seq<R>>)
    requires |expected| == |queries|
    requires forall i :: 0 <= i < |queries| ==> one(queries[i]) == Ok(expected[i])
    ensures PredictedAll(queries, one, r) <==> r == Ok(expected)
  {
    if PredictedAll(queries, one, r) && r.Ok? {
      assert r.value == expected;
    }
  }

  /** The first query that raises decides the error, whatever follows it. */
  lemma PredictedAllErr<R>(queries: seq<string>, one: string -> Result<R>, i: nat, r: Result<seq<R>>)
    requires i < |queries| && one(queries[i]).Err?
    requires forall j :: 0 <= j < i ==> one(queries[j]).Ok?
    ensures PredictedAll(queries, one, r) <==> r == Err(one(queries[i]).error)
  {
    if PredictedAll(queries, one, r) {
      assert !r.Ok?;
      var k :| 0 <= k < |queries| && one(queries[k]) == Err(r.error) && forall j :: 0 <= j < k ==> one(queries[j]).Ok?;
      if k < i {
        assert false;
      }
    }
  }

  /** The loop of `predict` and `predict_proba`: one result per query, in
      order, appended to a list; the first exception aborts the loop. */
  method Collect<R(==)>(queries: seq<string>, one: string -> Result<R>) returns (r: Result<seq<R>>)
    ensures PredictedAll(queries, one, r)
  {
    var results: seq<R> := [];
    for i := 0 to |queries|
      invariant |results| == i
      invariant forall j :: 0 <= j < i ==> one(queries[j]) == Ok(results[j])
    {
      var pred := one(queries[i]);
      if pred.Err? {
        r := Err(pred.error);
        assert forall j :: 0 <= j < i ==> one(queries[j]).Ok?;
        return;
      }
      results := results + [pred.value];
    }
    return Ok(results);
  }

  /** `predict` on a model with tables `frequencies` and highest order `nMax`. */
  function Predictor(frequencies: Option<Frequencies>, nMax: int): string -> Result<Option<string>>
  {
    q => PredictOne(frequencies, nMax, q)
  }

  /** `predict_proba` on a model with tables `frequencies` and highest order `nMax`. */
  function ProbaPredictor(frequencies: Option<Frequencies>, nMax: int): string -> Result<Option<Entry>>
  {
    q => PredictProbaOne(frequencies, nMax, q)
  }

  // ---------------------------------------------------------------------
  // The model objects

  /** `BaseStatisticalModel`: the highest order `n_max` and the per-order
      tables, None until fitted. */
  class BaseStatisticalModel {
    var nMax: int
    var frequencies: Option<Frequencies>

    /** `BaseStatisticalModel(n_max=2, frequencies=None)`. */
    constructor (nMax: int, frequencies: Option<Frequencies>)
      ensures this.nMax == nMax && this.frequencies == frequencies
    {
      this.nMax := nMax;
      this.frequencies := frequencies;
    }

    /** `_generate_freq(corpus)`: replaces the tables by freshly built ones
      for exactly the orders `1..n_max`. */
    method GenerateFreq(corpus: seq<string>, vectorizer: Vectorizer)
      modifies this`frequencies
      ensures frequencies == Some(GeneratedFrequencies(corpus, nMax, vectorizer))
    {
      frequencies := Some(GeneratedFrequencies(corpus, nMax, vectorizer));
    }

    /** `__repr__`, as the abstract per-order summary. */
    function Summary(): (r: Report)
      reads this
      ensures r.nMax == nMax
      ensures r.Unfitted? <==> frequencies.None? || frequencies.value == map[]
      ensures r.FittedReport? ==> r.orders.Keys == frequencies.value.Keys
      ensures r.FittedReport? ==> forall n :: n in r.orders ==>
        r.orders[n].count == |Keys(frequencies.value[n])| && r.orders[n].freq == Total(frequencies.value[n])
    {
      Summarize(nMax, frequencies)
    }

    /** `__add__`: a new model with the default `n_max` of 2 whatever the
      operands' `n_max`, holding the order-by-order merge of the tables;
      `None.keys()` raises when either side is not fitted. */
    method Add(other: BaseStatisticalModel) returns (r: Result<BaseStatisticalModel>)
      ensures frequencies.None? || other.frequencies.None? ==> r == Err(NotFitted)
      ensures frequencies.Some? && other.frequencies.Some? ==>
        && r.Ok? && fresh(r.value) && r.value.nMax == 2
        && r.value.frequencies == Some(MergeFrequencies(frequencies.value, other.frequencies.value))
    {
      if frequencies.None? || other.frequencies.None? {
        return Err(NotFitted);
      }
      var merged := MergeFrequencies(frequencies.value, other.frequencies.value);
      var model := new BaseStatisticalModel(2, Some(merged));
      return Ok(model);
    }
  }

  /** `RecursiveNextWord`: a `BaseStatisticalModel` (held as `base`) that
      predicts the next word by back-off search. */
  class RecursiveNextWord {
    const base: BaseStatisticalModel

    /** `RecursiveNextWord(n_max, **kwargs)`. */
    constructor (nMax: int, frequencies: Option<Frequencies>)
      ensures fresh(base) && base.nMax == nMax && base.frequencies == frequencies
    {
      base := new BaseStatisticalModel(nMax, frequencies);
    }

    /** `fit(corpus)`: rebuilds every table from the corpus and returns `self`. */
    method Fit(corpus: seq<string>, vectorizer: Vectorizer) returns (self: RecursiveNextWord)
      modifies base`frequencies
      ensures self == this
      ensures base.frequencies == Some(GeneratedFrequencies(corpus, base.nMax, vectorizer))
    {
      base.GenerateFreq(corpus, vectorizer);
      return this;
    }

    /** `predict(queries)`: one prediction per query, in order; the first
      exception aborts the whole call. */
    method Predict(queries: seq<string>) returns (r: Result<seq<Option<string>>>)
      ensures PredictedAll(queries, Predictor(base.frequencies, base.nMax), r)
    {
      r := Collect(queries, Predictor(base.frequencies, base.nMax));
    }

    /** `predict_proba(queries, top_n)`: one search result per query, in
      order; `top_n` is accepted and ignored, as in the source. */
    method PredictProba(queries: seq<string>, topN: int) returns (r: Result<seq<Option<Entry>>>)
      ensures PredictedAll(queries, ProbaPredictor(base.frequencies, base.nMax), r)
    {
      r := Collect(queries, ProbaPredictor(base.frequencies, base.nMax));
    }
  }
}
