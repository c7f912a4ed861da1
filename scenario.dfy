/** The scenario of tests/test_models.py: a trigram model fitted on five
    sentences, queried with four prompts. The vectorizer is a parameter of
    the model, so the scenario states what it yields on this corpus for
    orders 2 and 3: every n-gram of the sentences with its number of
    occurrences, in alphabetical vocabulary order. The unigram table is never
    consulted (`UnigramsNeverConsulted`) and is left unconstrained. */
module Scenario {
  import opened Wrappers
  import opened Tokens
  import opened NGram
  import opened StatisticalModels

  function Corpus(): seq<string>
  {
    ["let us see were this project leads us",
     "we are having great fun so far",
     "we are actively developing",
     "it is getting tougher but it is still fun",
     "this project teaches us how to construct test cases"]
  }

  /** The trigrams of the corpus, as word lists, in vocabulary order. */
  function Trigrams(): seq<seq<string>>
  {
    [
      ["are", "actively", "developing"], ["are", "having", "great"], ["but", "it", "is"],
      ["construct", "test", "cases"], ["fun", "so", "far"], ["getting", "tougher", "but"],
      ["great", "fun", "so"], ["having", "great", "fun"], ["how", "to", "construct"],
      ["is", "getting", "tougher"], ["is", "still", "fun"], ["it", "is", "getting"],
      ["it", "is", "still"], ["let", "us", "see"], ["project", "leads", "us"],
      ["project", "teaches", "us"], ["see", "were", "this"], ["teaches", "us", "how"],
      ["this", "project", "leads"], ["this", "project", "teaches"], ["to", "construct", "test"],
      ["tougher", "but", "it"], ["us", "how", "to"], ["us", "see", "were"],
      ["we", "are", "actively"], ["we", "are", "having"], ["were", "this", "project"]
    ]
  }

  /** Every trigram occurs once. */
  function TrigramCounts(): seq<real>
  {
    seq(27, _ => 1.0)
  }

  /** The bigrams of the corpus, as word lists, in vocabulary order. */
  function Bigrams(): seq<seq<string>>
  {
    [
      ["actively", "developing"], ["are", "actively"], ["are", "having"], ["but", "it"],
      ["construct", "test"], ["fun", "so"], ["getting", "tougher"], ["great", "fun"],
      ["having", "great"], ["how", "to"], ["is", "getting"], ["is", "still"], ["it", "is"],
      ["leads", "us"], ["let", "us"], ["project", "leads"], ["project", "teaches"], ["see", "were"],
      ["so", "far"], ["still", "fun"], ["teaches", "us"], ["test", "cases"], ["this", "project"],
      ["to", "construct"], ["tougher", "but"], ["us", "how"], ["us", "see"], ["we", "are"],
      ["were", "this"]
    ]
  }

  /** "it is", "this project" and "we are" occur twice, every other bigram once. */
  function BigramCounts(): seq<real>
  {
    [1.0, 1.0, 1.0, 1.0, 1.0, 1.0, 1.0, 1.0, 1.0, 1.0, 1.0, 1.0, 2.0, 1.0, 1.0, 1.0, 1.0, 1.0, 1.0, 1.0, 1.0, 1.0, 2.0, 1.0, 1.0, 1.0, 1.0, 2.0, 1.0]
  }

  /** The table of `grams`, keyed by their space-joined form. */
  function Tabulate(grams: seq<seq<string>>, counts: seq<real>): (t: seq<Entry>)
    requires |counts| == |grams|
    ensures |t| == |grams|
    ensures forall i :: 0 <= i < |grams| ==> t[i] == (Join(grams[i]), counts[i])
  {
    seq(|grams|, i requires 0 <= i < |grams| => (Join(grams[i]), counts[i]))
  }

  /** The tables the vectorizer yields for orders 3 and 2. */
  function TrigramTable(): seq<Entry> { Tabulate(Trigrams(), TrigramCounts()) }

  function BigramTable(): seq<Entry> { Tabulate(Bigrams(), BigramCounts()) }

  lemma TrigramsAreWords()
    ensures forall i :: 0 <= i < |Trigrams()| ==> |Trigrams()[i]| == 3 && NoSpaces(Trigrams()[i])
  {
  }

  lemma BigramsAreWords()
    ensures forall i :: 0 <= i < |Bigrams()| ==> |Bigrams()[i]| == 2 && NoSpaces(Bigrams()[i])
  {
  }

  /** An ngram built from space-free words matches a query exactly when the
      query is a prefix of its words. */
  lemma KeyMatches(w: seq<string>, query: seq<string>)
    requires |w| >= 1 && NoSpaces(w)
    ensures Matches(Join(w), query) <==> |query| <= |w| && w[..|query|] == query
  {
    SplitJoin(w);
  }

  lemma StartsWithTwo(w: seq<string>, a: string, b: string)
    requires |w| >= 2
    ensures w[..2] == [a, b] <==> w[0] == a && w[1] == b
  {
    if w[0] == a && w[1] == b {
      assert w[..2] == [a, b];
    }
  }

  lemma StartsWithOne(w: seq<string>, a: string)
    requires |w| >= 1
    ensures w[..1] == [a] <==> w[0] == a
  {
    if w[0] == a {
      assert w[..1] == [a];
    }
  }

  /** The trigrams starting with `a b` are the block `lo..hi` of the table. */
  lemma TrigramsStartingWith(t: Table, a: string, b: string, lo: nat, hi: nat)
    requires t == TrigramTable() && lo <= hi <= 27
    requires forall i :: 0 <= i < 27 ==> (Trigrams()[i][0] == a && Trigrams()[i][1] == b <==> lo <= i < hi)
    ensures Matching(t, [a, b]) == t[lo..hi]
  {
    TrigramsAreWords();
    forall i | 0 <= i < |t| ensures Matches(t[i].0, [a, b]) <==> lo <= i < hi {
      KeyMatches(Trigrams()[i], [a, b]);
      StartsWithTwo(Trigrams()[i], a, b);
    }
    MatchingBlock(t, [a, b], lo, hi);
  }

  /** The bigrams starting with `a` are the block `lo..hi` of the table. */
  lemma BigramsStartingWith(t: Table, a: string, lo: nat, hi: nat)
    requires t == BigramTable() && lo <= hi <= 29
    requires forall i :: 0 <= i < 29 ==> (Bigrams()[i][0] == a <==> lo <= i < hi)
    ensures Matching(t, [a]) == t[lo..hi]
  {
    BigramsAreWords();
    forall i | 0 <= i < |t| ensures Matches(t[i].0, [a]) <==> lo <= i < hi {
      KeyMatches(Bigrams()[i], [a]);
      StartsWithOne(Bigrams()[i], a);
    }
    MatchingBlock(t, [a], lo, hi);
  }

  /** Of two entries with the same count, `most_common(1)` keeps the first. */
  lemma TopOfTie(t: Table)
    requires |t| == 2 && t[0].1 == t[1].1
    ensures MostCommon(t, 1) == [t[0]]
  {
    var i := MostCommonTop(t);
  }

  /** The tables of the fitted model, given what the vectorizer yields. */
  lemma FittedTables(vectorizer: Vectorizer)
    requires vectorizer(3)(Corpus()) == TrigramTable()
    requires vectorizer(2)(Corpus()) == BigramTable()
    ensures var f := GeneratedFrequencies(Corpus(), 3, vectorizer);
      2 in f && 3 in f && f[3] == TrigramTable() && f[2] == BigramTable()
  {
    var f := GeneratedFrequencies(Corpus(), 3, vectorizer);
    assert 2 in f && 3 in f;
  }

  /** The model of the test after `fit`. */
  function Fitted(vectorizer: Vectorizer): Option<Frequencies>
  {
    Some(GeneratedFrequencies(Corpus(), 3, vectorizer))
  }

  /** The words of the four queries of the test are space-free. */
  lemma QueryWords()
    ensures NoSpaces(["let", "us", "see", "were", "that", "project"])
    ensures NoSpaces(["we", "are"]) && NoSpaces(["it", "is"]) && NoSpaces(["it", "should", "be"])
  {
  }

  /** So are those of the ngrams the predictions come from. */
  lemma KeyWords()
    ensures NoSpaces(["project", "leads"]) && NoSpaces(["we", "are", "actively"]) && NoSpaces(["it", "is", "getting"])
  {
  }

  /** `predict` on a query of space-free words, once the search result is known. */
  lemma PredictFromSearch(frequencies: Option<Frequencies>, nMax: int, words: seq<string>, e: Option<Entry>)
    requires |words| >= 1 && NoSpaces(words)
    requires RecursiveSearch(frequencies, TruncateQuery(words, nMax), nMax, 1, false) == Ok(e)
    ensures PredictOne(frequencies, nMax, Join(words)) == LastToken(Ok(e))
  {
    SplitJoin(words);
  }

  /** `predict_proba` on a query of space-free words, once the search result is known. */
  lemma ProbaFromSearch(frequencies: Option<Frequencies>, nMax: int, words: seq<string>, e: Result<Option<Entry>>)
    requires |words| >= 1 && NoSpaces(words)
    requires RecursiveSearch(frequencies, TruncateQueryProba(words, nMax), nMax, 1, true) == e
    ensures PredictProbaOne(frequencies, nMax, Join(words)) == e
  {
    SplitJoin(words);
  }

  /** The last token of an ngram built from space-free words is its last word. */
  lemma LastOfJoin(words: seq<string>)
    requires |words| >= 1 && NoSpaces(words)
    ensures Last(Split(Join(words))) == Last(words)
  {
    SplitJoin(words);
  }

  lemma NoTrigramThatProject(t: Table)
    requires t == TrigramTable()
    ensures Matching(t, ["that", "project"]) == []
  {
    NoTrigramThatProjectWords();
    TrigramsStartingWith(t, "that", "project", 0, 0);
  }

  lemma NoTrigramShouldBe(t: Table)
    requires t == TrigramTable()
    ensures Matching(t, ["should", "be"]) == []
  {
    NoTrigramShouldBeWords();
    TrigramsStartingWith(t, "should", "be", 0, 0);
  }

  lemma TrigramsWeAre(t: Table)
    requires t == TrigramTable()
    ensures Matching(t, ["we", "are"]) == [(Join(["we", "are", "actively"]), 1.0), (Join(["we", "are", "having"]), 1.0)]
  {
    TrigramsWeAreWords();
    TrigramsStartingWith(t, "we", "are", 24, 26);
    TrigramsWeAreEntries(t);
    PairAt(t, 24, (Join(["we", "are", "actively"]), 1.0), (Join(["we", "are", "having"]), 1.0));
  }

  lemma TrigramsWeAreEntries(t: seq<Entry>)
    requires t == TrigramTable()
    ensures t[24] == (Join(["we", "are", "actively"]), 1.0) && t[25] == (Join(["we", "are", "having"]), 1.0)
  {
    assert Trigrams()[24] == ["we", "are", "actively"] && Trigrams()[25] == ["we", "are", "having"];
  }

  /** Two consecutive entries form a two-entry block. */
  lemma PairAt(t: seq<Entry>, lo: nat, x: Entry, y: Entry)
    requires lo + 2 <= |t| && t[lo] == x && t[lo + 1] == y
    ensures t[lo..lo + 2] == [x, y]
  {
  }

  lemma TrigramsItIs(t: Table)
    requires t == TrigramTable()
    ensures Matching(t, ["it", "is"]) == [(Join(["it", "is", "getting"]), 1.0), (Join(["it", "is", "still"]), 1.0)]
  {
    TrigramsItIsWords();
    TrigramsStartingWith(t, "it", "is", 11, 13);
    TrigramsItIsEntries(t);
    PairAt(t, 11, (Join(["it", "is", "getting"]), 1.0), (Join(["it", "is", "still"]), 1.0));
  }

  lemma TrigramsItIsEntries(t: seq<Entry>)
    requires t == TrigramTable()
    ensures t[11] == (Join(["it", "is", "getting"]), 1.0) && t[12] == (Join(["it", "is", "still"]), 1.0)
  {
    assert Trigrams()[11] == ["it", "is", "getting"] && Trigrams()[12] == ["it", "is", "still"];
  }

  lemma BigramsProject(t: Table)
    requires t == BigramTable()
    ensures Matching(t, ["project"]) == [(Join(["project", "leads"]), 1.0), (Join(["project", "teaches"]), 1.0)]
  {
    BigramsProjectWords();
    BigramsStartingWith(t, "project", 15, 17);
    BigramsProjectEntries(t);
    PairAt(t, 15, (Join(["project", "leads"]), 1.0), (Join(["project", "teaches"]), 1.0));
  }

  lemma BigramsProjectEntries(t: seq<Entry>)
    requires t == BigramTable()
    ensures t[15] == (Join(["project", "leads"]), 1.0) && t[16] == (Join(["project", "teaches"]), 1.0)
  {
    assert Bigrams()[15] == ["project", "leads"] && Bigrams()[16] == ["project", "teaches"];
  }

  lemma NoBigramBe(t: Table)
    requires t == BigramTable()
    ensures Matching(t, ["be"]) == []
  {
    NoBigramBeWords();
    BigramsStartingWith(t, "be", 0, 0);
  }

  lemma NoTrigramThatProjectWords()
    ensures forall i :: 0 <= i < 27 ==> Trigrams()[i][0] != "that"
  {
  }

  lemma NoTrigramShouldBeWords()
    ensures forall i :: 0 <= i < 27 ==> Trigrams()[i][0] != "should"
  {
  }

  lemma TrigramsWeAreWords()
    ensures forall i :: 0 <= i < 27 ==> (Trigrams()[i][0] == "we" && Trigrams()[i][1] == "are" <==> 24 <= i < 26)
  {
  }

  lemma TrigramsItIsWords()
    ensures forall i :: 0 <= i < 27 ==> (Trigrams()[i][0] == "it" && Trigrams()[i][1] == "is" <==> 11 <= i < 13)
  {
  }

  lemma BigramsProjectWords()
    ensures forall i :: 0 <= i < 29 ==> (Bigrams()[i][0] == "project" <==> 15 <= i < 17)
  {
  }

  lemma NoBigramBeWords()
    ensures forall i :: 0 <= i < 29 ==> Bigrams()[i][0] != "be"
  {
  }

  /** The search of order 3 for a query with a match there. */
  lemma SearchTrigrams(f: Frequencies, query: seq<string>, top: Entry, other: Entry)
    requires 3 in f && Matching(f[3], query) == [top, other] && top.1 == other.1
    ensures RecursiveSearch(Some(f), query, 3, 1, false) == Ok(Some(top))
  {
    SearchStep(f, query, 3);
    TopOfTie([top, other]);
  }

  /** No trigram starts "that project"; of the bigrams starting "project",
      "project leads" and "project teaches" tie and the first wins. */
  lemma ProjectSearches(f: Frequencies)
    requires 3 in f && 2 in f && f[3] == TrigramTable() && f[2] == BigramTable()
    ensures Matching(f[3], ["that", "project"]) == []
    ensures RecursiveSearch(Some(f), ["project"], 2, 1, false) == Ok(Some((Join(["project", "leads"]), 1.0)))
  {
    NoTrigramThatProject(f[3]);
    BigramsProject(f[2]);
    SearchStep(f, ["project"], 2);
    TopOfTie(Matching(f[2], ["project"]));
  }

  /** "let us see were that project": no trigram starts "that project", so
      the search backs off to the bigrams starting "project"; "project leads"
      and "project teaches" tie, and the first in vocabulary order wins. */
  lemma PredictThatProject(vectorizer: Vectorizer)
    requires vectorizer(3)(Corpus()) == TrigramTable()
    requires vectorizer(2)(Corpus()) == BigramTable()
    ensures PredictOne(Fitted(vectorizer), 3, Join(["let", "us", "see", "were", "that", "project"])) == Ok(Some("leads"))
  {
    var f := Fitted(vectorizer).value;
    FittedTables(vectorizer);
    QueryWords();
    var words := ["let", "us", "see", "were", "that", "project"];
    assert TruncateQuery(words, 3) == ["that", "project"];
    ProjectSearches(f);
    SearchStep(f, ["that", "project"], 3);
    assert DropFirst(["that", "project"]) == ["project"];
    PredictFromSearch(Fitted(vectorizer), 3, words, Some((Join(["project", "leads"]), 1.0)));
    KeyWords();
    LastOfJoin(["project", "leads"]);
  }

  /** "we are": the trigrams "we are actively" and "we are having" tie. */
  lemma PredictWeAre(vectorizer: Vectorizer)
    requires vectorizer(3)(Corpus()) == TrigramTable()
    requires vectorizer(2)(Corpus()) == BigramTable()
    ensures PredictOne(Fitted(vectorizer), 3, Join(["we", "are"])) == Ok(Some("actively"))
  {
    var f := Fitted(vectorizer).value;
    FittedTables(vectorizer);
    QueryWords();
    assert TruncateQuery(["we", "are"], 3) == ["we", "are"];
    TrigramsWeAre(f[3]);
    SearchTrigrams(f, ["we", "are"], (Join(["we", "are", "actively"]), 1.0), (Join(["we", "are", "having"]), 1.0));
    PredictFromSearch(Fitted(vectorizer), 3, ["we", "are"], Some((Join(["we", "are", "actively"]), 1.0)));
    KeyWords();
    LastOfJoin(["we", "are", "actively"]);
  }

  /** "it is": the trigrams "it is getting" and "it is still" tie. */
  lemma PredictItIs(vectorizer: Vectorizer)
    requires vectorizer(3)(Corpus()) == TrigramTable()
    requires vectorizer(2)(Corpus()) == BigramTable()
    ensures PredictOne(Fitted(vectorizer), 3, Join(["it", "is"])) == Ok(Some("getting"))
  {
    var f := Fitted(vectorizer).value;
    FittedTables(vectorizer);
    QueryWords();
    assert TruncateQuery(["it", "is"], 3) == ["it", "is"];
    TrigramsItIs(f[3]);
    SearchTrigrams(f, ["it", "is"], (Join(["it", "is", "getting"]), 1.0), (Join(["it", "is", "still"]), 1.0));
    PredictFromSearch(Fitted(vectorizer), 3, ["it", "is"], Some((Join(["it", "is", "getting"]), 1.0)));
    KeyWords();
    LastOfJoin(["it", "is", "getting"]);
  }

  /** "it should be": nothing starts "should be" or "be"; order 1 is never
      reached, and the sentinel comes back. */
  lemma PredictShouldBe(vectorizer: Vectorizer)
    requires vectorizer(3)(Corpus()) == TrigramTable()
    requires vectorizer(2)(Corpus()) == BigramTable()
    ensures PredictOne(Fitted(vectorizer), 3, Join(["it", "should", "be"])) == Ok(None)
  {
    var f := Fitted(vectorizer).value;
    FittedTables(vectorizer);
    QueryWords();
    var words := ["it", "should", "be"];
    assert TruncateQuery(words, 3) == ["should", "be"];
    NoTrigramShouldBe(f[3]);
    assert DropFirst(["should", "be"]) == ["be"];
    NoBigramBe(f[2]);
    NoMatchAtTwoOrders(f, ["should", "be"]);
    PredictFromSearch(Fitted(vectorizer), 3, words, None);
  }

  /** With no match at order 3 nor, one token shorter, at order 2, the
      search from order 3 gives the sentinel. */
  lemma NoMatchAtTwoOrders(f: Frequencies, query: seq<string>)
    requires 3 in f && 2 in f
    requires Matching(f[3], query) == [] && Matching(f[2], DropFirst(query)) == []
    ensures RecursiveSearch(Some(f), query, 3, 1, false) == Ok(None)
  {
    SearchStep(f, query, 3);
    SearchStep(f, DropFirst(query), 2);
  }

  lemma FourResults<R>(queries: seq<string>, one: string -> Result<R>, expected: seq<R>)
    requires |queries| == 4 && |expected| == 4
    requires one(queries[0]) == Ok(expected[0]) && one(queries[1]) == Ok(expected[1])
    requires one(queries[2]) == Ok(expected[2]) && one(queries[3]) == Ok(expected[3])
    ensures forall i :: 0 <= i < 4 ==> one(queries[i]) == Ok(expected[i])
  {
  }

  function Queries(): seq<string>
  {
    [Join(["let", "us", "see", "were", "that", "project"]), Join(["we", "are"]), Join(["it", "is"]), Join(["it", "should", "be"])]
  }

  /** `sb.predict(infer_doc) == ['leads', 'actively', 'getting', np.NaN]`:
      whatever `Predict` returns on the fitted model is that list. */
  lemma PredictScenario(vectorizer: Vectorizer, r: Result<seq<Option<string>>>)
    requires vectorizer(3)(Corpus()) == TrigramTable()
    requires vectorizer(2)(Corpus()) == BigramTable()
    requires PredictedAll(Queries(), Predictor(Fitted(vectorizer), 3), r)
    ensures r == Ok(Expected())
  {
    PredictThatProject(vectorizer);
    PredictWeAre(vectorizer);
    PredictItIs(vectorizer);
    PredictShouldBe(vectorizer);
    PredictResultsOf(Fitted(vectorizer));
    PredictedAllOk(Queries(), Predictor(Fitted(vectorizer), 3), Expected(), r);
  }

  /** What `predict` returns for each of the four queries of the test. */
  function Expected(): seq<Option<string>>
  {
    [Some("leads"), Some("actively"), Some("getting"), None]
  }

  /** The four answers of `predict`, gathered into the list of the test. */
  lemma PredictResultsOf(f: Option<Frequencies>)
    requires PredictOne(f, 3, Join(["let", "us", "see", "were", "that", "project"])) == Ok(Some("leads"))
    requires PredictOne(f, 3, Join(["we", "are"])) == Ok(Some("actively"))
    requires PredictOne(f, 3, Join(["it", "is"])) == Ok(Some("getting"))
    requires PredictOne(f, 3, Join(["it", "should", "be"])) == Ok(None)
    ensures forall i :: 0 <= i < 4 ==> Predictor(f, 3)(Queries()[i]) == Ok(Expected()[i])
  {
    FourResults(Queries(), Predictor(f, 3), Expected());
  }

  // ---------------------------------------------------------------------
  // predict_proba on the same model and queries

  /** A table whose every count is 1 totals its number of entries. */
  lemma {:induction false} TotalOfOnes(t: seq<Entry>)
    requires forall i :: 0 <= i < |t| ==> t[i].1 == 1.0
    ensures Total(t) == |t| as real
  {
    if |t| > 0 {
      TotalCons(t[0], t[1..]);
      assert [t[0]] + t[1..] == t;
      TotalOfOnes(t[1..]);
    }
  }

  /** Of entries that all have the same count, `most_common(1)` keeps the first. */
  lemma TopOfEqualCounts(t: Table)
    requires |t| > 0 && forall i :: 0 <= i < |t| ==> t[i].1 == t[0].1
    ensures MostCommon(t, 1) == [t[0]]
  {
    var i := MostCommonTop(t);
  }

  /** Two tied entries of count 1: the first is on top, with share one half. */
  lemma ShareOfTie(found: Table, top: Entry, other: Entry)
    requires found == [top, other] && top.1 == other.1 == 1.0
    ensures MostCommon(found, 1)[0] == top && Total(found) == 2.0 && top.1 / Total(found) == 0.5
  {
    TopOfTie(found);
    TotalOfOnes(found);
  }

  /** The normalised search of order 3 for a query with two tied matches:
      the first of them, with share one half. */
  lemma ProbaSearchTrigrams(f: Frequencies, query: seq<string>, top: Entry, other: Entry)
    requires 3 in f && Positive(f[3]) && Matching(f[3], query) == [top, other] && top.1 == other.1 == 1.0
    ensures RecursiveSearch(Some(f), query, 3, 1, true) == Ok(Some((top.0, 0.5)))
  {
    ProbaAtMatchingOrder(f, query, 3);
    ShareOfTie(Matching(f[3], query), top, other);
  }

  /** "let us see were that project": `[n_max + 1:]` keeps "that project",
      nothing of order 3 matches, and the back-off to order 2 returns the raw
      count 1 of "project leads" instead of its share 0.5. */
  lemma ProbaThatProject(vectorizer: Vectorizer)
    requires vectorizer(3)(Corpus()) == TrigramTable()
    requires vectorizer(2)(Corpus()) == BigramTable()
    ensures PredictProbaOne(Fitted(vectorizer), 3, Join(["let", "us", "see", "were", "that", "project"]))
      == Ok(Some((Join(["project", "leads"]), 1.0)))
  {
    var f := Fitted(vectorizer).value;
    FittedTables(vectorizer);
    QueryWords();
    var words := ["let", "us", "see", "were", "that", "project"];
    assert TruncateQueryProba(words, 3) == ["that", "project"];
    ProjectSearches(f);
    ProbaBacksOffRaw(f, ["that", "project"], 3, 1);
    assert DropFirst(["that", "project"]) == ["project"];
    ProbaFromSearch(Fitted(vectorizer), 3, words, Ok(Some((Join(["project", "leads"]), 1.0))));
  }

  /** "we are": "we are actively" with share 0.5. */
  lemma ProbaWeAre(vectorizer: Vectorizer)
    requires vectorizer(3)(Corpus()) == TrigramTable()
    requires vectorizer(2)(Corpus()) == BigramTable()
    ensures PredictProbaOne(Fitted(vectorizer), 3, Join(["we", "are"])) == Ok(Some((Join(["we", "are", "actively"]), 0.5)))
  {
    var f := Fitted(vectorizer).value;
    FittedTables(vectorizer);
    QueryWords();
    assert TruncateQueryProba(["we", "are"], 3) == ["we", "are"];
    TrigramsWeAre(f[3]);
    ProbaSearchTrigrams(f, ["we", "are"], (Join(["we", "are", "actively"]), 1.0), (Join(["we", "are", "having"]), 1.0));
    ProbaFromSearch(Fitted(vectorizer), 3, ["we", "are"], Ok(Some((Join(["we", "are", "actively"]), 0.5))));
  }

  /** "it is": "it is getting" with share 0.5. */
  lemma ProbaItIs(vectorizer: Vectorizer)
    requires vectorizer(3)(Corpus()) == TrigramTable()
    requires vectorizer(2)(Corpus()) == BigramTable()
    ensures PredictProbaOne(Fitted(vectorizer), 3, Join(["it", "is"])) == Ok(Some((Join(["it", "is", "getting"]), 0.5)))
  {
    var f := Fitted(vectorizer).value;
    FittedTables(vectorizer);
    QueryWords();
    assert TruncateQueryProba(["it", "is"], 3) == ["it", "is"];
    TrigramsItIs(f[3]);
    ProbaSearchTrigrams(f, ["it", "is"], (Join(["it", "is", "getting"]), 1.0), (Join(["it", "is", "still"]), 1.0));
    ProbaFromSearch(Fitted(vectorizer), 3, ["it", "is"], Ok(Some((Join(["it", "is", "getting"]), 0.5))));
  }

  /** The 27 trigrams all have count 1, and "are actively developing" comes first. */
  lemma TrigramCountsOne(t: seq<Entry>)
    requires t == TrigramTable()
    ensures forall i :: 0 <= i < |t| ==> t[i].1 == 1.0
    ensures |t| == 27 && t[0] == (Join(["are", "actively", "developing"]), 1.0)
  {
    assert Trigrams()[0] == ["are", "actively", "developing"];
  }

  /** "it should be": `[n_max + 1:]` of three words is empty, the empty query
      matches every trigram, and the first of the 27 tied trigrams comes back
      with share 1/27, whatever the query said. */
  lemma ProbaShouldBe(vectorizer: Vectorizer)
    requires vectorizer(3)(Corpus()) == TrigramTable()
    requires vectorizer(2)(Corpus()) == BigramTable()
    ensures PredictProbaOne(Fitted(vectorizer), 3, Join(["it", "should", "be"]))
      == Ok(Some((Join(["are", "actively", "developing"]), 1.0 / 27.0)))
  {
    var f := Fitted(vectorizer).value;
    FittedTables(vectorizer);
    QueryWords();
    assert TruncateQueryProba(["it", "should", "be"], 3) == [];
    ProbaAllTrigrams(f);
    ProbaFromSearch(Fitted(vectorizer), 3, ["it", "should", "be"], Ok(Some((Join(["are", "actively", "developing"]), 1.0 / 27.0))));
  }

  /** The normalised search of order 3 for the empty query. */
  lemma ProbaAllTrigrams(f: Frequencies)
    requires 3 in f && f[3] == TrigramTable()
    ensures RecursiveSearch(Some(f), [], 3, 1, true) == Ok(Some((Join(["are", "actively", "developing"]), 1.0 / 27.0)))
  {
    TrigramCountsOne(f[3]);
    assert 1.0 / 27.0 == 1.0 / (|f[3]| as real) by {
      assert |f[3]| == 27;
    }
    ProbaOfTiedOrder(f, 3, 1.0 / 27.0);
  }

  /** The empty query over an order whose entries all count 1: the first
      entry comes back with a share of one over their number. */
  lemma ProbaOfTiedOrder(f: Frequencies, n: int, share: real)
    requires n in f && |f[n]| > 0 && share == 1.0 / (|f[n]| as real)
    requires forall i :: 0 <= i < |f[n]| ==> f[n][i].1 == 1.0
    ensures RecursiveSearch(Some(f), [], n, 1, true) == Ok(Some((f[n][0].0, share)))
  {
    EmptyQueryMatchesAll(f[n]);
    ShareOfEqualCounts(f[n]);
    ProbaAtMatchingOrder(f, [], n);
  }

  /** Of `k` tied entries of count 1, the first is on top with share `1/k`. */
  lemma ShareOfEqualCounts(t: Table)
    requires |t| > 0 && forall i :: 0 <= i < |t| ==> t[i].1 == 1.0
    ensures Positive(t) && MostCommon(t, 1)[0] == t[0] && Total(t) == |t| as real
  {
    TopOfEqualCounts(t);
    TotalOfOnes(t);
  }

  /** What `predict_proba` returns for each of the four queries of the test. */
  function ExpectedProba(): seq<Option<Entry>>
  {
    [Some((Join(["project", "leads"]), 1.0)), Some((Join(["we", "are", "actively"]), 0.5)),
     Some((Join(["it", "is", "getting"]), 0.5)), Some((Join(["are", "actively", "developing"]), 1.0 / 27.0))]
  }

  lemma ProbaResults(vectorizer: Vectorizer)
    requires vectorizer(3)(Corpus()) == TrigramTable()
    requires vectorizer(2)(Corpus()) == BigramTable()
    ensures forall i :: 0 <= i < 4 ==> ProbaPredictor(Fitted(vectorizer), 3)(Queries()[i]) == Ok(ExpectedProba()[i])
  {
    ProbaThatProject(vectorizer);
    ProbaWeAre(vectorizer);
    ProbaItIs(vectorizer);
    ProbaShouldBe(vectorizer);
    ProbaResultsOf(Fitted(vectorizer));
  }

  /** The four answers of `predict_proba`, gathered into the list of the test. */
  lemma ProbaResultsOf(f: Option<Frequencies>)
    requires PredictProbaOne(f, 3, Join(["let", "us", "see", "were", "that", "project"]))
      == Ok(Some((Join(["project", "leads"]), 1.0)))
    requires PredictProbaOne(f, 3, Join(["we", "are"])) == Ok(Some((Join(["we", "are", "actively"]), 0.5)))
    requires PredictProbaOne(f, 3, Join(["it", "is"])) == Ok(Some((Join(["it", "is", "getting"]), 0.5)))
    requires PredictProbaOne(f, 3, Join(["it", "should", "be"]))
      == Ok(Some((Join(["are", "actively", "developing"]), 1.0 / 27.0)))
    ensures forall i :: 0 <= i < 4 ==> ProbaPredictor(f, 3)(Queries()[i]) == Ok(ExpectedProba()[i])
  {
    FourResults(Queries(), ProbaPredictor(f, 3), ExpectedProba());
  }

  /** `sb.predict_proba(infer_doc)` on the model of the test: whatever
      `PredictProba` returns is this list. */
  lemma PredictProbaScenario(vectorizer: Vectorizer, r: Result<seq<Option<Entry>>>)
    requires vectorizer(3)(Corpus()) == TrigramTable()
    requires vectorizer(2)(Corpus()) == BigramTable()
    requires PredictedAll(Queries(), ProbaPredictor(Fitted(vectorizer), 3), r)
    ensures r == Ok(ExpectedProba())
  {
    ProbaResults(vectorizer);
    PredictedAllOk(Queries(), ProbaPredictor(Fitted(vectorizer), 3), ExpectedProba(), r);
  }
}
