# statLM next-word model in Dafny

statLM predicts the next word of a text from n-gram counts. Its core is two
classes:

- `NGramFrequenzy` (statLM/ngram.py) is a table of n-gram counts. It offers
  exact lookup, prefix search with optional normalisation, Counter addition
  and `most_common` ranking.
- `BaseStatisticalModel` / `RecursiveNextWord` (statLM/statistical_models.py)
  keep one table per n-gram order. They predict the next word by a back-off
  search. The search starts at the highest order. On no match it drops the
  first query token and retries one order lower.

The project models both files and proves what they promise.

Files:

- `wrappers.dfy`: `Option` (the `numpy.NaN` "no prediction" sentinel is
  `None`), `Result`, and one error kind per exception the core raises.
- `tokens.dfy`: the Python string and list operations the core depends on,
  written out with their edge cases:
  - `str.split(" ")` and `" ".join`;
  - the slices `s[:n]`, `s[1:]` and `s[i:]`, including a negative `i`.
- `ngram.dfy`: the count table.
  - A table is its Counter's entries in insertion order, one entry per key.
    `most_common` is a stable sort, so its tie-break depends on that order.
  - The table is never changed after construction, so every operation is a
    function.
- `statistical_models.dfy`: the models.
  - The per-order tables, their merge, and the back-off search stated without
    recursion.
  - `predict`, `predict_proba` and the `__repr__` summary.
  - `BaseStatisticalModel` and `RecursiveNextWord` as classes. `fit` and
    `_generate_freq` assign the tables field. `predict` and `predict_proba`
    are loops that collect one result per query.
- `scenario.dfy`: the fitted model of tests/test_models.py and its four
  queries. Both `predict` and `predict_proba` are worked out on it.

The `CountVectorizer` is a parameter: for each order, a function from a
corpus to a table with positive counts. The scenario states what it yields
for orders 3 and 2 on the test corpus:

- every n-gram of the sentences, with its number of occurrences;
- the n-grams in alphabetical vocabulary order, which is what
  `get_feature_names` returns.

The unigram table is never consulted from order 3
(`UnigramsNeverConsulted`), so the scenario leaves it unconstrained.

The model follows the code as written, including these quirks:

- **Recursion floor.** The search stops once `n - 1 <= 1`. A search started
  above order 1 never reads the unigram table, so order 2 is the last one
  consulted.
- **Normalisation on recursion.** The recursive call passes neither `top_n`
  nor `normalize`. `predict_proba` therefore returns a raw count whenever it
  backs off.
- **`predict_proba` truncation.** A long query is cut with
  `parsed_query[n_max + 1:]`, which drops the first `n_max + 1` tokens. It does
  not keep the last `n_max - 1`, as `predict` does. On "it should be" the query
  becomes empty, which matches every trigram.
- **Zero sums.** A non-empty match whose counts sum to zero raises
  ZeroDivisionError (`DivisionByZero`).
  - Counts are reals, not non-negative integers. A Counter built from a dict
    holds whatever numbers the dict holds.
  - An empty match divides nothing and gives the empty table.
- **Merging models.** The result has the default `n_max` of 2. Its orders run
  from 1 to the larger NUMBER of orders of the operands, not to the larger
  highest order.

## Model

| member | source | states |
|---|---|---|
| Tokens.Split | statLM/ngram.py:110 | `str.split(" ")` never returns an empty list, and none of its pieces contains a space |
| Tokens.JoinSplit | statLM/statistical_models.py:91 | joining the pieces of a split with single spaces gives the original string back |
| Tokens.SplitJoin | statLM/ngram.py:105 | splitting the space-join of a non-empty list of space-free words gives that list back |
| Tokens.Prefix | statLM/ngram.py:110 | `s[:n]` has `min(n, len(s))` elements and is a prefix of `s` |
| Tokens.DropFirst | statLM/statistical_models.py:64 | `s[1:]` is the suffix of `s` one shorter, or `[]` for `[]` |
| Tokens.SliceFrom | statLM/statistical_models.py:94 | `s[start:]` is a suffix of `s`; its length follows Python's clamping, and a negative start counts from the end |
| NGram.Keys | statLM/ngram.py:89-93 | `keys()` has one key per entry, in insertion order |
| NGram.KeysDistinct | statLM/ngram.py:89-93 | the keys of a table are pairwise distinct |
| NGram.Values | statLM/ngram.py:95-99 | `values()` has one count per entry, in insertion order |
| NGram.Lookup | statLM/ngram.py:81-83 | an absent ngram has count 0, and looking it up raises no error |
| NGram.LookupAt | statLM/ngram.py:81-83 | the lookup of a stored ngram is its stored count |
| NGram.LookupAppend | statLM/ngram.py:74-75 | in a concatenation of tables with distinct keys, a key is looked up in the part that holds it |
| NGram.MatchesPrefix | statLM/ngram.py:110 | an ngram matches exactly when it has at least `len(query)` tokens and its leading ones are the query; ngrams shorter than the query never match |
| NGram.MatchingMembers | statLM/ngram.py:107-111 | the search keeps exactly the entries whose key matches the query, with their counts unchanged |
| NGram.MatchingKeepsOrder | statLM/ngram.py:107-111 | the matches keep the table's order (the dict comprehension iterates in insertion order) |
| NGram.MatchingBlock | statLM/ngram.py:107-111 | when the matching entries form one contiguous block of the table, the search returns exactly that block |
| NGram.EmptyQueryMatchesAll | statLM/ngram.py:106-110 | the empty query returns the whole table |
| NGram.Parse | statLM/ngram.py:105 | a list query is used as given; a string query becomes its non-empty list of space-free pieces, which join back to the string |
| NGram.Matching | statLM/ngram.py:107-111 | the search returns no more entries than the table holds, each one an entry of the table whose key matches the query |
| NGram.ScaleTotal | statLM/ngram.py:116 | dividing every count by `d` divides the total by `d` |
| NGram.Normalized | statLM/ngram.py:114-116 | fails exactly when the matches are non-empty and sum to 0, with ZeroDivisionError; no matches give the empty table; keys are unchanged; each count becomes its share of the total; a non-empty result sums to 1 |
| NGram.SearchNGrams | statLM/ngram.py:112-113 | the search without normalisation never fails |
| NGram.SearchResult | statLM/ngram.py:101-116 | without normalisation the result holds exactly the matching entries, in table order; in both modes its keys are exactly the table's keys that match; normalised shares sum to 1; only normalisation can fail, with ZeroDivisionError |
| NGram.TextQueryIsWordsQuery | statLM/ngram.py:105 | a string query gives the same result as the list of its space-separated tokens |
| NGram.SortByCount | statLM/ngram.py:118-119 | the sort behind `most_common` is a permutation, puts counts in non-increasing order, and keeps the relative order of equal counts (stable) |
| NGram.MostCommon | statLM/ngram.py:118-119 | `most_common(n)` returns `min(n, len)` entries of the table (none for `n <= 0`) with non-increasing counts; no entry left out counts more than a returned one; equal counts come in table order |
| NGram.MostCommonTop | statLM/ngram.py:118-119 | the top entry of `most_common(1)` is the FIRST entry, in table order, with the largest count |
| NGram.MostCommonScaled | statLM/ngram.py:114-119 | dividing every count by the same positive number keeps the top entry, divided |
| NGram.NormalizedTop | statLM/ngram.py:114-119 | the top entry of a normalised positive table is the table's top entry, with its share of the total |
| NGram.TopShare | statLM/ngram.py:115-116 | the share of any entry of a positive table lies in (0, 1] |
| NGram.AddLeftFacts | statLM/ngram.py:74-75 | the first pass of Counter addition keeps a key of the left operand exactly when its summed count is positive, and stores that sum |
| NGram.AddRightFacts | statLM/ngram.py:74-75 | the second pass keeps a key found only in the right operand exactly when its count is positive, and stores its count |
| NGram.Merge | statLM/ngram.py:74-75 | each key's count is the positive part of the sum of its two counts; a key is kept exactly when that sum is positive; every count of the result is positive |
| NGram.MergeKeyOrder | statLM/ngram.py:74-75 | every key of the result comes from one of the operands; the result is a block of left-operand keys in the left operand's order, then a block of right-only keys in the right operand's order |
| NGram.MergeCountsCommute | statLM/ngram.py:74-75 | the merged counts do not depend on the operand order |
| NGram.MergeAddsCounts | statLM/ngram.py:74-75 | over non-negative counts a merged count is the sum of the two counts, a missing key counting 0 |
| NGram.MergeAssociative | statLM/ngram.py:74-75 | over non-negative counts the merge is associative, count by count |
| NGram.MergeNotAssociativeWithNegatives | statLM/ngram.py:74-75 | with a negative count it is not: (-2 + 1) + 2 keeps 2 while -2 + (1 + 2) keeps 1 |
| NGram.MergeEmptyRight | statLM/ngram.py:74-75 | adding the empty Counter to a positive table changes nothing, order included |
| NGram.MergeTotal | statLM/ngram.py:74-75 | over non-negative counts the merged total is the sum of the two totals |
| NGram.Create | statLM/ngram.py:12-23 | a non-empty corpus gives the vectorizer's counts; else a non-empty dict or Counter is taken as it is; any other truthy value raises ValueError; with neither, the table is empty |
| NGram.FromCorpusDefault | statLM/ngram.py:12-14 | the table built from a corpus with the default frequency has positive counts, and is empty for an empty corpus |
| NGram.FromCorpus | statLM/ngram.py:46-54 | a corpus that is not a list raises ValueError; a list gives the vectorizer's counts |
| NGram.FromFrequency | statLM/ngram.py:56-64 | an argument that is neither a dict nor a Counter raises ValueError, even a falsy one; a dict or Counter is copied |
| NGram.GetItem | statLM/ngram.py:81-87 | a string subscript is an exact lookup (0 when absent, the stored count when present); a list subscript equals `search_ngrams` of that list without normalisation; any other subscript raises ValueError |
| StatisticalModels.Orders | statLM/statistical_models.py:18 | `range(1, n + 1)` holds exactly the orders `1..n` |
| StatisticalModels.OrdersSize | statLM/statistical_models.py:18 | there are `n` such orders |
| StatisticalModels.GeneratedFrequencies | statLM/statistical_models.py:15-19 | `_generate_freq` builds a table for exactly the orders `1..n_max`, each one the corpus table of the order-`n` vectorizer, with positive counts |
| StatisticalModels.Get | statLM/statistical_models.py:41 | `get(n, NGramFrequenzy())` is the stored table, or the empty table for a missing order |
| StatisticalModels.MergeFrequencies | statLM/statistical_models.py:36-43 | merged models have the orders `1..max(#left orders, #right orders)`, each the table merge of both sides, a missing side counting as empty |
| StatisticalModels.MergeFittedFrequencies | statLM/statistical_models.py:36-43 | merging two fitted models gives the orders `1..max(a, b)`, and at each the sum of both sides' counts |
| StatisticalModels.MergeKeepsOneSidedOrder | statLM/statistical_models.py:41 | an order `n` present on one side only, whichever side, with `n` at most that side's number of orders and positive counts, is carried through unchanged, entry order included |
| StatisticalModels.MergeCountsOrders | statLM/statistical_models.py:37-42 | the number of orders, not the highest order, bounds the merge: orders {1, 3} merged with nothing give orders {1, 2} |
| StatisticalModels.Summarize | statLM/statistical_models.py:25-34 | the summary says "not fitted" exactly when there are no tables (None or empty); otherwise it lists each order with its number of distinct ngrams and the sum of their counts |
| StatisticalModels.SummaryOfMerge | statLM/statistical_models.py:25-43 | after merging, each order's summed count is the sum of both sides' summed counts |
| StatisticalModels.RecursiveSearch | statLM/statistical_models.py:56-66 | an unfitted model raises; a missing order raises KeyError; ZeroDivisionError can only come from normalising; an unnormalised result is an entry stored at one of the orders `Floor(n)..n` |
| StatisticalModels.SearchStep | statLM/statistical_models.py:56-66 | one step of the search: the top match at order `n` if there is one; else the search one order lower without the first token while `n - 1 > 1`; else the sentinel |
| StatisticalModels.Backoff | statLM/statistical_models.py:56-66 | with tables for the orders from `Floor(n)` to `n`, the search does not fail; it finds nothing exactly when no order in that range matches; otherwise it returns the top entry of the HIGHEST matching order |
| StatisticalModels.BackoffLower | statLM/statistical_models.py:60-64 | with no match at order `n > 2`, what holds one order lower for the shortened query holds at `n` |
| StatisticalModels.LowerAt | statLM/statistical_models.py:64 | one order lower with the first token dropped, each order sees the same query and gives the same top entry |
| StatisticalModels.SearchConsultsOnly | statLM/statistical_models.py:56-66 | only the orders from `n` down to `Floor(n)` decide the result |
| StatisticalModels.UnigramsNeverConsulted | statLM/statistical_models.py:61-66 | removing the unigram table changes no search started at order 2 or above |
| StatisticalModels.ProbaAtMatchingOrder | statLM/statistical_models.py:56-59 | the normalised search at an order with a match returns its top ngram with its share of the matching counts, which lies in (0, 1] |
| StatisticalModels.ProbaBacksOffRaw | statLM/statistical_models.py:64 | without a match at order `n > 2`, the normalised search continues exactly as the unnormalised one, so it returns raw counts from lower orders |
| StatisticalModels.TruncateQuery | statLM/statistical_models.py:94 | `predict` keeps the last `n_max - 1` tokens of a longer query; for `n_max == 1` the slice `[-0:]` keeps them all |
| StatisticalModels.TruncateQueryProba | statLM/statistical_models.py:121 | `predict_proba` leaves a query of at most `n_max - 1` tokens unchanged; for `n_max >= -1` it drops the first `n_max + 1` tokens of a longer one |
| StatisticalModels.PredictOne | statLM/statistical_models.py:91-104 | `predict` on one query raises only for an unfitted model or a missing order (KeyError); a prediction is a single space-free word |
| StatisticalModels.LastToken | statLM/statistical_models.py:101-103 | errors and the sentinel pass through unchanged; a prediction is the text of the top ngram after its last space |
| Tokens.LastOfSplit | statLM/statistical_models.py:103 | the last piece of `s.split(" ")` is the text after the last space of `s`, or all of `s` when it has none |
| StatisticalModels.PredictProbaOne | statLM/statistical_models.py:118-128 | `predict_proba` on one query raises only for an unfitted model, a missing order (KeyError) or a zero sum (ZeroDivisionError) |
| StatisticalModels.PredictBackoff | statLM/statistical_models.py:89-105 | with tables for the orders consulted, `predict` on one query does not fail; it gives the sentinel exactly when no order matches the truncated query, and otherwise the last token of the top ngram of the highest matching order |
| StatisticalModels.LastTokenOfBackoff | statLM/statistical_models.py:101-103 | the last-token step turns what the search promises into that prediction |
| StatisticalModels.PredictAfterFit | statLM/statistical_models.py:68-105 | after `fit`, `predict` fails on a query exactly when `n_max <= 0`, and then with KeyError |
| StatisticalModels.SummaryAfterFit | statLM/statistical_models.py:15-34 | after `fit`, the summary says "not fitted" exactly when `n_max <= 0`, and otherwise lists exactly the orders `1..n_max` |
| StatisticalModels.PredictedAllOk | statLM/statistical_models.py:89-105 | when every query succeeds, the call returns exactly the list of their results, in order |
| StatisticalModels.PredictedAllErr | statLM/statistical_models.py:89-105 | the first query that raises decides the error, whatever follows it |
| StatisticalModels.Collect | statLM/statistical_models.py:89-105 | the loop over the queries returns one result per query, in order, or the error of the first query that raises |
| StatisticalModels.BaseStatisticalModel.constructor | statLM/statistical_models.py:11-13 | the constructor stores `n_max` and the tables as given |
| StatisticalModels.BaseStatisticalModel.GenerateFreq | statLM/statistical_models.py:15-19 | `_generate_freq` replaces the tables by those built for the orders `1..n_max` |
| StatisticalModels.BaseStatisticalModel.Summary | statLM/statistical_models.py:25-34 | the summary holds the model's `n_max`; it says "not fitted" exactly when there are no tables; otherwise it has one entry per stored order, with that table's number of ngrams and its summed count |
| StatisticalModels.BaseStatisticalModel.Add | statLM/statistical_models.py:36-43 | adding models raises when either side is not fitted; otherwise it gives a fresh model with `n_max` 2 holding the order-by-order merge |
| StatisticalModels.RecursiveNextWord.constructor | statLM/statistical_models.py:53-54 | the constructor builds the base model with the given `n_max` and tables |
| StatisticalModels.RecursiveNextWord.Fit | statLM/statistical_models.py:68-78 | `fit` replaces the tables by those built from the corpus and returns the same model |
| StatisticalModels.RecursiveNextWord.Predict | statLM/statistical_models.py:80-105 | `predict` gives one prediction per query, in order, or the first error |
| StatisticalModels.RecursiveNextWord.PredictProba | statLM/statistical_models.py:107-129 | `predict_proba` gives one normalised search result per query, in order, or the first error; `top_n` is ignored |
| Scenario.KeyMatches | statLM/ngram.py:110 | an ngram built from space-free words matches a query exactly when the query is a prefix of its words |
| Scenario.FittedTables | statLM/statistical_models.py:15-19 | the fitted test model holds the vectorizer's trigram and bigram tables at orders 3 and 2 |
| Scenario.TopOfTie | statLM/ngram.py:118-119 | of two entries with equal counts, `most_common(1)` keeps the first |
| Scenario.PredictThatProject | tests/test_models.py:24-31 | "let us see were that project" backs off: no trigram starts "that project", and "project leads" is the first of the tied bigrams, so the prediction is "leads" |
| Scenario.PredictWeAre | tests/test_models.py:24-31 | "we are" predicts "actively", the first of the two tied trigrams |
| Scenario.PredictItIs | tests/test_models.py:24-31 | "it is" predicts "getting" |
| Scenario.PredictShouldBe | tests/test_models.py:24-31 | "it should be" matches nothing at orders 3 and 2, and gives the sentinel |
| Scenario.PredictScenario | tests/test_models.py:14-31 | whatever `predict` returns on the four test queries is `['leads', 'actively', 'getting', <sentinel>]` |
| Scenario.ProbaThatProject | statLM/statistical_models.py:117-128 | `predict_proba` on "let us see were that project" searches ["that", "project"], backs off, and returns the raw bigram count ("project leads", 1) |
| Scenario.ProbaWeAre | statLM/statistical_models.py:117-128 | `predict_proba` on "we are" returns ("we are actively", 0.5) |
| Scenario.ProbaItIs | statLM/statistical_models.py:117-128 | `predict_proba` on "it is" returns ("it is getting", 0.5) |
| Scenario.ProbaShouldBe | statLM/statistical_models.py:121 | `predict_proba` on "it should be" searches the empty query, which matches all 27 trigrams, and returns the first with share 1/27 |
| Scenario.PredictProbaScenario | statLM/statistical_models.py:107-129 | whatever `predict_proba` returns on the four test queries is that list of four results |

## Left out

- The `CountVectorizer` extraction (statLM/ngram.py:27-44) is a foreign
  library call. It is a parameter of the model: a total function from a
  corpus to a table with positive counts. The scenario assumes the vocabulary
  comes out alphabetically sorted, with the counts of the test corpus.
- sklearn's own errors are not modelled. `fit_transform` (statLM/ngram.py:37)
  raises ValueError "empty vocabulary", for example on an empty corpus or on
  documents too short for an order. The extractor here always returns a
  table, so `NGram.FromCorpus`, `RecursiveNextWord.Fit` and `PredictAfterFit`
  succeed where the source raises.
- Floating point: counts and shares are real numbers. Float rounding in the
  normalisation is not modelled.
- `numpy.NaN` is `None`. The NaN equality quirk the test's `assertEqual`
  relies on is not modelled.
- The text of `__repr__` and `__str__` (statLM/ngram.py:66-72,
  statLM/statistical_models.py:25-34): only the per-order summary is
  modelled, not the strings.
- `__iter__` (statLM/ngram.py:77-79) is a plain generator over the entries;
  the entries in order are the table itself.
- The `__main__` demo blocks, setup.py and tests/test_basic.py (which imports
  a class that does not exist) are not part of this model.
- Python's runtime type dispatch is modelled by datatypes (`FrequencyArg`,
  `CorpusArg`, `Query`, `Subscript`). Values of other types are one
  "anything else" case each. A query of another type in `search_ngrams`,
  and queries that are not strings in `predict`, are not modelled.
- Dict order of a table passed in by the caller is the order of its entries;
  key equality is string equality.
- `RecursiveNextWord` inherits from `BaseStatisticalModel` in the source. Here
  it holds a `BaseStatisticalModel` as `base`, and `__add__` is a method of
  the base class only.
- The constructor stores the tables map as a value. The source keeps a
  reference to the caller's dict (statLM/statistical_models.py:13), so later
  changes the caller makes to it would show in the model. Aliasing is not
  modelled. The core itself never changes that dict in place.
- StatisticalModels.PredictBackoff: assumes tables for every order the search
  consults. A missing order raises KeyError in the source; `PredictAfterFit`
  covers the models `fit` builds.
