# Case-based retrieval of diagnoses from symptoms

This project models the retrieval core of a small case-based-reasoning
system that suggests a diagnosis from a set of symptoms. A case is a set
of symptom names with a recorded diagnosis (`prognosis`). The core has
three scripts, and each one repeats part of the same logic:

- `scripts/cbr_sintomas_doenca.py` answers one ad hoc query. It scores every
  case with a global similarity: 0.7 times the Jaccard similarity of the
  symptom sets, plus 0.3 when the diagnoses agree. It sorts the
  `(index, similarity)` pairs by descending similarity with a stable sort
  and keeps the first three. This is module `CbrRetrieval`, which builds on
  `JaccardSimilarity`.
- `scripts/teste_loo.py` runs a leave-one-out evaluation. Each case is held
  out in turn, and its symptoms alone query the other cases using plain
  Jaccard. The first case of maximum similarity
  (`similarities.index(max(similarities))`) predicts the diagnosis. The hits
  are counted and the accuracy is `hits / number of cases * 100`. This is
  module `Loo`.
- `scripts/teste_loo_melhorado.py` runs the same evaluation with a weighted
  Jaccard similarity. Each symptom counts with its IDF weight, and a symptom
  missing from the weight map counts 0. It retrieves with `np.argmax`.
  This is module `WeightedLoo`.

Module `Cases` holds what the scripts share. It has the case record, the
held-out base `all_cases[:i] + all_cases[i+1:]`, the first-maximum
retrieval (as a specification function and as the two loops the scripts
use), the hit counter and the accuracy.

Similarities are exact `real` ratios. Python's sum over a set visits the
set's elements in an unspecified order, so the weighted sum `WeightSum` is a
ghost function. Lemma `WeightSumRemove` proves that the order does not
matter. The method `SumWeights` computes the sum by iterating over the set,
as `sum(...)` does, and is proved equal to `WeightSum`. The leave-one-out
loops are methods. Each is proved to return the number of hits that a
per-case specification (`Hit`, `WeightedHit`) defines, and the accuracy
that `Accuracy` defines.

Two behaviours of the scripts are easy to miss, and the model keeps both:
- The accuracy divides by the number of all cases, including an iteration
  skipped because its held-out base is empty.
- Two empty symptom sets score 1.0 under plain Jaccard but 0.0 under the
  weighted Jaccard, because the zero-union test comes first.

## Model

| member | source | states |
|---|---|---|
| `Cases.Without` | scripts/teste_loo.py:61 | the held-out base has n−1 cases: those before `i` at their own positions, those after `i` shifted down by one; as a multiset it is the original minus case `i` |
| `Cases.FirstMax` | scripts/teste_loo.py:70 | the retrieved index holds a similarity no smaller than any other, and every earlier index holds a strictly smaller one |
| `Cases.FirstMaxUnique` | scripts/teste_loo.py:70 | at most one index is the first maximum, so the retrieved case is determined |
| `Cases.Max` | scripts/teste_loo.py:70 | `max(similarities)` is an element of the list and bounds every element |
| `Cases.IndexOf` | scripts/teste_loo.py:70 | `list.index(x)` returns a position holding `x` with no earlier position holding it |
| `Cases.IndexOfMax` | scripts/teste_loo.py:70 | `similarities.index(max(similarities))` is the first maximum |
| `Cases.ArgMax` | scripts/teste_loo_melhorado.py:93 | `np.argmax` (one pass, replacing only on a strictly larger value) is the first maximum |
| `Cases.CountTrue` | scripts/teste_loo.py:75-76 | the hit counter never exceeds the number of iterations, and it is 0 exactly when no iteration hits |
| `Cases.Accuracy` | scripts/teste_loo.py:79 | no cases gives no accuracy (Python's division by zero); otherwise hits ≤ cases gives a value in [0, 100], all hits give 100 and no hits give 0 |
| `JaccardSimilarity.Jaccard` | scripts/cbr_sintomas_doenca.py:3-8 | the plain Jaccard similarity lies in [0, 1] |
| `JaccardSimilarity.JaccardRatio` | scripts/teste_loo.py:11-13 | with a non-empty union the score is \|A∩B\| / \|A∪B\| |
| `JaccardSimilarity.JaccardBothEmpty` | scripts/teste_loo.py:10 | two empty sets score 1.0 |
| `JaccardSimilarity.JaccardSymmetric` | scripts/cbr_sintomas_doenca.py:5-8 | swapping the two sets does not change the score |
| `JaccardSimilarity.JaccardSelf` | scripts/teste_loo.py:10-13 | every set scores 1.0 against itself, the empty set included |
| `JaccardSimilarity.JaccardDisjoint` | scripts/teste_loo.py:11-13 | disjoint sets with a non-empty union score 0.0 |
| `JaccardSimilarity.JaccardOneIff` | scripts/teste_loo.py:10-13 | the score is 1.0 if and only if the two sets are equal |
| `CbrRetrieval.GlobalSimilarity` | scripts/cbr_sintomas_doenca.py:10-21 | the label-aware similarity lies in [0, 1]; equal diagnoses give at least 0.3, different ones at most 0.7; same symptoms and diagnosis give 1.0 |
| `CbrRetrieval.GlobalSimilarityOneIff` | scripts/cbr_sintomas_doenca.py:15-21 | the global similarity is 1.0 if and only if the symptoms and the diagnosis both match |
| `CbrRetrieval.Similarities` | scripts/cbr_sintomas_doenca.py:47 | one score per case, in case-base order, each the global similarity of the query to that case |
| `CbrRetrieval.Insert` | scripts/cbr_sintomas_doenca.py:51 | inserting an entry whose position precedes all others keeps the descending, ties-by-position order and adds exactly that entry |
| `CbrRetrieval.SortDescending` | scripts/cbr_sintomas_doenca.py:51 | the stable descending sort of entries in position order is a permutation of them, ordered by similarity descending with ties in ascending position |
| `CbrRetrieval.Ranking` | scripts/cbr_sintomas_doenca.py:51 | the ranking is a permutation of `enumerate(similarities)`: one entry per case, each carrying that case's score, non-increasing, with ties in ascending index order |
| `CbrRetrieval.RankingCovers` | scripts/cbr_sintomas_doenca.py:51 | every case's (index, similarity) pair occurs in the ranking |
| `CbrRetrieval.RankingHeadIsFirstMax` | scripts/cbr_sintomas_doenca.py:51 | the head of the ranking is the first index of maximum similarity, the case the leave-one-out scripts retrieve |
| `CbrRetrieval.Retrieve` | scripts/cbr_sintomas_doenca.py:47-52 | the top-3 has min(3, n) entries (a base of at most three cases is returned whole) in ranking order, each a case's index with its global similarity |
| `CbrRetrieval.RetrieveKeepsTheBest` | scripts/cbr_sintomas_doenca.py:51-52 | every case outside the top 3 is preceded by every kept entry: it scores no higher, and on a tie it comes later in the base |
| `CbrRetrieval.ExactMatchRanksFirst` | scripts/cbr_sintomas_doenca.py:47-52 | two cases with the query's symptoms and different diagnoses rank as (0, 1.0) then (1, 0.7) |
| `Loo.LooSimilarity` | scripts/teste_loo.py:15-23 | the evaluation's similarity lies in [0, 1] and is 1.0 exactly when the query equals the case's symptoms |
| `Loo.LooSimilarityIgnoresDiagnosis` | scripts/teste_loo.py:15-23 | changing a case's diagnosis never changes its score: the label is not read |
| `Loo.LooSimilarities` | scripts/teste_loo.py:64 | one Jaccard score per case of the held-out base, in order |
| `Loo.Retrieved` | scripts/teste_loo.py:61-72 | there is no retrieval exactly when the base has one case; otherwise the retrieved case is some case other than the held-out one |
| `Loo.LeaveOneOut` | scripts/teste_loo.py:46-79 | the loop's counter equals the number of held-out cases whose first-maximum retrieval has the same diagnosis; it is at most n; the accuracy is `Accuracy(hits, n)` |
| `Loo.SingleCaseNoHits` | scripts/teste_loo.py:67-68 | with a single case the only iteration is skipped and nothing is counted |
| `Loo.TwinIsRetrieved` | scripts/teste_loo.py:61-71 | if another case has the held-out symptoms, the retrieved case has exactly those symptoms |
| `Loo.ConsistentTwinIsHit` | scripts/teste_loo.py:61-76 | if another case has the held-out symptoms and all such cases share the diagnosis, the iteration is a hit |
| `Loo.TwinsAndOutlier` | scripts/teste_loo.py:46-79 | two identical cases plus one disjoint case with another diagnosis give outcomes hit, hit, miss: 2 hits and an accuracy of 200/3 % |
| `WeightedLoo.WeightSumRemove` | scripts/teste_loo_melhorado.py:48-51 | the weight sum over a set is any member's weight plus the sum over the rest, so the iteration order does not matter |
| `WeightedLoo.WeightSumIgnoresUnweighted` | scripts/teste_loo_melhorado.py:48 | a symptom absent from the weight map contributes 0: the sum equals the sum over the weighted symptoms only |
| `WeightedLoo.WeightSumZero` | scripts/teste_loo_melhorado.py:51-54 | if every symptom weighs 0 or is unweighted, the sum is 0 |
| `WeightedLoo.WeightSumMonotone` | scripts/teste_loo_melhorado.py:48-51 | with non-negative weights a subset's sum is non-negative and no larger than the superset's |
| `WeightedLoo.WeightSumUnit` | scripts/teste_loo_melhorado.py:48-51 | with every weight 1 the sum is the number of symptoms |
| `WeightedLoo.SumWeights` | scripts/teste_loo_melhorado.py:48 | iterating over the set and adding `weights.get(symptom, 0)` computes the weight sum |
| `WeightedLoo.WeightedJaccardSimilarity` | scripts/teste_loo_melhorado.py:42-56 | the method computes intersection weight over union weight, or 0.0 for a zero union weight |
| `WeightedLoo.WeightedJaccardSymmetric` | scripts/teste_loo_melhorado.py:48-51 | swapping the two sets does not change the weighted score |
| `WeightedLoo.WeightedJaccardBothEmpty` | scripts/teste_loo_melhorado.py:53-54 | two empty sets score 0.0, unlike the plain Jaccard |
| `WeightedLoo.WeightedJaccardIgnoresUnweighted` | scripts/teste_loo_melhorado.py:48-51 | removing the unweighted symptoms from both sets does not change the score |
| `WeightedLoo.WeightedJaccardZeroUnion` | scripts/teste_loo_melhorado.py:53-54 | when no symptom of either set has a weight, the score is exactly 0.0 |
| `WeightedLoo.WeightedJaccardBounds` | scripts/teste_loo_melhorado.py:48-56 | with non-negative weights the score lies in [0, 1] |
| `WeightedLoo.WeightedJaccardUnitIsJaccard` | scripts/teste_loo_melhorado.py:48-56 | with every weight 1 and a non-empty union, the weighted score equals the plain Jaccard score |
| `WeightedLoo.WeightedJaccardSelf` | scripts/teste_loo_melhorado.py:48-56 | a set whose symptoms carry weight scores 1.0 against itself; one whose symptoms weigh nothing scores 0.0 against itself |
| `WeightedLoo.ScoreBase` | scripts/teste_loo_melhorado.py:85-88 | the comprehension yields the weighted score of the query against each case of the held-out base, in order |
| `WeightedLoo.WeightedRetrieved` | scripts/teste_loo_melhorado.py:82-95 | there is no retrieval exactly when the base has one case; otherwise the retrieved case is some case other than the held-out one |
| `WeightedLoo.WeightedLeaveOneOut` | scripts/teste_loo_melhorado.py:72-100 | the loop's counter equals the number of held-out cases whose `np.argmax` retrieval has the same diagnosis; it is at most n; the accuracy is `Accuracy(hits, n)` |
| `WeightedLoo.WeightedSingleCaseNoHits` | scripts/teste_loo_melhorado.py:90-91 | with a single case the only iteration is skipped and nothing is counted |
| `WeightedLoo.WeightedTwinScoresOne` | scripts/teste_loo_melhorado.py:82-94 | with non-negative weights, holding out a case whose symptoms another case shares on the weighted symptoms, when those symptoms carry some weight, retrieves a case scoring 1.0 |
| `WeightedLoo.ZeroWeightQueryScoresZero` | scripts/teste_loo_melhorado.py:48-56 | with non-negative weights, a query whose symptoms weigh nothing scores 0.0 against every set |
| `WeightedLoo.ZeroWeightQueryRetrievesFirst` | scripts/teste_loo_melhorado.py:82-94 | with non-negative weights and at least two cases, holding out a case whose symptoms weigh nothing retrieves the first case of the held-out base |
| `WeightedLoo.UnweightedTwinMissed` | scripts/teste_loo_melhorado.py:82-98 | for the base [({x}, l2), ({y}, l1), ({y}, l1)] with no weights, the plain evaluation hits on the third case and the weighted one misses it |

## Left out

- Reading the CSV files with pandas and projecting each row into a case. This is input; the model takes the cases as a sequence. The `solution`/`tratamento` string is also left out, because it only feeds the printed report.
- The `tqdm` progress bars and every `print` and f-string, including the `:.2f` formatting of the accuracy. These are output only.
- The IDF weights from scikit-learn's `TfidfVectorizer` (scripts/teste_loo_melhorado.py:27-36). This is a call into a library, with its own tokenisation and logarithms. The weights are an input map, and the bounds lemmas assume they are non-negative, as IDF weights are.
- IEEE floating point. Scores are exact reals. With floats, sums and ratios can round (0.1 + 0.2 != 0.3 in IEEE doubles), so ties in `max`, `np.argmax` and the sort may fall differently than in the model.
- scripts/diagnostico.py, which only lists the members of the external `cbrkit` package. It has no logic to model.
- Ranking a case that shares a rare symptom above one that shares a common symptom. This depends on the IDF formula, which is not modelled.
- Duplicate case identifiers. The scripts identify a case by its position, so there are no identifiers to validate.
