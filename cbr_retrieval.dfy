/** The ad hoc lookup of `cbr_sintomas_doenca.py`: a label-aware global
    similarity, every case scored against one query, a stable descending
    ranking of (index, similarity) pairs and its first three entries. */
module CbrRetrieval {
  import opened Cases
  import opened JaccardSimilarity

  /** A lookup query carries symptoms and a diagnosis. */
  datatype Query = Query(symptoms: set<string>, diagnosis: string)

  /** One ranking entry, as produced by `enumerate(similarities)`. */
  datatype Scored = Scored(index: nat, sim: real)

  const SymptomsWeight: real := 0.7
  const DiagnosisWeight: real := 0.3
  const TopK: nat := 3

  /** 0.7 times the symptom Jaccard plus 0.3 when the diagnoses agree. */
  function GlobalSimilarity(query: Query, c: Case): (r: real)
    ensures 0.0 <= r <= 1.0
    ensures query.diagnosis == c.diagnosis ==> r >= DiagnosisWeight
    ensures query.diagnosis != c.diagnosis ==> r <= SymptomsWeight
    ensures query.symptoms == c.symptoms && query.diagnosis == c.diagnosis ==> r == 1.0
  {
    var symptomsSim := Jaccard(query.symptoms, c.symptoms);
    var diagnosisSim := if query.diagnosis == c.diagnosis then 1.0 else 0.0;
    JaccardSelf(query.symptoms);
    symptomsSim * SymptomsWeight + diagnosisSim * DiagnosisWeight
  }

  /** Full similarity is reached exactly by the same symptoms and the same
      diagnosis. */
  lemma {:induction false} GlobalSimilarityOneIff(query: Query, c: Case)
    ensures GlobalSimilarity(query, c) == 1.0 <==>
            query.symptoms == c.symptoms && query.diagnosis == c.diagnosis
  {
    JaccardOneIff(query.symptoms, c.symptoms);
  }

  /** The similarity of the query to every case, in case-base order. */
  function Similarities(query: Query, cases: seq<Case>): (sims: seq<real>)
    ensures |sims| == |cases|
    ensures forall j :: 0 <= j < |cases| ==> sims[j] == GlobalSimilarity(query, cases[j])
  {
    seq(|cases|, j requires 0 <= j < |cases| => GlobalSimilarity(query, cases[j]))
  }

  function Enumerate(sims: seq<real>): (es: seq<Scored>)
    ensures |es| == |sims|
    ensures forall j :: 0 <= j < |es| ==> es[j] == Scored(j, sims[j])
  {
    seq(|sims|, j requires 0 <= j < |sims| => Scored(j, sims[j]))
  }

  /** `x` comes before `y` in a stable descending sort of enumerated
      similarities: a larger similarity first, equal ones by position. */
  predicate Precedes(x: Scored, y: Scored) {
    x.sim > y.sim || (x.sim == y.sim && x.index < y.index)
  }

  predicate Ranked(r: seq<Scored>) {
    forall i, j :: 0 <= i < j < |r| ==> Precedes(r[i], r[j])
  }

  predicate IndicesAscending(es: seq<Scored>) {
    forall i, j :: 0 <= i < j < |es| ==> es[i].index < es[j].index
  }

  /** Places `e`, whose position precedes every entry of `r`, in front of
      the first entry whose similarity does not exceed its own. */
  function Insert(e: Scored, r: seq<Scored>): (out: seq<Scored>)
    requires Ranked(r)
    requires forall x | x in r :: e.index < x.index
    ensures Ranked(out)
    ensures multiset(out) == multiset(r) + multiset{e}
  {
    if r == [] || r[0].sim <= e.sim then [e] + r
    else
      var rest := Insert(e, r[1..]);
      HeadPrecedesInserted(e, r, rest);
      ConsRanked(r[0], rest);
      assert r == [r[0]] + r[1..];
      [r[0]] + rest
  }

  /** The head of a ranking precedes everything in its tail and an entry
      it beats on similarity. */
  lemma HeadPrecedesInserted(e: Scored, r: seq<Scored>, rest: seq<Scored>)
    requires Ranked(r) && r != [] && r[0].sim > e.sim
    requires multiset(rest) == multiset(r[1..]) + multiset{e}
    ensures forall x | x in rest :: Precedes(r[0], x)
  {
    forall x | x in rest ensures Precedes(r[0], x) {
      assert x in multiset(rest);
      if x != e {
        assert x in multiset(r[1..]);
        var q :| 0 <= q < |r[1..]| && r[1..][q] == x;
        assert r[q + 1] == x;
      }
    }
  }

  lemma ConsRanked(x: Scored, rest: seq<Scored>)
    requires Ranked(rest)
    requires forall y | y in rest :: Precedes(x, y)
    ensures Ranked([x] + rest)
  {
    var out := [x] + rest;
    forall i, j | 0 <= i < j < |out| ensures Precedes(out[i], out[j]) {
      assert out[j] == rest[j - 1];
      if i > 0 {
        assert out[i] == rest[i - 1];
      }
    }
  }

  /** `sorted(entries, key=sim, reverse=True)`: a stable sort, so entries
      with equal similarity keep their input order. */
  function SortDescending(es: seq<Scored>): (r: seq<Scored>)
    requires IndicesAscending(es)
    ensures Ranked(r)
    ensures multiset(r) == multiset(es)
  {
    if es == [] then []
    else
      TailAscending(es);
      var rest := SortDescending(es[1..]);
      HeadPrecedesTail(es, rest);
      assert es == [es[0]] + es[1..];
      Insert(es[0], rest)
  }

  lemma TailAscending(es: seq<Scored>)
    requires IndicesAscending(es) && es != []
    ensures IndicesAscending(es[1..])
  {
    forall i, j | 0 <= i < j < |es[1..]| ensures es[1..][i].index < es[1..][j].index {
      assert es[1..][i] == es[i + 1] && es[1..][j] == es[j + 1];
    }
  }

  lemma HeadPrecedesTail(es: seq<Scored>, rest: seq<Scored>)
    requires IndicesAscending(es) && es != []
    requires multiset(rest) == multiset(es[1..])
    ensures forall x | x in rest :: es[0].index < x.index
  {
    forall x | x in rest ensures es[0].index < x.index {
      assert x in multiset(es[1..]);
      var q :| 0 <= q < |es[1..]| && es[1..][q] == x;
      assert es[q + 1] == x;
    }
  }

  /** `sorted(enumerate(similarities), key=lambda item: item[1], reverse=True)`. */
  function Ranking(sims: seq<real>): (r: seq<Scored>)
    ensures |r| == |sims|
    ensures Ranked(r)
    ensures multiset(r) == multiset(Enumerate(sims))
    ensures forall k :: 0 <= k < |r| ==> r[k].index < |sims| && r[k].sim == sims[r[k].index]
  {
    var es := Enumerate(sims);
    var r := SortDescending(es);
    assert |r| == |multiset(r)| == |multiset(es)| == |es|;
    assert forall k :: 0 <= k < |r| ==> r[k].index < |sims| && r[k].sim == sims[r[k].index] by {
      forall k | 0 <= k < |r| ensures r[k].index < |sims| && r[k].sim == sims[r[k].index] {
        assert r[k] in multiset(es);
      }
    }
    r
  }

  /** Every position of the similarity list occurs in the ranking. */
  lemma {:induction false} RankingCovers(sims: seq<real>, j: nat)
    requires j < |sims|
    ensures exists p :: 0 <= p < |Ranking(sims)| && Ranking(sims)[p] == Scored(j, sims[j])
  {
    var es := Enumerate(sims);
    assert es[j] in multiset(Ranking(sims));
    assert Scored(j, sims[j]) in Ranking(sims);
  }

  /** The head of the ranking is the case the leave-one-out evaluations
      retrieve: the first index of maximum similarity. */
  lemma {:induction false} RankingHeadIsFirstMax(sims: seq<real>)
    requires |sims| > 0
    ensures Ranking(sims)[0].index == FirstMax(sims)
  {
    var r := Ranking(sims);
    var k := r[0].index;
    forall j | 0 <= j < |sims|
      ensures sims[j] <= sims[k] && (j < k ==> sims[j] < sims[k])
    {
      RankingCovers(sims, j);
      var p :| 0 <= p < |r| && r[p] == Scored(j, sims[j]);
      assert p == 0 || Precedes(r[0], r[p]);
    }
    FirstMaxUnique(sims, k, FirstMax(sims));
  }

  /** `ranking[:3]`: the (index, similarity) pairs of the three most similar
      cases, most similar first. */
  function Retrieve(query: Query, cases: seq<Case>): (top: seq<Scored>)
    ensures |top| == if |cases| < TopK then |cases| else TopK
    ensures Ranked(top)
    ensures forall k :: 0 <= k < |top| ==>
              top[k].index < |cases| && top[k].sim == GlobalSimilarity(query, cases[top[k].index])
  {
    var r := Ranking(Similarities(query, cases));
    r[..if |r| < TopK then |r| else TopK]
  }

  /** Any case missing from the first `m` entries of the ranking is
      preceded by each of them. */
  lemma {:induction false} RankingPrefixPrecedes(sims: seq<real>, m: nat, j: nat)
    requires m <= |sims| && j < |sims|
    requires forall k :: 0 <= k < m ==> Ranking(sims)[k].index != j
    ensures forall k :: 0 <= k < m ==> Precedes(Ranking(sims)[k], Scored(j, sims[j]))
  {
    var r := Ranking(sims);
    RankingCovers(sims, j);
    var p :| 0 <= p < |r| && r[p] == Scored(j, sims[j]);
    assert p >= m;
  }

  /** No case left out of the top three scores above any case in it, and a
      case left out with the same score as one kept comes later in the base. */
  lemma {:induction false} RetrieveKeepsTheBest(query: Query, cases: seq<Case>, j: nat)
    requires j < |cases|
    requires forall k :: 0 <= k < |Retrieve(query, cases)| ==> Retrieve(query, cases)[k].index != j
    ensures forall k :: 0 <= k < |Retrieve(query, cases)| ==>
              Precedes(Retrieve(query, cases)[k], Scored(j, GlobalSimilarity(query, cases[j])))
  {
    var sims := Similarities(query, cases);
    var r := Ranking(sims);
    var top := Retrieve(query, cases);
    assert top == r[..|top|];
    assert forall k :: 0 <= k < |top| ==> r[k].index != j by {
      forall k | 0 <= k < |top| ensures r[k].index != j {
        assert top[k] == r[k];
      }
    }
    RankingPrefixPrecedes(sims, |top|, j);
    forall k | 0 <= k < |top|
      ensures Precedes(top[k], Scored(j, GlobalSimilarity(query, cases[j])))
    {
      assert top[k] == r[k] && sims[j] == GlobalSimilarity(query, cases[j]);
    }
  }

  /** Two cases that differ only in diagnosis, queried with the
      diagnosis of the first: the first ranks ahead, scoring 1.0. */
  lemma {:induction false} ExactMatchRanksFirst(s: set<string>, d1: string, d2: string)
    requires d1 != d2
    ensures Retrieve(Query(s, d1), [Case(s, d1), Case(s, d2)]) ==
            [Scored(0, 1.0), Scored(1, SymptomsWeight)]
  {
    var cases := [Case(s, d1), Case(s, d2)];
    var q := Query(s, d1);
    JaccardSelf(s);
    var top := Retrieve(q, cases);
    assert GlobalSimilarity(q, cases[0]) == 1.0;
    assert GlobalSimilarity(q, cases[1]) == SymptomsWeight;
    assert |top| == 2;
    assert Precedes(top[0], top[1]);
    assert top[0].index != top[1].index;
  }
}
