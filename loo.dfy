/** The leave-one-out evaluation of `teste_loo.py`: each case in turn is
    held out, its symptoms alone query the remaining cases with plain
    Jaccard similarity, and the first most similar case's diagnosis is
    compared with the held-out one. */
module Loo {
  import opened Cases
  import opened JaccardSimilarity

  /** The global similarity of the evaluation: the symptom Jaccard only.
      The query is a bare symptom set; no diagnosis takes part. */
  function LooSimilarity(query: set<string>, c: Case): (r: real)
    ensures 0.0 <= r <= 1.0
    ensures r == 1.0 <==> query == c.symptoms
  {
    JaccardOneIff(query, c.symptoms);
    Jaccard(query, c.symptoms)
  }

  /** The recorded diagnosis of a case never changes its score. */
  lemma LooSimilarityIgnoresDiagnosis(query: set<string>, c: Case, d: string)
    ensures LooSimilarity(query, c) == LooSimilarity(query, c.(diagnosis := d))
  {
  }

  function LooSimilarities(query: set<string>, base: seq<Case>): (sims: seq<real>)
    ensures |sims| == |base|
    ensures forall j :: 0 <= j < |base| ==> sims[j] == LooSimilarity(query, base[j])
  {
    seq(|base|, j requires 0 <= j < |base| => LooSimilarity(query, base[j]))
  }

  /** The case retrieved for held-out case `i`; `None` when nothing is
      left to retrieve from. */
  function Retrieved(cases: seq<Case>, i: nat): (c: Option<Case>)
    requires i < |cases|
    ensures c.None? <==> |cases| == 1
    ensures c.Some? ==> exists j :: 0 <= j < |cases| && j != i && cases[j] == c.value
  {
    var base := Without(cases, i);
    if |base| == 0 then None
    else
      var k := FirstMax(LooSimilarities(cases[i].symptoms, base));
      assert k < i ==> base[k] == cases[k];
      assert k >= i ==> base[k] == cases[k + 1];
      Some(base[k])
  }

  /** Whether the evaluation of held-out case `i` counts as a hit. */
  predicate Hit(cases: seq<Case>, i: nat)
    requires i < |cases|
  {
    var c := Retrieved(cases, i);
    c.Some? && c.value.diagnosis == cases[i].diagnosis
  }

  function Outcomes(cases: seq<Case>): (hits: seq<bool>)
    ensures |hits| == |cases|
    ensures forall i :: 0 <= i < |cases| ==> hits[i] == Hit(cases, i)
  {
    seq(|cases|, i requires 0 <= i < |cases| => Hit(cases, i))
  }

  /** The evaluation loop: returns `acertos` and the accuracy in percent. */
  method LeaveOneOut(cases: seq<Case>) returns (hits: nat, accuracy: Option<real>)
    ensures hits == CountTrue(Outcomes(cases))
    ensures hits <= |cases|
    ensures accuracy == Accuracy(hits, |cases|)
  {
    hits := 0;
    for i := 0 to |cases|
      invariant hits == CountTrue(Outcomes(cases)[..i])
    {
      CountTruePrefix(Outcomes(cases), i);
      var truth := cases[i].diagnosis;
      var query := cases[i].symptoms;
      var base := cases[..i] + cases[i + 1..];
      assert base == Without(cases, i);
      var sims := LooSimilarities(query, base);
      if |sims| == 0 {
        assert Retrieved(cases, i) == None;
        continue;
      }
      var k := IndexOfMax(sims);
      assert Retrieved(cases, i) == Some(base[k]);
      var predicted := base[k].diagnosis;
      if predicted == truth {
        hits := hits + 1;
      }
    }
    assert Outcomes(cases)[..|cases|] == Outcomes(cases);
    accuracy := Accuracy(hits, |cases|);
  }

  /** A base of a single case skips its only iteration: no hits. */
  lemma SingleCaseNoHits(cases: seq<Case>)
    requires |cases| == 1
    ensures CountTrue(Outcomes(cases)) == 0
  {
  }

  /** Holding out a case whose symptoms another case shares retrieves a
      case with exactly those symptoms (similarity 1.0). */
  lemma {:induction false} TwinIsRetrieved(cases: seq<Case>, i: nat, j: nat)
    requires i < |cases| && j < |cases| && i != j
    requires cases[j].symptoms == cases[i].symptoms
    ensures Retrieved(cases, i).Some?
    ensures Retrieved(cases, i).value.symptoms == cases[i].symptoms
  {
    var base := Without(cases, i);
    var sims := LooSimilarities(cases[i].symptoms, base);
    var t := if j < i then j else j - 1;
    assert base[t] == cases[j];
    assert sims[t] == 1.0;
    var k := FirstMax(sims);
    assert sims[k] >= sims[t];
    assert LooSimilarity(cases[i].symptoms, base[k]) == 1.0;
  }

  /** When all cases with the held-out symptoms agree on the diagnosis and
      there are at least two of them, the held-out case is a hit. */
  lemma {:induction false} ConsistentTwinIsHit(cases: seq<Case>, i: nat, j: nat)
    requires i < |cases| && j < |cases| && i != j
    requires cases[j].symptoms == cases[i].symptoms
    requires forall k :: 0 <= k < |cases| && cases[k].symptoms == cases[i].symptoms ==>
               cases[k].diagnosis == cases[i].diagnosis
    ensures Hit(cases, i)
  {
    TwinIsRetrieved(cases, i, j);
  }

  /** Two identical cases and one with disjoint symptoms and another
      diagnosis: the twins are hits, the odd case is not, so 2 of 3. */
  lemma {:induction false} TwinsAndOutlier(cases: seq<Case>, a: string, b: string, c: string, l1: string, l2: string)
    requires c != a && c != b && l1 != l2
    requires cases == [Case({a, b}, l1), Case({a, b}, l1), Case({c}, l2)]
    ensures Outcomes(cases) == [true, true, false]
    ensures CountTrue(Outcomes(cases)) == 2
    ensures Accuracy(CountTrue(Outcomes(cases)), |cases|) == Some(200.0 / 3.0)
  {
    TwinsHit(cases, a, b, c, l1, l2);
    OutlierMisses(cases, a, b, c, l1, l2);
    var o := Outcomes(cases);
    assert |o| == 3 && o[0] && o[1] && !o[2];
    assert o == [true, true, false];
    TwoOfThree();
  }

  lemma TwoOfThree()
    ensures CountTrue([true, true, false]) == 2
    ensures Accuracy(2, 3) == Some(200.0 / 3.0)
  {
    assert [true, true, false][..2] == [true, true];
    assert [true, true][..1] == [true];
  }

  lemma {:induction false} TwinsHit(cases: seq<Case>, a: string, b: string, c: string, l1: string, l2: string)
    requires c != a && c != b
    requires cases == [Case({a, b}, l1), Case({a, b}, l1), Case({c}, l2)]
    ensures Hit(cases, 0) && Hit(cases, 1)
  {
    assert {c} != {a, b} by { assert c in {c} && c !in {a, b}; }
    assert forall k :: 0 <= k < |cases| && cases[k].symptoms == {a, b} ==> cases[k].diagnosis == l1;
    ConsistentTwinIsHit(cases, 0, 1);
    ConsistentTwinIsHit(cases, 1, 0);
  }

  lemma {:induction false} OutlierMisses(cases: seq<Case>, a: string, b: string, c: string, l1: string, l2: string)
    requires c != a && c != b && l1 != l2
    requires cases == [Case({a, b}, l1), Case({a, b}, l1), Case({c}, l2)]
    ensures !Hit(cases, 2)
  {
    var base := Without(cases, 2);
    assert base == [cases[0], cases[1]];
    JaccardDisjoint({c}, {a, b});
    var sims := LooSimilarities({c}, base);
    assert sims[0] == 0.0 && sims[1] == 0.0;
    assert IsFirstMax(sims, 0);
    FirstMaxUnique(sims, 0, FirstMax(sims));
    assert Retrieved(cases, 2) == Some(cases[0]);
  }
}
