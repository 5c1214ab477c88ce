/** The improved leave-one-out evaluation of `teste_loo_melhorado.py`:
    the same protocol as `teste_loo.py`, scored by a Jaccard similarity in
    which every symptom counts with its IDF weight. The weights are an
    input map; how they are derived from the corpus is not modelled. */
module WeightedLoo {
  import opened Cases
  import opened JaccardSimilarity
  import Loo

  /** `weights.get(symptom, 0)`. */
  function WeightOf(w: map<string, real>, f: string): real {
    if f in w then w[f] else 0.0
  }

  predicate NonNegative(w: map<string, real>) {
    forall f | f in w :: w[f] >= 0.0
  }

  /** `sum(weights.get(symptom, 0) for symptom in s)`, in whatever order
      the set is iterated (the sum does not depend on it; see WeightSumRemove). */
  ghost function WeightSum(s: set<string>, w: map<string, real>): real
    decreases |s|
  {
    if s == {} then 0.0
    else
      var f :| f in s;
      WeightOf(w, f) + WeightSum(s - {f}, w)
  }

  /** Any symptom can be taken out of the sum first. */
  lemma {:induction false} WeightSumRemove(s: set<string>, w: map<string, real>, g: string)
    requires g in s
    ensures WeightSum(s, w) == WeightOf(w, g) + WeightSum(s - {g}, w)
    decreases |s|
  {
    var f :| f in s && WeightSum(s, w) == WeightOf(w, f) + WeightSum(s - {f}, w);
    if f != g {
      WeightSumRemove(s - {f}, w, g);
      WeightSumRemove(s - {g}, w, f);
      assert s - {f} - {g} == s - {g} - {f};
    }
  }

  /** A symptom with no weight adds 0: only the weighted symptoms count. */
  lemma {:induction false} WeightSumIgnoresUnweighted(s: set<string>, w: map<string, real>)
    ensures WeightSum(s, w) == WeightSum(s * w.Keys, w)
    decreases |s|
  {
    if s != {} {
      var g :| g in s;
      WeightSumRemove(s, w, g);
      WeightSumIgnoresUnweighted(s - {g}, w);
      if g in w.Keys {
        WeightSumRemove(s * w.Keys, w, g);
        assert (s * w.Keys) - {g} == (s - {g}) * w.Keys;
      } else {
        assert s * w.Keys == (s - {g}) * w.Keys;
      }
    }
  }

  lemma {:induction false} WeightSumZero(s: set<string>, w: map<string, real>)
    requires forall f | f in s :: WeightOf(w, f) == 0.0
    ensures WeightSum(s, w) == 0.0
    decreases |s|
  {
    if s != {} {
      var g :| g in s;
      WeightSumRemove(s, w, g);
      WeightSumZero(s - {g}, w);
    }
  }

  /** With non-negative weights, a subset never weighs more. */
  lemma {:induction false} WeightSumMonotone(a: set<string>, b: set<string>, w: map<string, real>)
    requires NonNegative(w) && a <= b
    ensures 0.0 <= WeightSum(a, w) <= WeightSum(b, w)
    decreases |b|
  {
    if b == {} {
    } else if b - a == {} {
      assert b == a + (b - a);
      var g :| g in b;
      WeightSumRemove(b, w, g);
      WeightSumMonotone(b - {g}, b - {g}, w);
    } else {
      var g :| g in b - a;
      WeightSumRemove(b, w, g);
      WeightSumMonotone(a, b - {g}, w);
    }
  }

  /** With every weight 1, the sum counts the symptoms. */
  lemma {:induction false} WeightSumUnit(s: set<string>, w: map<string, real>)
    requires forall f | f in s :: WeightOf(w, f) == 1.0
    ensures WeightSum(s, w) == |s| as real
    decreases |s|
  {
    if s != {} {
      var g :| g in s;
      WeightSumRemove(s, w, g);
      WeightSumUnit(s - {g}, w);
    }
  }

  /** The summation loop over the set. */
  method SumWeights(s: set<string>, w: map<string, real>) returns (total: real)
    ensures total == WeightSum(s, w)
  {
    total := 0.0;
    var rest := s;
    while rest != {}
      invariant total + WeightSum(rest, w) == WeightSum(s, w)
      decreases |rest|
    {
      var f :| f in rest;
      WeightSumRemove(rest, w, f);
      total := total + WeightOf(w, f);
      rest := rest - {f};
    }
  }

  /** Intersection weight over union weight, 0.0 when the union weighs
      nothing (two empty sets included). */
  ghost function WeightedJaccard(a: set<string>, b: set<string>, w: map<string, real>): real {
    var intersectionWeight := WeightSum(a * b, w);
    var unionWeight := WeightSum(a + b, w);
    if unionWeight == 0.0 then 0.0 else intersectionWeight / unionWeight
  }

  /** `weighted_jaccard_similarity(set1, set2, weights)`. */
  method WeightedJaccardSimilarity(a: set<string>, b: set<string>, w: map<string, real>) returns (r: real)
    ensures r == WeightedJaccard(a, b, w)
  {
    var intersectionWeight := SumWeights(a * b, w);
    var unionWeight := SumWeights(a + b, w);
    if unionWeight == 0.0 {
      return 0.0;
    }
    return intersectionWeight / unionWeight;
  }

  lemma WeightedJaccardSymmetric(a: set<string>, b: set<string>, w: map<string, real>)
    ensures WeightedJaccard(a, b, w) == WeightedJaccard(b, a, w)
  {
    assert a * b == b * a && a + b == b + a;
  }

  /** Unlike the plain Jaccard similarity, two empty sets score 0.0. */
  lemma WeightedJaccardBothEmpty(w: map<string, real>)
    ensures WeightedJaccard({}, {}, w) == 0.0
  {
  }

  /** Symptoms outside the weight map make no difference to the score. */
  lemma {:induction false} WeightedJaccardIgnoresUnweighted(a: set<string>, b: set<string>, w: map<string, real>)
    ensures WeightedJaccard(a, b, w) == WeightedJaccard(a * w.Keys, b * w.Keys, w)
  {
    var k := w.Keys;
    WeightSumIgnoresUnweighted(a * b, w);
    WeightSumIgnoresUnweighted(a + b, w);
    WeightSumIgnoresUnweighted((a * k) * (b * k), w);
    WeightSumIgnoresUnweighted((a * k) + (b * k), w);
    assert (a * k) * (b * k) == (a * b) * k;
    assert (a * k) + (b * k) == (a + b) * k;
    assert ((a * b) * k) * k == (a * b) * k;
    assert ((a + b) * k) * k == (a + b) * k;
  }

  /** When no symptom of either set carries weight, the score is 0.0. */
  lemma {:induction false} WeightedJaccardZeroUnion(a: set<string>, b: set<string>, w: map<string, real>)
    requires forall f | f in a + b :: WeightOf(w, f) == 0.0
    ensures WeightedJaccard(a, b, w) == 0.0
  {
    WeightSumZero(a + b, w);
  }

  /** With non-negative weights the score lies in [0, 1]. */
  lemma {:induction false} WeightedJaccardBounds(a: set<string>, b: set<string>, w: map<string, real>)
    requires NonNegative(w)
    ensures 0.0 <= WeightedJaccard(a, b, w) <= 1.0
  {
    WeightSumMonotone(a * b, a + b, w);
    var i, u := WeightSum(a * b, w), WeightSum(a + b, w);
    if u != 0.0 {
      RealRatioInUnit(i, u);
    }
  }

  lemma RealRatioInUnit(i: real, u: real)
    requires 0.0 <= i <= u && u > 0.0
    ensures 0.0 <= i / u <= 1.0
  {
    assert i / u * u == i;
  }

  /** A set whose symptoms carry some weight is fully similar to itself;
      one whose symptoms weigh nothing scores 0.0 against itself. */
  lemma WeightedJaccardSelf(a: set<string>, w: map<string, real>)
    ensures WeightSum(a, w) != 0.0 ==> WeightedJaccard(a, a, w) == 1.0
    ensures WeightSum(a, w) == 0.0 ==> WeightedJaccard(a, a, w) == 0.0
  {
    assert a * a == a && a + a == a;
    var u := WeightSum(a, w);
    if u != 0.0 {
      assert u / u == 1.0;
    }
  }

  /** With every weight 1 the weighted score is the plain Jaccard score
      whenever the union is non-empty. */
  lemma {:induction false} WeightedJaccardUnitIsJaccard(a: set<string>, b: set<string>, w: map<string, real>)
    requires forall f | f in a + b :: WeightOf(w, f) == 1.0
    requires a + b != {}
    ensures WeightedJaccard(a, b, w) == Jaccard(a, b)
  {
    WeightSumUnit(a * b, w);
    WeightSumUnit(a + b, w);
    JaccardRatio(a, b);
    var z :| z in a + b;
    assert |a + b| > 0 by { assert z in a + b; }
  }

  ghost function WeightedSimilarities(query: set<string>, base: seq<Case>, w: map<string, real>): (sims: seq<real>)
    ensures |sims| == |base|
    ensures forall j :: 0 <= j < |base| ==> sims[j] == WeightedJaccard(query, base[j].symptoms, w)
  {
    seq(|base|, j requires 0 <= j < |base| => WeightedJaccard(query, base[j].symptoms, w))
  }

  /** The case retrieved for held-out case `i` (`np.argmax` over the
      weighted similarities); `None` when nothing is left. */
  ghost function WeightedRetrieved(cases: seq<Case>, w: map<string, real>, i: nat): (c: Option<Case>)
    requires i < |cases|
    ensures c.None? <==> |cases| == 1
    ensures c.Some? ==> exists j :: 0 <= j < |cases| && j != i && cases[j] == c.value
  {
    var base := Without(cases, i);
    if |base| == 0 then None
    else
      var k := FirstMax(WeightedSimilarities(cases[i].symptoms, base, w));
      assert k < i ==> base[k] == cases[k];
      assert k >= i ==> base[k] == cases[k + 1];
      Some(base[k])
  }

  ghost predicate WeightedHit(cases: seq<Case>, w: map<string, real>, i: nat)
    requires i < |cases|
  {
    var c := WeightedRetrieved(cases, w, i);
    c.Some? && c.value.diagnosis == cases[i].diagnosis
  }

  ghost function WeightedOutcomes(cases: seq<Case>, w: map<string, real>): (hits: seq<bool>)
    ensures |hits| == |cases|
    ensures forall i :: 0 <= i < |cases| ==> hits[i] == WeightedHit(cases, w, i)
  {
    seq(|cases|, i requires 0 <= i < |cases| => WeightedHit(cases, w, i))
  }

  /** The list comprehension scoring the query against every case of the
      held-out base. */
  method ScoreBase(query: set<string>, base: seq<Case>, w: map<string, real>) returns (sims: seq<real>)
    ensures sims == WeightedSimilarities(query, base, w)
  {
    sims := [];
    for j := 0 to |base|
      invariant |sims| == j
      invariant forall t :: 0 <= t < j ==> sims[t] == WeightedJaccard(query, base[t].symptoms, w)
    {
      var s := WeightedJaccardSimilarity(query, base[j].symptoms, w);
      sims := sims + [s];
    }
  }

  /** The evaluation loop with IDF weights: returns `acertos` and the
      accuracy in percent. */
  method WeightedLeaveOneOut(cases: seq<Case>, w: map<string, real>) returns (hits: nat, accuracy: Option<real>)
    ensures hits == CountTrue(WeightedOutcomes(cases, w))
    ensures hits <= |cases|
    ensures accuracy == Accuracy(hits, |cases|)
  {
    hits := 0;
    for i := 0 to |cases|
      invariant hits == CountTrue(WeightedOutcomes(cases, w)[..i])
    {
      CountTruePrefix(WeightedOutcomes(cases, w), i);
      var truth := cases[i].diagnosis;
      var query := cases[i].symptoms;
      var base := cases[..i] + cases[i + 1..];
      assert base == Without(cases, i);
      var sims := ScoreBase(query, base, w);
      if |sims| == 0 {
        assert WeightedRetrieved(cases, w, i) == None;
        continue;
      }
      var k := ArgMax(sims);
      assert WeightedRetrieved(cases, w, i) == Some(base[k]);
      var predicted := base[k].diagnosis;
      if predicted == truth {
        hits := hits + 1;
      }
    }
    assert WeightedOutcomes(cases, w)[..|cases|] == WeightedOutcomes(cases, w);
    accuracy := Accuracy(hits, |cases|);
  }

  /** A base of a single case skips its only iteration: no hits. */
  lemma WeightedSingleCaseNoHits(cases: seq<Case>, w: map<string, real>)
    requires |cases| == 1
    ensures CountTrue(WeightedOutcomes(cases, w)) == 0
  {
  }

  /** Holding out a case whose weighted symptoms another case shares, when
      those symptoms carry some weight, retrieves a case that scores 1.0
      against it. */
  lemma {:induction false} WeightedTwinScoresOne(cases: seq<Case>, w: map<string, real>, i: nat, j: nat)
    requires NonNegative(w)
    requires i < |cases| && j < |cases| && i != j
    requires cases[j].symptoms * w.Keys == cases[i].symptoms * w.Keys
    requires WeightSum(cases[i].symptoms, w) != 0.0
    ensures WeightedRetrieved(cases, w, i).Some?
    ensures WeightedJaccard(cases[i].symptoms, WeightedRetrieved(cases, w, i).value.symptoms, w) == 1.0
  {
    var query := cases[i].symptoms;
    var base := Without(cases, i);
    var sims := WeightedSimilarities(query, base, w);
    var t := if j < i then j else j - 1;
    assert base[t] == cases[j];
    WeightedJaccardIgnoresUnweighted(query, cases[j].symptoms, w);
    WeightSumIgnoresUnweighted(query, w);
    WeightedJaccardSelf(query * w.Keys, w);
    assert sims[t] == 1.0;
    var k := FirstMax(sims);
    assert sims[k] >= sims[t];
    WeightedJaccardBounds(query, base[k].symptoms, w);
    assert WeightedRetrieved(cases, w, i) == Some(base[k]);
  }

  /** A query whose symptoms weigh nothing shares no weight with any case,
      so it scores 0.0 against every one. */
  lemma {:induction false} ZeroWeightQueryScoresZero(q: set<string>, b: set<string>, w: map<string, real>)
    requires NonNegative(w) && WeightSum(q, w) == 0.0
    ensures WeightedJaccard(q, b, w) == 0.0
  {
    WeightSumMonotone(q * b, q, w);
  }

  /** Holding out a case whose symptoms weigh nothing ties every case of the
      base at 0.0, and `np.argmax` retrieves the first one. */
  lemma {:induction false} ZeroWeightQueryRetrievesFirst(cases: seq<Case>, w: map<string, real>, i: nat)
    requires NonNegative(w) && i < |cases| && |cases| > 1
    requires WeightSum(cases[i].symptoms, w) == 0.0
    ensures WeightedRetrieved(cases, w, i) == Some(Without(cases, i)[0])
  {
    var base := Without(cases, i);
    var sims := WeightedSimilarities(cases[i].symptoms, base, w);
    forall j | 0 <= j < |sims| ensures sims[j] == 0.0 {
      ZeroWeightQueryScoresZero(cases[i].symptoms, base[j].symptoms, w);
    }
    assert IsFirstMax(sims, 0);
    FirstMaxUnique(sims, 0, FirstMax(sims));
  }

  /** An instance: with no weights at all, the consistent twins of the third
      case are passed over for the first case of the base, so the plain
      evaluation counts a hit where the weighted one counts a miss. */
  lemma {:induction false} UnweightedTwinMissed(cases: seq<Case>, x: string, y: string, l1: string, l2: string)
    requires x != y && l1 != l2
    requires cases == [Case({x}, l2), Case({y}, l1), Case({y}, l1)]
    ensures Loo.Hit(cases, 2)
    ensures !WeightedHit(cases, map[], 2)
  {
    assert {x} != {y} by { assert x in {x} && x !in {y}; }
    Loo.ConsistentTwinIsHit(cases, 2, 1);
    var w: map<string, real> := map[];
    WeightSumZero({y}, w);
    ZeroWeightQueryRetrievesFirst(cases, w, 2);
    assert Without(cases, 2)[0] == cases[0];
  }
}
