/** Plain Jaccard similarity between two symptom sets, the function both
    `cbr_sintomas_doenca.py` and `teste_loo.py` define. */
module JaccardSimilarity {

  /** |A ∩ B| / |A ∪ B|, with two empty sets scoring 1.0. */
  function Jaccard(a: set<string>, b: set<string>): (r: real)
    ensures 0.0 <= r <= 1.0
  {
    if a == {} && b == {} then 1.0
    else
      var intersection := |a * b|;
      var union := |a + b|;
      SubsetCard(a * b, a + b);
      if union != 0 then
        RatioInUnit(intersection, union);
        intersection as real / union as real
      else 0.0
  }

  lemma RatioInUnit(i: nat, u: nat)
    requires i <= u && u > 0
    ensures 0.0 <= i as real / u as real <= 1.0
  {
    var x, y := i as real, u as real;
    assert x <= y && y > 0.0;
    assert x / y * y == x;
  }

  lemma SubsetCard(x: set<string>, y: set<string>)
    requires x <= y
    ensures |x| <= |y|
    ensures x != y ==> |x| < |y|
  {
    assert y == x + (y - x);
    assert |y| == |x| + |y - x|;
    if x != y {
      var z :| z in y && z !in x;
      assert z in y - x;
    }
  }

  lemma JaccardRatio(a: set<string>, b: set<string>)
    requires a + b != {}
    ensures Jaccard(a, b) == |a * b| as real / |a + b| as real
  {
    var z :| z in a + b;
    assert |a + b| > 0 by { assert z in a + b; }
  }

  lemma JaccardBothEmpty()
    ensures Jaccard({}, {}) == 1.0
  {
  }

  /** The result depends on the two sets only, not on which is the query. */
  lemma JaccardSymmetric(a: set<string>, b: set<string>)
    ensures Jaccard(a, b) == Jaccard(b, a)
  {
    assert a * b == b * a && a + b == b + a;
  }

  /** Every set is fully similar to itself, the empty set included. */
  lemma JaccardSelf(a: set<string>)
    ensures Jaccard(a, a) == 1.0
  {
    assert a * a == a && a + a == a;
  }

  /** Disjoint sets with something in them share nothing. */
  lemma JaccardDisjoint(a: set<string>, b: set<string>)
    requires a * b == {} && a + b != {}
    ensures Jaccard(a, b) == 0.0
  {
    JaccardRatio(a, b);
  }

  /** The score is 1.0 exactly when the two sets are equal. */
  lemma {:induction false} JaccardOneIff(a: set<string>, b: set<string>)
    ensures Jaccard(a, b) == 1.0 <==> a == b
  {
    if a == b {
      JaccardSelf(a);
    } else {
      assert a + b != {};
      JaccardRatio(a, b);
      var z :| z in (a - b) + (b - a);
      assert z in a + b && z !in a * b;
      SubsetCard(a * b, a + b);
      var i, u := |a * b| as real, |a + b| as real;
      assert i < u && u > 0.0;
      assert i / u < 1.0;
    }
  }
}
