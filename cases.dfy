/** Cases, the held-out case base, first-maximum retrieval and the
    hit counter shared by the two leave-one-out evaluations. */
module Cases {

  datatype Option<+T> = None | Some(value: T)

  /** One row of the case base: the symptoms present and the recorded
      diagnosis (the prognosis column). */
  datatype Case = Case(symptoms: set<string>, diagnosis: string)

  /** The base used while case `i` is held out: every case but the
      `i`-th, in the original order (`all_cases[:i] + all_cases[i+1:]`). */
  function Without(cases: seq<Case>, i: nat): (base: seq<Case>)
    requires i < |cases|
    ensures |base| == |cases| - 1
    ensures forall j :: 0 <= j < i ==> base[j] == cases[j]
    ensures forall j :: i <= j < |base| ==> base[j] == cases[j + 1]
    ensures multiset(base) + multiset{cases[i]} == multiset(cases)
  {
    assert cases == cases[..i] + [cases[i]] + cases[i + 1..];
    cases[..i] + cases[i + 1..]
  }

  /** `k` is the first position holding the largest similarity. */
  predicate IsFirstMax(s: seq<real>, k: nat) {
    && k < |s|
    && (forall j :: 0 <= j < |s| ==> s[j] <= s[k])
    && (forall j :: 0 <= j < k ==> s[j] < s[k])
  }

  lemma FirstMaxUnique(s: seq<real>, k1: nat, k2: nat)
    requires IsFirstMax(s, k1) && IsFirstMax(s, k2)
    ensures k1 == k2
  {
    assert s[k1] == s[k2];
  }

  /** The index retrieval returns: the smallest index whose similarity is
      the maximum. */
  function FirstMax(s: seq<real>): (k: nat)
    requires |s| > 0
    ensures IsFirstMax(s, k)
  {
    if |s| == 1 then 0
    else
      var k := FirstMax(s[..|s| - 1]);
      if s[|s| - 1] > s[k] then |s| - 1 else k
  }

  /** Python's `max` over a non-empty list of similarities. */
  function Max(s: seq<real>): (m: real)
    requires |s| > 0
    ensures m in s
    ensures forall j :: 0 <= j < |s| ==> s[j] <= m
  {
    if |s| == 1 then s[0]
    else
      var m := Max(s[..|s| - 1]);
      if s[|s| - 1] > m then s[|s| - 1] else m
  }

  /** Python's `list.index(x)`: the first position holding `x`. */
  method IndexOf(s: seq<real>, x: real) returns (k: nat)
    requires x in s
    ensures k < |s| && s[k] == x
    ensures forall j :: 0 <= j < k ==> s[j] != x
  {
    k := 0;
    while s[k] != x
      invariant k < |s|
      invariant x in s[k..]
      invariant forall j :: 0 <= j < k ==> s[j] != x
      decreases |s| - k
    {
      assert s[k..] == [s[k]] + s[k + 1..];
      k := k + 1;
    }
  }

  /** `similarities.index(max(similarities))` is the first maximum. */
  method IndexOfMax(s: seq<real>) returns (k: nat)
    requires |s| > 0
    ensures IsFirstMax(s, k) && k == FirstMax(s)
  {
    var m := Max(s);
    k := IndexOf(s, m);
    FirstMaxUnique(s, k, FirstMax(s));
  }

  /** `np.argmax(similarities)`: one pass, keeping the first of equal maxima. */
  method ArgMax(s: seq<real>) returns (k: nat)
    requires |s| > 0
    ensures IsFirstMax(s, k) && k == FirstMax(s)
  {
    k := 0;
    var j := 1;
    while j < |s|
      invariant 1 <= j <= |s|
      invariant IsFirstMax(s[..j], k)
    {
      if s[j] > s[k] {
        k := j;
      }
      j := j + 1;
    }
    assert s[..j] == s;
    FirstMaxUnique(s, k, FirstMax(s));
  }

  /** Number of evaluations that were hits. */
  function CountTrue(outcomes: seq<bool>): (n: nat)
    ensures n <= |outcomes|
    ensures n == 0 <==> forall j :: 0 <= j < |outcomes| ==> !outcomes[j]
  {
    if outcomes == [] then 0
    else CountTrue(outcomes[..|outcomes| - 1]) + (if outcomes[|outcomes| - 1] then 1 else 0)
  }

  lemma CountTruePrefix(outcomes: seq<bool>, i: nat)
    requires i < |outcomes|
    ensures CountTrue(outcomes[..i + 1]) == CountTrue(outcomes[..i]) + (if outcomes[i] then 1 else 0)
  {
    assert outcomes[..i + 1][..i] == outcomes[..i];
  }

  /** `acertos / total_de_casos * 100`; Python raises ZeroDivisionError
      when there are no cases, modelled as `None`. */
  function Accuracy(hits: nat, total: nat): (acc: Option<real>)
    ensures acc.None? <==> total == 0
    ensures acc.Some? && hits <= total ==> 0.0 <= acc.value <= 100.0
    ensures acc.Some? && hits == total ==> acc.value == 100.0
    ensures acc.Some? && hits == 0 ==> acc.value == 0.0
  {
    if total == 0 then None
    else Some(hits as real / total as real * 100.0)
  }
}
