/** Ranking of the class probabilities (lib/modelService.ts, lines 162-179):
    CLASSES is paired with the probability vector by index and the list is
    sorted in place by descending confidence. The JavaScript sort is stable,
    and the pairs start in CLASSES order, so equal confidences stay in
    CLASSES order. */
module Ranking {
  import opened Classes

  /** Each class of CLASSES paired with the probability at its own position. */
  function Paired(probabilities: seq<real>): seq<PredictionResult>
    requires |probabilities| >= |CLASSES|
  {
    seq(|CLASSES|, k requires 0 <= k < |CLASSES| => PredictionResult(CLASSES[k], probabilities[k]))
  }

  /** x comes before y in a ranking: higher confidence first, and on equal
      confidence the class earlier in CLASSES first. */
  predicate RankedBefore(x: PredictionResult, y: PredictionResult)
  {
    x.confidence > y.confidence
    || (x.confidence == y.confidence && ClassIndex(x.className) < ClassIndex(y.className))
  }

  predicate Ranked(s: seq<PredictionResult>)
  {
    forall i, j :: 0 <= i < j < |s| ==> RankedBefore(s[i], s[j])
  }

  /** s is the pairing of CLASSES with the probabilities, reordered and ranked. */
  predicate IsRankingOf(s: seq<PredictionResult>, probabilities: seq<real>)
  {
    && |probabilities| >= |CLASSES|
    && multiset(s) == multiset(Paired(probabilities))
    && Ranked(s)
  }

  /** x is the top prediction for the probabilities: it carries its own class's
      probability, no probability exceeds it, and among equal maxima it is the
      class earliest in CLASSES. */
  predicate IsTopOf(x: PredictionResult, probabilities: seq<real>)
  {
    && |probabilities| >= |CLASSES|
    && x.confidence == probabilities[ClassIndex(x.className)]
    && (forall k :: 0 <= k < |CLASSES| ==> probabilities[k] <= x.confidence)
    && (forall k :: 0 <= k < |CLASSES| && probabilities[k] == x.confidence ==> ClassIndex(x.className) <= k)
  }

  /** The first i entries of a are ranked. */
  ghost predicate RankedPrefix(a: array<PredictionResult>, i: nat)
    reads a
  {
    forall k, l :: 0 <= k < l < i && l < a.Length ==> RankedBefore(a[k], a[l])
  }

  lemma RankedBeforeTransitive(x: PredictionResult, y: PredictionResult, z: PredictionResult)
    requires RankedBefore(x, y) && RankedBefore(y, z)
    ensures RankedBefore(x, z)
  {
  }

  /** Builds the pairs in CLASSES order and sorts them in place by descending
      confidence. */
  method RankPredictions(probabilities: seq<real>) returns (predictions: array<PredictionResult>)
    requires |probabilities| >= |CLASSES|
    ensures fresh(predictions) && predictions.Length == |CLASSES|
    ensures IsRankingOf(predictions[..], probabilities)
    ensures forall i, j :: 0 <= i < j < predictions.Length ==> predictions[i].confidence >= predictions[j].confidence
  {
    var n := |CLASSES|;
    predictions := new PredictionResult[n](k requires 0 <= k < n => PredictionResult(CLASSES[k], probabilities[k]));
    ghost var paired := Paired(probabilities);
    assert predictions[..] == paired;
    var i := 1;
    while i < n
      invariant 1 <= i <= n
      invariant RankedPrefix(predictions, i)
      invariant forall k :: i <= k < n ==> predictions[k] == paired[k]
      invariant forall k :: 0 <= k < i ==> ClassIndex(predictions[k].className) < i
      invariant multiset(predictions[..]) == multiset(paired)
    {
      ClassIndexOfClasses(i);
      Insert(predictions, i, paired);
      i := i + 1;
    }
  }

  /** One step of the insertion sort: entry i, whose class is CLASSES[i], is
      moved left past every entry of strictly smaller confidence. */
  method Insert(a: array<PredictionResult>, i: nat, ghost paired: seq<PredictionResult>)
    requires 1 <= i < a.Length == |paired|
    requires RankedPrefix(a, i)
    requires forall k :: i <= k < a.Length ==> a[k] == paired[k]
    requires forall k :: 0 <= k < i ==> ClassIndex(a[k].className) < i
    requires ClassIndex(a[i].className) == i
    modifies a
    ensures RankedPrefix(a, i + 1)
    ensures forall k :: i < k < a.Length ==> a[k] == paired[k]
    ensures forall k :: 0 <= k <= i ==> ClassIndex(a[k].className) < i + 1
    ensures multiset(a[..]) == multiset(old(a[..]))
  {
    var j := i;
    while j > 0 && a[j - 1].confidence < a[j].confidence
      invariant 0 <= j <= i
      invariant a[j] == old(a[i])
      invariant forall k :: i < k < a.Length ==> a[k] == paired[k]
      invariant forall k :: 0 <= k <= i && k != j ==> ClassIndex(a[k].className) < i
      invariant forall k, l :: 0 <= k < l <= i && k != j && l != j ==> RankedBefore(a[k], a[l])
      invariant forall l :: j < l <= i ==> a[l].confidence < a[j].confidence
      invariant multiset(a[..]) == multiset(old(a[..]))
    {
      Swap(a, j - 1);
      j := j - 1;
    }
    forall k, l | 0 <= k < l <= i
      ensures RankedBefore(a[k], a[l])
    {
      if l == j {
        assert RankedBefore(a[j - 1], a[j]);
        if k < j - 1 {
          RankedBeforeTransitive(a[k], a[j - 1], a[j]);
        }
      }
    }
  }

  /** Exchanges entries k and k + 1. */
  method Swap(a: array<PredictionResult>, k: nat)
    requires k + 1 < a.Length
    modifies a
    ensures a[k] == old(a[k + 1]) && a[k + 1] == old(a[k])
    ensures forall m :: 0 <= m < a.Length && m != k && m != k + 1 ==> a[m] == old(a[m])
    ensures multiset(a[..]) == multiset(old(a[..]))
  {
    a[k], a[k + 1] := a[k + 1], a[k];
  }

  /** The first entry of a ranking is the top prediction. */
  lemma TopPrediction(s: seq<PredictionResult>, probabilities: seq<real>)
    requires IsRankingOf(s, probabilities)
    ensures |s| == |CLASSES|
    ensures IsTopOf(s[0], probabilities)
  {
    var paired := Paired(probabilities);
    assert |s| == |multiset(s)| == |multiset(paired)| == |CLASSES|;
    assert s[0] in multiset(paired);
    var m :| 0 <= m < |paired| && paired[m] == s[0];
    ClassIndexOfClasses(m);
    forall k | 0 <= k < |CLASSES|
      ensures probabilities[k] <= s[0].confidence
      ensures probabilities[k] == s[0].confidence ==> ClassIndex(s[0].className) <= k
    {
      ClassIndexOfClasses(k);
      assert paired[k] in multiset(s);
      var j :| 0 <= j < |s| && s[j] == paired[k];
      if j != 0 {
        assert RankedBefore(s[0], s[j]);
      }
    }
  }

  /** Two rankings of the same entries are equal: ranking leaves no choice,
      so ties are resolved one way only. */
  lemma {:induction false} RankedUnique(s: seq<PredictionResult>, t: seq<PredictionResult>)
    requires multiset(s) == multiset(t)
    requires Ranked(s) && Ranked(t)
    ensures s == t
  {
    if s != [] {
      assert |t| == |multiset(t)| == |multiset(s)| == |s|;
      SameHead(s, t);
      var s', t' := s[1..], t[1..];
      assert s == [s[0]] + s' && t == [t[0]] + t';
      assert multiset(s) == multiset{s[0]} + multiset(s');
      assert multiset(t) == multiset{s[0]} + multiset(t');
      assert multiset(s') == multiset(s) - multiset{s[0]};
      assert multiset(t') == multiset(t) - multiset{s[0]};
      assert Ranked(s') && Ranked(t');
      RankedUnique(s', t');
    }
  }

  /** Two non-empty rankings of the same entries start with the same entry. */
  lemma SameHead(s: seq<PredictionResult>, t: seq<PredictionResult>)
    requires multiset(s) == multiset(t) && |s| > 0 && |t| > 0
    requires Ranked(s) && Ranked(t)
    ensures s[0] == t[0]
  {
    assert s[0] in multiset(t) && t[0] in multiset(s);
    var i :| 0 <= i < |t| && t[i] == s[0];
    var j :| 0 <= j < |s| && s[j] == t[0];
    if i != 0 && j != 0 {
      assert RankedBefore(t[0], s[0]);
      assert RankedBefore(s[0], t[0]);
    }
  }

  /** The ranking of a probability vector is unique. */
  lemma RankingUnique(s: seq<PredictionResult>, t: seq<PredictionResult>, probabilities: seq<real>)
    requires IsRankingOf(s, probabilities) && IsRankingOf(t, probabilities)
    ensures s == t
  {
    RankedUnique(s, t);
  }
}
