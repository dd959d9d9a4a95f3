/** Reduction of one score vector to the observation (label, confidence)
    that the debounce machine consumes: a left-to-right arg-max scan. */
module Reduction {

  /** The initial best score of the scan; a score must exceed it strictly. */
  const Sentinel: real := -1000.0

  /** The arg-max of one score vector: the winning class index and its score. */
  datatype Observation = Observation(labelIndex: nat, confidence: real)

  /** The scan as a fold over the vector, from the left: a later score
      replaces the current best only when it is strictly greater. */
  function Scan(s: seq<real>): Observation
    decreases |s|
  {
    if s == [] then Observation(0, Sentinel)
    else
      var best := Scan(s[..|s| - 1]);
      if s[|s| - 1] > best.confidence then Observation(|s| - 1, s[|s| - 1]) else best
  }

  /** What the scan promises: when some score beats the sentinel, the label
      indexes a maximum, its score is the confidence, and every earlier index
      scores strictly less (the first maximum wins a tie); otherwise the
      result is index 0 with the sentinel as confidence. */
  ghost predicate IsFirstMaximum(s: seq<real>, o: Observation)
  {
    ((exists j :: 0 <= j < |s| && s[j] > Sentinel) ==>
       o.labelIndex < |s| && o.confidence == s[o.labelIndex] &&
       (forall j :: 0 <= j < |s| ==> s[j] <= s[o.labelIndex]) &&
       (forall j :: 0 <= j < o.labelIndex ==> s[j] < s[o.labelIndex])) &&
    ((forall j :: 0 <= j < |s| ==> s[j] <= Sentinel) ==> o == Observation(0, Sentinel))
  }

  lemma {:induction false} ScanIsFirstMaximum(s: seq<real>)
    ensures IsFirstMaximum(s, Scan(s))
    decreases |s|
  {
    if s != [] {
      var p := s[..|s| - 1];
      ScanIsFirstMaximum(p);
      assert forall j :: 0 <= j < |p| ==> p[j] == s[j];
    }
  }

  /** The confidence never falls below the sentinel, and a confidence above
      it names an index of the vector. */
  lemma {:induction false} ScanInRange(s: seq<real>)
    ensures Scan(s).confidence >= Sentinel
    ensures Scan(s).confidence > Sentinel ==> Scan(s).labelIndex < |s|
    decreases |s|
  {
    if s != [] {
      ScanInRange(s[..|s| - 1]);
    }
  }

  /** The scan over the engine's output array, as the task runs it. */
  method ArgMax(scores: array<real>) returns (o: Observation)
    ensures o == Scan(scores[..])
    ensures IsFirstMaximum(scores[..], o)
  {
    var best: nat, maxScore := 0, Sentinel;
    for i := 0 to scores.Length
      invariant Observation(best, maxScore) == Scan(scores[..i])
    {
      assert scores[..i + 1][..i] == scores[..i];
      if scores[i] > maxScore {
        maxScore := scores[i];
        best := i;
      }
    }
    assert scores[..scores.Length] == scores[..];
    o := Observation(best, maxScore);
    ScanIsFirstMaximum(scores[..]);
  }
}
