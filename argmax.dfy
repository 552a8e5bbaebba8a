/** The first-maximum scan over a classification model's int8 scores:
    the loop of process_output, stated as a fold, and what it computes. */
module Argmax {

  /** A signed 8-bit quantized score, as stored in the output tensor. */
  newtype int8 = x: int | -128 <= x < 128

  /** The scan's starting state: no class yet, and the lowest int8 score. */
  const NoScore: int8 := -128
  const NoClass: int := -1

  /** The running (max_score, max_class_id) pair after scanning all of `s`,
      starting from (NoScore, NoClass) and replacing it only on a strictly
      greater score. This is the loop's step function, applied left to right. */
  function Scan(s: seq<int8>): (int8, int)
  {
    if |s| == 0 then (NoScore, NoClass)
    else
      var prev := Scan(s[..|s| - 1]);
      if s[|s| - 1] > prev.0 then (s[|s| - 1], |s| - 1) else prev
  }

  /** Reference definition, independent of the scan: `k` is the first index
      holding the largest score of `s`. */
  ghost predicate IsFirstMax(s: seq<int8>, k: int)
  {
    0 <= k < |s| &&
    (forall j :: 0 <= j < |s| ==> s[j] <= s[k]) &&
    (forall j :: 0 <= j < k ==> s[j] < s[k])
  }

  /** Every score is the sentinel -128, so nothing can beat the start value. */
  ghost predicate AllSentinel(s: seq<int8>)
  {
    forall j :: 0 <= j < |s| ==> s[j] == NoScore
  }

  /** What the scan leaves behind: either the untouched sentinel pair, when
      no score exceeds -128, or a first-maximum index and its score. */
  lemma {:induction false} ScanOutcome(s: seq<int8>)
    ensures var (m, id) := Scan(s);
      (id == NoClass && m == NoScore && AllSentinel(s)) ||
      (IsFirstMax(s, id) && s[id] == m && m > NoScore)
  {
    if |s| > 0 {
      var t := s[..|s| - 1];
      ScanOutcome(t);
      assert forall j :: 0 <= j < |t| ==> s[j] == t[j];
    }
  }

  /** The first maximum, when it exists, is unique. */
  lemma FirstMaxUnique(s: seq<int8>, k1: int, k2: int)
    requires IsFirstMax(s, k1) && IsFirstMax(s, k2)
    ensures k1 == k2
  {
    var m1, m2 := s[k1], s[k2];
    assert m1 == m2;
    assert k1 < k2 ==> m1 < m2;
    assert k2 < k1 ==> m2 < m1;
  }

  /** The sentinel case: the scan selects no class exactly when every score
      is -128 (this includes the empty score vector), and then it still
      holds the starting score -128. */
  lemma {:induction false} SentinelIff(s: seq<int8>)
    ensures Scan(s).1 == NoClass <==> AllSentinel(s)
    ensures Scan(s).1 == NoClass ==> Scan(s).0 == NoScore
  {
    ScanOutcome(s);
  }

  /** Tie-break and correctness together: the scan selects index `k` exactly
      when `k` is the first maximum of `s` and that maximum beats -128. */
  lemma {:induction false} ScanSelectsFirstMax(s: seq<int8>, k: nat)
    ensures Scan(s).1 == k <==> IsFirstMax(s, k) && s[k] > NoScore
  {
    ScanOutcome(s);
    assert k < |s| && AllSentinel(s) ==> s[k] == NoScore;
    if IsFirstMax(s, k) && Scan(s).1 != NoClass {
      FirstMaxUnique(s, k, Scan(s).1);
    }
  }

  /** Range of the scan's result when some score exceeds -128: a valid index
      and a score in (-128, 127], so max_score + 128 lies in [1, 255]. */
  lemma {:induction false} ScanRange(s: seq<int8>, j: int)
    requires 0 <= j < |s| && s[j] > NoScore
    ensures 0 <= Scan(s).1 < |s|
    ensures NoScore < Scan(s).0 && 1 <= Scan(s).0 as int + 128 <= 255
    ensures Scan(s).0 == s[Scan(s).1]
  {
    ScanOutcome(s);
  }
}
