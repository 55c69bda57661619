/**
 The correlation profile that the pitch estimator scans, stated as functions of
 the sample buffer, and the facts about it that make the scan safe: the score at
 lag 0 is exactly 1, no score exceeds 1, and so neither of the first two lags
 can ever be accepted as a candidate.

 Samples and scores are mathematical reals; IEEE rounding is not modelled.
 */
module Correlation {

  /** A lag must score above this to count as a good match. */
  const GoodEnoughCorrelation: real := 0.9

  /** Signals whose root-mean-square energy is below this are too quiet. */
  const RmsGate: real := 0.01

  /** The first lag scanned (pitchtrack.js never changes it from 0). */
  const MinSamples: nat := 0

  function Abs(x: real): real {
    if x < 0.0 then -x else x
  }

  /** Sum of the squares of the samples: the energy the silence gate looks at. */
  function SumSquares(s: seq<real>): real {
    if s == [] then 0.0 else SumSquares(s[..|s| - 1]) + s[|s| - 1] * s[|s| - 1]
  }

  /** Extending a prefix by one sample adds that sample's square. */
  lemma SumSquaresStep(buf: seq<real>, i: nat)
    requires i < |buf|
    ensures SumSquares(buf[..i + 1]) == SumSquares(buf[..i]) + buf[i] * buf[i]
  {
    assert buf[..i + 1][..i] == buf[..i];
  }

  /** The energy of a buffer is at least the square of any one of its samples. */
  lemma {:induction false} SumSquaresAtLeastLast(buf: seq<real>, i: nat)
    requires i < |buf|
    ensures SumSquares(buf) >= buf[i] * buf[i]
  {
    var n := |buf|;
    assert buf[..n - 1] == buf[..n][..n - 1];
    if i < n - 1 {
      SumSquaresAtLeastLast(buf[..n - 1], i);
    }
    SumSquaresNonNegative(buf[..n - 1]);
  }

  lemma {:induction false} SumSquaresNonNegative(s: seq<real>)
    ensures SumSquares(s) >= 0.0
  {
    if s != [] {
      SumSquaresNonNegative(s[..|s| - 1]);
    }
  }

  /**
   The silence gate. pitchtrack.js compares sqrt(energy / N) against RmsGate;
   since sqrt is monotone on non-negative reals this is energy / N < RmsGate².
   For an empty buffer the JavaScript quotient is NaN, every comparison with NaN
   is false, and so an empty buffer is never judged too quiet.
   */
  predicate TooQuiet(buf: seq<real>)
    ensures TooQuiet(buf) ==> forall i :: 0 <= i < |buf| ==> buf[i] * buf[i] < (|buf| as real) * (RmsGate * RmsGate)
  {
    SumSquaresBoundsEach(buf);
    |buf| > 0 && SumSquares(buf) / (|buf| as real) < RmsGate * RmsGate
  }

  /** The energy of a buffer bounds the square of each of its samples. */
  lemma SumSquaresBoundsEach(buf: seq<real>)
    ensures forall i :: 0 <= i < |buf| ==> SumSquares(buf) >= buf[i] * buf[i]
  {
    forall i | 0 <= i < |buf|
      ensures SumSquares(buf) >= buf[i] * buf[i]
    {
      SumSquaresAtLeastLast(buf, i);
    }
  }

  /** Sum over i < n of |buf[i] - buf[i + lag]|: the accumulated difference at one lag. */
  function DiffSum(buf: seq<real>, lag: nat, n: nat): (d: real)
    requires n + lag <= |buf|
    ensures d >= 0.0
    ensures lag == 0 ==> d == 0.0
  {
    if n == 0 then 0.0 else DiffSum(buf, lag, n - 1) + Abs(buf[n - 1] - buf[n - 1 + lag])
  }

  /**
   The similarity score of one lag: 1 minus the mean absolute difference over
   half the buffer. No lag scores above 1, and lag 0, which compares every sample
   with itself, scores exactly 1.
   */
  function Score(buf: seq<real>, lag: nat): (s: real)
    requires lag < |buf| / 2
    ensures s <= 1.0
    ensures lag == 0 ==> s == 1.0
  {
    1.0 - DiffSum(buf, lag, |buf| / 2) / ((|buf| / 2) as real)
  }

  /** The correlation profile: one score per lag 0 .. |buf|/2 - 1. */
  function Profile(buf: seq<real>): (p: seq<real>)
    ensures |p| == |buf| / 2
    ensures forall lag :: 0 <= lag < |p| ==> p[lag] == Score(buf, lag)
  {
    ScoresBelow(buf, |buf| / 2)
  }

  /** The scores of the lags below n. */
  function ScoresBelow(buf: seq<real>, n: nat): (p: seq<real>)
    requires n <= |buf| / 2
    ensures |p| == n
    ensures forall lag :: 0 <= lag < n ==> p[lag] == Score(buf, lag)
  {
    if n == 0 then [] else ScoresBelow(buf, n - 1) + [Score(buf, n - 1)]
  }

  /**
   Lag k is a candidate: its score is good enough and higher than the score
   before it. Before lag 0 the scan's "last correlation" is 1.
   */
  predicate Rises(p: seq<real>, k: nat)
    requires k < |p|
  {
    var last := if k == 0 then 1.0 else p[k - 1];
    p[k] > GoodEnoughCorrelation && p[k] > last
  }

  /** Lag k is a candidate's successor that is not itself a candidate: the peak has been passed. */
  predicate BreaksAt(p: seq<real>, k: nat) {
    0 < k < |p| && Rises(p, k - 1) && !Rises(p, k)
  }

  /** The first lag at or after `from` where the profile breaks, or |p| if there is none. */
  function FirstBreak(p: seq<real>, from: nat): (k: nat)
    requires from <= |p|
    ensures from <= k <= |p|
    ensures k < |p| ==> BreaksAt(p, k)
    ensures forall j :: from <= j < k ==> !BreaksAt(p, j)
    decreases |p| - from
  {
    if from == |p| then |p|
    else if BreaksAt(p, from) then from
    else FirstBreak(p, from + 1)
  }

  /** The first break is determined by the breaks before it: this is how a scan recognises it. */
  lemma FirstBreakUnique(p: seq<real>, k: nat)
    requires k <= |p|
    requires k < |p| ==> BreaksAt(p, k)
    requires forall j :: 0 < j < k ==> !BreaksAt(p, j)
    ensures FirstBreak(p, 0) == k
  {
  }

  /**
   Neither lag 0 nor lag 1 is ever a candidate: lag 0 scores exactly 1, which is
   not above the initial "last correlation" of 1, and lag 1 would have to score
   above lag 0's perfect 1. So any accepted lag is at least 2.
   */
  lemma EarlyLagsNeverRise(buf: seq<real>)
    ensures |Profile(buf)| > 0 ==> !Rises(Profile(buf), 0)
    ensures |Profile(buf)| > 1 ==> !Rises(Profile(buf), 1)
  {
  }

  /**
   Once a lag rises, every later lag up to k rises too unless the profile breaks
   in between: the candidates of a scan form one contiguous run.
   */
  lemma {:induction false} RisingRunContinues(p: seq<real>, j: nat, k: nat)
    requires j <= k < |p|
    requires Rises(p, j)
    requires forall m :: j < m <= k ==> !BreaksAt(p, m)
    ensures Rises(p, k)
  {
    if j < k {
      RisingRunContinues(p, j, k - 1);
      assert !BreaksAt(p, k);
    }
  }
}
