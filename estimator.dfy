/**
 The autocorrelation pitch estimator: given a buffer of samples and a sample
 rate, either a frequency in Hz or "no pitch".

 `Outcome` says, as a function of the buffer, where the lag scan ends and with
 which best lag; `PitchOf` turns that into the estimate; `AutoCorrelate` is the
 scan itself, with its local score array, its flags and its early exit, proved
 to compute `PitchOf`. `ReturnValueAsWritten` keeps pitchtrack.js's own final
 division, which can produce a negative or infinite frequency; `PitchOf` is the
 corrected version that the method implements.
 */
module PitchEstimator {
  import opened Correlation

  /** A scan with no accepted lag is trusted only if its best score exceeds this. */
  const MinConfidence: real := 0.01

  /** Weight of the neighbour difference in the sub-lag refinement. */
  const InterpolationScale: real := 8.0

  /** The estimator's answer. */
  datatype Estimate = NoPitch | Pitch(hz: real)

  /** How a scan ends: at the silence gate, by passing a peak, or by running out of lags. */
  datatype ScanOutcome =
    | Silent
    | Refined(bestOffset: int, shift: real)
    | Exhausted(bestOffset: int, bestCorrelation: real)

  /** A slot of the score array: unset (a hole in a JavaScript array) or holding a score. */
  datatype Slot = Unset | Stored(score: real)

  /** The refined lag: the best lag moved by the scaled neighbour difference. */
  function RefinedLag(bestOffset: int, shift: real): real {
    bestOffset as real + InterpolationScale * shift
  }

  /**
   Where the scan of `buf` ends: at the silence gate, at the first break of the
   profile (refined around the lag before it), or after the last lag, with that
   lag as best when it rises and no best lag otherwise. Any best lag is at
   least 2, so the division by it is defined.
   */
  function Outcome(buf: seq<real>): (o: ScanOutcome)
    ensures o.Silent? <==> TooQuiet(buf)
    ensures !o.Silent? && o.bestOffset != -1 ==> o.bestOffset >= 2
    ensures o.Exhausted? && o.bestOffset == -1 ==> o.bestCorrelation == 0.0
  {
    if TooQuiet(buf) then Silent
    else
      var p := Profile(buf);
      EarlyLagsNeverRise(buf);
      var k := FirstBreak(p, 0);
      if k < |p| then
        Refined(k - 1, (p[k] - p[k - 2]) / p[k - 1])
      else if |p| > 0 && Rises(p, |p| - 1) then
        Exhausted(|p| - 1, p[|p| - 1])
      else
        Exhausted(-1, 0.0)
  }

  /**
   What the scan's end means. When the profile breaks, the best lag is the lag
   just before the first break; it is at least 2, both its neighbours are inside
   the profile, and its score is above 0.9, so the shift's divisor is non-zero.
   When it never breaks, either the last lag rose and is the best with a score
   above 0.9, or no lag was ever a candidate and the best stays (-1, 0).
   */
  lemma OutcomeFacts(buf: seq<real>)
    ensures var o, p := Outcome(buf), Profile(buf);
      && (o.Refined? ==>
        && 2 <= o.bestOffset && o.bestOffset + 1 < |p|
        && Rises(p, o.bestOffset) && !Rises(p, o.bestOffset + 1)
        && p[o.bestOffset] > GoodEnoughCorrelation
        && (forall j :: 0 < j <= o.bestOffset ==> !BreaksAt(p, j))
        && o.shift == (p[o.bestOffset + 1] - p[o.bestOffset - 1]) / p[o.bestOffset])
      && (o.Exhausted? ==> forall j :: 0 < j < |p| ==> !BreaksAt(p, j))
      && (o.Exhausted? && o.bestOffset != -1 ==>
        && o.bestOffset == |p| - 1
        && Rises(p, o.bestOffset)
        && o.bestCorrelation == p[o.bestOffset] > GoodEnoughCorrelation)
      && (o.Exhausted? && o.bestOffset == -1 ==>
        && o.bestCorrelation == 0.0
        && forall j :: 0 <= j < |p| ==> !Rises(p, j))
  {
    var p := Profile(buf);
    if !TooQuiet(buf) {
      EarlyLagsNeverRise(buf);
      if FirstBreak(p, 0) == |p| && !(|p| > 0 && Rises(p, |p| - 1)) {
        NoRiseWithoutBreak(p);
      }
    }
  }

  /** A profile that never breaks and does not rise at its last lag has never risen at all. */
  lemma NoRiseWithoutBreak(p: seq<real>)
    requires forall j :: 0 < j < |p| ==> !BreaksAt(p, j)
    requires |p| > 0 ==> !Rises(p, |p| - 1)
    ensures forall j :: 0 <= j < |p| ==> !Rises(p, j)
  {
    forall j | 0 <= j < |p|
      ensures !Rises(p, j)
    {
      if Rises(p, j) {
        RisingRunContinues(p, j, |p| - 1);
      }
    }
  }

  /** A scan that reaches its first break at lag k ends refined around lag k - 1. */
  lemma OutcomeAtBreak(buf: seq<real>, k: nat)
    requires !TooQuiet(buf)
    requires BreaksAt(Profile(buf), k)
    requires forall j :: 0 < j < k ==> !BreaksAt(Profile(buf), j)
    ensures Outcome(buf).Refined? && Outcome(buf).bestOffset == k - 1
    ensures Outcome(buf).shift == (Profile(buf)[k] - Profile(buf)[k - 2]) / Profile(buf)[k - 1]
  {
    FirstBreakUnique(Profile(buf), k);
  }

  /** A scan that meets no break runs out of lags. */
  lemma OutcomeAfterFullScan(buf: seq<real>)
    requires !TooQuiet(buf)
    requires forall j :: 0 < j < |Profile(buf)| ==> !BreaksAt(Profile(buf), j)
    ensures Outcome(buf).Exhausted?
    ensures Outcome(buf).bestOffset != -1 <==> |Profile(buf)| > 0 && Rises(Profile(buf), |Profile(buf)| - 1)
    ensures Outcome(buf).bestOffset != -1 ==>
      Outcome(buf).bestOffset == |Profile(buf)| - 1 && Outcome(buf).bestCorrelation == Profile(buf)[|Profile(buf)| - 1]
    ensures Outcome(buf).bestOffset == -1 ==> Outcome(buf).bestCorrelation == 0.0
  {
    FirstBreakUnique(Profile(buf), |Profile(buf)|);
  }

  /**
   The estimate when the profile first breaks just after lag `bestOffset`: the
   shift comes from the scores of the two neighbours, and the estimate divides
   by the refined lag when it is positive.
   */
  lemma PitchAtBreak(buf: seq<real>, sampleRate: real, bestOffset: nat, shift: real)
    requires !TooQuiet(buf)
    requires 2 <= bestOffset && BreaksAt(Profile(buf), bestOffset + 1)
    requires forall j :: 0 < j <= bestOffset ==> !BreaksAt(Profile(buf), j)
    requires shift == (Profile(buf)[bestOffset + 1] - Profile(buf)[bestOffset - 1]) / Profile(buf)[bestOffset]
    ensures PitchOf(buf, sampleRate) == if RefinedLag(bestOffset, shift) > 0.0
      then Pitch(sampleRate / RefinedLag(bestOffset, shift)) else Pitch(sampleRate / bestOffset as real)
  {
    OutcomeAtBreak(buf, bestOffset + 1);
  }

  /** The estimate after a scan that met no break, in terms of the best lag and score the scan kept. */
  lemma PitchAfterFullScan(buf: seq<real>, sampleRate: real, bestOffset: int, bestCorrelation: real)
    requires !TooQuiet(buf)
    requires forall j :: 0 < j < |Profile(buf)| ==> !BreaksAt(Profile(buf), j)
    requires |Profile(buf)| > 0 && Rises(Profile(buf), |Profile(buf)| - 1) ==>
      bestOffset == |Profile(buf)| - 1 && bestCorrelation == Profile(buf)[|Profile(buf)| - 1]
    requires !(|Profile(buf)| > 0 && Rises(Profile(buf), |Profile(buf)| - 1)) ==> bestOffset == -1 && bestCorrelation == 0.0
    ensures PitchOf(buf, sampleRate) ==
      if bestCorrelation > MinConfidence then Pitch(sampleRate / bestOffset as real) else NoPitch
  {
    OutcomeAfterFullScan(buf);
  }

  /**
   The estimate for `buf` at `sampleRate`. After a break the refined lag is used
   when it is positive and the unrefined best lag otherwise; after a full scan
   the best lag is used when its score clears MinConfidence. Every pitch it
   reports is positive when the sample rate is.
   */
  function PitchOf(buf: seq<real>, sampleRate: real): (e: Estimate)
    ensures sampleRate > 0.0 && e.Pitch? ==> e.hz > 0.0
  {
    match Outcome(buf)
    case Silent => NoPitch
    case Refined(bestOffset, shift) =>
      var lag := RefinedLag(bestOffset, shift);
      if lag > 0.0 then Pitch(sampleRate / lag) else Pitch(sampleRate / bestOffset as real)
    case Exhausted(bestOffset, bestCorrelation) =>
      if bestCorrelation > MinConfidence then Pitch(sampleRate / bestOffset as real) else NoPitch
  }

  /** No "no pitch" without a reason: the buffer is too quiet, or no lag was ever a candidate. */
  lemma SentinelExactly(buf: seq<real>, sampleRate: real)
    ensures PitchOf(buf, sampleRate) == NoPitch <==>
      TooQuiet(buf) || forall k :: 0 <= k < |Profile(buf)| ==> !Rises(Profile(buf), k)
  {
    OutcomeFacts(buf);
    var o, p := Outcome(buf), Profile(buf);
    if o.Refined? {
      assert Rises(p, o.bestOffset);
    } else if o.Exhausted? && o.bestOffset != -1 {
      assert Rises(p, o.bestOffset);
    }
  }

  /** A JavaScript number as pitchtrack.js returns it: finite, or the result of dividing by zero. */
  datatype JsNumber = Finite(value: real) | NonFinite

  /** The number pitchtrack.js returns for "no pitch". */
  const Sentinel: real := -1.0

  /**
   The value pitchtrack.js returns, as written: after a break it divides the sample
   rate by the refined lag whatever its sign, and a zero lag yields infinity.
   With a positive sample rate a full scan returns either the sentinel or a
   positive frequency; the refined exit returns a negative or infinite value
   exactly when the refinement fails. Everywhere else the value agrees with the
   corrected estimate `PitchOf`.
   */
  function ReturnValueAsWritten(buf: seq<real>, sampleRate: real): (v: JsNumber)
    ensures sampleRate > 0.0 && Outcome(buf).Exhausted? && v != Finite(Sentinel) ==> v.Finite? && v.value > 0.0
    ensures sampleRate > 0.0 && Outcome(buf).Refined? ==>
      (RefinementFails(buf) <==> v == NonFinite || v.value < 0.0)
    ensures PitchOf(buf, sampleRate) == NoPitch ==> v == Finite(Sentinel)
    ensures PitchOf(buf, sampleRate).Pitch? && !RefinementFails(buf) ==> v == Finite(PitchOf(buf, sampleRate).hz)
  {
    match Outcome(buf)
    case Silent => Finite(Sentinel)
    case Refined(bestOffset, shift) =>
      var lag := RefinedLag(bestOffset, shift);
      if lag == 0.0 then NonFinite else Finite(sampleRate / lag)
    case Exhausted(bestOffset, bestCorrelation) =>
      if bestCorrelation > MinConfidence then Finite(sampleRate / bestOffset as real) else Finite(Sentinel)
  }

  /** The scan broke at a peak, but the interpolated lag is zero or negative. */
  predicate RefinementFails(buf: seq<real>) {
    Outcome(buf).Refined? && RefinedLag(Outcome(buf).bestOffset, Outcome(buf).shift) <= 0.0
  }

  /** A buffer whose scan breaks at lag 3 with a negative refined lag. */
  const NegativeLagBuffer: seq<real> := [-0.5, -0.375, -0.5, -0.375, -0.5, -0.375, 1.0, 0.0]

  /** A buffer whose scan breaks at lag 3 with a refined lag of exactly zero. */
  const ZeroLagBuffer: seq<real> := [-0.5, -0.375, -0.5, -0.375, -0.5, -0.375, 0.75, 0.0]

  /**
   For NegativeLagBuffer the profile is [1, 0.875, 1, 0.5625]: lag 2 is the only
   candidate, the shift is (0.5625 - 0.875) / 1 = -0.3125 and the refined lag is
   2 + 8 * -0.3125 = -0.5, so pitchtrack.js reports -2 times the sample rate. The
   corrected estimate falls back to the unrefined lag 2.
   */
  lemma NegativePitchAsWritten(sampleRate: real)
    ensures ReturnValueAsWritten(NegativeLagBuffer, sampleRate) == Finite(-2.0 * sampleRate)
    ensures PitchOf(NegativeLagBuffer, sampleRate) == Pitch(sampleRate / 2.0)
  {
    var buf := NegativeLagBuffer;
    assert !TooQuiet(buf) by {
      SumSquaresAtLeastLast(buf, 6);
    }
    ProfileOfCounterexample(buf, 1.0);
    var p := Profile(buf);
    assert BreaksAt(p, 3);
    OutcomeAtBreak(buf, 3);
  }

  /**
   For ZeroLagBuffer the profile is [1, 0.875, 1, 0.625]: the shift is
   (0.625 - 0.875) / 1 = -0.25 and the refined lag is 2 + 8 * -0.25 = 0, so the
   JavaScript code divides the sample rate by zero.
   */
  lemma InfinitePitchAsWritten(sampleRate: real)
    ensures ReturnValueAsWritten(ZeroLagBuffer, sampleRate) == NonFinite
    ensures PitchOf(ZeroLagBuffer, sampleRate) == Pitch(sampleRate / 2.0)
  {
    var buf := ZeroLagBuffer;
    assert !TooQuiet(buf) by {
      SumSquaresAtLeastLast(buf, 6);
    }
    ProfileOfCounterexample(buf, 0.75);
    var p := Profile(buf);
    assert BreaksAt(p, 3);
    OutcomeAtBreak(buf, 3);
  }

  /** The profile of the two counterexample buffers, which differ only in sample 6. */
  lemma ProfileOfCounterexample(buf: seq<real>, jump: real)
    requires buf == [-0.5, -0.375, -0.5, -0.375, -0.5, -0.375, jump, 0.0]
    requires jump >= -0.375
    ensures Profile(buf) == [1.0, 0.875, 1.0, 1.0 - (0.375 + (jump + 0.375)) / 4.0]
  {
    assert DiffSum(buf, 0, 1) == 0.0 && DiffSum(buf, 0, 2) == 0.0 && DiffSum(buf, 0, 3) == 0.0;
    assert DiffSum(buf, 0, 4) == 0.0;
    assert DiffSum(buf, 1, 1) == 0.125;
    assert DiffSum(buf, 1, 2) == DiffSum(buf, 1, 1) + Abs(buf[1] - buf[2]) == 0.25;
    assert DiffSum(buf, 1, 3) == DiffSum(buf, 1, 2) + Abs(buf[2] - buf[3]) == 0.375;
    assert DiffSum(buf, 1, 4) == 0.5;
    assert DiffSum(buf, 2, 1) == 0.0 && DiffSum(buf, 2, 2) == 0.0 && DiffSum(buf, 2, 3) == 0.0;
    assert DiffSum(buf, 2, 4) == 0.0;
    assert DiffSum(buf, 3, 1) == 0.125;
    assert DiffSum(buf, 3, 2) == DiffSum(buf, 3, 1) + Abs(buf[1] - buf[4]) == 0.25;
    assert DiffSum(buf, 3, 3) == DiffSum(buf, 3, 2) + Abs(buf[2] - buf[5]) == 0.375;
    assert DiffSum(buf, 3, 4) == 0.375 + (jump + 0.375);
  }

  /**
   The estimator's first loop: the energy of the buffer, the sum of its squared
   samples (the value pitchtrack.js accumulates in `rms` before taking the root).
   */
  method Energy(buf: seq<real>) returns (sumSquares: real)
    ensures sumSquares == SumSquares(buf)
  {
    sumSquares := 0.0;
    for i := 0 to |buf|
      invariant sumSquares == SumSquares(buf[..i])
    {
      SumSquaresStep(buf, i);
      sumSquares := sumSquares + buf[i] * buf[i];
    }
    assert buf[..|buf|] == buf;
  }

  /**
   One step of the scan at lag `offset`, given the previous score `last` and
   whether the previous lag was a candidate: the rising test decides whether
   this lag is a candidate, and the scan stops here exactly when it breaks.
   */
  lemma ScanStep(p: seq<real>, offset: nat, last: real, found: bool)
    requires offset < |p|
    requires last == if offset == 0 then 1.0 else p[offset - 1]
    requires found == (offset > 0 && Rises(p, offset - 1))
    requires forall j :: 0 < j < offset ==> !BreaksAt(p, j)
    ensures (p[offset] > GoodEnoughCorrelation && p[offset] > last) == Rises(p, offset)
    ensures BreaksAt(p, offset) <==> found && !Rises(p, offset)
    ensures !BreaksAt(p, offset) ==> forall j :: 0 < j < offset + 1 ==> !BreaksAt(p, j)
  {
  }

  /**
   The estimator's inner loop: the score of one lag, 1 minus the mean absolute
   difference between the first half of the buffer and its copy shifted by `offset`.
   */
  method LagCorrelation(buf: seq<real>, offset: nat) returns (correlation: real)
    requires offset < |buf| / 2
    ensures correlation == Score(buf, offset)
  {
    var maxSamples := |buf| / 2;
    correlation := 0.0;
    for i := 0 to maxSamples
      invariant correlation == DiffSum(buf, offset, i)
    {
      correlation := correlation + Abs(buf[i] - buf[i + offset]);
    }
    correlation := 1.0 - correlation / (maxSamples as real);
  }

  /**
   The estimator. The local array `correlations` holds the score of every lag
   scanned so far; the scan stops at the first lag that fails the rising test
   after a candidate, and interpolates from the best lag's two neighbours.
   */
  method AutoCorrelate(buf: seq<real>, sampleRate: real) returns (r: Estimate)
    ensures r == PitchOf(buf, sampleRate)
  {
    var size := |buf|;
    var maxSamples := size / 2;
    var bestOffset := -1;
    var bestCorrelation := 0.0;
    var rms := 0.0;
    var foundGoodCorrelation := false;
    var correlations := new Slot[maxSamples](_ => Unset);

    rms := Energy(buf);
    if size > 0 && rms / (size as real) < RmsGate * RmsGate {
      assert TooQuiet(buf);
      return NoPitch;
    }

    ghost var p := Profile(buf);
    EarlyLagsNeverRise(buf);
    var lastCorrelation := 1.0;
    var offset := MinSamples;
    while offset < maxSamples
      invariant offset <= maxSamples
      invariant forall j :: 0 <= j < offset ==> correlations[j] == Stored(p[j])
      invariant lastCorrelation == if offset == 0 then 1.0 else p[offset - 1]
      invariant forall j :: 0 < j < offset ==> !BreaksAt(p, j)
      invariant foundGoodCorrelation == (offset > 0 && Rises(p, offset - 1))
      invariant foundGoodCorrelation ==> bestOffset == offset - 1 && bestCorrelation == p[offset - 1]
      invariant !foundGoodCorrelation ==> bestOffset == -1 && bestCorrelation == 0.0
    {
      var correlation := LagCorrelation(buf, offset);
      ScanStep(p, offset, lastCorrelation, foundGoodCorrelation);
      correlations[offset] := Stored(correlation);
      if correlation > GoodEnoughCorrelation && correlation > lastCorrelation {
        foundGoodCorrelation := true;
        if correlation > bestCorrelation {
          bestCorrelation := correlation;
          bestOffset := offset;
        }
      } else if foundGoodCorrelation {
        var shift := (correlations[bestOffset + 1].score - correlations[bestOffset - 1].score)
                     / correlations[bestOffset].score;
        PitchAtBreak(buf, sampleRate, bestOffset, shift);
        var lag := RefinedLag(bestOffset, shift);
        if lag > 0.0 {
          return Pitch(sampleRate / lag);
        }
        return Pitch(sampleRate / bestOffset as real);
      }
      lastCorrelation := correlation;
      offset := offset + 1;
    }
    PitchAfterFullScan(buf, sampleRate, bestOffset, bestCorrelation);
    if bestCorrelation > MinConfidence {
      return Pitch(sampleRate / bestOffset as real);
    }
    return NoPitch;
  }
}
