# pitch-track: the autocorrelation pitch estimator, in Dafny

This project models the pitch-estimation core of pitch-track (`js/pitchtrack.js`).
`autoCorrelate(buf, sampleRate)` takes a buffer of audio samples and returns
either a frequency in Hz or "no pitch". It works in four steps:

1. A silence gate on the RMS energy of the buffer.
2. A scan of the lags `0 .. N/2 - 1` with a difference-based similarity score.
   Each score goes into a local array `correlations`.
3. Candidate tracking. A lag is a candidate when its score is above 0.9 and above
   the previous lag's score.
4. An exit. If the scan passes a peak, it stops and interpolates the best lag
   from its two neighbours. If it runs out of lags, it falls back to a
   confidence check.

The project also models the tuning warning (FLAT, SHARP or IN TUNE) that
`getPitch` derives from the integer detune.

Files:

- `correlation.dfy`, module `Correlation`. The profile the scan reads, as
  functions of the buffer:
  - `SumSquares` and `TooQuiet` for the silence gate;
  - `DiffSum`, `Score` and `Profile` for the lag scores;
  - `Rises` for "lag k is a candidate";
  - `BreaksAt` for "lag k is not a candidate but lag k - 1 is";
  - `FirstBreak`, the first such lag.

  It also holds the lemmas about these functions.
- `estimator.dfy`, module `PitchEstimator`:
  - `Outcome(buf)` says where the scan ends and with which best lag.
  - `PitchOf(buf, sampleRate)` is the estimate.
  - `AutoCorrelate` is the imperative estimator, with its score array, its flags
    and its early return. It is proved to compute `PitchOf`.
  - `ReturnValueAsWritten` models the final division exactly as the code does it
    (see Findings).
- `tuning.dfy`, module `Tuning`. The detune classification.

Modelling choices:

- Samples, scores and the sample rate are Dafny `real`s. IEEE-754 rounding is
  abstracted away.
- The buffer is a `seq<real>`. The estimator only reads its `Float32Array`.
- The gate `Math.sqrt(sum / N) < 0.01` is written as `sum / N < 0.01 * 0.01`.
  These are equivalent because the sum is non-negative.
- For an empty buffer the code's quotient is NaN. NaN fails every comparison,
  so the gate does not fire. The scan then finds no lag and the result is
  "no pitch". The model reproduces this: `TooQuiet` is false on an empty buffer.
- `MIN_SAMPLES` is fixed at its only value, 0 (`MinSamples`).
- `correlations` is an `array<Slot>`. `Unset` stands for a hole of the
  JavaScript array, and reading a score needs a `Stored` slot. So the verifier
  proves that the three interpolation reads only touch slots the scan has
  already written.
- The estimate is the datatype `Estimate = NoPitch | Pitch(hz)`. `NoPitch`
  stands for the sentinel `-1`. The as-written model keeps the number itself,
  as `JsNumber = Finite(value) | NonFinite` with `Sentinel = -1`.
- The energy loop is the helper method `PitchEstimator.Energy`, and the inner
  difference loop of each lag is the helper method `PitchEstimator.LagCorrelation`.
  The lag loop, its candidate tracking and the early return stay inline in
  `AutoCorrelate`.

What the proofs establish about the code:

- Every buffer read is in bounds. The scan reads `buf[i + offset]` with
  `i, offset < N/2`, so the index is at most `N - 2`.
- The score at lag 0 is exactly 1, and no score exceeds 1. So lag 0 never beats
  the initial `lastCorrelation` of 1, and lag 1 never beats lag 0. Any accepted
  lag, and so `best_offset` whenever it is set, is at least 2. This is stronger
  than the `best_offset >= 1` the comment at lines 45-47 claims.
- The candidates form one contiguous rising run. So while a candidate has been
  found, `best_offset` is always the previous lag, and the test
  `correlation > best_correlation` at line 34 can never fail.
- At the early exit, `best_offset - 1`, `best_offset` and `best_offset + 1` are
  all scanned lags. The last of them is the current lag. The divisor
  `correlations[best_offset]` is above 0.9.
- For the estimate `PitchOf`, "no pitch" is returned exactly when the buffer is
  too quiet or no lag was ever a candidate. The confidence check
  `best_correlation > 0.01` holds exactly when some lag was a candidate. As
  written, the early exit can also produce exactly `-1` (see Findings).

Further points about the code:

- The comment at js/pitchtrack.js:45-47 argues that `foundGoodCorrelation`
  cannot become true before offset 1. In fact lag 0 is compared with an initial
  `lastCorrelation` of 1 and never rises, and lag 1 never rises either.
- The code checks neither an empty buffer nor a non-positive sample rate, so
  the model has no preconditions.
- A reported pitch is positive only after the correction below.

## Model

| member | source | states |
|---|---|---|
| `Correlation.TooQuiet` | js/pitchtrack.js:15-21 | the silence gate fires only on a non-empty buffer (an empty one gives NaN, which fails the comparison), and a buffer it judges too quiet has no sample whose square reaches N times 0.01 squared |
| `Correlation.DiffSum` | js/pitchtrack.js:27-29 | the accumulated absolute difference at a lag is never negative, and at lag 0, where every sample is compared with itself, it is 0 |
| `Correlation.Score` | js/pitchtrack.js:25-30 | the score of a lag, 1 minus the mean absolute difference, is at most 1, and the score of lag 0 is exactly 1 |
| `Correlation.Profile` | js/pitchtrack.js:24-31 | the profile has one entry per lag `0 .. N/2 - 1`, and entry k is the score of lag k |
| `Correlation.ScoresBelow` | js/pitchtrack.js:24-31 | the first n entries of the profile are the scores of lags 0 .. n - 1 |
| `Correlation.Rises` | js/pitchtrack.js:23-51 | the rising test of line 32 as a definition on the profile, with `lastCorrelation` starting at 1 (line 23) and then the previous lag's score (line 51); `PitchEstimator.ScanStep` proves that the loop's running test equals it |
| `Correlation.FirstBreak` | js/pitchtrack.js:32-38 | the lag where the scan stops is the first lag after a candidate that is not a candidate itself; no earlier lag qualifies, and the result is N/2 when none does |
| `Correlation.EarlyLagsNeverRise` | js/pitchtrack.js:23-47 | neither lag 0 nor lag 1 is ever accepted as a candidate, so `best_offset >= 2 >= 1` holds before the `best_offset - 1` read |
| `Correlation.RisingRunContinues` | js/pitchtrack.js:32-38 | once a lag is a candidate, every later lag is one too until the profile breaks: the candidates form one contiguous run |
| `Correlation.SumSquaresStep` | js/pitchtrack.js:15-18 | adding one sample to the energy adds its square |
| `PitchEstimator.Energy` | js/pitchtrack.js:15-18 | the energy loop computes the sum of the squared samples |
| `PitchEstimator.LagCorrelation` | js/pitchtrack.js:25-30 | the inner loop and the normalisation compute exactly the score of the lag |
| `PitchEstimator.Outcome` | js/pitchtrack.js:6-52 | the scan ends at the silence gate exactly when the buffer is too quiet; any best lag it ends with is at least 2, so the later division by it is defined; a scan that found no candidate keeps `best_correlation` at 0 |
| `PitchEstimator.OutcomeFacts` | js/pitchtrack.js:23-52 | at a break, the best lag is the lag before the first break, at least 2, with both neighbours in the profile, a score above 0.9 (the non-zero divisor of the shift) and the shift taken from its neighbours; after a full scan, either the last lag rose and is the best with a score above 0.9, or no lag was ever a candidate and the best stays (-1, 0) |
| `PitchEstimator.NoRiseWithoutBreak` | js/pitchtrack.js:53-57 | if the profile never breaks and its last lag is not a candidate, no lag was ever a candidate, so `best_correlation` stays 0 |
| `PitchEstimator.OutcomeAtBreak` | js/pitchtrack.js:38-48 | a scan whose first break is at lag k exits early with best lag k - 1 |
| `PitchEstimator.OutcomeAfterFullScan` | js/pitchtrack.js:24-53 | a scan that meets no break runs through all lags to the confidence check |
| `PitchEstimator.ScanStep` | js/pitchtrack.js:32-38 | at each lag the rising test decides whether the lag is a candidate, and the scan stops there exactly when the previous lag was a candidate and this one is not |
| `PitchEstimator.PitchAtBreak` | js/pitchtrack.js:38-49 | at the first break the estimate divides the sample rate by the refined lag `best_offset + 8*shift` when it is positive, with the shift taken from the neighbours' scores |
| `PitchEstimator.PitchAfterFullScan` | js/pitchtrack.js:53-57 | after a full scan the estimate is `sampleRate / best_offset` when `best_correlation > 0.01` and "no pitch" otherwise |
| `PitchEstimator.PitchOf` | js/pitchtrack.js:38-57 | the corrected estimate; with a positive sample rate every pitch it reports is positive |
| `PitchEstimator.SentinelExactly` | js/pitchtrack.js:15-57 | the estimate is "no pitch" if and only if the buffer is too quiet or no lag was ever a candidate |
| `PitchEstimator.ReturnValueAsWritten` | js/pitchtrack.js:48-57 | the value as written: with a positive sample rate, a full scan returns the sentinel or a positive frequency; the early exit returns a negative or infinite value exactly when the refined lag is not positive; everywhere else it equals the corrected estimate |
| `PitchEstimator.NegativePitchAsWritten` | js/pitchtrack.js:48-49 | for a concrete buffer the code as written returns -2 times the sample rate, while the corrected estimate is sampleRate / 2 |
| `PitchEstimator.InfinitePitchAsWritten` | js/pitchtrack.js:48-49 | for a concrete buffer the code as written divides the sample rate by zero, while the corrected estimate is sampleRate / 2 |
| `PitchEstimator.AutoCorrelate` | js/pitchtrack.js:6-59 | the imperative estimator returns `PitchOf(buf, sampleRate)`; its loop keeps the flag, last score, best lag and written slots consistent with the profile, and every buffer and array read is in bounds and on a written slot |
| `Tuning.Warning.Text` | js/pitchtrack.js:143-153 | the warning texts "FLAT", "SHARP" and "IN TUNE" as a definition; `Tuning.Warning.ClassName` ties them to the style classes |
| `Tuning.Warning.ClassName` | js/pitchtrack.js:143-153 | the style class is the warning text with its capitals lowered and its space turned into a hyphen |
| `Tuning.DetuneWarning` | js/pitchtrack.js:143-154 | a detune strictly between -10 and 10 is IN TUNE, overriding the sign; otherwise a detune of -10 or less is FLAT and one of 10 or more is SHARP, each in both directions |
| `Tuning.WarningIsSymmetric` | js/pitchtrack.js:143-154 | negating the detune swaps FLAT and SHARP and keeps IN TUNE |

## Findings

| source | as written | input that shows it | evidently intended | confidence | as-written member | corrected member |
|---|---|---|---|---|---|---|
| js/pitchtrack.js:48-49 | the early exit returns `sampleRate / (best_offset + 8*shift)` without checking the sign of the refined lag | buffer `[-0.5, -0.375, -0.5, -0.375, -0.5, -0.375, 1.0, 0.0]`: profile `[1, 0.875, 1, 0.5625]`, best lag 2, shift -0.3125, refined lag -0.5, result `-2 * sampleRate` (all values exact in binary floating point) | a positive frequency; the model falls back to the unrefined `sampleRate / best_offset` when the refined lag is not positive | high; not executed | `PitchEstimator.NegativePitchAsWritten` (on `PitchEstimator.ReturnValueAsWritten`) | `PitchEstimator.PitchOf` |
| js/pitchtrack.js:48-49 | the same division can have a zero divisor | buffer `[-0.5, -0.375, -0.5, -0.375, -0.5, -0.375, 0.75, 0.0]`: profile `[1, 0.875, 1, 0.625]`, shift -0.25, refined lag 0, result `Infinity` | a finite positive frequency, as above | high; not executed | `PitchEstimator.InfinitePitchAsWritten` (on `PitchEstimator.ReturnValueAsWritten`) | `PitchEstimator.PitchOf` |

A negative result is also ambiguous. If the divisor happens to equal
`-sampleRate`, the early exit returns exactly the sentinel `-1`, and `getPitch`
shows "no pitch".

## Left out

- `noteFromFrequency`, `frequencyFromNoteNumber` and `centsOffFromPitch` (js/pitchtrack.js:61-72) are left out. They rest on `Math.log`, `Math.pow` and floating-point rounding, which Dafny reals do not provide. The detune they produce enters `Tuning.DetuneWarning` as a plain integer.
- The note-name lookup `noteStrings[midiNote % 12]` (js/pitchtrack.js:138) is left out. It depends on JavaScript's remainder for negative, float-derived note numbers.
- `getMicrophoneStream`, `stopStream`, `startPitchTrack` and `main` (js/pitchtrack.js:77-124, 165-193) are left out. They are microphone capture, audio graph set-up and button toggling in the browser.
- The `requestAnimationFrame` loop, the DOM writes and `console.log` in `getPitch` (js/pitchtrack.js:126-162) are left out. Only the warning decision at lines 143-154 is modelled, as data (`Warning.Text`, `Warning.ClassName`).
- IEEE-754 arithmetic is not modelled: score accumulation, the `8*shift` refinement and the divisions are exact real arithmetic. No frequency is claimed bit-exact. NaN and infinity are modelled only where the code produces them from an empty buffer (the gate) or a zero divisor (`JsNumber.NonFinite`).
- `PitchEstimator.AutoCorrelate`: does not return the code's value on the early-exit path when the refined lag is not positive. It returns the corrected estimate instead (see Findings); `PitchEstimator.ReturnValueAsWritten` keeps the value as written.
