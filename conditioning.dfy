/** Conversion of one raw microphone sample into the value handed to the
    inference engine: scale to [-1, 1), apply the digital boost, clamp. */
module Conditioning {

  /** 2^15, the divisor of the normalisation of 16-bit PCM samples. */
  const FullScale: real := 32768.0

  /** Multiplication factor applied after normalisation. */
  const DigitalBoostFactor: real := 10.0

  /** The largest raw magnitude whose boosted value still lies in [-1, 1]:
      3276 * 10 / 32768 < 1 <= 3277 * 10 / 32768. */
  const PassThroughLimit: int := 3276

  newtype int16 = x: int | -0x8000 <= x < 0x8000

  function Abs(x: real): real { if x < 0.0 then -x else x }

  /** Distance between two reals. */
  function Dist(a: real, b: real): real { Abs(a - b) }

  /** Normalise a raw sample to [-1, 1). */
  function Normalize(raw: int16): (r: real)
    ensures -1.0 <= r < 1.0
  {
    raw as real / FullScale
  }

  /** Clamp to [-1, 1]: the result is the point of the interval nearest to x. */
  function Clamp(x: real): (r: real)
    ensures -1.0 <= r <= 1.0
    ensures forall y :: -1.0 <= y <= 1.0 ==> Dist(r, x) <= Dist(y, x)
  {
    if x > 1.0 then 1.0
    else if x < -1.0 then -1.0
    else x
  }

  /** The sample value the task enqueues for one raw sample. It always lies
      in [-1, 1]; raw values within the pass-through limit keep their boosted
      value exactly, larger magnitudes saturate at +1 or -1. */
  function Condition(raw: int16): (r: real)
    ensures -1.0 <= r <= 1.0
    ensures -PassThroughLimit <= raw as int <= PassThroughLimit ==> r == raw as real * DigitalBoostFactor / FullScale
    ensures raw as int > PassThroughLimit ==> r == 1.0
    ensures raw as int < -PassThroughLimit ==> r == -1.0
  {
    Clamp(Normalize(raw) * DigitalBoostFactor)
  }

  /** The conditioned values of a sequence of raw samples, in order. */
  function ConditionAll(raws: seq<int16>): (r: seq<real>)
    ensures |r| == |raws|
  {
    if raws == [] then [] else [Condition(raws[0])] + ConditionAll(raws[1..])
  }

  lemma {:induction false} ConditionAllAt(raws: seq<int16>, i: nat)
    requires i < |raws|
    ensures ConditionAll(raws)[i] == Condition(raws[i])
    decreases i
  {
    if i > 0 {
      ConditionAllAt(raws[1..], i - 1);
    }
  }
}
