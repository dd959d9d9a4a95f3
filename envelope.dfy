/** The signal envelope kept for gain tuning: a per-block peak and a slow
    peak that decays every block and is raised by the per-block peak. */
module Envelope {
  import opened Conditioning

  /** Decay of the slow peak per block; there is no floor. */
  const SlowDecay: real := 0.0005

  datatype EnvelopeState = EnvelopeState(sampleMax: real, sampleMaxSlow: real)

  /** Both peaks start at 0. */
  const InitialEnvelope: EnvelopeState := EnvelopeState(0.0, 0.0)

  function Max(a: real, b: real): real { if a >= b then a else b }

  /** Start of a block: the block peak restarts at 0 and the slow peak
      drops by the decay step. */
  function Tick(e: EnvelopeState): (r: EnvelopeState)
    ensures r.sampleMax == 0.0
    ensures e.sampleMaxSlow - r.sampleMaxSlow == SlowDecay
  {
    EnvelopeState(0.0, e.sampleMaxSlow - SlowDecay)
  }

  /** One sample: raise the block peak to |x|, then raise the slow peak to
      the block peak. */
  function Track(e: EnvelopeState, x: real): (r: EnvelopeState)
    ensures r.sampleMax >= Abs(x) && r.sampleMax >= e.sampleMax
    ensures r.sampleMax == Abs(x) || r.sampleMax == e.sampleMax
    ensures r.sampleMaxSlow >= r.sampleMax && r.sampleMaxSlow >= e.sampleMaxSlow
    ensures r.sampleMaxSlow == r.sampleMax || r.sampleMaxSlow == e.sampleMaxSlow
  {
    var fast := if Abs(x) > e.sampleMax then Abs(x) else e.sampleMax;
    var slow := if fast > e.sampleMaxSlow then fast else e.sampleMaxSlow;
    EnvelopeState(fast, slow)
  }

  /** The samples of one block, tracked in order. */
  function TrackAll(e: EnvelopeState, xs: seq<real>): EnvelopeState
    decreases |xs|
  {
    if xs == [] then e else TrackAll(Track(e, xs[0]), xs[1..])
  }

  /** One whole block: tick, then track every sample. */
  function Block(e: EnvelopeState, xs: seq<real>): EnvelopeState
  {
    TrackAll(Tick(e), xs)
  }

  lemma {:induction false} TrackAllPeaks(e: EnvelopeState, xs: seq<real>)
    requires e.sampleMax >= 0.0 && e.sampleMaxSlow >= e.sampleMax
    ensures var r := TrackAll(e, xs);
            (forall i :: 0 <= i < |xs| ==> Abs(xs[i]) <= r.sampleMax) &&
            e.sampleMax <= r.sampleMax &&
            (r.sampleMax == e.sampleMax || exists i :: 0 <= i < |xs| && r.sampleMax == Abs(xs[i])) &&
            r.sampleMaxSlow == Max(e.sampleMaxSlow, r.sampleMax)
    decreases |xs|
  {
    if xs != [] {
      TrackAllPeaks(Track(e, xs[0]), xs[1..]);
      var r := TrackAll(e, xs);
      forall i | 0 <= i < |xs| ensures Abs(xs[i]) <= r.sampleMax {
        if i > 0 { assert xs[i] == xs[1..][i - 1]; }
      }
      if r.sampleMax != Track(e, xs[0]).sampleMax {
        var i :| 0 <= i < |xs[1..]| && r.sampleMax == Abs(xs[1..][i]);
        assert r.sampleMax == Abs(xs[i + 1]);
      }
    }
  }

  /** The closed form of a block: the block peak is the largest |x| of the
      block, and the slow peak is the decayed slow peak or the block peak,
      whichever is larger. An empty block only decays. */
  lemma {:induction false} BlockPeaks(e: EnvelopeState, xs: seq<real>)
    ensures xs == [] ==> Block(e, xs) == Tick(e)
    ensures xs != [] ==>
              var r := Block(e, xs);
              (forall i :: 0 <= i < |xs| ==> Abs(xs[i]) <= r.sampleMax) &&
              (exists i :: 0 <= i < |xs| && r.sampleMax == Abs(xs[i])) &&
              r.sampleMaxSlow == Max(e.sampleMaxSlow - SlowDecay, r.sampleMax)
  {
    if xs != [] {
      var t := Track(Tick(e), xs[0]);
      TrackAllPeaks(t, xs[1..]);
      var r := Block(e, xs);
      forall i | 0 <= i < |xs| ensures Abs(xs[i]) <= r.sampleMax {
        if i > 0 { assert xs[i] == xs[1..][i - 1]; }
      }
      if r.sampleMax == t.sampleMax {
        assert r.sampleMax == Abs(xs[0]);
      } else {
        var i :| 0 <= i < |xs[1..]| && r.sampleMax == Abs(xs[1..][i]);
        assert r.sampleMax == Abs(xs[i + 1]);
      }
    }
  }

  /** Several blocks in order. */
  function Blocks(e: EnvelopeState, bs: seq<seq<real>>): EnvelopeState
    decreases |bs|
  {
    if bs == [] then e else Blocks(Block(e, bs[0]), bs[1..])
  }

  /** Across empty blocks the slow peak falls by exactly the decay step per
      block, without a floor. */
  lemma {:induction false} EmptyBlocksDecay(e: EnvelopeState, bs: seq<seq<real>>)
    requires forall i :: 0 <= i < |bs| ==> bs[i] == []
    ensures Blocks(e, bs).sampleMaxSlow == e.sampleMaxSlow - |bs| as real * SlowDecay
    decreases |bs|
  {
    if bs != [] {
      EmptyBlocksDecay(Block(e, bs[0]), bs[1..]);
    }
  }

  /** Across non-empty blocks of silence the slow peak decays the same way
      but stops at 0: the first sample of each block raises it back to the
      block peak, which is never negative. */
  lemma {:induction false} SilentBlocksDecay(e: EnvelopeState, bs: seq<seq<real>>)
    requires |bs| > 0
    requires forall i :: 0 <= i < |bs| ==> bs[i] != [] && forall j :: 0 <= j < |bs[i]| ==> bs[i][j] == 0.0
    ensures Blocks(e, bs).sampleMaxSlow == Max(e.sampleMaxSlow - |bs| as real * SlowDecay, 0.0)
    decreases |bs|
  {
    var b := Block(e, bs[0]);
    BlockPeaks(e, bs[0]);
    assert b.sampleMax == 0.0;
    if |bs| > 1 {
      SilentBlocksDecay(b, bs[1..]);
    }
  }
}
