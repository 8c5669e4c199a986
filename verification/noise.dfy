/**
 * Noise-buffer generation (`createNoiseBuffer` in src/hooks/useWebAudioFallback.js).
 * A buffer holds two channels of four seconds of samples. Samples are reals, and
 * the values `Math.random()` would have drawn are an input sequence, consumed
 * channel 0 first, then channel 1, one value per sample.
 */
module Noise {

  datatype NoiseKind = White | Pink | Brown

  const Channels: nat := 2

  /** Samples per channel: four seconds at the context's sample rate. */
  function BufferLength(sampleRate: nat): nat {
    4 * sampleRate
  }

  /** `Math.random() * 2 - 1`. */
  function WhiteOf(r: real): real {
    r * 2.0 - 1.0
  }

  /** Paul Kellet's pink-noise filter state. */
  datatype PinkState = PinkState(b0: real, b1: real, b2: real, b3: real, b4: real, b5: real, b6: real)

  /** The generator state carried from one sample to the next within a channel. */
  datatype State = WhiteState | BrownState(lastOut: real) | PinkFilter(p: PinkState)

  const PinkZero := PinkState(0.0, 0.0, 0.0, 0.0, 0.0, 0.0, 0.0)

  /** The state each channel starts from. */
  function Initial(kind: NoiseKind): State {
    match kind
    case White => WhiteState
    case Brown => BrownState(0.0)
    case Pink => PinkFilter(PinkZero)
  }

  /** The leaky integrator's next `lastOut`. */
  function BrownNext(lastOut: real, white: real): real {
    (lastOut + 0.02 * white) / 1.02
  }

  /** The pink filter after absorbing `white`. */
  function PinkNext(p: PinkState, white: real): PinkState {
    PinkState(
      0.99886 * p.b0 + white * 0.0555179,
      0.99332 * p.b1 + white * 0.0750759,
      0.96900 * p.b2 + white * 0.1538520,
      0.86650 * p.b3 + white * 0.3104856,
      0.55000 * p.b4 + white * 0.5329522,
      -0.7616 * p.b5 - white * 0.0168980,
      white * 0.115926)
  }

  /**
   * The pink sample: the first six poles `q` already updated with `white`, the
   * seventh term `b6` still from the previous draw, and the raw white sample.
   */
  function PinkSample(q: PinkState, b6: real, white: real): real {
    (q.b0 + q.b1 + q.b2 + q.b3 + q.b4 + q.b5 + b6 + white * 0.5362) * 0.11
  }

  /** One random draw: the emitted sample and the state for the next one. */
  function Step(st: State, r: real): (State, real) {
    var white := WhiteOf(r);
    match st
    case WhiteState => (WhiteState, white)
    case BrownState(last) => (BrownState(BrownNext(last, white)), 3.5 * BrownNext(last, white))
    case PinkFilter(p) => (PinkFilter(PinkNext(p, white)), PinkSample(PinkNext(p, white), p.b6, white))
  }

  /** The samples emitted from state `st` for the draws `rs`, one per draw. */
  function Run(st: State, rs: seq<real>): (out: seq<real>)
    ensures |out| == |rs|
    decreases |rs|
  {
    if |rs| == 0 then []
    else [Step(st, rs[0]).1] + Run(Step(st, rs[0]).0, rs[1..])
  }

  /** One channel of a `kind` buffer: the generator restarts from its initial state. */
  function Channel(kind: NoiseKind, rs: seq<real>): seq<real> {
    Run(Initial(kind), rs)
  }

  /** The successive `lastOut` values of the brown integrator started at `last`. */
  function BrownStates(last: real, rs: seq<real>): (states: seq<real>)
    ensures |states| == |rs|
    decreases |rs|
  {
    if |rs| == 0 then []
    else
      var next := BrownNext(last, WhiteOf(rs[0]));
      [next] + BrownStates(next, rs[1..])
  }

  /** A value `Math.random()` can return. */
  predicate Draw(r: real) {
    0.0 <= r < 1.0
  }

  datatype NoiseBuffer = NoiseBuffer(kind: NoiseKind, sampleRate: nat, data: seq<seq<real>>)

  /** Unfolds `Run` once at position `i`: the sample for draw `i` followed by the rest. */
  lemma RunAt(st: State, rs: seq<real>, i: nat)
    requires i < |rs|
    ensures Run(st, rs[i..]) == [Step(st, rs[i]).1] + Run(Step(st, rs[i]).0, rs[i + 1..])
  {
    assert rs[i..][1..] == rs[i + 1..];
  }

  /** One channel generated the way the source's per-kind branches do it. */
  method FillChannel(kind: NoiseKind, rs: seq<real>) returns (out: seq<real>)
    ensures out == Channel(kind, rs)
  {
    match kind
    case Brown => out := FillBrown(rs);
    case Pink => out := FillPink(rs);
    case White => out := FillWhite(rs);
  }

  /** The white branch: each sample is a fresh draw mapped to [-1, 1). */
  method FillWhite(rs: seq<real>) returns (out: seq<real>)
    ensures out == Channel(White, rs)
  {
    out := [];
    var i := 0;
    while i < |rs|
      invariant 0 <= i <= |rs|
      invariant out + Run(WhiteState, rs[i..]) == Channel(White, rs)
    {
      RunAt(WhiteState, rs, i);
      out := out + [WhiteOf(rs[i])];
      i := i + 1;
    }
  }

  /** The brown branch: the leaky integrator with `lastOut` reset to 0 for the channel. */
  method FillBrown(rs: seq<real>) returns (out: seq<real>)
    ensures out == Channel(Brown, rs)
  {
    out := [];
    var i := 0;
    var lastOut := 0.0;
    while i < |rs|
      invariant 0 <= i <= |rs|
      invariant out + Run(BrownState(lastOut), rs[i..]) == Channel(Brown, rs)
    {
      RunAt(BrownState(lastOut), rs, i);
      var white := WhiteOf(rs[i]);
      var sample := (lastOut + 0.02 * white) / 1.02;
      lastOut := sample;
      out := out + [sample * 3.5];
      i := i + 1;
    }
  }

  /** The pink branch: the seven filter terms reset to 0 for the channel. */
  method FillPink(rs: seq<real>) returns (out: seq<real>)
    ensures out == Channel(Pink, rs)
  {
    out := [];
    var i := 0;
    var b0, b1, b2, b3, b4, b5, b6 := 0.0, 0.0, 0.0, 0.0, 0.0, 0.0, 0.0;
    while i < |rs|
      invariant 0 <= i <= |rs|
      invariant out + Run(PinkFilter(PinkState(b0, b1, b2, b3, b4, b5, b6)), rs[i..]) == Channel(Pink, rs)
    {
      ghost var before := PinkState(b0, b1, b2, b3, b4, b5, b6);
      RunAt(PinkFilter(before), rs, i);
      var white := WhiteOf(rs[i]);
      b0 := 0.99886 * b0 + white * 0.0555179;
      b1 := 0.99332 * b1 + white * 0.0750759;
      b2 := 0.96900 * b2 + white * 0.1538520;
      b3 := 0.86650 * b3 + white * 0.3104856;
      b4 := 0.55000 * b4 + white * 0.5329522;
      b5 := -0.7616 * b5 - white * 0.0168980;
      var sample := (b0 + b1 + b2 + b3 + b4 + b5 + b6 + white * 0.5362) * 0.11;
      b6 := white * 0.115926;
      assert PinkState(b0, b1, b2, b3, b4, b5, b6) == PinkNext(before, white);
      assert sample == PinkSample(PinkNext(before, white), before.b6, white);
      out := out + [sample];
      i := i + 1;
    }
  }

  /**
   * `createNoiseBuffer`: two channels of `4 * sampleRate` samples; channel `c`
   * is generated from the `c`-th block of draws with the generator restarted.
   * With draws in [0, 1), white samples lie in [-1, 1) and brown samples in
   * [-3.5, 3.5].
   */
  method CreateNoiseBuffer(kind: NoiseKind, sampleRate: nat, random: seq<real>) returns (b: NoiseBuffer)
    requires |random| == Channels * BufferLength(sampleRate)
    ensures b.kind == kind && b.sampleRate == sampleRate
    ensures |b.data| == Channels
    ensures forall c :: 0 <= c < Channels ==> |b.data[c]| == BufferLength(sampleRate)
    ensures b.data[0] == Channel(kind, random[..BufferLength(sampleRate)])
    ensures b.data[1] == Channel(kind, random[BufferLength(sampleRate)..])
    ensures kind == White && (forall i :: 0 <= i < |random| ==> Draw(random[i])) ==>
      forall c, i :: 0 <= c < Channels && 0 <= i < |b.data[c]| ==> -1.0 <= b.data[c][i] < 1.0
    ensures kind == Brown && (forall i :: 0 <= i < |random| ==> Draw(random[i])) ==>
      forall c, i :: 0 <= c < Channels && 0 <= i < |b.data[c]| ==> -3.5 <= b.data[c][i] <= 3.5
  {
    var n := BufferLength(sampleRate);
    var data: seq<seq<real>> := [];
    var c := 0;
    while c < Channels
      invariant 0 <= c <= Channels && |data| == c
      invariant forall d :: 0 <= d < c ==> data[d] == Channel(kind, Draws(random, n, d))
    {
      var samples := FillChannel(kind, Draws(random, n, c));
      data := data + [samples];
      c := c + 1;
    }
    b := NoiseBuffer(kind, sampleRate, data);
    assert Draws(random, n, 0) == random[..n];
    assert Draws(random, n, 1) == random[n..];
    forall c | 0 <= c < Channels
      ensures kind == White && (forall i :: 0 <= i < |random| ==> Draw(random[i])) ==>
        forall i :: 0 <= i < |b.data[c]| ==> -1.0 <= b.data[c][i] < 1.0
      ensures kind == Brown && (forall i :: 0 <= i < |random| ==> Draw(random[i])) ==>
        forall i :: 0 <= i < |b.data[c]| ==> -3.5 <= b.data[c][i] <= 3.5
    {
      Slot(c, n);
      ChannelBounds(kind, random, c * n, (c + 1) * n);
    }
  }

  /** The draws channel `c` consumes: the channels take consecutive blocks of `n` draws. */
  function Draws(random: seq<real>, n: nat, c: nat): (block: seq<real>)
    requires c < Channels && |random| == Channels * n
    ensures |block| == n
  {
    Slot(c, n);
    random[c * n..(c + 1) * n]
  }

  /** Channel `c`'s block of draws lies inside the buffer's draws. */
  lemma Slot(c: nat, n: nat)
    requires c < Channels
    ensures c * n <= (c + 1) * n <= Channels * n
  {
    if c == 0 {
    } else {
      assert c == 1;
    }
  }

  /** A channel generated from a block of draws in [0, 1) stays in its kind's range. */
  lemma ChannelBounds(kind: NoiseKind, random: seq<real>, lo: nat, hi: nat)
    requires lo <= hi <= |random|
    ensures kind == White && (forall i :: 0 <= i < |random| ==> Draw(random[i])) ==>
      forall i :: 0 <= i < hi - lo ==> -1.0 <= Channel(kind, random[lo..hi])[i] < 1.0
    ensures kind == Brown && (forall i :: 0 <= i < |random| ==> Draw(random[i])) ==>
      forall i :: 0 <= i < hi - lo ==> -3.5 <= Channel(kind, random[lo..hi])[i] <= 3.5
  {
    var block := random[lo..hi];
    if forall i :: 0 <= i < |random| ==> Draw(random[i]) {
      assert forall i :: 0 <= i < |block| ==> Draw(block[i]) by {
        forall i | 0 <= i < |block| ensures Draw(block[i]) {
          assert block[i] == random[lo + i];
        }
      }
      if kind == White {
        WhiteSamples(block);
      } else if kind == Brown {
        BrownSamples(0.0, block);
      }
    }
  }

  /** White samples are the draws mapped to [-1, 1): sample `i` is `2 * rs[i] - 1`. */
  lemma {:induction false} WhiteSamples(rs: seq<real>)
    ensures forall i :: 0 <= i < |rs| ==> Run(WhiteState, rs)[i] == WhiteOf(rs[i])
    ensures (forall i :: 0 <= i < |rs| ==> Draw(rs[i])) ==>
      forall i :: 0 <= i < |rs| ==> -1.0 <= Run(WhiteState, rs)[i] < 1.0
    decreases |rs|
  {
    if |rs| > 0 {
      WhiteSamples(rs[1..]);
      assert forall i :: 1 <= i < |rs| ==> Run(WhiteState, rs)[i] == Run(WhiteState, rs[1..])[i - 1];
    }
  }

  /**
   * The brown integrator's state stays in [-1, 1] when it starts there and every
   * draw is in [0, 1] (so every white input is in [-1, 1]), and each emitted sample is exactly 3.5 times the
   * state it leaves behind, so samples lie in [-3.5, 3.5].
   */
  lemma {:induction false} BrownSamples(last: real, rs: seq<real>)
    requires -1.0 <= last <= 1.0
    requires forall i :: 0 <= i < |rs| ==> 0.0 <= rs[i] <= 1.0
    ensures forall i :: 0 <= i < |rs| ==> -1.0 <= BrownStates(last, rs)[i] <= 1.0
    ensures forall i :: 0 <= i < |rs| ==> Run(BrownState(last), rs)[i] == 3.5 * BrownStates(last, rs)[i]
    ensures forall i :: 0 <= i < |rs| ==> -3.5 <= Run(BrownState(last), rs)[i] <= 3.5
    decreases |rs|
  {
    if |rs| > 0 {
      var next := BrownNext(last, WhiteOf(rs[0]));
      assert -1.0 <= next <= 1.0;
      BrownSamples(next, rs[1..]);
      assert forall i :: 1 <= i < |rs| ==>
        BrownStates(last, rs)[i] == BrownStates(next, rs[1..])[i - 1] &&
        Run(BrownState(last), rs)[i] == Run(BrownState(next), rs[1..])[i - 1];
    }
  }
}
