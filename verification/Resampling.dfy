/** Streaming resampling and re-blocking for the voice activity detector. Sample values are reals. */
module Resampling {
  import opened Integers

  const VAD_SAMPLE_RATE := 16_000
  const VAD_WINDOW := 512
  const VAD_CONTEXT := 64
  const TAPS := 63

  type Signal = seq<real>

  /** One value a channel. */
  type Frame = f: seq<real> | f != [] witness [0.0]

  function Sum(xs: seq<real>): real {
    if xs == [] then 0.0 else Sum(xs[..|xs| - 1]) + xs[|xs| - 1]
  }

  function Mono(block: seq<Frame>): (m: Signal)
    ensures |m| == |block|
  {
    seq(|block|, i requires 0 <= i < |block| => Sum(block[i]) / |block[i]| as real)
  }

  function Flat<T>(blocks: seq<seq<T>>): seq<T> {
    if blocks == [] then [] else Flat(blocks[..|blocks| - 1]) + blocks[|blocks| - 1]
  }

  // ------------------------------------------------------------------ the batch definition

  /** The signal with zeros before its start. */
  function At(x: Signal, i: int): real {
    if 0 <= i < |x| then x[i] else 0.0
  }

  /** The first k terms of the filter at position j. */
  function FirTerms(taps: seq<real>, x: Signal, j: int, k: nat): real
    requires k <= |taps|
  {
    if k == 0 then 0.0 else FirTerms(taps, x, j, k - 1) + taps[k - 1] * At(x, j - (k - 1))
  }

  /** The FIR convolution of the zero-prefixed signal at position j. */
  function Fir(taps: seq<real>, x: Signal, j: int): real {
    FirTerms(taps, x, j, |taps|)
  }

  /** The filtered signal at the multiples of `step` in [from, to). */
  function Taken(taps: seq<real>, x: Signal, step: nat, from: nat, to: nat): Signal
    requires step > 0 && from <= to
  {
    if from == to then []
    else Taken(taps, x, step, from, to - 1) + (if (to - 1) % step == 0 then [Fir(taps, x, to - 1)] else [])
  }

  /** What resampling the whole signal at once gives; at the target rate already, it is the signal. */
  function Resampled(taps: seq<real>, x: Signal, step: nat): Signal
    requires step > 0
  {
    if step == 1 then x else Taken(taps, x, step, 0, |x|)
  }

  function CeilDiv(a: nat, b: nat): nat
    requires b > 0
  {
    (a + b - 1) / b
  }

  /** Sample i of the result is the filter at position i * step; there are ceil(length / step). */
  lemma {:induction false} TakenAt(taps: seq<real>, x: Signal, step: nat, to: nat)
    requires step > 0
    ensures |Taken(taps, x, step, 0, to)| == CeilDiv(to, step)
    ensures forall i | 0 <= i < CeilDiv(to, step) :: Taken(taps, x, step, 0, to)[i] == Fir(taps, x, i * step)
  {
    if to > 0 {
      TakenAt(taps, x, step, to - 1);
      CeilSteps(to, step);
    }
  }

  lemma CeilSteps(to: nat, step: nat)
    requires step > 0 && to > 0
    ensures (to - 1) % step == 0 ==> CeilDiv(to, step) == CeilDiv(to - 1, step) + 1 && (to - 1) == CeilDiv(to - 1, step) * step
    ensures (to - 1) % step != 0 ==> CeilDiv(to, step) == CeilDiv(to - 1, step)
  {
    var q, r := (to - 1) / step, (to - 1) % step;
    assert to - 1 == step * q + r;
    assert step * (q + 1) == step * q + step;
    QuotientIs(to + step - 1, step, q + 1, r);
    if r == 0 {
      QuotientIs(to - 1 + step - 1, step, q, step - 1);
    } else {
      QuotientIs(to - 1 + step - 1, step, q + 1, r - 1);
    }
  }

  // ------------------------------------------------------------------ the streaming object

  /** Every step-th element from `phase` on. */
  function EveryNth(x: Signal, phase: nat, step: nat): Signal
    requires step > 0
    decreases |x| - phase
  {
    if phase >= |x| then [] else [x[phase]] + EveryNth(x, phase + step, step)
  }

  function DotTerms(taps: seq<real>, padded: Signal, last: nat, k: nat): real
    requires k <= |taps| <= last + 1 && last < |padded|
  {
    if k == 0 then 0.0 else DotTerms(taps, padded, last, k - 1) + taps[k - 1] * padded[last - (k - 1)]
  }

  /** Convolution where filter and signal overlap completely. */
  function ValidConvolution(taps: seq<real>, padded: Signal): (y: Signal)
    requires 0 < |taps| <= |padded|
    ensures |y| == |padded| - |taps| + 1
  {
    seq(|padded| - |taps| + 1, j requires 0 <= j < |padded| - |taps| + 1 =>
      DotTerms(taps, padded, j + |taps| - 1, |taps|))
  }

  class Resampler {
    const step: nat
    const taps: seq<real>
    var filterCarry: Signal
    var phase: nat
    ghost var pushed: Signal       // everything pushed so far, as mono

    /** Only multiples of the target rate are supported. */
    constructor (sourceRate: nat, lowpass: seq<real>)
      requires sourceRate > 0 && sourceRate % VAD_SAMPLE_RATE == 0 && |lowpass| == TAPS
      ensures Valid() && pushed == [] && step == sourceRate / VAD_SAMPLE_RATE && taps == lowpass
    {
      step := sourceRate / VAD_SAMPLE_RATE;
      taps := lowpass;
      filterCarry := seq(TAPS - 1, _ => 0.0);
      phase := 0;
      pushed := [];
    }

    ghost predicate Valid()
      reads this
    {
      && step > 0 && |taps| == TAPS
      && (step > 1 ==>
            && phase < step && (|pushed| + phase) % step == 0
            && |filterCarry| == |taps| - 1
            && forall q | 0 <= q < |filterCarry| :: filterCarry[q] == At(pushed, |pushed| - |filterCarry| + q))
    }

    /** A block is never empty: reading stops at the first empty one. */
    method Push(block: seq<Frame>) returns (out: Signal)
      requires Valid() && block != []
      modifies this
      ensures Valid() && pushed == old(pushed) + Mono(block)
      ensures step == 1 ==> out == Mono(block)
      ensures step > 1 ==> out == Taken(taps, pushed, step, |old(pushed)|, |pushed|)
    {
      var mono := Mono(block);
      if step == 1 {
        pushed := pushed + mono;
        return mono;
      }
      var padded := filterCarry + mono;
      ghost var before := pushed;
      PaddedIsSignal(filterCarry, before, mono);
      pushed := pushed + mono;
      filterCarry := padded[|padded| - (|taps| - 1)..];
      var filtered := ValidConvolution(taps, padded);
      FilteredIsFir(taps, padded, pushed, |before|);
      PhaseStep(|before|, phase, |filtered|, step);
      StrideIsTaken(taps, pushed, filtered, |before|, phase, step);
      out := EveryNth(filtered, phase, step);
      phase := (phase - |filtered|) % step;
    }
  }

  // ------------------------------------------------------------------ why the blocks do not matter

  /** What is carried over and the new block are a stretch of the zero-prefixed signal. */
  lemma PaddedIsSignal(carry: Signal, before: Signal, mono: Signal)
    requires forall q | 0 <= q < |carry| :: carry[q] == At(before, |before| - |carry| + q)
    ensures forall q | 0 <= q < |carry + mono| :: (carry + mono)[q] == At(before + mono, |before| - |carry| + q)
  {
  }

  lemma {:induction false} DotIsFir(taps: seq<real>, padded: Signal, x: Signal, base: nat, last: nat, k: nat)
    requires k <= |taps| <= last + 1 && last < |padded|
    requires forall q | 0 <= q < |padded| :: padded[q] == At(x, base - (|taps| - 1) + q)
    ensures DotTerms(taps, padded, last, k) == FirTerms(taps, x, base - (|taps| - 1) + last, k)
  {
    if k > 0 { DotIsFir(taps, padded, x, base, last, k - 1); }
  }

  lemma FilteredIsFir(taps: seq<real>, padded: Signal, x: Signal, base: nat)
    requires 0 < |taps| <= |padded|
    requires forall q | 0 <= q < |padded| :: padded[q] == At(x, base - (|taps| - 1) + q)
    ensures forall t | 0 <= t < |padded| - |taps| + 1 :: ValidConvolution(taps, padded)[t] == Fir(taps, x, base + t)
  {
    forall t | 0 <= t < |padded| - |taps| + 1
      ensures ValidConvolution(taps, padded)[t] == Fir(taps, x, base + t)
    {
      DotIsFir(taps, padded, x, base, t + |taps| - 1, |taps|);
    }
  }

  /** The phase keeps pointing at the next multiple of the step. */
  lemma PhaseStep(base: nat, phase: nat, n: nat, step: nat)
    requires step > 0 && (base + phase) % step == 0
    ensures 0 <= (phase - n) % step < step && (base + n + (phase - n) % step) % step == 0
  {
    var d := phase - n;
    assert d == (d / step) * step + d % step;
    assert base + n + d % step == base + phase - (d / step) * step;
    MultipleStays(base + phase, d / step, step);
  }

  lemma MultipleStays(a: nat, k: int, step: nat)
    requires step > 0 && a % step == 0
    ensures (a - k * step) % step == 0
  {
    var q := a / step;
    assert a == q * step;
    assert a - k * step == (q - k) * step;
    MultipleOf(q - k, step);
  }

  /** Between two multiples nothing is taken. */
  lemma {:induction false} NothingBetween(taps: seq<real>, x: Signal, step: nat, from: nat, to: nat, next: nat)
    requires step > 0 && from <= to <= next && next % step == 0 && next < from + step
    ensures Taken(taps, x, step, from, to) == []
  {
    if from < to {
      NothingBetween(taps, x, step, from, to - 1, next);
      if (to - 1) % step == 0 {
        MultiplesApart(to - 1, next, step);
      }
    }
  }

  lemma {:induction false} TakenSplits(taps: seq<real>, x: Signal, step: nat, from: nat, mid: nat, to: nat)
    requires step > 0 && from <= mid <= to
    ensures Taken(taps, x, step, from, to) == Taken(taps, x, step, from, mid) + Taken(taps, x, step, mid, to)
  {
    if mid < to { TakenSplits(taps, x, step, from, mid, to - 1); }
  }

  /** Striding over the filtered block takes exactly the multiples of the step that lie in it. */
  lemma StrideIsTaken(taps: seq<real>, x: Signal, f: Signal, base: nat, phase: nat, step: nat)
    requires step > 0 && phase < step && (base + phase) % step == 0
    requires forall t | 0 <= t < |f| :: f[t] == Fir(taps, x, base + t)
    ensures EveryNth(f, phase, step) == Taken(taps, x, step, base, base + |f|)
  {
    if phase >= |f| {
      NothingBetween(taps, x, step, base, base + |f|, base + phase);
    } else {
      NothingBetween(taps, x, step, base, base + phase, base + phase);
      TakenSplits(taps, x, step, base, base + phase, base + |f|);
      StrideFrom(taps, x, f, base, phase, step);
    }
  }

  lemma {:induction false} StrideFrom(taps: seq<real>, x: Signal, f: Signal, base: nat, p: nat, step: nat)
    requires step > 0 && (base + p) % step == 0 && p <= |f|
    requires forall t | 0 <= t < |f| :: f[t] == Fir(taps, x, base + t)
    ensures EveryNth(f, p, step) == Taken(taps, x, step, base + p, base + |f|)
    decreases |f| - p
  {
    if p < |f| {
      TakenSplits(taps, x, step, base + p, base + p + 1, base + |f|);
      assert Taken(taps, x, step, base + p, base + p + 1) == [f[p]] by {
        assert Taken(taps, x, step, base + p, base + p) == [];
      }
      MultipleStays(base + p, -1, step);
      if p + step <= |f| {
        NothingBetween(taps, x, step, base + p + 1, base + p + step, base + p + step);
        TakenSplits(taps, x, step, base + p + 1, base + p + step, base + |f|);
        StrideFrom(taps, x, f, base, p + step, step);
      } else {
        NothingBetween(taps, x, step, base + p + 1, base + |f|, base + p + step);
      }
    }
  }

  lemma {:induction false} FirLooksBack(taps: seq<real>, x: Signal, y: Signal, j: int, k: nat)
    requires k <= |taps| && j < |x|
    ensures FirTerms(taps, x + y, j, k) == FirTerms(taps, x, j, k)
  {
    if k > 0 { FirLooksBack(taps, x, y, j, k - 1); }
  }

  /** What was taken does not depend on what comes later. */
  lemma {:induction false} TakenStays(taps: seq<real>, x: Signal, y: Signal, step: nat, from: nat, to: nat)
    requires step > 0 && from <= to <= |x|
    ensures Taken(taps, x + y, step, from, to) == Taken(taps, x, step, from, to)
  {
    if from < to {
      TakenStays(taps, x, y, step, from, to - 1);
      FirLooksBack(taps, x, y, to - 1, |taps|);
    }
  }

  lemma ResampledGrows(taps: seq<real>, x: Signal, y: Signal, step: nat, out: Signal)
    requires step > 0
    requires step == 1 ==> out == y
    requires step > 1 ==> out == Taken(taps, x + y, step, |x|, |x + y|)
    ensures Resampled(taps, x + y, step) == Resampled(taps, x, step) + out
  {
    if step > 1 {
      TakenStays(taps, x, y, step, 0, |x|);
      TakenSplits(taps, x + y, step, 0, |x|, |x + y|);
    }
  }

  lemma FlatOneMore<T>(blocks: seq<seq<T>>, b: seq<T>)
    ensures Flat(blocks + [b]) == Flat(blocks) + b
  {
    assert (blocks + [b])[..|blocks|] == blocks;
  }

  lemma MonoAppend(a: seq<Frame>, b: seq<Frame>)
    ensures Mono(a + b) == Mono(a) + Mono(b)
  {
  }

  /** Streaming equals batch: however the recording is cut into blocks, the outputs put together are
      the resampled whole. */
  method ResampleTo16k(r: Resampler, blocks: seq<seq<Frame>>) returns (out: seq<Signal>)
    requires r.Valid() && r.pushed == [] && forall i | 0 <= i < |blocks| :: blocks[i] != []
    modifies r
    ensures r.Valid() && Flat(out) == Resampled(r.taps, Mono(Flat(blocks)), r.step)
  {
    out := [];
    for i := 0 to |blocks|
      invariant r.Valid() && r.pushed == Mono(Flat(blocks[..i]))
      invariant Flat(out) == Resampled(r.taps, r.pushed, r.step)
    {
      ghost var before := r.pushed;
      var one := r.Push(blocks[i]);
      ResampledGrows(r.taps, before, Mono(blocks[i]), r.step, one);
      FlatOneMore(out, one);
      FlatOneMore(blocks[..i], blocks[i]);
      MonoAppend(Flat(blocks[..i]), blocks[i]);
      assert blocks[..i + 1] == blocks[..i] + [blocks[i]];
      out := out + [one];
    }
    assert blocks[..|blocks|] == blocks;
  }

  // ------------------------------------------------------------------ re-blocking for the detector

  /** The detector network with its recurrent state. */
  datatype Net<!S> = Net(run: (Signal, S) -> (real, S), start: S)

  datatype Run<S> = Run(state: S, context: Signal, probs: seq<real>)

  /** The i-th window of the signal, the last one padded with zeros. */
  function Window(x: Signal, i: nat): (w: Signal)
    ensures |w| == VAD_WINDOW
  {
    seq(VAD_WINDOW, j => At(x, i * VAD_WINDOW + j))
  }

  lemma WindowIs(x: Signal, i: nat, w: Signal)
    requires |w| == VAD_WINDOW && forall j | 0 <= j < |w| :: w[j] == At(x, i * VAD_WINDOW + j)
    ensures w == Window(x, i)
  {
    forall j | 0 <= j < |w|
      ensures w[j] == Window(x, i)[j]
    {
    }
  }

  function RunOne<S>(net: Net<S>, r: Run<S>, chunk: Signal): Run<S>
    requires |r.context| == VAD_CONTEXT && |chunk| == VAD_WINDOW
  {
    var input := r.context + chunk;
    var out := net.run(input, r.state);
    Run(out.1, input[|input| - VAD_CONTEXT..], r.probs + [out.0])
  }

  /** The first n windows, one after the other. */
  function RunWindows<S>(net: Net<S>, x: Signal, n: nat): (r: Run<S>)
    ensures |r.context| == VAD_CONTEXT && |r.probs| == n
  {
    if n == 0 then Run(net.start, seq(VAD_CONTEXT, _ => 0.0), [])
    else RunOne(net, RunWindows(net, x, n - 1), Window(x, n - 1))
  }

  lemma {:induction false} EarlyWindowsStay<S>(net: Net<S>, x: Signal, y: Signal, n: nat)
    requires n * VAD_WINDOW <= |x|
    ensures RunWindows(net, x + y, n) == RunWindows(net, x, n)
  {
    if n > 0 {
      EarlyWindowsStay(net, x, y, n - 1);
      var w := Window(x, n - 1);
      forall j | 0 <= j < |w|
        ensures w[j] == At(x + y, (n - 1) * VAD_WINDOW + j)
      {
        assert (n - 1) * VAD_WINDOW + j < n * VAD_WINDOW;
      }
      WindowIs(x + y, n - 1, w);
    }
  }

  /** What the detector is after some of the signal: whole windows run, the rest carried over. */
  ghost predicate Caught<S>(net: Net<S>, x: Signal, r: Run<S>, carry: Signal) {
    && |carry| < VAD_WINDOW && |r.probs| * VAD_WINDOW + |carry| == |x|
    && carry == x[|r.probs| * VAD_WINDOW..]
    && r == RunWindows(net, x, |r.probs|)
  }

  /** A whole window's worth of the pending data is the next window of the signal. */
  lemma NextWindow(y: Signal, from: nat, data: Signal, at: nat, n: nat)
    requires from <= |y| && data == y[from..] && at + VAD_WINDOW <= |data|
    requires n * VAD_WINDOW == from + at
    ensures data[at..at + VAD_WINDOW] == Window(y, n)
  {
    WindowIs(y, n, data[at..at + VAD_WINDOW]);
  }

  /** All whole windows of the pending data; the rest is carried over. */
  method RunBlock<S>(net: Net<S>, start: Run<S>, pending: Signal, block: Signal, ghost x: Signal)
      returns (r: Run<S>, carry: Signal)
    requires Caught(net, x, start, pending)
    ensures Caught(net, x + block, r, carry)
  {
    var data := pending + block;
    ghost var y := x + block;
    ghost var from := |start.probs| * VAD_WINDOW;
    EarlyWindowsStay(net, x, block, |start.probs|);
    assert data == y[from..];
    var usable := (|data| / VAD_WINDOW) * VAD_WINDOW;
    r := start;
    var at := 0;
    while at < usable
      invariant 0 <= at <= usable && at % VAD_WINDOW == 0
      invariant |r.probs| * VAD_WINDOW == from + at
      invariant r == RunWindows(net, y, |r.probs|)
    {
      NextWindow(y, from, data, at, |r.probs|);
      r := RunOne(net, r, data[at..at + VAD_WINDOW]);
      at := at + VAD_WINDOW;
    }
    carry := data[usable..];
  }

  /** The last window, padded with zeros. */
  method RunTail<S>(net: Net<S>, start: Run<S>, carry: Signal, ghost x: Signal) returns (r: Run<S>)
    requires Caught(net, x, start, carry)
    ensures r == RunWindows(net, x, CeilDiv(|x|, VAD_WINDOW))
  {
    r := start;
    if carry != [] {
      var last := carry + seq(VAD_WINDOW - |carry|, _ => 0.0);
      WindowIs(x, |r.probs|, last);
      QuotientIs(|x| + VAD_WINDOW - 1, VAD_WINDOW, |r.probs| + 1, |carry| - 1);
      r := RunOne(net, r, last);
    } else {
      QuotientIs(|x| + VAD_WINDOW - 1, VAD_WINDOW, |r.probs|, VAD_WINDOW - 1);
    }
  }

  /** The network sees the same windows however the signal arrives: ceil(length / 512) of them. */
  method Probabilities<S>(net: Net<S>, blocks: seq<Signal>) returns (probs: seq<real>)
    ensures var x := Flat(blocks);
            probs == RunWindows(net, x, CeilDiv(|x|, VAD_WINDOW)).probs && |probs| == CeilDiv(|x|, VAD_WINDOW)
  {
    var r := Run(net.start, seq(VAD_CONTEXT, _ => 0.0), []);
    var carry: Signal := [];
    for i := 0 to |blocks|
      invariant Caught(net, Flat(blocks[..i]), r, carry)
    {
      ghost var x := Flat(blocks[..i]);
      FlatOneMore(blocks[..i], blocks[i]);
      assert blocks[..i + 1] == blocks[..i] + [blocks[i]];
      r, carry := RunBlock(net, r, carry, blocks[i], x);
    }
    assert blocks[..|blocks|] == blocks;
    r := RunTail(net, r, carry, Flat(blocks));
    probs := r.probs;
  }

  /** From the recording to the probabilities: they depend on the recording, not on how it was read. */
  method DetectProbabilities<S>(r: Resampler, net: Net<S>, blocks: seq<seq<Frame>>)
      returns (probs: seq<real>, total: nat)
    requires r.Valid() && r.pushed == [] && forall i | 0 <= i < |blocks| :: blocks[i] != []
    modifies r
    ensures var x := Resampled(r.taps, Mono(Flat(blocks)), r.step);
            && total == |x| && |probs| == CeilDiv(total, VAD_WINDOW)
            && probs == RunWindows(net, x, CeilDiv(total, VAD_WINDOW)).probs
  {
    var resampled := ResampleTo16k(r, blocks);
    probs := Probabilities(net, resampled);
    total := |Flat(resampled)|;
  }

  // ------------------------------------------------------------------ what the filter and the network are given

  /** A single one at position `at`. */
  function Impulse(at: nat, n: nat): Signal {
    seq(n, i => if i == at then 1.0 else 0.0)
  }

  lemma {:induction false} ImpulseTerms(taps: seq<real>, at: nat, n: nat, j: int, k: nat)
    requires k <= |taps| && at < n
    ensures FirTerms(taps, Impulse(at, n), j, k) == if 0 <= j - at < k then taps[j - at] else 0.0
  {
    if k > 0 { ImpulseTerms(taps, at, n, j, k - 1); }
  }

  /** The filter answers an impulse with its taps, the first of them at once. */
  lemma ImpulseGivesTaps(taps: seq<real>, at: nat, n: nat, j: nat)
    requires at < n
    ensures Fir(taps, Impulse(at, n), j) == if at <= j < at + |taps| then taps[j - at] else 0.0
  {
    ImpulseTerms(taps, at, n, j, |taps|);
  }

  lemma {:induction false} TermsAdd(taps: seq<real>, x: Signal, y: Signal, z: Signal, c: real, j: int, k: nat)
    requires k <= |taps| && |x| == |y| == |z| && forall i | 0 <= i < |x| :: z[i] == x[i] + c * y[i]
    ensures FirTerms(taps, z, j, k) == FirTerms(taps, x, j, k) + c * FirTerms(taps, y, j, k)
  {
    if k > 0 {
      TermsAdd(taps, x, y, z, c, j, k - 1);
      var i, t := j - (k - 1), taps[k - 1];
      assert At(z, i) == At(x, i) + c * At(y, i);
      assert t * (c * At(y, i)) == c * (t * At(y, i));
      assert c * (FirTerms(taps, y, j, k - 1) + t * At(y, i)) == c * FirTerms(taps, y, j, k - 1) + c * (t * At(y, i));
    }
  }

  /** And it is linear, so these answers say what it does to every signal. */
  lemma FilterIsLinear(taps: seq<real>, x: Signal, y: Signal, z: Signal, c: real, j: int)
    requires |x| == |y| == |z| && forall i | 0 <= i < |x| :: z[i] == x[i] + c * y[i]
    ensures Fir(taps, z, j) == Fir(taps, x, j) + c * Fir(taps, y, j)
  {
    TermsAdd(taps, x, y, z, c, j, |taps|);
  }

  /** A mono sample times the number of channels is the sum over the channels. */
  lemma MonoIsMean(block: seq<Frame>, i: nat)
    requires i < |block|
    ensures Mono(block)[i] * |block[i]| as real == Sum(block[i])
  {
    assert |block[i]| as real != 0.0;
  }

  /** The stretch of the signal the network sees with window i: the end of the window before it, zeros
      for the first one, and the window. */
  function Seen(x: Signal, i: nat): Signal {
    seq(VAD_CONTEXT + VAD_WINDOW, j => At(x, i * VAD_WINDOW - VAD_CONTEXT + j))
  }

  lemma {:induction false} ContextIsBefore<S>(net: Net<S>, x: Signal, n: nat)
    ensures forall j | 0 <= j < VAD_CONTEXT :: RunWindows(net, x, n).context[j] == At(x, n * VAD_WINDOW - VAD_CONTEXT + j)
  {
    if n > 0 {
      var r, w := RunWindows(net, x, n - 1), Window(x, n - 1);
      assert (r.context + w)[|r.context + w| - VAD_CONTEXT..] == w[VAD_WINDOW - VAD_CONTEXT..];
    }
  }

  /** The network goes over the signal from its start state, one window after the other, and sees each
      with the 64 samples before it. */
  lemma NetworkSees<S>(net: Net<S>, x: Signal, n: nat)
    ensures RunWindows(net, x, 0).state == net.start
    ensures var before, after := RunWindows(net, x, n), RunWindows(net, x, n + 1);
            var out := net.run(Seen(x, n), before.state);
            after.probs == before.probs + [out.0] && after.state == out.1
  {
    ContextIsBefore(net, x, n);
    assert RunWindows(net, x, n).context + Window(x, n) == Seen(x, n);
  }
}
