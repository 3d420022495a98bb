/** The input band-limiting stage of the tape chain (src/DaisyInputFilters.cpp,
    include/DaisyInputFilters.h). Per channel, a low-cut crossover and a high-cut
    crossover split each sample into the band that goes on to the tape and two
    discarded parts; the discarded parts are kept in scratch rows and, when the
    makeup path is on, added back through a latency-matching delay line. */
module InputFilterStage {
  import opened DspMath
  import opened DelayLines
  import opened LinkwitzRiley

  /** SAFE_MAX_BLOCK_SIZE: the length of each makeup scratch row. */
  const SafeMaxBlockSize: int := 256

  /** setHighCut clamps the cutoff to this fraction of the sample rate. */
  const HighCutLimit: real := 0.48

  // ---------------------------------------------------------------------------
  // Pure model of the routing loop

  /** Registers of the two crossovers after a run, and the three outputs per sample:
      the band (written back to the buffer), the low part the low cut removed and
      the high part the high cut removed. */
  datatype Route = Route(lo: Regs, hi: Regs, band: seq<real>, trashLow: seq<real>, trashHigh: seq<real>)

  /** The sample loop of processBlock on one channel: the low-cut filter's high
      output feeds the high-cut filter, whose low output is the band. */
  function RouteRun(lo: Coeffs, hi: Coeffs, loR: Regs, hiR: Regs, xs: seq<real>): (r: Route)
    ensures |r.band| == |xs| && |r.trashLow| == |xs| && |r.trashHigh| == |xs|
    decreases |xs|
  {
    if xs == [] then Route(loR, hiR, [], [], [])
    else
      var n := |xs| - 1;
      var prev := RouteRun(lo, hi, loR, hiR, xs[..n]);
      var a := Step(lo, prev.lo, xs[n]);
      var b := Step(hi, prev.hi, a.high);
      Route(a.regs, b.regs, prev.band + [b.low], prev.trashLow + [a.low], prev.trashHigh + [b.high])
  }

  /** Running a block in two pieces, carrying the registers across, equals running it whole. */
  lemma {:induction false} RouteRunSplit(lo: Coeffs, hi: Coeffs, loR: Regs, hiR: Regs, xs: seq<real>, ys: seq<real>)
    ensures var first := RouteRun(lo, hi, loR, hiR, xs);
            var second := RouteRun(lo, hi, first.lo, first.hi, ys);
            RouteRun(lo, hi, loR, hiR, xs + ys) ==
              Route(second.lo, second.hi, first.band + second.band,
                    first.trashLow + second.trashLow, first.trashHigh + second.trashHigh)
    decreases |ys|
  {
    var first := RouteRun(lo, hi, loR, hiR, xs);
    if ys == [] {
      assert xs + ys == xs;
    } else {
      var n := |ys| - 1;
      RouteRunSplit(lo, hi, loR, hiR, xs, ys[..n]);
      assert (xs + ys)[..|xs + ys| - 1] == xs + ys[..n];
    }
  }

  /** What every sample of a run receives: with the registers left by the samples
      before it, the band and the high discard come from the high-cut filter fed
      with the low-cut filter's high output, the low discard from the low-cut filter. */
  lemma RouteRunAt(lo: Coeffs, hi: Coeffs, loR: Regs, hiR: Regs, xs: seq<real>, n: int)
    requires 0 <= n < |xs|
    ensures var r := RouteRun(lo, hi, loR, hiR, xs);
            var p := RouteRun(lo, hi, loR, hiR, xs[..n]);
            var a := Step(lo, p.lo, xs[n]);
            var b := Step(hi, p.hi, a.high);
            r.band[n] == b.low && r.trashLow[n] == a.low && r.trashHigh[n] == b.high
  {
    var head := xs[..n + 1];
    assert head[..n] == xs[..n] && head[n] == xs[n];
    var q := RouteRun(lo, hi, loR, hiR, head);
    RouteRunSplit(lo, hi, loR, hiR, head, xs[n + 1..]);
    assert head + xs[n + 1..] == xs;
    var r := RouteRun(lo, hi, loR, hiR, xs);
    assert r.band[n] == q.band[n] && r.trashLow[n] == q.trashLow[n] && r.trashHigh[n] == q.trashHigh[n];
  }

  /** The run over the first n samples of xs. */
  ghost function PrefixRun(lo: Coeffs, hi: Coeffs, loR: Regs, hiR: Regs, xs: seq<real>, n: int): Route
    requires 0 <= n <= |xs|
  {
    RouteRun(lo, hi, loR, hiR, xs[..n])
  }

  /** One more sample extends a run by one step of each crossover. */
  lemma PrefixRunSnoc(lo: Coeffs, hi: Coeffs, loR: Regs, hiR: Regs, xs: seq<real>, n: int)
    requires 0 <= n < |xs|
    ensures var p := PrefixRun(lo, hi, loR, hiR, xs, n);
            var a := Step(lo, p.lo, xs[n]);
            var b := Step(hi, p.hi, a.high);
            PrefixRun(lo, hi, loR, hiR, xs, n + 1) ==
              Route(a.regs, b.regs, p.band + [b.low], p.trashLow + [a.low], p.trashHigh + [b.high])
  {
    assert xs[..n + 1][..n] == xs[..n];
  }

  /** Silence into cleared crossovers yields silence on all three outputs and
      leaves the registers cleared. */
  lemma {:induction false} RouteRunSilence(lo: Coeffs, hi: Coeffs, n: nat)
    ensures RouteRun(lo, hi, ZeroRegs, ZeroRegs, Zeros(n)) == Route(ZeroRegs, ZeroRegs, Zeros(n), Zeros(n), Zeros(n))
  {
    if n > 0 {
      assert Zeros(n)[..n - 1] == Zeros(n - 1);
      RouteRunSilence(lo, hi, n - 1);
      StepSilence(lo);
      StepSilence(hi);
      assert Zeros(n - 1) + [0.0] == Zeros(n);
    }
  }

  /** Sample-wise sum of two equally long blocks. */
  function AddSeq(a: seq<real>, b: seq<real>): (r: seq<real>)
    requires |a| == |b|
    ensures |r| == |a|
  {
    seq(|a|, k requires 0 <= k < |a| => a[k] + b[k])
  }

  /** One sample through both crossovers (channel 0 of each): the low-cut
      filter's high output feeds the high-cut filter. */
  method RouteSample(lo: LinkwitzRileyFilter, hi: LinkwitzRileyFilter, x: real) returns (lowPart: real, band: real, highPart: real)
    requires lo.Valid() && hi.Valid() && lo.state != hi.state
    modifies lo.state, hi.state
    ensures var a := Step(lo.Coefs(), old(lo.Channel(0)), x);
            var b := Step(hi.Coefs(), old(hi.Channel(0)), a.high);
            lo.Channel(0) == a.regs && hi.Channel(0) == b.regs && lowPart == a.low && band == b.low && highPart == b.high
  {
    var highPassSample;
    lowPart, highPassSample := lo.ProcessSample(0, x);
    band, highPart := hi.ProcessSample(0, highPassSample);
  }

  /** The sample loop of processBlock on one channel: each sample goes through
      the low-cut crossover, its high output through the high-cut crossover; the
      band replaces the sample, the two discarded parts go to the scratch rows. */
  method RouteLoop(lo: LinkwitzRileyFilter, hi: LinkwitzRileyFilter, lowRow: array<real>, highRow: array<real>,
                   buf: array<real>, blockSize: int, ghost xs: seq<real>) returns (ghost run: Route)
    requires lo.Valid() && hi.Valid() && lo.state != hi.state
    requires lowRow != highRow && buf != lowRow && buf != highRow
    requires 0 <= blockSize <= buf.Length && blockSize <= lowRow.Length && blockSize <= highRow.Length
    requires xs == buf[..blockSize]
    modifies buf, lo.state, hi.state, lowRow, highRow
    ensures run == PrefixRun(lo.Coefs(), hi.Coefs(), old(lo.Channel(0)), old(hi.Channel(0)), xs, blockSize)
    ensures lo.Channel(0) == run.lo && hi.Channel(0) == run.hi
    ensures buf[..blockSize] == run.band && lowRow[..blockSize] == run.trashLow && highRow[..blockSize] == run.trashHigh
    ensures forall j :: blockSize <= j < buf.Length ==> buf[j] == old(buf[j])
  {
    ghost var loC, hiC, loR, hiR := lo.Coefs(), hi.Coefs(), lo.Channel(0), hi.Channel(0);
    run := Route(loR, hiR, [], [], []);
    for n := 0 to blockSize
      invariant run == PrefixRun(loC, hiC, loR, hiR, xs, n)
      invariant lo.Channel(0) == run.lo && hi.Channel(0) == run.hi
      invariant |run.band| == n && |run.trashLow| == n && |run.trashHigh| == n
      invariant forall k :: 0 <= k < n ==> buf[k] == run.band[k]
      invariant forall k :: 0 <= k < n ==> lowRow[k] == run.trashLow[k]
      invariant forall k :: 0 <= k < n ==> highRow[k] == run.trashHigh[k]
      invariant forall j :: n <= j < buf.Length ==> buf[j] == old(buf[j])
    {
      PrefixRunSnoc(loC, hiC, loR, hiR, xs, n);
      var inputSample := buf[n];
      var lowPart, bandPassSample, highPart := RouteSample(lo, hi, inputSample);
      lowRow[n] := lowPart;
      highRow[n] := highPart;
      buf[n] := bandPassSample;
      run := Route(lo.Channel(0), hi.Channel(0), run.band + [bandPassSample], run.trashLow + [lowPart], run.trashHigh + [highPart]);
    }
    assert buf[..blockSize] == run.band;
    assert lowRow[..blockSize] == run.trashLow;
    assert highRow[..blockSize] == run.trashHigh;
  }

  /** The body of processBlock's channel loop: the sample loop, then both
      crossovers are swept for denormals. */
  method RouteBlock(lo: LinkwitzRileyFilter, hi: LinkwitzRileyFilter, lowRow: array<real>, highRow: array<real>,
                    buf: array<real>, blockSize: int, ghost r: Route)
    requires lo.Valid() && hi.Valid() && lo.numChannels == 1 && hi.numChannels == 1 && lo.state != hi.state
    requires lowRow != highRow && buf != lowRow && buf != highRow
    requires 0 <= blockSize <= buf.Length && blockSize <= lowRow.Length && blockSize <= highRow.Length
    requires r == RouteRun(lo.Coefs(), hi.Coefs(), lo.Channel(0), hi.Channel(0), buf[..blockSize])
    modifies buf, lo.state, hi.state, lowRow, highRow
    ensures buf[..blockSize] == r.band && lowRow[..blockSize] == r.trashLow && highRow[..blockSize] == r.trashHigh &&
            lo.Channel(0) == SnapRegs(r.lo) && hi.Channel(0) == SnapRegs(r.hi)
    ensures forall j :: blockSize <= j < buf.Length ==> buf[j] == old(buf[j])
  {
    ghost var xs := buf[..blockSize];
    assert xs[..blockSize] == xs;
    ghost var run := RouteLoop(lo, hi, lowRow, highRow, buf, blockSize, xs);
    lo.SnapToZero();
    hi.SnapToZero();
  }

  /** One of the four crossovers the stage's members are initialised with. */
  method NewCrossover(math: MathLib) returns (f: LinkwitzRileyFilter)
    ensures fresh(f) && fresh(f.state) && f.Valid() && f.numChannels == 0
  {
    f := new LinkwitzRileyFilter(math);
  }

  // ---------------------------------------------------------------------------
  // The class

  class InputFilters {
    var onOff: bool
    var makeup: bool
    var fs: real
    var numChannels: int
    var lowCutFreq: real
    var highCutFreq: real
    const lowCutFilter: seq<LinkwitzRileyFilter>
    const highCutFilter: seq<LinkwitzRileyFilter>
    /** The two (nullable) makeup delay pointers. */
    var makeupDelay: seq<DelayLine?>
    /** makeupLowBuffer[2][SAFE_MAX_BLOCK_SIZE] and makeupHighBuffer[2][SAFE_MAX_BLOCK_SIZE],
        one row per channel. */
    const makeupLowBuffer: seq<array<real>>
    const makeupHighBuffer: seq<array<real>>

    /** The number of channels the loops visit (ch < numChannels). */
    function Active(): nat
      reads this
    {
      if numChannels < 0 then 0 else numChannels
    }

    /** The fixed layout: two filters per band, 2 x 256 scratch rows, and six
        distinct arrays (four register files and the two scratch buffers). */
    ghost predicate Shaped()
    {
      |lowCutFilter| == 2 && |highCutFilter| == 2 &&
      |makeupLowBuffer| == 2 && |makeupHighBuffer| == 2 &&
      makeupLowBuffer[0].Length == SafeMaxBlockSize && makeupLowBuffer[1].Length == SafeMaxBlockSize &&
      makeupHighBuffer[0].Length == SafeMaxBlockSize && makeupHighBuffer[1].Length == SafeMaxBlockSize &&
      lowCutFilter[0].state != lowCutFilter[1].state && highCutFilter[0].state != highCutFilter[1].state &&
      lowCutFilter[0].state != highCutFilter[0].state && lowCutFilter[0].state != highCutFilter[1].state &&
      lowCutFilter[1].state != highCutFilter[0].state && lowCutFilter[1].state != highCutFilter[1].state &&
      makeupLowBuffer[0] != makeupLowBuffer[1] && makeupHighBuffer[0] != makeupHighBuffer[1] &&
      makeupLowBuffer[0] != makeupHighBuffer[0] && makeupLowBuffer[0] != makeupHighBuffer[1] &&
      makeupLowBuffer[1] != makeupHighBuffer[0] && makeupLowBuffer[1] != makeupHighBuffer[1]
    }

    /** The register files of the four crossovers. */
    ghost function FilterStates(): set<object>
      requires |lowCutFilter| == 2 && |highCutFilter| == 2
    {
      {lowCutFilter[0].state, lowCutFilter[1].state, highCutFilter[0].state, highCutFilter[1].state}
    }

    /** The four scratch rows. */
    ghost function Rows(): set<array<real>>
      requires |makeupLowBuffer| == 2 && |makeupHighBuffer| == 2
    {
      {makeupLowBuffer[0], makeupLowBuffer[1], makeupHighBuffer[0], makeupHighBuffer[1]}
    }

    /** A crossover of a visited channel: prepared for one channel at the stage's
        rate, holding the stage's cutoff. */
    ghost predicate Serves(f: LinkwitzRileyFilter, cutoff: real)
      reads this, f
    {
      f.Valid() && f.numChannels == 1 && f.sampleRate == fs && f.cutoffFrequency == cutoff
    }

    /** The layout and two distinct (or absent) makeup delay lines. */
    ghost predicate Wired()
      reads this
    {
      Shaped() && |makeupDelay| == 2 && (makeupDelay[0] != null ==> makeupDelay[0] != makeupDelay[1])
    }

    ghost predicate Valid()
      reads this, lowCutFilter, highCutFilter
    {
      Wired() &&
      lowCutFilter[0].Valid() && lowCutFilter[1].Valid() && highCutFilter[0].Valid() && highCutFilter[1].Valid() &&
      numChannels <= 2 && (numChannels > 0 ==> fs > 0.0) &&
      (numChannels > 0 ==> Ready(0)) && (numChannels > 1 ==> Ready(1))
    }

    /** Both crossovers of channel i serve it. */
    ghost predicate Ready(i: int)
      requires |lowCutFilter| == 2 && |highCutFilter| == 2 && 0 <= i < 2
      reads this, lowCutFilter[i], highCutFilter[i]
    {
      Serves(lowCutFilter[i], lowCutFreq) && Serves(highCutFilter[i], highCutFreq)
    }

    /** The routing run of channel ch over xs, from the crossovers' current registers. */
    ghost function RouteOf(ch: int, xs: seq<real>): Route
      requires Shaped() && 0 <= ch < 2
      requires lowCutFilter[ch].Valid() && highCutFilter[ch].Valid()
      reads lowCutFilter[ch], lowCutFilter[ch].state, highCutFilter[ch], highCutFilter[ch].state
    {
      RouteRun(lowCutFilter[ch].Coefs(), highCutFilter[ch].Coefs(),
               lowCutFilter[ch].Channel(0), highCutFilter[ch].Channel(0), xs)
    }

    /** Channel ch has been routed: the buffer holds the band, the scratch rows the
        discarded parts, and the crossovers the swept registers of the run. */
    ghost predicate Routed(ch: int, buf: array<real>, blockSize: int, r: Route)
      requires Shaped() && 0 <= ch < 2 && 0 <= blockSize <= buf.Length && blockSize <= SafeMaxBlockSize
      requires lowCutFilter[ch].Valid() && highCutFilter[ch].Valid()
      reads buf, lowCutFilter[ch], lowCutFilter[ch].state, highCutFilter[ch], highCutFilter[ch].state
      reads makeupLowBuffer[ch], makeupHighBuffer[ch]
    {
      buf[..blockSize] == r.band && Swept(ch, blockSize, r)
    }

    /** What routing channel ch leaves besides the band: the crossovers hold the
        swept registers of the run, the scratch rows its two discarded parts. */
    ghost predicate Swept(ch: int, blockSize: int, r: Route)
      requires Shaped() && 0 <= ch < 2 && 0 <= blockSize <= SafeMaxBlockSize
      requires lowCutFilter[ch].Valid() && highCutFilter[ch].Valid()
      reads lowCutFilter[ch], lowCutFilter[ch].state, highCutFilter[ch], highCutFilter[ch].state
      reads makeupLowBuffer[ch], makeupHighBuffer[ch]
    {
      lowCutFilter[ch].Channel(0) == SnapRegs(r.lo) && highCutFilter[ch].Channel(0) == SnapRegs(r.hi) &&
      makeupLowBuffer[ch][..blockSize] == r.trashLow && makeupHighBuffer[ch][..blockSize] == r.trashHigh
    }

    /** makeupLow + makeupHigh of channel ch over the first n samples. */
    ghost function MakeupSignal(ch: int, n: int): (r: seq<real>)
      requires Shaped() && 0 <= ch < 2 && 0 <= n <= SafeMaxBlockSize
      reads makeupLowBuffer[ch], makeupHighBuffer[ch]
      ensures |r| == n
    {
      AddSeq(makeupLowBuffer[ch][..n], makeupHighBuffer[ch][..n])
    }

    /** Filters off, makeup off, 48 kHz, no channels, cuts at 20 Hz and 22 kHz, no delay lines. */
    constructor (math: MathLib)
      ensures Valid()
      ensures fresh(lowCutFilter[0]) && fresh(lowCutFilter[1]) && fresh(highCutFilter[0]) && fresh(highCutFilter[1])
      ensures fresh(FilterStates()) && fresh(Rows())
      ensures !onOff && !makeup && fs == 48000.0 && numChannels == 0
      ensures lowCutFreq == 20.0 && highCutFreq == 22000.0 && makeupDelay == [null, null]
    {
      var l0 := NewCrossover(math);
      var l1 := NewCrossover(math);
      var h0 := NewCrossover(math);
      var h1 := NewCrossover(math);
      var low0 := new real[SafeMaxBlockSize];
      var low1 := new real[SafeMaxBlockSize];
      var high0 := new real[SafeMaxBlockSize];
      var high1 := new real[SafeMaxBlockSize];
      onOff, makeup := false, false;
      fs := 48000.0;
      numChannels := 0;
      lowCutFreq, highCutFreq := 20.0, 22000.0;
      makeupDelay := [null, null];
      lowCutFilter := [l0, l1];
      highCutFilter := [h0, h1];
      makeupLowBuffer := [low0, low1];
      makeupHighBuffer := [high0, high1];
    }

    /** setDelayLinePointers: links the caller's delay lines (distinct or null). */
    method SetDelayLinePointers(delayL: DelayLine?, delayR: DelayLine?)
      requires Valid() && (delayL != null ==> delayL != delayR)
      modifies this`makeupDelay
      ensures Valid() && makeupDelay == [delayL, delayR]
    {
      makeupDelay := [delayL, delayR];
    }

    /** prepare: at most two channels; each visited channel gets both crossovers
        prepared for one channel at the new rate with the stored cutoffs (whose
        setCutoff asserts them below Nyquist), and its delay line, if any,
        cleared with delay 0. */
    method Prepare(sampleRate: real, numCh: int)
      requires Valid()
      requires MinInt(numCh, 2) > 0 ==> sampleRate > 0.0 && lowCutFreq < 0.5 * sampleRate && highCutFreq < 0.5 * sampleRate
      modifies this`fs, this`numChannels, lowCutFilter, highCutFilter
      modifies lowCutFilter[0].state, lowCutFilter[1].state, highCutFilter[0].state, highCutFilter[1].state, makeupDelay[0], makeupDelay[1]
      ensures Valid() && fs == sampleRate && numChannels == MinInt(numCh, 2)
      ensures Active() > 0 ==> Cleared(0) && Designed(0)
      ensures Active() > 1 ==> Cleared(1) && Designed(1)
      ensures Active() == 0 ==>
        unchanged(lowCutFilter[0], lowCutFilter[0].state, highCutFilter[0], highCutFilter[0].state) &&
        (makeupDelay[0] != null ==> unchanged(makeupDelay[0]))
      ensures Active() <= 1 ==>
        unchanged(lowCutFilter[1], lowCutFilter[1].state, highCutFilter[1], highCutFilter[1].state) &&
        (makeupDelay[1] != null ==> unchanged(makeupDelay[1]))
    {
      fs := sampleRate;
      numChannels := MinInt(numCh, 2);
      // the channel loop, over its at most two channels
      if Active() > 0 {
        PrepareChannel(0);
      }
      if Active() > 1 {
        PrepareChannel(1);
      }
    }

    /** Channel i of a prepare: both crossovers hold cleared registers, and its
        delay line, if any, is empty with delay 0. */
    ghost predicate Cleared(i: int)
      requires Shaped() && |makeupDelay| == 2 && 0 <= i < 2
      requires lowCutFilter[i].Valid() && highCutFilter[i].Valid()
      reads this, lowCutFilter[i], highCutFilter[i], lowCutFilter[i].state, highCutFilter[i].state, makeupDelay[i]
    {
      lowCutFilter[i].Channel(0) == ZeroRegs && highCutFilter[i].Channel(0) == ZeroRegs &&
      (makeupDelay[i] != null ==> makeupDelay[i].written == [] && makeupDelay[i].delay == 0.0)
    }

    /** Both crossovers of channel i are designed for the stage's cutoffs at its rate. */
    ghost predicate Designed(i: int)
      requires |lowCutFilter| == 2 && |highCutFilter| == 2 && 0 <= i < 2
      reads this, lowCutFilter[i], highCutFilter[i]
    {
      lowCutFilter[i].Coefs() == Design(lowCutFilter[i].math, lowCutFreq, fs) &&
      highCutFilter[i].Coefs() == Design(highCutFilter[i].math, highCutFreq, fs)
    }

    /** One iteration of prepare's loop. */
    method PrepareChannel(i: int)
      requires Shaped() && |makeupDelay| == 2 && (makeupDelay[0] != null ==> makeupDelay[0] != makeupDelay[1])
      requires lowCutFilter[0].Valid() && lowCutFilter[1].Valid() && highCutFilter[0].Valid() && highCutFilter[1].Valid()
      requires 0 <= i < 2 && fs > 0.0 && lowCutFreq < 0.5 * fs && highCutFreq < 0.5 * fs
      modifies lowCutFilter[i], highCutFilter[i], lowCutFilter[i].state, highCutFilter[i].state, makeupDelay[0], makeupDelay[1]
      ensures lowCutFilter[i].Valid() && highCutFilter[i].Valid()
      ensures Serves(lowCutFilter[i], lowCutFreq) && Serves(highCutFilter[i], highCutFreq)
      ensures Cleared(i) && Designed(i)
      ensures unchanged(lowCutFilter[1 - i], lowCutFilter[1 - i].state, highCutFilter[1 - i], highCutFilter[1 - i].state) &&
        (makeupDelay[1 - i] != null ==> unchanged(makeupDelay[1 - i]))
    {
      PrepareFilter(lowCutFilter[i], lowCutFreq);
      PrepareFilter(highCutFilter[i], highCutFreq);
      if makeupDelay[i] != null {
        makeupDelay[i].Init();
        makeupDelay[i].SetDelay(0.0);
      }
    }

    /** filter.prepare(fs, 1) followed by filter.setCutoff(cutoff). */
    method PrepareFilter(f: LinkwitzRileyFilter, cutoff: real)
      requires f.Valid() && fs > 0.0 && cutoff < 0.5 * fs
      modifies f, f.state
      ensures Serves(f, cutoff) && f.Coefs() == Design(f.math, cutoff, fs)
      ensures f.Channel(0) == ZeroRegs
    {
      f.Prepare(fs, 1);
      f.SetCutoff(cutoff);
    }

    /** processBlock: with the filters enabled, every visited channel is routed
        sample by sample and both of its crossovers are swept once at the end. */
    method ProcessBlock(bufferL: array<real>, bufferR: array<real>, blockSize: int)
      requires Valid() && bufferL != bufferR && bufferL !in Rows() && bufferR !in Rows()
      requires 0 <= blockSize <= SafeMaxBlockSize && blockSize <= bufferL.Length && blockSize <= bufferR.Length
      modifies bufferL, bufferR, lowCutFilter[0].state, lowCutFilter[1].state, highCutFilter[0].state, highCutFilter[1].state
      modifies makeupLowBuffer[0], makeupLowBuffer[1], makeupHighBuffer[0], makeupHighBuffer[1]
      ensures Valid()
      ensures onOff && Active() > 0 ==> Routed(0, bufferL, blockSize, old(RouteOf(0, bufferL[..blockSize])))
      ensures onOff && Active() > 1 ==> Routed(1, bufferR, blockSize, old(RouteOf(1, bufferR[..blockSize])))
      ensures !onOff || Active() == 0 ==> unchanged(bufferL, lowCutFilter[0].state, highCutFilter[0].state, makeupLowBuffer[0], makeupHighBuffer[0])
      ensures !onOff || Active() <= 1 ==> unchanged(bufferR, lowCutFilter[1].state, highCutFilter[1].state, makeupLowBuffer[1], makeupHighBuffer[1])
      ensures forall j :: blockSize <= j < bufferL.Length ==> bufferL[j] == old(bufferL[j])
      ensures forall j :: blockSize <= j < bufferR.Length ==> bufferR[j] == old(bufferR[j])
    {
      if !onOff {
        return;
      }
      // the channel loop, over its at most two channels
      ghost var r0, r1 := RouteOf(0, bufferL[..blockSize]), RouteOf(1, bufferR[..blockSize]);
      if Active() > 0 {
        ProcessChannel(0, bufferL, blockSize, r0);
      }
      if Active() > 1 {
        ProcessChannel(1, bufferR, blockSize, r1);
      }
    }

    /** One channel of processBlock. */
    method ProcessChannel(ch: int, buf: array<real>, blockSize: int, ghost r: Route)
      requires Valid() && 0 <= ch < Active() && buf !in Rows()
      requires 0 <= blockSize <= SafeMaxBlockSize && blockSize <= buf.Length
      requires r == RouteOf(ch, buf[..blockSize])
      modifies buf, lowCutFilter[ch].state, highCutFilter[ch].state, makeupLowBuffer[ch], makeupHighBuffer[ch]
      ensures Valid() && Routed(ch, buf, blockSize, r)
      ensures forall j :: blockSize <= j < buf.Length ==> buf[j] == old(buf[j])
    {
      RouteBlock(lowCutFilter[ch], highCutFilter[ch], makeupLowBuffer[ch], makeupHighBuffer[ch], buf, blockSize, r);
    }

    /** processBlockMakeup: only with both the filters and the makeup path on, and
        only on visited channels with a delay line; per sample the two discarded
        parts are written as one, one delayed sample is read and added in. */
    method ProcessBlockMakeup(bufferL: array<real>, bufferR: array<real>, blockSize: int)
      requires Wired() && bufferL != bufferR && bufferL !in Rows() && bufferR !in Rows()
      requires 0 <= blockSize <= SafeMaxBlockSize && blockSize <= bufferL.Length && blockSize <= bufferR.Length
      modifies bufferL, bufferR, makeupDelay[0], makeupDelay[1]
      ensures MakeupOn(0) ==>
        makeupDelay[0].written == old(makeupDelay[0].written) + MakeupSignal(0, blockSize) && makeupDelay[0].delay == old(makeupDelay[0].delay) &&
        bufferL[..blockSize] == AddSeq(old(bufferL[..blockSize]),
          ReadsAfterWrites(makeupDelay[0].interp, old(makeupDelay[0].written), makeupDelay[0].delay, MakeupSignal(0, blockSize)))
      ensures !MakeupOn(0) ==> bufferL[..blockSize] == old(bufferL[..blockSize]) && (makeupDelay[0] != null ==> unchanged(makeupDelay[0]))
      ensures MakeupOn(1) ==>
        makeupDelay[1].written == old(makeupDelay[1].written) + MakeupSignal(1, blockSize) && makeupDelay[1].delay == old(makeupDelay[1].delay) &&
        bufferR[..blockSize] == AddSeq(old(bufferR[..blockSize]),
          ReadsAfterWrites(makeupDelay[1].interp, old(makeupDelay[1].written), makeupDelay[1].delay, MakeupSignal(1, blockSize)))
      ensures !MakeupOn(1) ==> bufferR[..blockSize] == old(bufferR[..blockSize]) && (makeupDelay[1] != null ==> unchanged(makeupDelay[1]))
      ensures forall j :: blockSize <= j < bufferL.Length ==> bufferL[j] == old(bufferL[j])
      ensures forall j :: blockSize <= j < bufferR.Length ==> bufferR[j] == old(bufferR[j])
    {
      if !onOff || !makeup {
        return;
      }
      // the channel loop, over its at most two channels
      if Active() > 0 && makeupDelay[0] != null {
        MakeupChannel(0, bufferL, blockSize);
      }
      if Active() > 1 && makeupDelay[1] != null {
        MakeupChannel(1, bufferR, blockSize);
      }
    }

    /** Channel ch takes part in processBlockMakeup: filters and makeup on, the
        channel visited, and a delay line linked. */
    predicate MakeupOn(ch: int)
      requires |makeupDelay| == 2 && 0 <= ch < 2
      reads this
    {
      onOff && makeup && ch < Active() && makeupDelay[ch] != null
    }

    /** One channel of processBlockMakeup. */
    method MakeupChannel(ch: int, buf: array<real>, blockSize: int)
      requires Wired() && 0 <= ch < 2 && makeupDelay[ch] != null && buf !in Rows()
      requires 0 <= blockSize <= SafeMaxBlockSize && blockSize <= buf.Length
      modifies buf, makeupDelay[ch]
      ensures makeupDelay[ch].written == old(makeupDelay[ch].written) + MakeupSignal(ch, blockSize)
      ensures makeupDelay[ch].delay == old(makeupDelay[ch].delay)
      ensures buf[..blockSize] == AddSeq(old(buf[..blockSize]),
        ReadsAfterWrites(makeupDelay[ch].interp, old(makeupDelay[ch].written), makeupDelay[ch].delay, MakeupSignal(ch, blockSize)))
      ensures forall j :: blockSize <= j < buf.Length ==> buf[j] == old(buf[j])
    {
      var dl := makeupDelay[ch];
      ghost var w0 := dl.written;
      ghost var sig := MakeupSignal(ch, blockSize);
      ghost var delayed := ReadsAfterWrites(dl.interp, w0, dl.delay, sig);
      for n := 0 to blockSize
        invariant dl.written == w0 + sig[..n] && dl.delay == old(dl.delay)
        invariant forall k :: 0 <= k < n ==> buf[k] == old(buf[k]) + delayed[k]
        invariant forall j :: n <= j < buf.Length ==> buf[j] == old(buf[j])
      {
        var makeupSignal := makeupLowBuffer[ch][n] + makeupHighBuffer[ch][n];
        assert sig[..n + 1] == sig[..n] + [makeupSignal];
        dl.Write(makeupSignal);
        var delayedMakeup := dl.Read();
        buf[n] := buf[n] + delayedMakeup;
      }
    }

    /** setMakeupDelay: every visited channel's delay line, if any, gets the delay. */
    method SetMakeupDelay(delaySamples: real)
      requires Wired()
      modifies makeupDelay[0], makeupDelay[1]
      ensures makeupDelay[0] != null ==>
        makeupDelay[0].written == old(makeupDelay[0].written) &&
        makeupDelay[0].delay == if Active() > 0 then delaySamples else old(makeupDelay[0].delay)
      ensures makeupDelay[1] != null ==>
        makeupDelay[1].written == old(makeupDelay[1].written) &&
        makeupDelay[1].delay == if Active() > 1 then delaySamples else old(makeupDelay[1].delay)
    {
      // the channel loop, over its at most two channels
      if Active() > 0 && makeupDelay[0] != null {
        makeupDelay[0].SetDelay(delaySamples);
      }
      if Active() > 1 && makeupDelay[1] != null {
        makeupDelay[1].SetDelay(delaySamples);
      }
    }

    /** setLowCut: stored as given; the low-cut filters of the visited channels
        follow (their setCutoff asserts the value is below Nyquist). */
    method SetLowCut(freqHz: real)
      requires Valid() && (Active() > 0 ==> freqHz < 0.5 * fs)
      modifies this`lowCutFreq, lowCutFilter
      ensures Valid() && lowCutFreq == freqHz
      ensures Active() > 0 ==> lowCutFilter[0].Coefs() == Design(lowCutFilter[0].math, lowCutFreq, fs)
      ensures Active() > 1 ==> lowCutFilter[1].Coefs() == Design(lowCutFilter[1].math, lowCutFreq, fs)
      ensures Active() == 0 ==> unchanged(lowCutFilter[0])
      ensures Active() <= 1 ==> unchanged(lowCutFilter[1])
    {
      lowCutFreq := freqHz;
      // the channel loop, over its at most two channels
      if Active() > 0 {
        lowCutFilter[0].SetCutoff(lowCutFreq);
      }
      if Active() > 1 {
        lowCutFilter[1].SetCutoff(lowCutFreq);
      }
    }

    /** setHighCut: clamped to 0.48 fs, which keeps it below Nyquist. */
    method SetHighCut(freqHz: real)
      requires Valid()
      modifies this`highCutFreq, highCutFilter
      ensures Valid() && highCutFreq == Min(freqHz, fs * HighCutLimit)
      ensures Active() > 0 ==> highCutFilter[0].Coefs() == Design(highCutFilter[0].math, highCutFreq, fs)
      ensures Active() > 1 ==> highCutFilter[1].Coefs() == Design(highCutFilter[1].math, highCutFreq, fs)
      ensures Active() == 0 ==> unchanged(highCutFilter[0])
      ensures Active() <= 1 ==> unchanged(highCutFilter[1])
    {
      highCutFreq := Min(freqHz, fs * HighCutLimit);
      // the channel loop, over its at most two channels
      if Active() > 0 {
        highCutFilter[0].SetCutoff(highCutFreq);
      }
      if Active() > 1 {
        highCutFilter[1].SetCutoff(highCutFreq);
      }
    }

    method SetEnabled(enabled: bool)
      modifies this`onOff
      ensures onOff == enabled && IsEnabled() == enabled
    {
      onOff := enabled;
    }

    method SetMakeupEnabled(enabled: bool)
      modifies this`makeup
      ensures makeup == enabled && IsMakeupEnabled() == enabled
    {
      makeup := enabled;
    }

    function IsMakeupEnabled(): bool
      reads this
    {
      makeup
    }

    function IsEnabled(): bool
      reads this
    {
      onOff
    }
  }
}
