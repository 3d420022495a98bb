/** The block processor that runs the tape chain (src/TapeProcessor.cpp,
    include/TapeProcessor.h): the input is copied into a dry and a wet pair of
    buffers, the wet pair goes through the input filters, the dry pair through a
    latency-matching delay, the discarded bands are added back through the
    makeup delay, and the output is a linear crossfade of the two paths. */
module Tape {
  import opened DspMath
  import opened DelayLines
  import opened LinkwitzRiley
  import opened InputFilterStage

  /** kMaxBlockSize: the length of the four internal buffers. */
  const MaxBlockSize: int := SafeMaxBlockSize

  /** latencyCompensation's placeholder for the wet path's total latency, in samples. */
  const TotalLatency: real := 300.0

  /** The classic linear crossfade of one sample: dry * (1 - m) + wet * m. */
  function Crossfade(dry: real, wet: real, m: real): (r: real)
    ensures m == 0.0 ==> r == dry
    ensures m == 1.0 ==> r == wet
    ensures dry == wet ==> r == dry
    ensures 0.0 <= m <= 1.0 ==> Min(dry, wet) <= r <= Max(dry, wet)
  {
    CrossfadeBetween(dry, wet, m);
    dry * (1.0 - m) + wet * m
  }

  /** A mix with 0 <= m <= 1 is an average of dry and wet, so it lies between them. */
  lemma CrossfadeBetween(dry: real, wet: real, m: real)
    ensures 0.0 <= m <= 1.0 ==> Min(dry, wet) <= dry * (1.0 - m) + wet * m <= Max(dry, wet)
  {
    if 0.0 <= m <= 1.0 {
      var lo, hi := Min(dry, wet), Max(dry, wet);
      MulNonNeg(dry - lo, 1.0 - m);
      MulNonNeg(wet - lo, m);
      MulNonNeg(hi - dry, 1.0 - m);
      MulNonNeg(hi - wet, m);
    }
  }


  /** dryWetMix over a block. */
  function MixBlock(dry: seq<real>, wet: seq<real>, m: real): (r: seq<real>)
    requires |dry| == |wet|
    ensures |r| == |dry| && forall i :: 0 <= i < |r| ==> r[i] == Crossfade(dry[i], wet[i], m)
  {
    seq(|dry|, i requires 0 <= i < |dry| => Crossfade(dry[i], wet[i], m))
  }

  /** Fully wet (the default dryWet of 1) outputs the wet path; fully dry the dry path. */
  lemma MixBlockEndpoints(dry: seq<real>, wet: seq<real>)
    requires |dry| == |wet|
    ensures MixBlock(dry, wet, 1.0) == wet && MixBlock(dry, wet, 0.0) == dry
  {
    assert forall i :: 0 <= i < |wet| ==> MixBlock(dry, wet, 1.0)[i] == wet[i];
    assert forall i :: 0 <= i < |dry| ==> MixBlock(dry, wet, 0.0)[i] == dry[i];
  }

  /** What the wet path of one channel depends on, read off the processor's
      state before a block: whether the input filters run on the channel, the
      routing run of the block, whether the makeup path adds the discarded parts
      back, and the makeup delay line's read, history and delay setting. */
  datatype ChannelView = ChannelView(filtered: bool, route: Route, makeupOn: bool,
                                     read: (seq<real>, real) -> real, written: seq<real>, delay: real)

  /** The read of an unlinked delay line (never used: the makeup path skips it). */
  const NoRead: (seq<real>, real) -> real := (w: seq<real>, d: real) => 0.0

  /** The route of a view covers a block of n samples. */
  predicate Covers(v: ChannelView, n: int)
  {
    |v.route.band| == n && |v.route.trashLow| == n && |v.route.trashHigh| == n
  }

  /** The wet output of one channel for the input block xs: unchanged when the
      filters skip the channel; otherwise the band, plus, with the makeup path
      on, the two discarded parts written as one to the makeup delay line and
      read back at the compensation latency. */
  function WetOut(v: ChannelView, xs: seq<real>): (r: seq<real>)
    requires Covers(v, |xs|)
    ensures |r| == |xs|
    ensures !v.filtered ==> r == xs
    ensures v.filtered && !v.makeupOn ==> r == v.route.band
  {
    if !v.filtered then xs
    else if v.makeupOn then
      AddSeq(v.route.band, ReadsAfterWrites(v.read, v.written, TotalLatency, AddSeq(v.route.trashLow, v.route.trashHigh)))
    else v.route.band
  }

  /** The wet buffer of a channel after the input filters: the band when they run on it. */
  function Band(v: ChannelView, xs: seq<real>): (r: seq<real>)
  {
    if v.filtered then v.route.band else xs
  }

  /** makeupLow + makeupHigh of a channel after the input filters. */
  function Discarded(v: ChannelView): (r: seq<real>)
    requires |v.route.trashLow| == |v.route.trashHigh|
  {
    AddSeq(v.route.trashLow, v.route.trashHigh)
  }

  /** The makeup delay line's history after a block: grown by the discarded
      parts when the filters and the makeup path both run on the channel. */
  function MakeupHistory(v: ChannelView): (w: seq<real>)
    requires |v.route.trashLow| == |v.route.trashHigh|
  {
    if v.filtered && v.makeupOn then v.written + Discarded(v) else v.written
  }

  /** A freshly prepared channel (registers at zero) with the makeup path off
      turns a silent block into a silent block. */
  lemma WetOutSilence(v: ChannelView, lo: Coeffs, hi: Coeffs, n: nat)
    requires v.route == RouteRun(lo, hi, ZeroRegs, ZeroRegs, Zeros(n)) && !v.makeupOn
    ensures Covers(v, n) && WetOut(v, Zeros(n)) == Zeros(n)
  {
    RouteRunSilence(lo, hi, n);
  }

  class TapeProcessor {
    const inputFilters: InputFilters
    /** The wet pair (bufferL, bufferR) and the dry pair (dryBufferL, dryBufferR). */
    const bufferL: array<real>
    const bufferR: array<real>
    const dryBufferL: array<real>
    const dryBufferR: array<real>
    /** The dry-path delay lines, owned by the caller (null until linked). */
    var dryDelayL: DelayLine?
    var dryDelayR: DelayLine?
    var dryWet: real

    /** Valid input filters and the layout below. */
    ghost predicate Valid()
      reads this, inputFilters, inputFilters.lowCutFilter, inputFilters.highCutFilter
    {
      inputFilters.Valid() && Layout()
    }

    /** The four internal buffers hold kMaxBlockSize samples each and are distinct. */
    ghost predicate Buffers()
      reads this
    {
      bufferL.Length == MaxBlockSize && bufferR.Length == MaxBlockSize &&
      dryBufferL.Length == MaxBlockSize && dryBufferR.Length == MaxBlockSize &&
      bufferL != bufferR && bufferL != dryBufferL && bufferL != dryBufferR &&
      bufferR != dryBufferL && bufferR != dryBufferR && dryBufferL != dryBufferR
    }

    /** The input filters' layout and makeup lines, four distinct internal
        buffers of kMaxBlockSize samples, none of them a scratch row of the input
        filters, and dry delay lines that are distinct from each other and from
        the makeup delay lines. */
    ghost predicate Layout()
      reads this, inputFilters
    {
      inputFilters.Wired() && Buffers() &&
      bufferL !in inputFilters.Rows() && bufferR !in inputFilters.Rows() &&
      dryBufferL !in inputFilters.Rows() && dryBufferR !in inputFilters.Rows() &&
      (dryDelayL != null ==> dryDelayL != dryDelayR) &&
      (dryDelayL != null ==> dryDelayL != inputFilters.makeupDelay[0] && dryDelayL != inputFilters.makeupDelay[1]) &&
      (dryDelayR != null ==> dryDelayR != inputFilters.makeupDelay[0] && dryDelayR != inputFilters.makeupDelay[1])
    }

    /** The four internal buffers. */
    function Internal(): set<array<real>>
    {
      {bufferL, bufferR, dryBufferL, dryBufferR}
    }

    /** The view of channel ch for the input block xs in the current state. */
    ghost function View(ch: int, xs: seq<real>): (v: ChannelView)
      requires Valid() && 0 <= ch < 2
      reads this, inputFilters, inputFilters.lowCutFilter, inputFilters.highCutFilter
      reads inputFilters.lowCutFilter[ch].state, inputFilters.highCutFilter[ch].state, inputFilters.makeupDelay[ch]
      ensures Covers(v, |xs|)
    {
      var f := inputFilters;
      var dl := f.makeupDelay[ch];
      ChannelView(f.onOff && ch < f.Active(), f.RouteOf(ch, xs), f.makeup && dl != null,
                  if dl != null then dl.interp else NoRead, History(dl), Setting(dl))
    }

    /** What the wet path makes of channel ch's input block xs in the current state. */
    ghost function Wet(ch: int, xs: seq<real>): (r: seq<real>)
      requires Valid() && 0 <= ch < 2
      reads this, inputFilters, inputFilters.lowCutFilter, inputFilters.highCutFilter
      reads inputFilters.lowCutFilter[ch].state, inputFilters.highCutFilter[ch].state, inputFilters.makeupDelay[ch]
      ensures |r| == |xs|
    {
      WetOut(View(ch, xs), xs)
    }

    /** What the dry path makes of an input block: with both dry delay lines
        linked, each sample is written to the line and the line read back at the
        compensation latency; otherwise the block passes unchanged. */
    ghost function Dry(dl: DelayLine?, xs: seq<real>): (r: seq<real>)
      reads this, dl
      ensures |r| == |xs|
    {
      if dryDelayL != null && dryDelayR != null && dl != null then ReadsAfterWrites(dl.interp, dl.written, TotalLatency, xs)
      else xs
    }

    /** The default: filters and makeup off, fully wet, no delay lines linked. */
    constructor (math: MathLib)
      ensures Valid() && fresh(inputFilters) && fresh(inputFilters.FilterStates()) && fresh(inputFilters.Rows()) && fresh(Internal())
      ensures dryWet == 1.0 && dryDelayL == null && dryDelayR == null
      ensures !inputFilters.onOff && !inputFilters.makeup && inputFilters.numChannels == 0
    {
      inputFilters := new InputFilters(math);
      bufferL := new real[MaxBlockSize];
      bufferR := new real[MaxBlockSize];
      dryBufferL := new real[MaxBlockSize];
      dryBufferR := new real[MaxBlockSize];
      dryDelayL, dryDelayR := null, null;
      dryWet := 1.0;
    }

    /** setDelayLinePointers: the makeup pair goes to the input filters, the dry pair is kept. */
    method SetDelayLinePointers(makeL: DelayLine?, makeR: DelayLine?, dryL: DelayLine?, dryR: DelayLine?)
      requires Valid()
      requires makeL != null ==> makeL != makeR
      requires dryL != null ==> dryL != dryR && dryL != makeL && dryL != makeR
      requires dryR != null ==> dryR != makeL && dryR != makeR
      modifies this`dryDelayL, this`dryDelayR, inputFilters`makeupDelay
      ensures Valid() && inputFilters.makeupDelay == [makeL, makeR] && dryDelayL == dryL && dryDelayR == dryR
    {
      inputFilters.SetDelayLinePointers(makeL, makeR);
      dryDelayL := dryL;
      dryDelayR := dryR;
    }

    /** Init: the input filters are prepared for two channels at the new rate
        (their cutoffs must be below its Nyquist frequency), and each linked dry
        delay line is cleared with delay 0. */
    method Init(sampleRate: real)
      requires Valid()
      requires sampleRate > 0.0 && inputFilters.lowCutFreq < 0.5 * sampleRate && inputFilters.highCutFreq < 0.5 * sampleRate
      modifies inputFilters`fs, inputFilters`numChannels, inputFilters.lowCutFilter, inputFilters.highCutFilter
      modifies inputFilters.lowCutFilter[0].state, inputFilters.lowCutFilter[1].state
      modifies inputFilters.highCutFilter[0].state, inputFilters.highCutFilter[1].state
      modifies inputFilters.makeupDelay[0], inputFilters.makeupDelay[1], dryDelayL, dryDelayR
      ensures Valid() && inputFilters.fs == sampleRate && inputFilters.numChannels == 2
      ensures inputFilters.Cleared(0) && inputFilters.Cleared(1)
      ensures inputFilters.Designed(0) && inputFilters.Designed(1)
      ensures dryDelayL != null ==> dryDelayL.written == [] && dryDelayL.delay == 0.0
      ensures dryDelayR != null ==> dryDelayR.written == [] && dryDelayR.delay == 0.0
    {
      inputFilters.Prepare(sampleRate, 2);
      InitDry();
    }

    /** The dry half of Init: each linked dry delay line is cleared, with delay 0. */
    method InitDry()
      requires Valid() && inputFilters.Cleared(0) && inputFilters.Cleared(1)
      modifies dryDelayL, dryDelayR
      ensures Valid() && inputFilters.Cleared(0) && inputFilters.Cleared(1)
      ensures dryDelayL != null ==> dryDelayL.written == [] && dryDelayL.delay == 0.0
      ensures dryDelayR != null ==> dryDelayR.written == [] && dryDelayR.delay == 0.0
    {
      if dryDelayL != null {
        dryDelayL.Init();
        dryDelayL.SetDelay(0.0);
      }
      if dryDelayR != null {
        dryDelayR.Init();
        dryDelayR.SetDelay(0.0);
      }
    }

    /** The state a view was read from, apart from the routing run and the delay:
        the filters' switch and channel count, the makeup switch, and the makeup
        delay line of the channel. */
    ghost predicate Agrees(ch: int, v: ChannelView)
      requires |inputFilters.makeupDelay| == 2 && 0 <= ch < 2
      reads this, inputFilters, inputFilters.makeupDelay[ch]
    {
      var f := inputFilters;
      var dl := f.makeupDelay[ch];
      v.filtered == (f.onOff && ch < f.Active()) && v.makeupOn == (f.makeup && dl != null) &&
      (dl != null ==> v.read == dl.interp && v.written == dl.written)
    }

    /** An array that is none of the four internal buffers. */
    predicate Outside(a: array<real>)
      reads this
    {
      a != bufferL && a != bufferR && a != dryBufferL && a != dryBufferR
    }

    /** The crossovers and scratch rows of channel ch after a block of n samples
        read through v: when the filters ran on the channel, the registers are
        the swept ones of v's run and the rows hold its discarded parts. */
    ghost predicate FiltersAfter(ch: int, v: ChannelView, n: int)
      requires inputFilters.Shaped() && 0 <= ch < 2 && 0 <= n <= MaxBlockSize
      reads inputFilters.lowCutFilter[ch], inputFilters.highCutFilter[ch]
      reads inputFilters.lowCutFilter[ch].state, inputFilters.highCutFilter[ch].state
      reads inputFilters.makeupLowBuffer[ch], inputFilters.makeupHighBuffer[ch]
    {
      v.filtered ==>
        inputFilters.lowCutFilter[ch].Valid() && inputFilters.highCutFilter[ch].Valid() && inputFilters.Swept(ch, n, v.route)
    }

    /** The makeup delay line of channel ch after a block read through v: at the
        total latency when the channel is visited, otherwise at its old setting,
        and holding MakeupHistory(v). */
    ghost predicate MakeupLineAfter(ch: int, v: ChannelView)
      requires |inputFilters.makeupDelay| == 2 && 0 <= ch < 2 && |v.route.trashLow| == |v.route.trashHigh|
      reads this, inputFilters, inputFilters.makeupDelay[ch]
    {
      var dl := inputFilters.makeupDelay[ch];
      dl != null ==>
        dl.written == MakeupHistory(v) && dl.delay == if ch < inputFilters.Active() then TotalLatency else v.delay
    }

    /** A dry delay line after a block xs, given its old history w: at the total
        latency, its history grown by xs only when both dry lines are linked. */
    ghost predicate DryLineAfter(dl: DelayLine?, w: seq<real>, xs: seq<real>)
      reads this, dl
    {
      dl != null ==>
        dl.delay == TotalLatency && dl.written == w + if dryDelayL != null && dryDelayR != null then xs else []
    }

    /** What the two paths of a block start from, besides the buffers: valid
        input filters, the views vL and vR of both channels for the input blocks
        xsL and xsR (the routing run from the current registers, the makeup line
        and its delay), and the dry lines with histories hL, hR whose outputs for
        the block are dryL and dryR. */
    ghost predicate Poised(xsL: seq<real>, xsR: seq<real>, vL: ChannelView, vR: ChannelView,
                           dryL: seq<real>, dryR: seq<real>, hL: seq<real>, hR: seq<real>)
      reads this, inputFilters, inputFilters.lowCutFilter, inputFilters.highCutFilter, inputFilters.makeupDelay
      reads if inputFilters.Shaped() then inputFilters.FilterStates() else {}, dryDelayL, dryDelayR
    {
      Valid() &&
      vL.route == inputFilters.RouteOf(0, xsL) && vR.route == inputFilters.RouteOf(1, xsR) &&
      Covers(vL, |xsL|) && Covers(vR, |xsR|) && Agrees(0, vL) && Agrees(1, vR) &&
      vL.delay == Setting(inputFilters.makeupDelay[0]) && vR.delay == Setting(inputFilters.makeupDelay[1]) &&
      dryL == Dry(dryDelayL, xsL) && dryR == Dry(dryDelayR, xsR) && History(dryDelayL) == hL && History(dryDelayR) == hR
    }

    /** The state between the input filters and latency compensation: the views
        still describe the makeup lines, the dry side is untouched, the wet
        buffers hold the bands, the scratch rows the discarded parts and the
        crossovers the swept registers of each filtered channel. */
    ghost predicate Filtered(n: int, xsL: seq<real>, xsR: seq<real>, vL: ChannelView, vR: ChannelView,
                             dryL: seq<real>, dryR: seq<real>, hL: seq<real>, hR: seq<real>)
      requires 0 <= n <= MaxBlockSize
      reads this, inputFilters, inputFilters.lowCutFilter, inputFilters.highCutFilter, inputFilters.makeupDelay
      reads if inputFilters.Shaped() then inputFilters.FilterStates() + inputFilters.Rows() else {}, dryDelayL, dryDelayR
      reads bufferL, bufferR, dryBufferL, dryBufferR
    {
      Valid() && Covers(vL, |xsL|) && Covers(vR, |xsR|) && Agrees(0, vL) && Agrees(1, vR) &&
      vL.delay == Setting(inputFilters.makeupDelay[0]) && vR.delay == Setting(inputFilters.makeupDelay[1]) &&
      dryL == Dry(dryDelayL, xsL) && dryR == Dry(dryDelayR, xsR) && History(dryDelayL) == hL && History(dryDelayR) == hR &&
      n <= bufferL.Length && n <= bufferR.Length && n <= dryBufferL.Length && n <= dryBufferR.Length &&
      dryBufferL[..n] == xsL && dryBufferR[..n] == xsR &&
      bufferL[..n] == Band(vL, xsL) && bufferR[..n] == Band(vR, xsR) &&
      (vL.filtered ==> inputFilters.MakeupSignal(0, n) == Discarded(vL)) &&
      (vR.filtered ==> inputFilters.MakeupSignal(1, n) == Discarded(vR)) &&
      FiltersAfter(0, vL, n) && FiltersAfter(1, vR, n)
    }

    /** The state a block of n samples leaves, read through the views vL and vR
        and the dry histories hL, hR: the crossovers and scratch rows as the
        filters left them (the views still say which channels the filters
        visit), each makeup line holding MakeupHistory at its delay,
        each dry line at the total latency, grown by the block when both are linked. */
    ghost predicate Settled(n: int, xsL: seq<real>, xsR: seq<real>, vL: ChannelView, vR: ChannelView, hL: seq<real>, hR: seq<real>)
      requires 0 <= n <= MaxBlockSize
      reads this, inputFilters, inputFilters.lowCutFilter, inputFilters.highCutFilter, inputFilters.makeupDelay
      reads if inputFilters.Shaped() then inputFilters.FilterStates() + inputFilters.Rows() else {}, dryDelayL, dryDelayR
    {
      Valid() && |vL.route.trashLow| == |vL.route.trashHigh| && |vR.route.trashLow| == |vR.route.trashHigh| &&
      vL.filtered == (inputFilters.onOff && 0 < inputFilters.Active()) &&
      vR.filtered == (inputFilters.onOff && 1 < inputFilters.Active()) &&
      FiltersAfter(0, vL, n) && FiltersAfter(1, vR, n) && MakeupLineAfter(0, vL) && MakeupLineAfter(1, vR) &&
      DryLineAfter(dryDelayL, hL, xsL) && DryLineAfter(dryDelayR, hR, xsR)
    }

    /** processBlock: both channels of the output are the crossfade, at dryWet, of
        the dry path and the wet path applied to the input block. The crossovers,
        scratch rows and delay lines are left as the two paths leave them, so the
        next block starts from there. */
    method ProcessBlock(inL: array<real>, inR: array<real>, outL: array<real>, outR: array<real>, blockSize: int)
      requires Valid() && 0 <= blockSize <= MaxBlockSize
      requires blockSize <= inL.Length && blockSize <= inR.Length && blockSize <= outL.Length && blockSize <= outR.Length
      requires Outside(inL) && Outside(inR) && Outside(outL) && Outside(outR) && outL != outR
      requires outL !in inputFilters.Rows() && outR !in inputFilters.Rows()
      modifies bufferL, bufferR, dryBufferL, dryBufferR, outL, outR
      modifies inputFilters.lowCutFilter[0].state, inputFilters.lowCutFilter[1].state
      modifies inputFilters.highCutFilter[0].state, inputFilters.highCutFilter[1].state
      modifies inputFilters.makeupLowBuffer[0], inputFilters.makeupLowBuffer[1]
      modifies inputFilters.makeupHighBuffer[0], inputFilters.makeupHighBuffer[1]
      modifies inputFilters.makeupDelay[0], inputFilters.makeupDelay[1], dryDelayL, dryDelayR
      ensures Valid()
      ensures outL[..blockSize] == MixBlock(old(Dry(dryDelayL, inL[..blockSize])), old(Wet(0, inL[..blockSize])), dryWet)
      ensures outR[..blockSize] == MixBlock(old(Dry(dryDelayR, inR[..blockSize])), old(Wet(1, inR[..blockSize])), dryWet)
      ensures FiltersAfter(0, old(View(0, inL[..blockSize])), blockSize) && FiltersAfter(1, old(View(1, inR[..blockSize])), blockSize)
      ensures !(inputFilters.onOff && 0 < inputFilters.Active()) ==>
        unchanged(inputFilters.lowCutFilter[0].state, inputFilters.highCutFilter[0].state, inputFilters.makeupLowBuffer[0], inputFilters.makeupHighBuffer[0])
      ensures !(inputFilters.onOff && 1 < inputFilters.Active()) ==>
        unchanged(inputFilters.lowCutFilter[1].state, inputFilters.highCutFilter[1].state, inputFilters.makeupLowBuffer[1], inputFilters.makeupHighBuffer[1])
      ensures MakeupLineAfter(0, old(View(0, inL[..blockSize]))) && MakeupLineAfter(1, old(View(1, inR[..blockSize])))
      ensures DryLineAfter(dryDelayL, old(History(dryDelayL)), old(inL[..blockSize]))
      ensures DryLineAfter(dryDelayR, old(History(dryDelayR)), old(inR[..blockSize]))
    {
      ghost var xsL, xsR := inL[..blockSize], inR[..blockSize];
      ghost var vL, vR := View(0, xsL), View(1, xsR);
      ghost var dryL, dryR := Dry(dryDelayL, xsL), Dry(dryDelayR, xsR);
      ghost var hL, hR := History(dryDelayL), History(dryDelayR);
      BothPaths(inL, inR, blockSize, xsL, xsR, vL, vR, dryL, dryR, hL, hR);
      DryWetMix(outL, outR, blockSize, xsL, xsR, vL, vR, dryL, dryR, hL, hR);
    }

    /** Steps 1 to 4 of processBlock: the copy, then the wet path. */
    method BothPaths(inL: array<real>, inR: array<real>, blockSize: int, ghost xsL: seq<real>, ghost xsR: seq<real>,
                     ghost vL: ChannelView, ghost vR: ChannelView, ghost dryL: seq<real>, ghost dryR: seq<real>,
                     ghost hL: seq<real>, ghost hR: seq<real>)
      requires Poised(xsL, xsR, vL, vR, dryL, dryR, hL, hR) && 0 <= blockSize <= MaxBlockSize
      requires blockSize <= inL.Length && blockSize <= inR.Length && Outside(inL) && Outside(inR)
      requires xsL == inL[..blockSize] && xsR == inR[..blockSize]
      modifies bufferL, bufferR, dryBufferL, dryBufferR
      modifies inputFilters.lowCutFilter[0].state, inputFilters.lowCutFilter[1].state
      modifies inputFilters.highCutFilter[0].state, inputFilters.highCutFilter[1].state
      modifies inputFilters.makeupLowBuffer[0], inputFilters.makeupLowBuffer[1]
      modifies inputFilters.makeupHighBuffer[0], inputFilters.makeupHighBuffer[1]
      modifies inputFilters.makeupDelay[0], inputFilters.makeupDelay[1], dryDelayL, dryDelayR
      ensures Settled(blockSize, xsL, xsR, vL, vR, hL, hR)
      ensures bufferL[..blockSize] == WetOut(vL, xsL) && bufferR[..blockSize] == WetOut(vR, xsR)
      ensures dryBufferL[..blockSize] == dryL && dryBufferR[..blockSize] == dryR
      ensures !vL.filtered ==>
        unchanged(inputFilters.lowCutFilter[0].state, inputFilters.highCutFilter[0].state, inputFilters.makeupLowBuffer[0], inputFilters.makeupHighBuffer[0])
      ensures !vR.filtered ==>
        unchanged(inputFilters.lowCutFilter[1].state, inputFilters.highCutFilter[1].state, inputFilters.makeupLowBuffer[1], inputFilters.makeupHighBuffer[1])
    {
      CopyStep(inL, inR, blockSize, xsL, xsR, vL, vR, dryL, dryR, hL, hR);
      WetPath(blockSize, xsL, xsR, vL, vR, dryL, dryR, hL, hR);
    }

    /** Steps 2 to 4 of processBlock: filters, latency compensation, makeup. */
    method WetPath(blockSize: int, ghost xsL: seq<real>, ghost xsR: seq<real>, ghost vL: ChannelView, ghost vR: ChannelView,
                   ghost dryL: seq<real>, ghost dryR: seq<real>, ghost hL: seq<real>, ghost hR: seq<real>)
      requires Poised(xsL, xsR, vL, vR, dryL, dryR, hL, hR) && 0 <= blockSize <= MaxBlockSize
      requires bufferL[..blockSize] == xsL && bufferR[..blockSize] == xsR
      requires dryBufferL[..blockSize] == xsL && dryBufferR[..blockSize] == xsR
      modifies bufferL, bufferR, dryBufferL, dryBufferR
      modifies inputFilters.lowCutFilter[0].state, inputFilters.lowCutFilter[1].state
      modifies inputFilters.highCutFilter[0].state, inputFilters.highCutFilter[1].state
      modifies inputFilters.makeupLowBuffer[0], inputFilters.makeupLowBuffer[1]
      modifies inputFilters.makeupHighBuffer[0], inputFilters.makeupHighBuffer[1]
      modifies inputFilters.makeupDelay[0], inputFilters.makeupDelay[1], dryDelayL, dryDelayR
      ensures Settled(blockSize, xsL, xsR, vL, vR, hL, hR)
      ensures bufferL[..blockSize] == WetOut(vL, xsL) && bufferR[..blockSize] == WetOut(vR, xsR)
      ensures dryBufferL[..blockSize] == dryL && dryBufferR[..blockSize] == dryR
      ensures !vL.filtered ==>
        unchanged(inputFilters.lowCutFilter[0].state, inputFilters.highCutFilter[0].state, inputFilters.makeupLowBuffer[0], inputFilters.makeupHighBuffer[0])
      ensures !vR.filtered ==>
        unchanged(inputFilters.lowCutFilter[1].state, inputFilters.highCutFilter[1].state, inputFilters.makeupLowBuffer[1], inputFilters.makeupHighBuffer[1])
    {
      FilterStep(blockSize, xsL, xsR, vL, vR, dryL, dryR, hL, hR);
      CompensateAndMakeup(blockSize, xsL, xsR, vL, vR, dryL, dryR, hL, hR);
    }

    /** Step 2 of processBlock: the wet pair through the input filters. */
    method FilterStep(blockSize: int, ghost xsL: seq<real>, ghost xsR: seq<real>, ghost vL: ChannelView, ghost vR: ChannelView,
                      ghost dryL: seq<real>, ghost dryR: seq<real>, ghost hL: seq<real>, ghost hR: seq<real>)
      requires Poised(xsL, xsR, vL, vR, dryL, dryR, hL, hR) && 0 <= blockSize <= MaxBlockSize
      requires bufferL[..blockSize] == xsL && bufferR[..blockSize] == xsR
      requires dryBufferL[..blockSize] == xsL && dryBufferR[..blockSize] == xsR
      modifies bufferL, bufferR
      modifies inputFilters.lowCutFilter[0].state, inputFilters.lowCutFilter[1].state
      modifies inputFilters.highCutFilter[0].state, inputFilters.highCutFilter[1].state
      modifies inputFilters.makeupLowBuffer[0], inputFilters.makeupLowBuffer[1]
      modifies inputFilters.makeupHighBuffer[0], inputFilters.makeupHighBuffer[1]
      ensures Filtered(blockSize, xsL, xsR, vL, vR, dryL, dryR, hL, hR)
      ensures !vL.filtered ==>
        unchanged(inputFilters.lowCutFilter[0].state, inputFilters.highCutFilter[0].state, inputFilters.makeupLowBuffer[0], inputFilters.makeupHighBuffer[0])
      ensures !vR.filtered ==>
        unchanged(inputFilters.lowCutFilter[1].state, inputFilters.highCutFilter[1].state, inputFilters.makeupLowBuffer[1], inputFilters.makeupHighBuffer[1])
    {
      RouteBoth(blockSize, xsL, xsR, vL, vR);
    }

    /** The input filters over the wet pair: each channel they visit leaves its
        band in its buffer, its discarded parts in its scratch rows and its swept
        registers in its crossovers; a channel they skip is left as it was. */
    method RouteBoth(blockSize: int, ghost xsL: seq<real>, ghost xsR: seq<real>, ghost vL: ChannelView, ghost vR: ChannelView)
      requires Valid() && 0 <= blockSize <= MaxBlockSize
      requires bufferL[..blockSize] == xsL && bufferR[..blockSize] == xsR
      requires vL.route == inputFilters.RouteOf(0, xsL) && vR.route == inputFilters.RouteOf(1, xsR)
      requires vL.filtered == (inputFilters.onOff && 0 < inputFilters.Active())
      requires vR.filtered == (inputFilters.onOff && 1 < inputFilters.Active())
      modifies bufferL, bufferR
      modifies inputFilters.lowCutFilter[0].state, inputFilters.lowCutFilter[1].state
      modifies inputFilters.highCutFilter[0].state, inputFilters.highCutFilter[1].state
      modifies inputFilters.makeupLowBuffer[0], inputFilters.makeupLowBuffer[1]
      modifies inputFilters.makeupHighBuffer[0], inputFilters.makeupHighBuffer[1]
      ensures Valid()
      ensures bufferL[..blockSize] == Band(vL, xsL) && bufferR[..blockSize] == Band(vR, xsR)
      ensures vL.filtered ==> inputFilters.MakeupSignal(0, blockSize) == Discarded(vL)
      ensures vR.filtered ==> inputFilters.MakeupSignal(1, blockSize) == Discarded(vR)
      ensures FiltersAfter(0, vL, blockSize) && FiltersAfter(1, vR, blockSize)
      ensures !vL.filtered ==>
        unchanged(inputFilters.lowCutFilter[0].state, inputFilters.highCutFilter[0].state, inputFilters.makeupLowBuffer[0], inputFilters.makeupHighBuffer[0])
      ensures !vR.filtered ==>
        unchanged(inputFilters.lowCutFilter[1].state, inputFilters.highCutFilter[1].state, inputFilters.makeupLowBuffer[1], inputFilters.makeupHighBuffer[1])
    {
      inputFilters.ProcessBlock(bufferL, bufferR, blockSize);
    }

    /** Steps 3 and 4 of processBlock, after the filters. */
    method CompensateAndMakeup(blockSize: int, ghost xsL: seq<real>, ghost xsR: seq<real>, ghost vL: ChannelView, ghost vR: ChannelView,
                               ghost dryL: seq<real>, ghost dryR: seq<real>, ghost hL: seq<real>, ghost hR: seq<real>)
      requires 0 <= blockSize <= MaxBlockSize && Filtered(blockSize, xsL, xsR, vL, vR, dryL, dryR, hL, hR)
      modifies bufferL, bufferR, dryBufferL, dryBufferR
      modifies inputFilters.makeupDelay[0], inputFilters.makeupDelay[1], dryDelayL, dryDelayR
      ensures Settled(blockSize, xsL, xsR, vL, vR, hL, hR)
      ensures bufferL[..blockSize] == WetOut(vL, xsL) && bufferR[..blockSize] == WetOut(vR, xsR)
      ensures dryBufferL[..blockSize] == dryL && dryBufferR[..blockSize] == dryR
      ensures unchanged(inputFilters.FilterStates()) && unchanged(inputFilters.Rows())
    {
      CompensateStep(blockSize, xsL, xsR, vL, vR, dryL, dryR, hL, hR);
      MakeupWrap(blockSize, xsL, xsR, vL, vR, dryL, dryR, hL, hR);
    }

    /** The state between latency compensation and the makeup path: the wet
        side as the filters left it, the visited makeup lines at the total
        latency, and the dry side done. */
    ghost predicate Compensated(n: int, xsL: seq<real>, xsR: seq<real>, vL: ChannelView, vR: ChannelView,
                                dryL: seq<real>, dryR: seq<real>, hL: seq<real>, hR: seq<real>)
      requires 0 <= n <= MaxBlockSize
      reads this, inputFilters, inputFilters.lowCutFilter, inputFilters.highCutFilter, inputFilters.makeupDelay
      reads if inputFilters.Shaped() then inputFilters.FilterStates() + inputFilters.Rows() else {}, dryDelayL, dryDelayR
      reads bufferL, bufferR, dryBufferL, dryBufferR
    {
      Valid() && Covers(vL, |xsL|) && Covers(vR, |xsR|) && Agrees(0, vL) && Agrees(1, vR) &&
      (inputFilters.makeupDelay[0] != null ==>
        inputFilters.makeupDelay[0].delay == if 0 < inputFilters.Active() then TotalLatency else vL.delay) &&
      (inputFilters.makeupDelay[1] != null ==>
        inputFilters.makeupDelay[1].delay == if 1 < inputFilters.Active() then TotalLatency else vR.delay) &&
      DryLineAfter(dryDelayL, hL, xsL) && DryLineAfter(dryDelayR, hR, xsR) &&
      n <= bufferL.Length && n <= bufferR.Length && n <= dryBufferL.Length && n <= dryBufferR.Length &&
      dryBufferL[..n] == dryL && dryBufferR[..n] == dryR &&
      bufferL[..n] == Band(vL, xsL) && bufferR[..n] == Band(vR, xsR) &&
      (vL.filtered ==> inputFilters.MakeupSignal(0, n) == Discarded(vL)) &&
      (vR.filtered ==> inputFilters.MakeupSignal(1, n) == Discarded(vR)) &&
      FiltersAfter(0, vL, n) && FiltersAfter(1, vR, n)
    }

    /** Step 3 of processBlock, between the filters and the makeup path. */
    method CompensateStep(blockSize: int, ghost xsL: seq<real>, ghost xsR: seq<real>, ghost vL: ChannelView, ghost vR: ChannelView,
                          ghost dryL: seq<real>, ghost dryR: seq<real>, ghost hL: seq<real>, ghost hR: seq<real>)
      requires 0 <= blockSize <= MaxBlockSize && Filtered(blockSize, xsL, xsR, vL, vR, dryL, dryR, hL, hR)
      modifies dryBufferL, dryBufferR, inputFilters.makeupDelay[0], inputFilters.makeupDelay[1], dryDelayL, dryDelayR
      ensures Compensated(blockSize, xsL, xsR, vL, vR, dryL, dryR, hL, hR)
      ensures unchanged(inputFilters.FilterStates()) && unchanged(inputFilters.Rows())
    {
      LatencyCompensation(blockSize, xsL, xsR, vL, vR, dryL, dryR);
    }

    /** Step 4 of processBlock, after latency compensation. */
    method MakeupWrap(blockSize: int, ghost xsL: seq<real>, ghost xsR: seq<real>, ghost vL: ChannelView, ghost vR: ChannelView,
                      ghost dryL: seq<real>, ghost dryR: seq<real>, ghost hL: seq<real>, ghost hR: seq<real>)
      requires 0 <= blockSize <= MaxBlockSize && Compensated(blockSize, xsL, xsR, vL, vR, dryL, dryR, hL, hR)
      modifies bufferL, bufferR, inputFilters.makeupDelay[0], inputFilters.makeupDelay[1]
      ensures Settled(blockSize, xsL, xsR, vL, vR, hL, hR)
      ensures bufferL[..blockSize] == WetOut(vL, xsL) && bufferR[..blockSize] == WetOut(vR, xsR)
      ensures dryBufferL[..blockSize] == dryL && dryBufferR[..blockSize] == dryR
      ensures unchanged(inputFilters.FilterStates()) && unchanged(inputFilters.Rows())
    {
      MakeupStep(blockSize, xsL, xsR, vL, vR);
    }

    /** Step 4 of processBlock: the discarded parts added back through the makeup
        delay lines, which latency compensation has set to the total latency;
        each line that takes part grows by the discarded parts. */
    method MakeupStep(blockSize: int, ghost xsL: seq<real>, ghost xsR: seq<real>, ghost vL: ChannelView, ghost vR: ChannelView)
      requires Layout() && 0 <= blockSize <= MaxBlockSize && Covers(vL, |xsL|) && Covers(vR, |xsR|)
      requires Agrees(0, vL) && Agrees(1, vR)
      requires bufferL[..blockSize] == Band(vL, xsL) && bufferR[..blockSize] == Band(vR, xsR)
      requires vL.filtered ==> inputFilters.MakeupSignal(0, blockSize) == Discarded(vL)
      requires vR.filtered ==> inputFilters.MakeupSignal(1, blockSize) == Discarded(vR)
      requires inputFilters.MakeupOn(0) ==> inputFilters.makeupDelay[0].delay == TotalLatency
      requires inputFilters.MakeupOn(1) ==> inputFilters.makeupDelay[1].delay == TotalLatency
      modifies bufferL, bufferR, inputFilters.makeupDelay[0], inputFilters.makeupDelay[1]
      ensures bufferL[..blockSize] == WetOut(vL, xsL) && bufferR[..blockSize] == WetOut(vR, xsR)
      ensures inputFilters.makeupDelay[0] != null ==>
        inputFilters.makeupDelay[0].written == MakeupHistory(vL) && inputFilters.makeupDelay[0].delay == old(inputFilters.makeupDelay[0].delay)
      ensures inputFilters.makeupDelay[1] != null ==>
        inputFilters.makeupDelay[1].written == MakeupHistory(vR) && inputFilters.makeupDelay[1].delay == old(inputFilters.makeupDelay[1].delay)
    {
      inputFilters.ProcessBlockMakeup(bufferL, bufferR, blockSize);
    }

    /** Step 1 of processBlock, within the block: the input goes to both the
        dry and the wet buffers; what the two paths start from stays as it was. */
    method CopyStep(inL: array<real>, inR: array<real>, blockSize: int, ghost xsL: seq<real>, ghost xsR: seq<real>,
                    ghost vL: ChannelView, ghost vR: ChannelView, ghost dryL: seq<real>, ghost dryR: seq<real>,
                    ghost hL: seq<real>, ghost hR: seq<real>)
      requires Poised(xsL, xsR, vL, vR, dryL, dryR, hL, hR) && 0 <= blockSize <= MaxBlockSize
      requires blockSize <= inL.Length && blockSize <= inR.Length && Outside(inL) && Outside(inR)
      requires xsL == inL[..blockSize] && xsR == inR[..blockSize]
      modifies bufferL, bufferR, dryBufferL, dryBufferR
      ensures Poised(xsL, xsR, vL, vR, dryL, dryR, hL, hR)
      ensures bufferL[..blockSize] == xsL && dryBufferL[..blockSize] == xsL
      ensures bufferR[..blockSize] == xsR && dryBufferR[..blockSize] == xsR
    {
      CopyKeep(inL, inR, blockSize, xsL, xsR, vL, vR);
    }

    /** The copy, keeping the views of both channels. */
    method CopyKeep(inL: array<real>, inR: array<real>, blockSize: int, ghost xsL: seq<real>, ghost xsR: seq<real>,
                    ghost vL: ChannelView, ghost vR: ChannelView)
      requires Valid() && 0 <= blockSize <= MaxBlockSize
      requires blockSize <= inL.Length && blockSize <= inR.Length && Outside(inL) && Outside(inR)
      requires vL.route == inputFilters.RouteOf(0, xsL) && vR.route == inputFilters.RouteOf(1, xsR)
      requires Agrees(0, vL) && Agrees(1, vR)
      requires vL.delay == Setting(inputFilters.makeupDelay[0]) && vR.delay == Setting(inputFilters.makeupDelay[1])
      modifies bufferL, bufferR, dryBufferL, dryBufferR
      ensures Valid()
      ensures vL.route == inputFilters.RouteOf(0, xsL) && vR.route == inputFilters.RouteOf(1, xsR)
      ensures Agrees(0, vL) && Agrees(1, vR)
      ensures vL.delay == Setting(inputFilters.makeupDelay[0]) && vR.delay == Setting(inputFilters.makeupDelay[1])
      ensures bufferL[..blockSize] == inL[..blockSize] && dryBufferL[..blockSize] == inL[..blockSize]
      ensures bufferR[..blockSize] == inR[..blockSize] && dryBufferR[..blockSize] == inR[..blockSize]
    {
      CopyLoop(inL, inR, blockSize);
    }

    /** Step 1 of processBlock: the input goes to both the dry and the wet buffers. */
    method CopyLoop(inL: array<real>, inR: array<real>, blockSize: int)
      requires Buffers() && 0 <= blockSize <= MaxBlockSize && blockSize <= inL.Length && blockSize <= inR.Length
      requires Outside(inL) && Outside(inR)
      modifies bufferL, bufferR, dryBufferL, dryBufferR
      ensures bufferL[..blockSize] == inL[..blockSize] && dryBufferL[..blockSize] == inL[..blockSize]
      ensures bufferR[..blockSize] == inR[..blockSize] && dryBufferR[..blockSize] == inR[..blockSize]
    {
      for i := 0 to blockSize
        invariant forall k :: 0 <= k < i ==> dryBufferL[k] == inL[k] && dryBufferR[k] == inR[k]
        invariant forall k :: 0 <= k < i ==> bufferL[k] == inL[k] && bufferR[k] == inR[k]
      {
        dryBufferL[i] := inL[i];
        dryBufferR[i] := inR[i];
        bufferL[i] := inL[i];
        bufferR[i] := inR[i];
      }
    }

    /** latencyCompensation: every visited makeup delay line and every linked
        dry delay line is set to the total latency; only when both dry lines are
        linked does the dry pair go through them, one write and one read per sample. */
    method LatencyCompensation(blockSize: int, ghost xsL: seq<real>, ghost xsR: seq<real>,
                               ghost vL: ChannelView, ghost vR: ChannelView, ghost dryL: seq<real>, ghost dryR: seq<real>)
      requires Layout() && 0 <= blockSize <= MaxBlockSize && Agrees(0, vL) && Agrees(1, vR)
      requires dryBufferL[..blockSize] == xsL && dryBufferR[..blockSize] == xsR
      requires dryL == Dry(dryDelayL, xsL) && dryR == Dry(dryDelayR, xsR)
      modifies dryBufferL, dryBufferR, inputFilters.makeupDelay[0], inputFilters.makeupDelay[1], dryDelayL, dryDelayR
      ensures Agrees(0, vL) && Agrees(1, vR)
      ensures inputFilters.makeupDelay[0] != null ==>
        inputFilters.makeupDelay[0].delay == if 0 < inputFilters.Active() then TotalLatency else old(inputFilters.makeupDelay[0].delay)
      ensures inputFilters.makeupDelay[1] != null ==>
        inputFilters.makeupDelay[1].delay == if 1 < inputFilters.Active() then TotalLatency else old(inputFilters.makeupDelay[1].delay)
      ensures DryLineAfter(dryDelayL, old(History(dryDelayL)), xsL) && DryLineAfter(dryDelayR, old(History(dryDelayR)), xsR)
      ensures dryBufferL[..blockSize] == dryL && dryBufferR[..blockSize] == dryR
    {
      inputFilters.SetMakeupDelay(TotalLatency);
      DryCompensation(blockSize, xsL, xsR, dryL, dryR);
    }

    /** The dry half of latencyCompensation. */
    method DryCompensation(blockSize: int, ghost xsL: seq<real>, ghost xsR: seq<real>, ghost dryL: seq<real>, ghost dryR: seq<real>)
      requires Buffers() && 0 <= blockSize <= MaxBlockSize && (dryDelayL != null ==> dryDelayL != dryDelayR)
      requires dryBufferL[..blockSize] == xsL && dryBufferR[..blockSize] == xsR
      requires dryL == Dry(dryDelayL, xsL) && dryR == Dry(dryDelayR, xsR)
      modifies dryBufferL, dryBufferR, dryDelayL, dryDelayR
      ensures DryLineAfter(dryDelayL, old(History(dryDelayL)), xsL) && DryLineAfter(dryDelayR, old(History(dryDelayR)), xsR)
      ensures dryBufferL[..blockSize] == dryL && dryBufferR[..blockSize] == dryR
    {
      if dryDelayL != null {
        dryDelayL.SetDelay(TotalLatency);
      }
      if dryDelayR != null {
        dryDelayR.SetDelay(TotalLatency);
      }
      if dryDelayL != null && dryDelayR != null {
        DelayBoth(dryDelayL, dryDelayR, blockSize);
      }
    }

    /** The dry pair through the two dry delay lines. */
    method DelayBoth(dl: DelayLine, dr: DelayLine, blockSize: int)
      requires Buffers() && dl != dr && 0 <= blockSize <= MaxBlockSize
      modifies dryBufferL, dryBufferR, dl`written, dr`written
      ensures dl.written == old(dl.written) + old(dryBufferL[..blockSize])
      ensures dr.written == old(dr.written) + old(dryBufferR[..blockSize])
      ensures dryBufferL[..blockSize] == ReadsAfterWrites(dl.interp, old(dl.written), dl.delay, old(dryBufferL[..blockSize]))
      ensures dryBufferR[..blockSize] == ReadsAfterWrites(dr.interp, old(dr.written), dr.delay, old(dryBufferR[..blockSize]))
    {
      ghost var xl, xr := dryBufferL[..blockSize], dryBufferR[..blockSize];
      ghost var yl := ReadsAfterWrites(dl.interp, dl.written, dl.delay, xl);
      ghost var yr := ReadsAfterWrites(dr.interp, dr.written, dr.delay, xr);
      for i := 0 to blockSize
        invariant dl.written == old(dl.written) + xl[..i] && dr.written == old(dr.written) + xr[..i]
        invariant forall k :: 0 <= k < i ==> dryBufferL[k] == yl[k] && dryBufferR[k] == yr[k]
        invariant forall k :: i <= k < blockSize ==> dryBufferL[k] == xl[k] && dryBufferR[k] == xr[k]
      {
        assert xl[..i + 1] == xl[..i] + [xl[i]];
        assert xr[..i + 1] == xr[..i] + [xr[i]];
        dl.Write(dryBufferL[i]);
        dr.Write(dryBufferR[i]);
        dryBufferL[i] := dl.Read();
        dryBufferR[i] := dr.Read();
      }
    }

    /** dryWetMix: out = dry * (1 - dryWet) + wet * dryWet, sample by sample;
        the state the block settled in stays as it was. */
    method DryWetMix(outL: array<real>, outR: array<real>, blockSize: int, ghost xsL: seq<real>, ghost xsR: seq<real>,
                     ghost vL: ChannelView, ghost vR: ChannelView, ghost dryL: seq<real>, ghost dryR: seq<real>,
                     ghost hL: seq<real>, ghost hR: seq<real>)
      requires 0 <= blockSize <= MaxBlockSize && Settled(blockSize, xsL, xsR, vL, vR, hL, hR)
      requires blockSize <= outL.Length && blockSize <= outR.Length && Outside(outL) && Outside(outR) && outL != outR
      requires outL !in inputFilters.Rows() && outR !in inputFilters.Rows()
      requires Covers(vL, |xsL|) && Covers(vR, |xsR|)
      requires bufferL[..blockSize] == WetOut(vL, xsL) && bufferR[..blockSize] == WetOut(vR, xsR)
      requires dryBufferL[..blockSize] == dryL && dryBufferR[..blockSize] == dryR
      modifies outL, outR
      ensures Settled(blockSize, xsL, xsR, vL, vR, hL, hR)
      ensures outL[..blockSize] == MixBlock(dryL, WetOut(vL, xsL), dryWet)
      ensures outR[..blockSize] == MixBlock(dryR, WetOut(vR, xsR), dryWet)
      ensures unchanged(inputFilters.FilterStates()) && unchanged(inputFilters.Rows())
    {
      for i := 0 to blockSize
        invariant forall k :: 0 <= k < i ==> outL[k] == Crossfade(dryBufferL[k], bufferL[k], dryWet)
        invariant forall k :: 0 <= k < i ==> outR[k] == Crossfade(dryBufferR[k], bufferR[k], dryWet)
      {
        var wetL, wetR := bufferL[i], bufferR[i];
        var dryL, dryR := dryBufferL[i], dryBufferR[i];
        outL[i] := dryL * (1.0 - dryWet) + wetL * dryWet;
        outR[i] := dryR * (1.0 - dryWet) + wetR * dryWet;
      }
    }

    /** SetLowCutFreq: forwarded to the input filters. */
    method SetLowCutFreq(freqHz: real)
      requires Valid() && (inputFilters.Active() > 0 ==> freqHz < 0.5 * inputFilters.fs)
      modifies inputFilters`lowCutFreq, inputFilters.lowCutFilter
      ensures Valid() && inputFilters.lowCutFreq == freqHz
    {
      inputFilters.SetLowCut(freqHz);
    }

    /** SetHighCutFreq: forwarded to the input filters, which clamp it. */
    method SetHighCutFreq(freqHz: real)
      requires Valid()
      modifies inputFilters`highCutFreq, inputFilters.highCutFilter
      ensures Valid() && inputFilters.highCutFreq == Min(freqHz, inputFilters.fs * HighCutLimit)
    {
      inputFilters.SetHighCut(freqHz);
    }

    method SetFiltersEnabled(enabled: bool)
      modifies inputFilters`onOff
      ensures inputFilters.onOff == enabled
    {
      inputFilters.SetEnabled(enabled);
    }

    method SetMakeupEnabled(enabled: bool)
      modifies inputFilters`makeup
      ensures inputFilters.makeup == enabled
    {
      inputFilters.SetMakeupEnabled(enabled);
    }

    /** SetDryWet: stored as given, not clamped. */
    method SetDryWet(normVal: real)
      modifies this`dryWet
      ensures dryWet == normVal
    {
      dryWet := normVal;
    }
  }
}
