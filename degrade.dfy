/** The Degrade stage (src/DaisyDegrade.cpp): noise, filtering and an output gain
    applied to a block in chunks that stop at every DEG_BLOCK_SIZE-sample control
    boundary, where the parameters are cooked afresh from the stored knobs and
    random draws. The class is proved against DegradeSpec.DegRun. */
module DegradeStage {
  import opened DspMath
  import opened DegradeSpec
  import opened DegradeParts

  class DegradeProcessor {
    /** The transcendental functions the stage uses. */
    const math: MathLib
    var fs: real
    var onOff: bool
    var pDepth: real
    var pAmount: real
    var pVariance: real
    var pEnvelope: real
    /** filters[0] and filters[1]. */
    const filter0: DegradeFilter
    const filter1: DegradeFilter
    /** noises[0] and noises[1]. */
    const noise0: DegradeNoise
    const noise1: DegradeNoise
    const levelDetector: SimpleLevelDetector
    const noiseBuf: array<real>
    const levelBuf: array<real>
    /** The generator behind every RandomGen of the stage: all of them call rand(). */
    const random: Rand
    var sampleCounter: int
    var targetGain: real
    var currentGain: real

    /** The sub-objects are distinct, share the stage's math and the scratch buffers
        hold one control period; all of it fixed at construction. */
    ghost predicate Wired()
    {
      filter0 != filter1 && noise0 != noise1 && noiseBuf != levelBuf &&
      filter0.math == math && filter1.math == math && levelDetector.math == math &&
      noiseBuf.Length == DegBlockSize && levelBuf.Length == DegBlockSize
    }

    /** The wiring, and the control counter inside the period. */
    ghost predicate Valid()
      reads this
    {
      Wired() && 0 <= sampleCounter < DegBlockSize
    }

    /** The sub-processor state, the output gain pair and the draws taken. */
    ghost function Snap(): DegSnap
      reads this, filter0, filter1, noise0, noise1, levelDetector, random
    {
      DegSnap(noise0.State(), noise1.State(), filter0.State(), filter1.State(), levelDetector.State(),
              targetGain, currentGain, random.used)
    }

    function Params(): DegParams
      reads this`pDepth, this`pAmount, this`pVariance, this`pEnvelope
    {
      DegParams(pDepth, pAmount, pVariance, pEnvelope)
    }

    /** An array of the caller's: neither scratch buffer. */
    predicate Foreign(a: array<real>)
    {
      a != noiseBuf && a != levelBuf
    }

    /** The constructor's initialiser list: 48 kHz, enabled, all knobs 0, counter 0, unity gain. */
    constructor (math: MathLib, random: Rand)
      ensures Valid() && this.math == math && this.random == random
      ensures fs == 48000.0 && onOff && Params() == DegParams(0.0, 0.0, 0.0, 0.0)
      ensures sampleCounter == 0 && targetGain == 1.0 && currentGain == 1.0
      ensures noise0.State() == NoiseState(0.0, 0.0) && noise1.State() == NoiseState(0.0, 0.0)
      ensures filter0.State() == FilterReset(math, 48000.0) && filter1.State() == FilterReset(math, 48000.0)
    {
      this.math := math;
      fs := 48000.0;
      onOff := true;
      pDepth, pAmount, pVariance, pEnvelope := 0.0, 0.0, 0.0, 0.0;
      filter0 := new DegradeFilter(math);
      filter1 := new DegradeFilter(math);
      noise0 := new DegradeNoise();
      noise1 := new DegradeNoise();
      levelDetector := new SimpleLevelDetector(math);
      noiseBuf := new real[DegBlockSize];
      levelBuf := new real[DegBlockSize];
      this.random := random;
      sampleCounter := 0;
      targetGain := 1.0;
      currentGain := 1.0;
    }

    /** prepare: counter to 0, both filters reset, both noises silenced, the detector
        prepared. The output gain and the knobs are left as they are. The loop over
        the two filter/noise pairs is written out. */
    method Prepare(sampleRate: real)
      requires Valid()
      modifies this`fs, this`sampleCounter, filter0, filter1, noise0, noise1, levelDetector
      ensures Valid() && fs == sampleRate && sampleCounter == 0
      ensures Snap() == old(Snap()).(noise0 := NoiseState(0.0, 0.0), noise1 := NoiseState(0.0, 0.0),
                                     filt0 := FilterReset(math, sampleRate), filt1 := FilterReset(math, sampleRate),
                                     det := DetPrepare(math, sampleRate))
    {
      fs := sampleRate;
      sampleCounter := 0;
      filter0.Reset(sampleRate);
      noise0.Prepare();
      filter1.Reset(sampleRate);
      noise1.Prepare();
      levelDetector.Prepare(sampleRate);
    }

    /** setParameters: the knobs and the enable flag are stored verbatim; nothing is cooked. */
    method SetParameters(depth: real, amount: real, variance: real, envelope: real, enabled: bool)
      modifies this`pDepth, this`pAmount, this`pVariance, this`pEnvelope, this`onOff
      ensures Params() == DegParams(depth, amount, variance, envelope) && onOff == enabled
      ensures Snap() == old(Snap()) && sampleCounter == old(sampleCounter)
    {
      pDepth := depth;
      pAmount := amount;
      pVariance := variance;
      pEnvelope := envelope;
      onOff := enabled;
    }

    /** cookParams: noise gains, the two filter targets (one draw each), the detector
        release and the target gain (a third draw). */
    method CookParams()
      requires Wired()
      modifies noise0`curGain, noise1`curGain, filter0`targetFreq, filter1`targetFreq,
               levelDetector`attackCoeff, levelDetector`releaseCoeff, random`used, this`targetGain
      ensures Snap() == Cook(math, old(Snap()), fs, Params(), random.draws)
    {
      var p := Params();
      ghost var s := Snap();
      var depthValue := pDepth * 0.1;
      var freqHz := CookBaseFreq(math, p);
      var gainDB := -24.0 * depthValue;
      var noiseGain := CookNoiseGain(p);
      noise0.SetGain(noiseGain);
      noise1.SetGain(noiseGain);
      CookFilters(p, freqHz);
      var releaseMs := CookRelease(math, p);
      levelDetector.SetParameters(10.0, releaseMs);
      CookGain(p, gainDB);
      CookOf(math, s, fs, p, random.draws, Snap());
    }

    /** The filter loop of cookParams: one draw and one new target per filter. */
    method CookFilters(p: DegParams, freqHz: real)
      requires Wired() && p == Params()
      modifies filter0`targetFreq, filter1`targetFreq, random`used
      ensures random.used == old(random.used) + 2
      ensures filter0.State() == old(filter0.State()).(targetFreq := CookFreq(p, fs, freqHz, Draw(random.draws, old(random.used))))
      ensures filter1.State() == old(filter1.State()).(targetFreq := CookFreq(p, fs, freqHz, Draw(random.draws, old(random.used) + 1)))
    {
      var finalFreq := CookedFreq(p, freqHz);
      filter0.SetFreq(finalFreq);
      finalFreq := CookedFreq(p, freqHz);
      filter1.SetFreq(finalFreq);
    }

    /** The gain part of cookParams: a drawn variation on gainDB, the +3 dB cap, then the
        linear target. */
    method CookGain(p: DegParams, gainDB: real)
      requires p == Params() && gainDB == -24.0 * (pDepth * 0.1)
      modifies random`used, this`targetGain
      ensures random.used == old(random.used) + 1
      ensures targetGain == CookTargetGain(math, p, Draw(random.draws, old(random.used)))
    {
      var randVal := random.NextFloat();
      var gainVar := GainVariation(pVariance, randVal - 0.5);
      var finalGainDB := gainDB + gainVar;
      if finalGainDB > 3.0 {
        finalGainDB := 3.0;
      }
      targetGain := DbToGain(math, finalGainDB);
    }

    /** One filter target: a draw varies the base frequency, then the Nyquist cap and the 20 Hz floor. */
    method CookedFreq(p: DegParams, freqHz: real) returns (finalFreq: real)
      requires p == Params()
      modifies random`used
      ensures random.used == old(random.used) + 1
      ensures finalFreq == CookFreq(p, fs, freqHz, Draw(random.draws, old(random.used)))
    {
      var randVal := random.NextFloat();
      randVal := randVal - 0.5;
      var freqVar := FreqVariation(pVariance, freqHz, randVal);
      finalFreq := freqHz + freqVar;
      if finalFreq > fs * 0.49 {
        finalFreq := fs * 0.49;
      }
      if finalFreq < 20.0 {
        finalFreq := 20.0;
      }
    }

    /** processBlock: nothing when disabled; otherwise chunks that end at the block end
        or at the next control boundary, cooking the parameters at each boundary. */
    method ProcessBlock(inL: array<real>, inR: array<real>, blockSize: int)
      requires Valid() && inL != inR && Foreign(inL) && Foreign(inR)
      requires 0 <= blockSize <= inL.Length && blockSize <= inR.Length
      modifies this`sampleCounter, this`targetGain, this`currentGain, inL, inR, noiseBuf, levelBuf,
               noise0, noise1, filter0, filter1, levelDetector, random`used
      ensures Valid()
      ensures !old(onOff) ==> Snap() == old(Snap()) && sampleCounter == old(sampleCounter) &&
                              inL[..] == old(inL[..]) && inR[..] == old(inR[..])
      ensures old(onOff) ==>
                (Snap(), sampleCounter, inL[..blockSize], inR[..blockSize]) ==
                DegRun(math, old(Snap()), old(sampleCounter), fs, Params(), random.draws, old(inL[..blockSize]), old(inR[..blockSize]))
      ensures forall j :: blockSize <= j < inL.Length ==> inL[j] == old(inL[j])
      ensures forall j :: blockSize <= j < inR.Length ==> inR[j] == old(inR[j])
    {
      if !onOff {
        return;
      }
      ghost var p := Params();
      ghost var s0, c0 := Snap(), sampleCounter;
      ghost var xsL, xsR := inL[..blockSize], inR[..blockSize];
      ghost var whole := DegRun(math, s0, c0, fs, p, random.draws, xsL, xsR);
      RunFromStart(math, s0, c0, fs, p, random.draws, xsL, xsR);
      ghost var outL: seq<real>, outR: seq<real> := [], [];
      assert xsL[0..] == xsL && xsR[0..] == xsR;
      var samplesProcessed := 0;
      while samplesProcessed < blockSize
        invariant Valid() && Params() == p && 0 <= samplesProcessed <= blockSize
        invariant |outL| == samplesProcessed && |outR| == samplesProcessed
        invariant forall j :: 0 <= j < samplesProcessed ==> inL[j] == outL[j] && inR[j] == outR[j]
        invariant forall j :: samplesProcessed <= j < blockSize ==> inL[j] == xsL[j] && inR[j] == xsR[j]
        invariant forall j :: blockSize <= j < inL.Length ==> inL[j] == old(inL[j])
        invariant forall j :: blockSize <= j < inR.Length ==> inR[j] == old(inR[j])
        invariant whole == RunFrom(math, Snap(), sampleCounter, fs, p, random.draws, outL, outR,
                                   xsL[samplesProcessed..], xsR[samplesProcessed..])
        decreases blockSize - samplesProcessed
      {
        samplesProcessed, outL, outR := Pass(inL, inR, blockSize, samplesProcessed, p, whole, xsL, xsR, outL, outR);
      }
      assert xsL[blockSize..] == [] && xsR[blockSize..] == [];
      assert outL + [] == outL && outR + [] == outR;
      assert whole == (Snap(), sampleCounter, outL, outR);
      assert inL[..blockSize] == outL && inR[..blockSize] == outR;
    }

    /** One pass of the processBlock loop: the next chunk runs to the block end or to
        the next control boundary, whichever is nearer, and moves from the pending
        input to the outputs. */
    method Pass(inL: array<real>, inR: array<real>, blockSize: int, done: int,
                ghost p: DegParams, ghost whole: (DegSnap, int, seq<real>, seq<real>),
                ghost xsL: seq<real>, ghost xsR: seq<real>, ghost outL: seq<real>, ghost outR: seq<real>)
      returns (done': int, ghost outL': seq<real>, ghost outR': seq<real>)
      requires Valid() && inL != inR && Foreign(inL) && Foreign(inR) && Params() == p
      requires 0 <= done < blockSize <= inL.Length && blockSize <= inR.Length
      requires |xsL| == blockSize && |xsR| == blockSize && |outL| == done && |outR| == done
      requires forall j :: 0 <= j < done ==> inL[j] == outL[j] && inR[j] == outR[j]
      requires forall j :: done <= j < blockSize ==> inL[j] == xsL[j] && inR[j] == xsR[j]
      requires whole == RunFrom(math, Snap(), sampleCounter, fs, p, random.draws, outL, outR, xsL[done..], xsR[done..])
      modifies this`sampleCounter, this`targetGain, this`currentGain, inL, inR, noiseBuf, levelBuf,
               noise0, noise1, filter0, filter1, levelDetector, random`used
      ensures Valid() && Params() == p && done < done' <= blockSize
      ensures |outL'| == done' && |outR'| == done'
      ensures forall j :: 0 <= j < done' ==> inL[j] == outL'[j] && inR[j] == outR'[j]
      ensures forall j :: done' <= j < blockSize ==> inL[j] == xsL[j] && inR[j] == xsR[j]
      ensures forall j :: blockSize <= j < inL.Length ==> inL[j] == old(inL[j])
      ensures forall j :: blockSize <= j < inR.Length ==> inR[j] == old(inR[j])
      ensures whole == RunFrom(math, Snap(), sampleCounter, fs, p, random.draws, outL', outR', xsL[done'..], xsR[done'..])
    {
      var remainingInBlock := blockSize - done;
      var remainingUntilUpdate := DegBlockSize - sampleCounter;
      var chunkSize := MinInt(remainingInBlock, remainingUntilUpdate);
      ghost var restL, restR := xsL[done..], xsR[done..];
      ghost var s, c := Snap(), sampleCounter;
      assert restL[..chunkSize] == inL[done..done + chunkSize] && restR[..chunkSize] == inR[done..done + chunkSize];
      ChunkStep(inL, inR, done, chunkSize, p, s, c, restL[..chunkSize], restR[..chunkSize]);
      done' := done + chunkSize;
      outL', outR' := outL + inL[done..done'], outR + inR[done..done'];
      RunFromNext(math, s, c, fs, p, random.draws, whole, outL, outR, restL, restR, chunkSize,
                  Snap(), sampleCounter, inL[done..done'], inR[done..done'], xsL[done'..], xsR[done'..]);
      forall j | done <= j < done'
        ensures inL[j] == outL'[j] && inR[j] == outR'[j]
      {
        assert inL[j] == inL[done..done'][j - done];
        assert inR[j] == inR[done..done'][j - done];
      }
    }

    /** The rest of one pass of the processBlock loop, the chunk being chosen:
        processShortBlock, the counter advance, and cookParams with a counter reset at
        a boundary; together the block run of the chunk alone. */
    method ChunkStep(inL: array<real>, inR: array<real>, off: int, chunkSize: int, ghost p: DegParams,
                     ghost s: DegSnap, ghost c: int, ghost xsL: seq<real>, ghost xsR: seq<real>)
      requires Valid() && inL != inR && Foreign(inL) && Foreign(inR) && p == Params()
      requires 0 <= off && off + chunkSize <= inL.Length && off + chunkSize <= inR.Length
      requires 0 < chunkSize <= DegBlockSize - sampleCounter
      requires s == Snap() && c == sampleCounter
      requires xsL == inL[off..off + chunkSize] && xsR == inR[off..off + chunkSize]
      modifies this`sampleCounter, this`targetGain, this`currentGain, inL, inR, noiseBuf, levelBuf,
               noise0, noise1, filter0, filter1, levelDetector, random`used
      ensures Valid() && Params() == p
      ensures (Snap(), sampleCounter, inL[off..off + chunkSize], inR[off..off + chunkSize]) ==
        DegRun(math, s, c, fs, p, random.draws, xsL, xsR)
      ensures forall j :: 0 <= j < inL.Length && !(off <= j < off + chunkSize) ==> inL[j] == old(inL[j])
      ensures forall j :: 0 <= j < inR.Length && !(off <= j < off + chunkSize) ==> inR[j] == old(inR[j])
    {
      ProcessShortBlock(inL, inR, off, chunkSize, s, xsL, xsR);
      ghost var chunk := (Snap(), inL[off..off + chunkSize], inR[off..off + chunkSize]);
      AdvanceChunk(chunkSize, p, s, c, xsL, xsR, chunk);
    }

    /** The counter advance after processShortBlock, with what the chunk produced. */
    method AdvanceChunk(chunkSize: int, ghost p: DegParams, ghost s: DegSnap, ghost c: int,
                        ghost xsL: seq<real>, ghost xsR: seq<real>, ghost chunk: (DegSnap, seq<real>, seq<real>))
      requires Valid() && p == Params() && chunk.0 == Snap() && c == sampleCounter
      requires 0 < chunkSize <= DegBlockSize - sampleCounter && |xsL| == chunkSize && |xsR| == chunkSize
      requires chunk == ShortBlock(math, s, random.draws, pEnvelope, xsL, xsR)
      modifies this`sampleCounter, noise0`curGain, noise1`curGain, filter0`targetFreq, filter1`targetFreq,
               levelDetector`attackCoeff, levelDetector`releaseCoeff, random`used, this`targetGain
      ensures Valid() && Params() == p
      ensures (Snap(), sampleCounter, chunk.1, chunk.2) == DegRun(math, s, c, fs, p, random.draws, xsL, xsR)
    {
      Advance(chunkSize, p, chunk.0);
      DegRunChunk(math, s, c, fs, p, random.draws, xsL, xsR, chunkSize, chunk, Snap(), sampleCounter, chunk.1, chunk.2);
    }

    /** The end of a pass of the processBlock loop: the counter advances by the chunk
        and, on reaching the control period, cookParams runs and the counter restarts. */
    method Advance(chunkSize: int, ghost p: DegParams, ghost s: DegSnap)
      requires Wired() && p == Params() && s == Snap() && 0 <= sampleCounter && 0 <= chunkSize
      requires sampleCounter + chunkSize <= DegBlockSize
      modifies this`sampleCounter, noise0`curGain, noise1`curGain, filter0`targetFreq, filter1`targetFreq,
               levelDetector`attackCoeff, levelDetector`releaseCoeff, random`used, this`targetGain
      ensures sampleCounter == if old(sampleCounter) + chunkSize >= DegBlockSize then 0 else old(sampleCounter) + chunkSize
      ensures Snap() == if old(sampleCounter) + chunkSize >= DegBlockSize then Cook(math, s, fs, p, random.draws) else s
    {
      sampleCounter := sampleCounter + chunkSize;
      if sampleCounter >= DegBlockSize {
        CookParams();
        sampleCounter := 0;
      }
    }

    /** processShortBlock: level detection on the clean chunk, then each channel gets
        its noise and its filter, then the output gain goes on both channels alike. */
    method ProcessShortBlock(inL: array<real>, inR: array<real>, off: int, numSamples: int,
                             ghost s: DegSnap, ghost xsL: seq<real>, ghost xsR: seq<real>)
      requires Wired() && inL != inR && Foreign(inL) && Foreign(inR)
      requires 0 <= off && 0 <= numSamples <= DegBlockSize && off + numSamples <= inL.Length && off + numSamples <= inR.Length
      requires s == Snap() && xsL == inL[off..off + numSamples] && xsR == inR[off..off + numSamples]
      modifies inL, inR, noiseBuf, levelBuf, noise0`prevGain, noise1`prevGain, filter0, filter1,
               levelDetector`envelope, random`used, this`currentGain
      ensures (Snap(), inL[off..off + numSamples], inR[off..off + numSamples]) ==
        ShortBlock(math, s, random.draws, pEnvelope, xsL, xsR)
      ensures forall j :: 0 <= j < inL.Length && !(off <= j < off + numSamples) ==> inL[j] == old(inL[j])
      ensures forall j :: 0 <= j < inR.Length && !(off <= j < off + numSamples) ==> inR[j] == old(inR[j])
    {
      ghost var u1: nat := s.used + numSamples;
      ghost var det, left, right := ProcessChannels(inL, inR, off, numSamples, s, xsL, xsR, u1);
      ApplyGain(inL, inR, off, numSamples, left.1, right.1, s.currentGain);
      ShortBlockOf(math, s, random.draws, pEnvelope, xsL, xsR, det, left, right, u1,
                   Snap(), inL[off..off + numSamples], inR[off..off + numSamples]);
    }

    /** The first part of processShortBlock: the level of the clean chunk, then each
        channel's noise and filter. The ghost results are the level run and the two channels. */
    method ProcessChannels(inL: array<real>, inR: array<real>, off: int, numSamples: int,
                           ghost s: DegSnap, ghost xsL: seq<real>, ghost xsR: seq<real>, ghost u1: nat)
      returns (ghost det: (DetState, seq<real>), ghost left: (FilterState, seq<real>), ghost right: (FilterState, seq<real>))
      requires Wired() && inL != inR && Foreign(inL) && Foreign(inR)
      requires 0 <= off && 0 <= numSamples <= DegBlockSize && off + numSamples <= inL.Length && off + numSamples <= inR.Length
      requires s == Snap() && xsL == inL[off..off + numSamples] && xsR == inR[off..off + numSamples] && u1 == s.used + numSamples
      modifies inL, inR, noiseBuf, levelBuf, noise0`prevGain, noise1`prevGain, filter0, filter1, levelDetector`envelope, random`used
      ensures det == EnvRun(s.det, xsL, xsR)
      ensures left == ChannelOut(math, s.filt0, s.noise0, random.draws, s.used, xsL, det.1, pEnvelope > 0.0)
      ensures right == ChannelOut(math, s.filt1, s.noise1, random.draws, u1, xsR, det.1, pEnvelope > 0.0)
      ensures levelDetector.State() == det.0 && random.used == u1 + numSamples
      ensures filter0.State() == left.0 && noise0.State() == NoiseAfter(s.noise0) && inL[off..off + numSamples] == left.1
      ensures filter1.State() == right.0 && noise1.State() == NoiseAfter(s.noise1) && inR[off..off + numSamples] == right.1
      ensures forall j :: 0 <= j < inL.Length && !(off <= j < off + numSamples) ==> inL[j] == old(inL[j])
      ensures forall j :: 0 <= j < inR.Length && !(off <= j < off + numSamples) ==> inR[j] == old(inR[j])
    {
      levelDetector.Process(inL, inR, off, levelBuf, numSamples);
      det := (levelDetector.State(), levelBuf[..numSamples]);
      var applyEnvelope := pEnvelope > 0.0;
      ProcessChannel(inL, off, numSamples, noise0, filter0, applyEnvelope, xsL, det.1, s.noise0, s.filt0, s.used);
      left := (filter0.State(), inL[off..off + numSamples]);
      ProcessChannel(inR, off, numSamples, noise1, filter1, applyEnvelope, xsR, det.1, s.noise1, s.filt1, u1);
      right := (filter1.State(), inR[off..off + numSamples]);
      assert inL[off..off + numSamples] == left.1 && filter0.State() == left.0 && noise0.State() == NoiseAfter(s.noise0);
    }

    /** The noise-and-filter block of one channel: fresh noise into noiseBuf, the noise
        (times the level when enabled) added to the chunk, then the channel's filter.
        The ghost parameters name the chunk, the levels and the starting states. */
    method ProcessChannel(buf: array<real>, off: int, numSamples: int, noise: DegradeNoise, filter: DegradeFilter,
                          applyEnvelope: bool, ghost xs: seq<real>, ghost levels: seq<real>,
                          ghost ns: NoiseState, ghost fs0: FilterState, ghost u: nat)
      requires Wired() && Foreign(buf) && filter.math == math
      requires 0 <= off && 0 <= numSamples <= DegBlockSize && off + numSamples <= buf.Length
      requires buf[off..off + numSamples] == xs && levelBuf[..numSamples] == levels
      requires noise.State() == ns && filter.State() == fs0 && random.used == u
      modifies buf, noiseBuf, noise`prevGain, filter, random`used
      ensures noise.State() == NoiseAfter(ns) && random.used == u + numSamples
      ensures (filter.State(), buf[off..off + numSamples]) == ChannelOut(math, fs0, ns, random.draws, u, xs, levels, applyEnvelope)
      ensures forall j :: 0 <= j < buf.Length && !(off <= j < off + numSamples) ==> buf[j] == old(buf[j])
    {
      noise.ProcessBlock(noiseBuf, numSamples, random);
      AddNoise(buf, off, numSamples, applyEnvelope);
      filter.Process(buf, off, numSamples);
    }

    /** The sample loop that adds noiseBuf to a chunk, modulated by levelBuf when enabled. */
    method AddNoise(buf: array<real>, off: int, numSamples: int, applyEnvelope: bool)
      requires Wired() && Foreign(buf)
      requires 0 <= off && 0 <= numSamples <= DegBlockSize && off + numSamples <= buf.Length
      modifies buf
      ensures buf[off..off + numSamples] ==
        Noisy(old(buf[off..off + numSamples]), noiseBuf[..numSamples], levelBuf[..numSamples], applyEnvelope)
      ensures forall j :: 0 <= j < buf.Length && !(off <= j < off + numSamples) ==> buf[j] == old(buf[j])
    {
      ghost var xs := buf[off..off + numSamples];
      ghost var ys := Noisy(xs, noiseBuf[..numSamples], levelBuf[..numSamples], applyEnvelope);
      for i := 0 to numSamples
        invariant forall k :: 0 <= k < i ==> buf[off + k] == ys[k]
        invariant forall j :: 0 <= j < buf.Length && !(off <= j < off + i) ==> buf[j] == old(buf[j])
      {
        var n := noiseBuf[i];
        if applyEnvelope {
          n := n * levelBuf[i];
        }
        buf[off + i] := buf[off + i] + n;
      }
      assert forall k :: 0 <= k < numSamples ==> buf[off..off + numSamples][k] == ys[k];
    }

    /** The output gain on both channels: the 1% slew while the gain is more than 1e-4
        from the target, otherwise the gain snaps to the target first. */
    method ApplyGain(inL: array<real>, inR: array<real>, off: int, numSamples: int,
                     ghost ysL: seq<real>, ghost ysR: seq<real>, ghost g0: real)
      requires inL != inR && 0 <= off && 0 <= numSamples && off + numSamples <= inL.Length && off + numSamples <= inR.Length
      requires inL[off..off + numSamples] == ysL && inR[off..off + numSamples] == ysR && currentGain == g0
      modifies inL, inR, this`currentGain
      ensures inL[off..off + numSamples] == Scale(ysL, GainRun(g0, targetGain, numSamples).0)
      ensures inR[off..off + numSamples] == Scale(ysR, GainRun(g0, targetGain, numSamples).0)
      ensures currentGain == GainRun(g0, targetGain, numSamples).1
      ensures forall j :: 0 <= j < inL.Length && !(off <= j < off + numSamples) ==> inL[j] == old(inL[j])
      ensures forall j :: 0 <= j < inR.Length && !(off <= j < off + numSamples) ==> inR[j] == old(inR[j])
    {
      if Abs(targetGain - currentGain) > 0.0001 {
        SlewGain(inL, inR, off, numSamples);
      } else {
        currentGain := targetGain;
        HoldGain(inL, inR, off, numSamples, currentGain);
      }
    }

    /** The slewing branch of the gain loop: each sample takes one 1% step first. */
    method SlewGain(inL: array<real>, inR: array<real>, off: int, numSamples: int)
      requires inL != inR && 0 <= off && 0 <= numSamples && off + numSamples <= inL.Length && off + numSamples <= inR.Length
      modifies inL, inR, this`currentGain
      ensures currentGain == GainRamp(old(currentGain), targetGain, numSamples).1
      ensures inL[off..off + numSamples] == Scale(old(inL[off..off + numSamples]), GainRamp(old(currentGain), targetGain, numSamples).0)
      ensures inR[off..off + numSamples] == Scale(old(inR[off..off + numSamples]), GainRamp(old(currentGain), targetGain, numSamples).0)
      ensures forall j :: 0 <= j < inL.Length && !(off <= j < off + numSamples) ==> inL[j] == old(inL[j])
      ensures forall j :: 0 <= j < inR.Length && !(off <= j < off + numSamples) ==> inR[j] == old(inR[j])
    {
      ghost var g0 := currentGain;
      ghost var gains := GainRamp(g0, targetGain, numSamples).0;
      ghost var xsL, xsR := inL[off..off + numSamples], inR[off..off + numSamples];
      for i := 0 to numSamples
        invariant currentGain == GainRamp(g0, targetGain, i).1
        invariant forall k :: 0 <= k < i ==> inL[off + k] == xsL[k] * gains[k] && inR[off + k] == xsR[k] * gains[k]
        invariant forall j :: 0 <= j < inL.Length && !(off <= j < off + i) ==> inL[j] == old(inL[j])
        invariant forall j :: 0 <= j < inR.Length && !(off <= j < off + i) ==> inR[j] == old(inR[j])
      {
        GainRampNext(g0, targetGain, i, numSamples);
        currentGain := GainStep(currentGain, targetGain);
        inL[off + i] := inL[off + i] * currentGain;
        inR[off + i] := inR[off + i] * currentGain;
      }
      ScalePointwise(inL[off..off + numSamples], xsL, gains);
      ScalePointwise(inR[off..off + numSamples], xsR, gains);
    }

    /** The settled branch of the gain loop: every sample is scaled by the current gain. */
    method HoldGain(inL: array<real>, inR: array<real>, off: int, numSamples: int, gain: real)
      requires inL != inR && 0 <= off && 0 <= numSamples && off + numSamples <= inL.Length && off + numSamples <= inR.Length
      modifies inL, inR
      ensures inL[off..off + numSamples] == Scale(old(inL[off..off + numSamples]), seq(numSamples, _ => gain))
      ensures inR[off..off + numSamples] == Scale(old(inR[off..off + numSamples]), seq(numSamples, _ => gain))
      ensures forall j :: 0 <= j < inL.Length && !(off <= j < off + numSamples) ==> inL[j] == old(inL[j])
      ensures forall j :: 0 <= j < inR.Length && !(off <= j < off + numSamples) ==> inR[j] == old(inR[j])
    {
      ghost var gains := seq(numSamples, _ => gain);
      ghost var xsL, xsR := inL[off..off + numSamples], inR[off..off + numSamples];
      for i := 0 to numSamples
        invariant forall k :: 0 <= k < i ==> inL[off + k] == xsL[k] * gains[k] && inR[off + k] == xsR[k] * gains[k]
        invariant forall j :: 0 <= j < inL.Length && !(off <= j < off + i) ==> inL[j] == old(inL[j])
        invariant forall j :: 0 <= j < inR.Length && !(off <= j < off + i) ==> inR[j] == old(inR[j])
      {
        inL[off + i] := inL[off + i] * gain;
        inR[off + i] := inR[off + i] * gain;
      }
      ScalePointwise(inL[off..off + numSamples], xsL, gains);
      ScalePointwise(inR[off..off + numSamples], xsR, gains);
    }
  }

  /** The outcome of a block whose first samples are already out: the rest of the run,
      its outputs after the ones produced so far. */
  ghost function RunFrom(m: MathLib, s: DegSnap, counter: int, fs: real, p: DegParams, draws: nat -> real,
                         outL: seq<real>, outR: seq<real>, xsL: seq<real>, xsR: seq<real>): (DegSnap, int, seq<real>, seq<real>)
    requires 0 <= counter < DegBlockSize && |xsL| == |xsR|
  {
    var rest := DegRun(m, s, counter, fs, p, draws, xsL, xsR);
    (rest.0, rest.1, outL + rest.2, outR + rest.3)
  }

  /** Cook from its parts: the state cookParams leaves is Cook of the state before. */
  lemma CookOf(m: MathLib, s: DegSnap, fs: real, p: DegParams, draws: nat -> real, t: DegSnap)
    requires t.noise0 == s.noise0.(cur := CookNoiseGain(p)) && t.noise1 == s.noise1.(cur := CookNoiseGain(p))
    requires t.filt0 == s.filt0.(targetFreq := CookFreq(p, fs, CookBaseFreq(m, p), Draw(draws, s.used)))
    requires t.filt1 == s.filt1.(targetFreq := CookFreq(p, fs, CookBaseFreq(m, p), Draw(draws, s.used + 1)))
    requires t.det == DetSetParams(m, s.det, 10.0, CookRelease(m, p))
    requires t.targetGain == CookTargetGain(m, p, Draw(draws, s.used + 2))
    requires t.currentGain == s.currentGain && t.used == s.used + 3
    ensures t == Cook(m, s, fs, p, draws)
  {
  }

  /** Before the first chunk nothing is out and the whole block is pending. */
  lemma RunFromStart(m: MathLib, s: DegSnap, counter: int, fs: real, p: DegParams, draws: nat -> real,
                     xsL: seq<real>, xsR: seq<real>)
    requires 0 <= counter < DegBlockSize && |xsL| == |xsR|
    ensures RunFrom(m, s, counter, fs, p, draws, [], [], xsL, xsR) == DegRun(m, s, counter, fs, p, draws, xsL, xsR)
  {
    var rest := DegRun(m, s, counter, fs, p, draws, xsL, xsR);
    assert [] + rest.2 == rest.2 && [] + rest.3 == rest.3;
  }

  /** One pass of the loop moves a chunk from the pending input to the outputs: the
      run of the block is the run of its first chunk followed by the run of the rest. */
  lemma RunFromStep(m: MathLib, s: DegSnap, counter: int, fs: real, p: DegParams, draws: nat -> real,
                    outL: seq<real>, outR: seq<real>, xsL: seq<real>, xsR: seq<real>, k: int)
    requires 0 <= counter < DegBlockSize && |xsL| == |xsR| && xsL != []
    requires k == MinInt(|xsL|, DegBlockSize - counter)
    ensures var first := DegRun(m, s, counter, fs, p, draws, xsL[..k], xsR[..k]);
      RunFrom(m, s, counter, fs, p, draws, outL, outR, xsL, xsR) ==
      RunFrom(m, first.0, first.1, fs, p, draws, outL + first.2, outR + first.3, xsL[k..], xsR[k..])
  {
    var step := DegStep(m, s, counter, fs, p, draws, xsL[..k], xsR[..k]);
    var rest := DegRun(m, step.0, step.1, fs, p, draws, xsL[k..], xsR[k..]);
    assert k == Chunks(counter, |xsL|)[0];
    assert DegRun(m, s, counter, fs, p, draws, xsL, xsR) == FirstChunk(m, s, counter, fs, p, draws, xsL, xsR);
    DegRunOneChunk(m, s, counter, fs, p, draws, xsL[..k], xsR[..k]);
    assert outL + (step.2 + rest.2) == (outL + step.2) + rest.2;
    assert outR + (step.3 + rest.3) == (outR + step.3) + rest.3;
  }

  /** RunFromStep with the run of the chunk named: the state, counter and outputs
      after it. */
  lemma RunFromNext(m: MathLib, s: DegSnap, counter: int, fs: real, p: DegParams, draws: nat -> real,
                    whole: (DegSnap, int, seq<real>, seq<real>), outL: seq<real>, outR: seq<real>,
                    xsL: seq<real>, xsR: seq<real>, k: int, s': DegSnap, counter': int,
                    ysL: seq<real>, ysR: seq<real>, restL: seq<real>, restR: seq<real>)
    requires 0 <= counter < DegBlockSize && |xsL| == |xsR| && xsL != []
    requires k == MinInt(|xsL|, DegBlockSize - counter)
    requires whole == RunFrom(m, s, counter, fs, p, draws, outL, outR, xsL, xsR)
    requires (s', counter', ysL, ysR) == DegRun(m, s, counter, fs, p, draws, xsL[..k], xsR[..k])
    requires restL == xsL[k..] && restR == xsR[k..]
    ensures whole == RunFrom(m, s', counter', fs, p, draws, outL + ysL, outR + ysR, restL, restR)
  {
    RunFromStep(m, s, counter, fs, p, draws, outL, outR, xsL, xsR, k);
  }

  /** ShortBlock assembled from its level run, its two channels and the gain run. */
  lemma ShortBlockOf(m: MathLib, s: DegSnap, draws: nat -> real, envelope: real, xsL: seq<real>, xsR: seq<real>,
                     det: (DetState, seq<real>), left: (FilterState, seq<real>), right: (FilterState, seq<real>), u1: nat,
                     t: DegSnap, ysL: seq<real>, ysR: seq<real>)
    requires |xsL| == |xsR| && u1 == s.used + |xsL|
    requires det == EnvRun(s.det, xsL, xsR)
    requires left == ChannelOut(m, s.filt0, s.noise0, draws, s.used, xsL, det.1, envelope > 0.0)
    requires right == ChannelOut(m, s.filt1, s.noise1, draws, u1, xsR, det.1, envelope > 0.0)
    requires t.noise0 == NoiseAfter(s.noise0) && t.noise1 == NoiseAfter(s.noise1)
    requires t.filt0 == left.0 && t.filt1 == right.0 && t.det == det.0 && t.targetGain == s.targetGain
    requires t.currentGain == GainRun(s.currentGain, s.targetGain, |xsL|).1 && t.used == u1 + |xsL|
    requires ysL == Scale(left.1, GainRun(s.currentGain, s.targetGain, |xsL|).0)
    requires ysR == Scale(right.1, GainRun(s.currentGain, s.targetGain, |xsL|).0)
    ensures (t, ysL, ysR) == ShortBlock(m, s, draws, envelope, xsL, xsR)
  {
    var r := ShortBlock(m, s, draws, envelope, xsL, xsR);
    var gains := GainRun(s.currentGain, s.targetGain, |xsL|);
    assert r.1 == ysL && r.2 == ysR;
    assert r.0.filt0 == t.filt0;
    assert r.0.filt1 == t.filt1;
    assert r.0.det == t.det;
    assert r.0.currentGain == t.currentGain;
    assert r.0.used == t.used;
  }

  /** A chunk whose every sample is the product of the old sample and its gain is the scaled chunk. */
  lemma ScalePointwise(ys: seq<real>, xs: seq<real>, gs: seq<real>)
    requires |ys| == |xs| == |gs| && forall k :: 0 <= k < |xs| ==> ys[k] == xs[k] * gs[k]
    ensures ys == Scale(xs, gs)
  {
  }

  /** The ramp is built by extension: the last gain of a shorter ramp is the matching
      element of a longer one. */
  lemma GainRampNext(g: real, t: real, i: nat, n: nat)
    requires i < n
    ensures GainRamp(g, t, n).0[i] == GainStep(GainRamp(g, t, i).1, t) == GainRamp(g, t, i + 1).1
  {
    GainRampPrefix(g, t, i + 1, n);
  }

  lemma {:induction false} GainRampPrefix(g: real, t: real, i: nat, n: nat)
    requires 0 < i <= n
    ensures GainRamp(g, t, n).0[i - 1] == GainRamp(g, t, i).1
    decreases n
  {
    if i < n {
      GainRampPrefix(g, t, i, n - 1);
      assert GainRamp(g, t, n).0 == GainRamp(g, t, n - 1).0 + [GainRamp(g, t, n).1];
    }
  }
}
