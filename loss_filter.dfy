/** The LossFilter stage (src/DaisyLossFilter.cpp): two FIR + head-bump slots, a
    crossfade between them, and the coefficient design run on parameter updates. */
module LossFilterStage {
  import opened DspMath
  import opened LossFilterParts
  import opened LossFilterSpec

  class LossFilter {
    /** The transcendental functions the design uses. */
    const math: MathLib
    var fs: real
    var onOff: bool
    const fir0: StereoFIR
    const fir1: StereoFIR
    const bump0: StereoBiquad
    const bump1: StereoBiquad
    var activeFilterIdx: int
    var fadeCounter: int
    var triggerFade: bool
    var pSpeed: real
    var pSpacing: real
    var pThickness: real
    var pGap: real
    const hCoefs: array<real>
    const computedFir: array<real>

    ghost function Repr(): set<object>
    {
      {this, hCoefs, computedFir} + fir0.Repr() + fir1.Repr() + bump0.Repr() + bump1.Repr()
    }

    /** Ownership and shape: the four sub-filters and the two scratch arrays are
        separate objects. */
    ghost predicate SlotsWf()
      reads fir0, fir1, bump0, bump1, fir0.coeffs, fir0.stateL, fir0.stateR, fir1.coeffs, fir1.stateL, fir1.stateR
    {
      fir0.Valid() && fir1.Valid() && bump0.Valid() && bump1.Valid() &&
      fir0 != fir1 && bump0 != bump1 && hCoefs != computedFir &&
      Outside(fir1.coeffs, fir0) && Outside(fir1.stateL, fir0) && Outside(fir1.stateR, fir0) &&
      Outside(hCoefs, fir0) && Outside(hCoefs, fir1) && Outside(computedFir, fir0) && Outside(computedFir, fir1) &&
      hCoefs.Length == LossFirOrder && computedFir.Length == LossFirOrder
    }

    /** SlotsWf, and the bookkeeping is in range. */
    ghost predicate Wf()
      reads this, fir0, fir1, bump0, bump1, fir0.coeffs, fir0.stateL, fir0.stateR, fir1.coeffs, fir1.stateL, fir1.stateR
    {
      SlotsWf() && FadeState().Valid()
    }

    /** Wf, and while a fade runs both FIR slots share their rings and head. */
    ghost predicate Valid()
      reads this, fir0, fir1, bump0, bump1, fir0.coeffs, fir0.stateL, fir0.stateR, fir1.coeffs, fir1.stateL, fir1.stateR
    {
      Wf() && Snap().Valid() && Synced(Snap())
    }

    /** Both slots and the crossfade bookkeeping. */
    ghost function Snap(): LossSnap
      reads this, fir0, fir1, bump0, bump1
    {
      LossSnap(fir0.Snap(), fir1.Snap(), bump0.Snap(), bump1.Snap(),
               Fade(activeFilterIdx, fadeCounter, triggerFade))
    }

    ghost function FadeState(): Fade
      reads this
    {
      Fade(activeFilterIdx, fadeCounter, triggerFade)
    }

    /** The stored parameters p_speed, p_spacing, p_thickness, p_gap. */
    function Params(): LossParams
      reads this
    {
      LossParams(pSpeed, pSpacing, pThickness, pGap)
    }

    /** The objects the audio path writes: FIR rings and heads, biquad histories. */
    ghost function AudioState(): set<object>
    {
      {fir0, fir0.stateL, fir0.stateR, fir1, fir1.stateL, fir1.stateR, bump0, bump1}
    }

    function Fir(i: int): StereoFIR
    {
      if i == 0 then fir0 else fir1
    }

    function Bump(i: int): StereoBiquad
    {
      if i == 0 then bump0 else bump1
    }

    /** fs 48000, on, slot 0 active, no fade, stored parameters zero; the biquads and
        the design scratch arrays are left unspecified, the FIRs are zeroed. */
    constructor (math: MathLib)
      ensures Valid()
      ensures this.math == math && fs == 48000.0 && onOff
      ensures FadeState() == Fade(0, 0, false) && Params() == LossParams(0.0, 0.0, 0.0, 0.0)
      ensures fir0.Snap() == fir1.Snap() == FirSnap(Zeros(LossFirOrder), Zeros(LossFirOrder), Zeros(LossFirOrder), 0)
    {
      this.math := math;
      fs := 48000.0;
      onOff := true;
      hCoefs := new real[LossFirOrder];
      computedFir := new real[LossFirOrder];
      bump0 := new StereoBiquad();
      bump1 := new StereoBiquad();
      var f0 := new StereoFIR();
      var f1 := new StereoFIR();
      fir0, fir1 := f0, f1;
      activeFilterIdx := 0;
      fadeCounter := 0;
      triggerFade := false;
      pSpeed, pSpacing, pThickness, pGap := 0.0, 0.0, 0.0, 0.0;
      new;
      assert Wf();
      assert Synced(Snap());
    }

    /** The FIR delay is half its order while the stage is on. */
    function GetLatencySamples(): (r: real)
      reads this
      ensures onOff ==> r == LossFirOrder as real / 2.0
      ensures !onOff ==> r == 0.0
    {
      if onOff then LossFirOrder as real / 2.0 else 0.0
    }

    /** calcHeadBumpCoeffs into the biquad of slot `target`, using the current
        sample rate; histories, the other slot and the FIRs stay. */
    method CalcHeadBumpCoeffs(speedIps: real, gapMeters: real, target: int)
      requires Valid() && (target == 0 || target == 1)
      modifies Bump(target)
      ensures Valid()
      ensures Snap() == old(Snap()).WithBump(target, WithCoeffs(old(Snap()).Bump(target), HeadBump(math, fs, speedIps, gapMeters)))
    {
      var c := HeadBump(math, fs, speedIps, gapMeters);
      Bump(target).SetCoeffs(c.b0, c.b1, c.b2, c.a1, c.a2);
    }

    /** calcFirCoeffs: the loss response into Hcoefs, its inverse DFT into computedFir,
        and computedFir into slot `target`; the other slot and all states stay. */
    method CalcFirCoeffs(target: int, p: LossParams)
      requires Valid() && (target == 0 || target == 1)
      modifies hCoefs, computedFir, Fir(target), Fir(target).coeffs
      ensures Valid()
      ensures hCoefs[..] == LossResponse(math, fs, p)
      ensures computedFir[..] == FirTaps(math, hCoefs[..], old(computedFir[0]))
      ensures Snap() == old(Snap()).WithFir(target, old(Snap()).Fir(target).(coeffs := computedFir[..]))
    {
      ghost var s := Snap();
      DesignResponse(p);
      InverseDft();
      assert Snap() == s;
      Fir(target).SetCoefficients(computedFir[..]);
    }

    /** Step 1 of calcFirCoeffs: bins 0..34 of the loss response, mirrored into Hcoefs. */
    method DesignResponse(p: LossParams)
      requires hCoefs.Length == LossFirOrder
      modifies hCoefs
      ensures hCoefs[..] == LossResponse(math, fs, p)
    {
      for k := 0 to LossFirOrder / 2
        invariant forall j :: 0 <= j < k ==>
          hCoefs[j] == LossBin(math, fs, p, j) && hCoefs[LossFirOrder - 1 - j] == LossBin(math, fs, p, j)
      {
        var val := LossBin(math, fs, p, k);
        hCoefs[k] := val;
        hCoefs[LossFirOrder - k - 1] := val;
      }
      ghost var h := LossResponse(math, fs, p);
      forall i | 0 <= i < LossFirOrder
        ensures hCoefs[i] == h[i]
      {
        if i >= LossFirOrder / 2 {
          assert hCoefs[LossFirOrder - 1 - (LossFirOrder - 1 - i)] == LossBin(math, fs, p, LossFirOrder - 1 - i);
        }
      }
    }

    /** Step 2 of calcFirCoeffs: the inverse DFT of Hcoefs written symmetrically about
        tap 35 (taps 1..69; tap 0 is never written). */
    method InverseDft()
      requires hCoefs.Length == LossFirOrder && computedFir.Length == LossFirOrder && hCoefs != computedFir
      modifies computedFir
      ensures computedFir[..] == FirTaps(math, hCoefs[..], old(computedFir[0]))
    {
      ghost var h, c0 := hCoefs[..], computedFir[0];
      for n := 0 to LossFirOrder / 2
        invariant hCoefs[..] == h && computedFir[0] == c0
        invariant forall j :: LossFirOrder / 2 - n < j < LossFirOrder / 2 + n ==> computedFir[j] == TapValue(math, h, c0, j)
      {
        var val := IdftValue(n);
        computedFir[LossFirOrder / 2 + n] := val;
        computedFir[LossFirOrder / 2 - n] := val;
      }
      assert computedFir[..] == FirTaps(math, h, c0);
    }

    /** The inner loop of step 2: impulse-response value n. */
    method IdftValue(n: int) returns (val: real)
      requires hCoefs.Length == LossFirOrder
      ensures val == IdftTap(math, hCoefs[..], n)
    {
      var sum := 0.0;
      for k := 0 to LossFirOrder
        invariant sum == IdftSum(math, hCoefs[..], n, k)
      {
        sum := sum + hCoefs[k] * math.cos(IdftAngle(k, n));
      }
      val := sum / LossFirOrder as real;
    }

    /** setParameters: an update within 0.01 of the stored values in every input is
        ignored; otherwise it is stored, and, unless a fade is pending or running,
        designed into the back slot (FIR taps and head bump) and the fade triggered.
        The active slot is never touched. */
    method SetParameters(speed: real, spacing: real, thickness: real, gap: real)
      requires Valid()
      modifies this`pSpeed, this`pSpacing, this`pThickness, this`pGap, this`triggerFade,
        hCoefs, computedFir, fir0, fir0.coeffs, fir1, fir1.coeffs, bump0, bump1
      ensures Valid()
      ensures var p := LossParams(speed, spacing, thickness, gap);
        (FadeState(), Params()) == UpdateCtl(old(FadeState()), old(Params()), p)
      ensures var p := LossParams(speed, spacing, thickness, gap);
        var f := old(FadeState());
        if Classify(f, old(Params()), p) == Accepted then
          hCoefs[..] == LossResponse(math, fs, p) &&
          computedFir[..] == FirTaps(math, hCoefs[..], old(computedFir[0])) &&
          Snap() == old(Snap()).Load(f.Back(), computedFir[..], HeadBump(math, fs, p.speed, p.gap * 0.000001))
                               .(fade := f.(triggerFade := true))
        else
          Snap() == old(Snap()) && hCoefs[..] == old(hCoefs[..]) && computedFir[..] == old(computedFir[..])
    {
      var p := LossParams(speed, spacing, thickness, gap);
      ghost var f, q := FadeState(), Params();
      if Unchanged(p, Params()) {
        assert Classify(f, q, p) == Ignored;
        return;
      }
      assert Classify(f, q, p) == if f.fadeCounter > 0 || f.triggerFade then Dropped else Accepted;
      ApplyUpdate(p);
    }

    /** setParameters after the no-op check: store, then drop the update while a fade
        is pending or running, or else design it into the back slot. */
    method ApplyUpdate(p: LossParams)
      requires Valid()
      modifies this`pSpeed, this`pSpacing, this`pThickness, this`pGap, this`triggerFade,
        hCoefs, computedFir, fir0, fir0.coeffs, fir1, fir1.coeffs, bump0, bump1
      ensures Valid() && Params() == p
      ensures var f := old(FadeState());
        if f.fadeCounter > 0 || f.triggerFade then
          Snap() == old(Snap()) && hCoefs[..] == old(hCoefs[..]) && computedFir[..] == old(computedFir[..])
        else
          hCoefs[..] == LossResponse(math, fs, p) &&
          computedFir[..] == FirTaps(math, hCoefs[..], old(computedFir[0])) &&
          Snap() == old(Snap()).Load(f.Back(), computedFir[..], HeadBump(math, fs, p.speed, p.gap * 0.000001))
                               .(fade := f.(triggerFade := true))
    {
      StoreParams(p);
      if fadeCounter > 0 || triggerFade {
        return;
      }
      DesignBack(p);
    }

    /** The accepted branch of setParameters: steps 1 to 4 (design into the back
        slot, then request the fade). */
    method DesignBack(p: LossParams)
      requires Valid()
      modifies this`triggerFade, hCoefs, computedFir, fir0, fir0.coeffs, fir1, fir1.coeffs, bump0, bump1
      ensures Valid()
      ensures var b := old(FadeState()).Back();
        hCoefs[..] == LossResponse(math, fs, p) &&
        computedFir[..] == FirTaps(math, hCoefs[..], old(computedFir[0])) &&
        Snap() == old(Snap()).Load(b, computedFir[..], HeadBump(math, fs, p.speed, p.gap * 0.000001))
                             .(fade := old(FadeState()).(triggerFade := true))
    {
      var backIdx := if activeFilterIdx == 0 then 1 else 0;
      CalcFirCoeffs(backIdx, p);
      CalcHeadBumpCoeffs(p.speed, p.gap * 0.000001, backIdx);
      SetTrigger(true);
    }

    /** Records the parameters of an accepted or dropped update. */
    method StoreParams(p: LossParams)
      requires Valid()
      modifies this`pSpeed, this`pSpacing, this`pThickness, this`pGap
      ensures Valid() && Snap() == old(Snap()) && FadeState() == old(FadeState()) && Params() == p
    {
      pSpeed, pSpacing, pThickness, pGap := p.speed, p.spacing, p.thickness, p.gap;
    }

    /** Sets or clears the fade request. */
    method SetTrigger(b: bool)
      requires Valid()
      modifies this`triggerFade
      ensures Valid() && Snap() == old(Snap()).(fade := old(FadeState()).(triggerFade := b))
    {
      triggerFade := b;
    }

    /** prepare: store the sample rate, zero both slots, run the default update
        (15 ips, 0.5 um spacing, thickness and gap), then force computedFir and the
        default head bump into the active slot at once and cancel the fade trigger.
        A fade already running is not cancelled. */
    method Prepare(sampleRate: real)
      requires Valid()
      modifies this`fs, this`pSpeed, this`pSpacing, this`pThickness, this`pGap, this`triggerFade,
        hCoefs, computedFir, fir0, fir0.coeffs, fir0.stateL, fir0.stateR,
        fir1, fir1.coeffs, fir1.stateL, fir1.stateR, bump0, bump1
      ensures Valid()
      ensures fs == sampleRate && !triggerFade
      ensures activeFilterIdx == old(activeFilterIdx) && fadeCounter == old(fadeCounter)
      ensures Params() == UpdateCtl(old(FadeState()), old(Params()), DefaultParams()).1
      ensures var a := activeFilterIdx;
        Snap().Fir(a) == FirSnap(computedFir[..], Zeros(LossFirOrder), Zeros(LossFirOrder), 0) &&
        Snap().Bump(a) == WithCoeffs(ZeroBiquad(), HeadBump(math, sampleRate, 15.0, 0.5 * 0.000001))
      ensures Classify(old(FadeState()), old(Params()), DefaultParams()) == Accepted ==>
        var b := FadeState().Back();
        computedFir[..] == FirTaps(math, LossResponse(math, sampleRate, DefaultParams()), old(computedFir[0])) &&
        Snap().Fir(b) == FirSnap(computedFir[..], Zeros(LossFirOrder), Zeros(LossFirOrder), 0) &&
        Snap().Bump(b) == WithCoeffs(ZeroBiquad(), HeadBump(math, sampleRate, 15.0, 0.5 * 0.000001))
      ensures Classify(old(FadeState()), old(Params()), DefaultParams()) != Accepted ==>
        computedFir[..] == old(computedFir[..]) &&
        Snap().Fir(FadeState().Back()) == FirSnap(Zeros(LossFirOrder), Zeros(LossFirOrder), Zeros(LossFirOrder), 0) &&
        Snap().Bump(FadeState().Back()) == ZeroBiquad()
    {
      ResetAll(sampleRate);
      SetParameters(15.0, 0.5, 0.5, 0.5);
      ForceActive();
    }

    /** The last part of prepare: computedFir and the default head bump straight into
        the active slot, and no fade request. */
    method ForceActive()
      requires Valid()
      modifies this`triggerFade, fir0, fir0.coeffs, fir1, fir1.coeffs, bump0, bump1
      ensures Valid()
      ensures var a := old(activeFilterIdx);
        Snap() == old(Snap()).Load(a, computedFir[..], HeadBump(math, fs, 15.0, 0.5 * 0.000001))
                             .(fade := old(FadeState()).(triggerFade := false))
    {
      var a := activeFilterIdx;
      LoadTaps(a);
      CalcHeadBumpCoeffs(15.0, 0.5 * 0.000001, a);
      SetTrigger(false);
    }

    /** The first part of prepare: the sample rate, then both slots reset. */
    method ResetAll(sampleRate: real)
      requires Valid()
      modifies this`fs, fir0, fir0.coeffs, fir0.stateL, fir0.stateR, fir1, fir1.coeffs, fir1.stateL, fir1.stateR, bump0, bump1
      ensures Valid() && fs == sampleRate
      ensures Snap() == LossSnap(ZeroFir(), ZeroFir(), ZeroBiquad(), ZeroBiquad(), old(FadeState()))
    {
      fs := sampleRate;
      fir0.Reset();
      bump0.Reset();
      fir1.Reset();
      bump1.Reset();
    }

    /** setCoefficients(computedFir) on the FIR of slot `target`. */
    method LoadTaps(target: int)
      requires Valid() && (target == 0 || target == 1)
      modifies Fir(target), Fir(target).coeffs
      ensures Valid()
      ensures Snap() == old(Snap()).WithFir(target, old(Snap()).Fir(target).(coeffs := computedFir[..]))
    {
      Fir(target).SetCoefficients(computedFir[..]);
    }

    /** processBlock: nothing at all while off; otherwise a pending trigger starts the
        fade (synchronising the back slot), then every sample goes through LossSample. */
    method ProcessBlock(inL: array<real>, inR: array<real>, outL: array<real>, outR: array<real>, blockSize: int)
      requires Valid()
      requires 0 <= blockSize <= inL.Length && blockSize <= inR.Length
      requires blockSize <= outL.Length && blockSize <= outR.Length
      requires outL != outR && Foreign(inL) && Foreign(inR) && Foreign(outL) && Foreign(outR)
      modifies this`activeFilterIdx, this`fadeCounter, this`triggerFade, AudioState(), outL, outR
      ensures Valid()
      ensures !old(onOff) ==> Snap() == old(Snap())
      ensures !old(onOff) ==> outL[..] == old(outL[..]) && outR[..] == old(outR[..])
      ensures old(onOff) ==>
        (Snap(), outL[..blockSize], outR[..blockSize]) ==
          LossRun(StartFade(old(Snap())), old(inL[..blockSize]), old(inR[..blockSize]))
      ensures forall j :: blockSize <= j < outL.Length ==> outL[j] == old(outL[j])
      ensures forall j :: blockSize <= j < outR.Length ==> outR[j] == old(outR[j])
    {
      if !onOff {
        return;
      }
      ghost var s0 := StartFade(Snap());
      ghost var inL0, inR0 := inL[..blockSize], inR[..blockSize];
      ghost var outL0, outR0 := outL[..], outR[..];
      if triggerFade && fadeCounter == 0 {
        StartFadeNow();
      }
      assert Snap() == s0 && inL[..blockSize] == inL0 && inR[..blockSize] == inR0;
      assert outL[..] == outL0 && outR[..] == outR0;
      RunSamples(inL, inR, outL, outR, blockSize);
    }

    /** The sample loop of processBlock. */
    method RunSamples(inL: array<real>, inR: array<real>, outL: array<real>, outR: array<real>, blockSize: int)
      requires Valid()
      requires 0 <= blockSize <= inL.Length && blockSize <= inR.Length
      requires blockSize <= outL.Length && blockSize <= outR.Length
      requires outL != outR && Foreign(inL) && Foreign(inR) && Foreign(outL) && Foreign(outR)
      modifies this`activeFilterIdx, this`fadeCounter, AudioState(), outL, outR
      ensures Valid()
      ensures (Snap(), outL[..blockSize], outR[..blockSize]) ==
        LossRun(old(Snap()), old(inL[..blockSize]), old(inR[..blockSize]))
      ensures forall j :: blockSize <= j < outL.Length ==> outL[j] == old(outL[j])
      ensures forall j :: blockSize <= j < outR.Length ==> outR[j] == old(outR[j])
    {
      ghost var s0 := Snap();
      ghost var xsL := inL[..blockSize];
      ghost var xsR := inR[..blockSize];
      for i := 0 to blockSize
        invariant Valid()
        invariant forall j :: i <= j < blockSize ==> inL[j] == xsL[j] && inR[j] == xsR[j]
        invariant (Snap(), outL[..i], outR[..i]) == LossRun(s0, xsL[..i], xsR[..i])
        invariant forall j :: blockSize <= j < outL.Length ==> outL[j] == old(outL[j])
        invariant forall j :: blockSize <= j < outR.Length ==> outR[j] == old(outR[j])
      {
        RunStep(inL, inR, outL, outR, i, blockSize, s0, xsL, xsR);
      }
      assert xsL[..blockSize] == xsL && xsR[..blockSize] == xsR;
    }

    /** One pass of the sample loop, stated as the step of its invariant: the run over
        the first i samples becomes the run over the first i + 1. */
    method RunStep(inL: array<real>, inR: array<real>, outL: array<real>, outR: array<real>, i: int, blockSize: int,
                   ghost s0: LossSnap, ghost xsL: seq<real>, ghost xsR: seq<real>)
      requires Valid() && s0.Valid()
      requires 0 <= i < blockSize <= inL.Length && blockSize <= inR.Length
      requires blockSize <= outL.Length && blockSize <= outR.Length
      requires |xsL| == blockSize && |xsR| == blockSize
      requires outL != outR && Foreign(inL) && Foreign(inR) && Foreign(outL) && Foreign(outR)
      requires forall j :: i <= j < blockSize ==> inL[j] == xsL[j] && inR[j] == xsR[j]
      requires (Snap(), outL[..i], outR[..i]) == LossRun(s0, xsL[..i], xsR[..i])
      modifies this`activeFilterIdx, this`fadeCounter, AudioState(), outL, outR
      ensures Valid()
      ensures forall j :: i + 1 <= j < blockSize ==> inL[j] == xsL[j] && inR[j] == xsR[j]
      ensures (Snap(), outL[..i + 1], outR[..i + 1]) == LossRun(s0, xsL[..i + 1], xsR[..i + 1])
      ensures forall j :: 0 <= j < outL.Length && j != i ==> outL[j] == old(outL[j])
      ensures forall j :: 0 <= j < outR.Length && j != i ==> outR[j] == old(outR[j])
    {
      ghost var s1 := Snap();
      ghost var beforeL, beforeR := outL[..i], outR[..i];
      assert inL[i] == xsL[i] && inR[i] == xsR[i];
      ProcessAt(inL, inR, outL, outR, i);
      ArraySnoc(outL, beforeL, i);
      ArraySnoc(outR, beforeR, i);
      RunExtends(s0, xsL, xsR, i, s1, beforeL, beforeR, Snap(), outL[i], outR[i]);
    }

    /** One iteration of the processBlock loop: sample i of the inputs through
        LossSample into sample i of the outputs. */
    method ProcessAt(inL: array<real>, inR: array<real>, outL: array<real>, outR: array<real>, i: int)
      requires Valid()
      requires 0 <= i < inL.Length && i < inR.Length && i < outL.Length && i < outR.Length
      requires outL != outR && Foreign(inL) && Foreign(inR) && Foreign(outL) && Foreign(outR)
      modifies this`activeFilterIdx, this`fadeCounter, AudioState(), outL, outR
      ensures Valid()
      ensures (Snap(), outL[i], outR[i]) == LossSample(old(Snap()), old(inL[i]), old(inR[i]))
      ensures forall j :: 0 <= j < outL.Length && j != i ==> outL[j] == old(outL[j])
      ensures forall j :: 0 <= j < outR.Length && j != i ==> outR[j] == old(outR[j])
      ensures forall j :: 0 <= j < inL.Length && j != i ==> inL[j] == old(inL[j])
      ensures forall j :: 0 <= j < inR.Length && j != i ==> inR[j] == old(inR[j])
    {
      var l := inL[i];
      var r := inR[i];
      var yL, yR := ProcessSample(l, r);
      Store(outL, outR, i, yL, yR);
    }

    /** Writes one output sample into each channel; the filter itself is untouched. */
    method Store(outL: array<real>, outR: array<real>, i: int, yL: real, yR: real)
      requires Valid() && 0 <= i < outL.Length && i < outR.Length
      requires outL != outR && Foreign(outL) && Foreign(outR)
      modifies outL, outR
      ensures Valid() && Snap() == old(Snap())
      ensures outL[i] == yL && outR[i] == yR
      ensures forall j :: 0 <= j < outL.Length && j != i ==> outL[j] == old(outL[j])
      ensures forall j :: 0 <= j < outR.Length && j != i ==> outR[j] == old(outR[j])
    {
      outL[i] := yL;
      outR[i] := yR;
    }

    /** An audio buffer of the caller: not part of the filter. */
    ghost predicate Foreign(a: array<real>)
    {
      a != fir0.coeffs && a != fir0.stateL && a != fir0.stateR &&
      a != fir1.coeffs && a != fir1.stateL && a != fir1.stateR &&
      a != hCoefs && a != computedFir
    }

    /** The trigger part of processBlock. */
    method StartFadeNow()
      requires Valid() && triggerFade && fadeCounter == 0
      modifies this`activeFilterIdx, this`fadeCounter, this`triggerFade, AudioState()
      ensures Valid() && Snap() == StartFade(old(Snap()))
    {
      ghost var s := Snap();
      triggerFade := false;
      fadeCounter := LossFadeLen;
      var backIdx := if activeFilterIdx == 0 then 1 else 0;
      Fir(backIdx).CopyStateFrom(Fir(activeFilterIdx));
      ghost var a := activeFilterIdx;
      ghost var bs := Bump(a).Snap();
      assert Bump(a).Repr() !! Bump(backIdx).Repr();
      Bump(backIdx).CopyStateFrom(Bump(activeFilterIdx));
      assert Bump(a).Snap() == bs;
      assert Snap().Fir(a) == s.Fir(a) && Snap().Bump(a) == s.Bump(a);
      assert Snap().Fir(backIdx) == s.Fir(a).(coeffs := s.Fir(backIdx).coeffs);
      assert Snap().Bump(backIdx) == s.Bump(backIdx).(xL := s.Bump(a).xL, yL := s.Bump(a).yL,
                                                      xR := s.Bump(a).xR, yR := s.Bump(a).yR);
    }

    /** The body of the processBlock loop for one stereo sample. */
    method ProcessSample(l: real, r: real) returns (finalL: real, finalR: real)
      requires Valid()
      modifies this`activeFilterIdx, this`fadeCounter, AudioState()
      ensures Valid()
      ensures (Snap(), finalL, finalR) == LossSample(old(Snap()), l, r)
    {
      ghost var s := Snap();
      LossSampleSynced(s, l, r);
      finalL, finalR := ProcessSlot(activeFilterIdx, l, r);
      if fadeCounter > 0 {
        finalL, finalR := FadeTail(l, r, finalL, finalR, s);
      }
    }

    /** The fade part of the processBlock loop body: the back slot on the same input,
        the linear crossfade against the active slot's output, and the countdown. */
    method FadeTail(l: real, r: real, activeL: real, activeR: real, ghost s: LossSnap) returns (finalL: real, finalR: real)
      requires SlotsWf() && s.Valid() && s.fade.fadeCounter > 0 && s.fade == FadeState()
      requires (Snap(), activeL, activeR) == SlotStep(s, s.fade.active, l, r)
      modifies this`activeFilterIdx, this`fadeCounter, AudioState()
      ensures SlotsWf()
      ensures (Snap(), finalL, finalR) == LossSample(s, l, r)
    {
      LossSampleFading(s, l, r);
      ghost var sa := SlotStep(s, s.fade.active, l, r);
      var backIdx := if activeFilterIdx == 0 then 1 else 0;
      ghost var sb := SlotStep(sa.0, s.fade.Back(), l, r);
      var backFinalL, backFinalR := ProcessSlot(backIdx, l, r);
      var gOld := fadeCounter as real / LossFadeLen as real;
      var gNew := 1.0 - gOld;
      assert gOld == FadeGain(s.fade.fadeCounter);
      finalL := Mix(activeL, gOld, backFinalL, gNew);
      finalR := Mix(activeR, gOld, backFinalR, gNew);
      AdvanceFade();
    }

    /** The per-sample bookkeeping of a running fade: count down, swap at zero. */
    method AdvanceFade()
      requires SlotsWf() && FadeState().Valid() && fadeCounter > 0
      modifies this`activeFilterIdx, this`fadeCounter
      ensures SlotsWf() && FadeState() == Tick(old(FadeState()))
      ensures Snap() == old(Snap()).(fade := Tick(old(FadeState())))
    {
      var backIdx := if activeFilterIdx == 0 then 1 else 0;
      fadeCounter := fadeCounter - 1;
      if fadeCounter <= 0 {
        activeFilterIdx := backIdx;
      }
    }

    /** Slot i's FIR then its head bump on one stereo sample. */
    method ProcessSlot(i: int, l: real, r: real) returns (outL: real, outR: real)
      requires SlotsWf() && FadeState().Valid() && (i == 0 || i == 1)
      modifies Fir(i), Fir(i).stateL, Fir(i).stateR, Bump(i)
      ensures SlotsWf()
      ensures (Snap(), outL, outR) == SlotStep(old(Snap()), i, l, r)
    {
      ghost var s := Snap();
      assert Fir(i).Repr() !! Bump(i).Repr() && Fir(i).Repr() !! Fir(1 - i).Repr();
      assert Bump(i).Repr() !! Bump(1 - i).Repr() && Bump(i).Repr() !! Fir(1 - i).Repr();
      var firL, firR := Fir(i).Process(l, r);
      ghost var f := FirStep(s.Fir(i), l, r);
      assert Fir(1 - i).Snap() == s.Fir(1 - i) && Bump(0).Snap() == s.bump0 && Bump(1).Snap() == s.bump1;
      outL, outR := Bump(i).Process(firL, firR);
      ghost var q := BiquadStep(s.Bump(i), f.1, f.2);
      assert Fir(1 - i).Snap() == s.Fir(1 - i) && Fir(i).Snap() == f.0 && Bump(1 - i).Snap() == s.Bump(1 - i);
    }
  }

  /** Array `a` is none of the FIR's three arrays. */
  ghost predicate Outside(a: array<real>, f: StereoFIR)
  {
    a != f.coeffs && a != f.stateL && a != f.stateR
  }

  /** A run of n samples followed by LossSample on sample n is the run of n + 1 samples. */
  lemma RunExtends(s0: LossSnap, xsL: seq<real>, xsR: seq<real>, n: nat, s1: LossSnap, prevL: seq<real>, prevR: seq<real>,
                   s2: LossSnap, yL: real, yR: real)
    requires s0.Valid() && |xsL| == |xsR| && n < |xsL|
    requires (s1, prevL, prevR) == LossRun(s0, xsL[..n], xsR[..n])
    requires (s2, yL, yR) == LossSample(s1, xsL[n], xsR[n])
    ensures (s2, prevL + [yL], prevR + [yR]) == LossRun(s0, xsL[..n + 1], xsR[..n + 1])
  {
    LossRunSnoc(s0, xsL, xsR, n);
  }

  /** Extending an array prefix by one element. */
  lemma ArraySnoc(a: array<real>, prefix: seq<real>, i: int)
    requires 0 <= i < a.Length && |prefix| == i
    requires forall j :: 0 <= j < i ==> a[j] == prefix[j]
    ensures a[..i + 1] == prefix + [a[i]]
  {
  }

  /** The parameters prepare applies. */
  function DefaultParams(): LossParams
  {
    LossParams(15.0, 0.5, 0.5, 0.5)
  }

  /** A FIR after reset. */
  function ZeroFir(): FirSnap
  {
    FirSnap(Zeros(LossFirOrder), Zeros(LossFirOrder), Zeros(LossFirOrder), 0)
  }

  /** A biquad after reset. */
  function ZeroBiquad(): BiquadSnap
  {
    BiquadSnap(0.0, 0.0, 0.0, 0.0, 0.0, [0.0, 0.0], [0.0, 0.0], [0.0, 0.0], [0.0, 0.0])
  }
}
