/** Pure model of the LossFilter stage (src/DaisyLossFilter.cpp): the crossfade
    bookkeeping, the per-sample crossfade between the active and the back slot,
    and the coefficient design. The LossFilter class is proved against it. */
module LossFilterSpec {
  import opened DspMath
  import opened LossFilterParts

  /** Crossfade length in samples. */
  const LossFadeLen: int := 1024

  // ---------------------------------------------------------------------------
  // Crossfade bookkeeping

  /** activeFilterIdx, fadeCounter and triggerFade. */
  datatype Fade = Fade(active: int, fadeCounter: int, triggerFade: bool)
  {
    ghost predicate Valid()
    {
      (active == 0 || active == 1) && 0 <= fadeCounter <= LossFadeLen
    }

    /** The slot that is not playing. */
    function Back(): int
    {
      if active == 0 then 1 else 0
    }
  }

  /** A pending trigger starts a fade at the start of a block, and only when no fade is running. */
  predicate Starts(f: Fade)
  {
    f.triggerFade && f.fadeCounter == 0
  }

  /** Block-start handling of the trigger. */
  function BlockStart(f: Fade): Fade
  {
    if Starts(f) then Fade(f.active, LossFadeLen, false) else f
  }

  /** Per-sample bookkeeping: a running fade counts down and swaps the slots when it reaches zero. */
  function Tick(f: Fade): Fade
  {
    if f.fadeCounter > 0 then
      var c := f.fadeCounter - 1;
      Fade(if c <= 0 then f.Back() else f.active, c, f.triggerFade)
    else f
  }

  /** n per-sample steps. */
  function Ticks(f: Fade, n: nat): Fade
  {
    if n == 0 then f else Tick(Ticks(f, n - 1))
  }

  /** The bookkeeping of one processBlock call of n samples. */
  function BlockCtl(f: Fade, n: nat): Fade
  {
    Ticks(BlockStart(f), n)
  }

  /** Consecutive processBlock calls of the given sizes, with no parameter update in between. */
  function RunBlocks(f: Fade, sizes: seq<nat>): Fade
    decreases |sizes|
  {
    if sizes == [] then f else RunBlocks(BlockCtl(f, sizes[0]), sizes[1..])
  }

  lemma BlockStartValid(f: Fade)
    requires f.Valid()
    ensures BlockStart(f).Valid()
    ensures Starts(f) ==> BlockStart(f).fadeCounter == LossFadeLen && !BlockStart(f).triggerFade
  {
  }

  /** Closed form of n steps: a running fade with counter c counts down by one per
      sample, and the slots swap exactly when the c-th sample has been processed. */
  lemma {:induction false} TicksClosedForm(f: Fade, n: nat)
    requires f.Valid()
    ensures Ticks(f, n).Valid()
    ensures Ticks(f, n) ==
      if f.fadeCounter == 0 then f
      else if n < f.fadeCounter then f.(fadeCounter := f.fadeCounter - n)
      else Fade(f.Back(), 0, f.triggerFade)
  {
    if n > 0 {
      TicksClosedForm(f, n - 1);
    }
  }

  /** Steps compose: how samples are split into calls does not matter. */
  lemma {:induction false} TicksCompose(f: Fade, a: nat, b: nat)
    ensures Ticks(Ticks(f, a), b) == Ticks(f, a + b)
  {
    if b > 0 {
      TicksCompose(f, a, b - 1);
    }
  }

  /** Without a trigger, a run of blocks is the same as one block of their total size. */
  lemma {:induction false} RunBlocksUntriggered(f: Fade, sizes: seq<nat>)
    requires f.Valid() && !f.triggerFade
    ensures RunBlocks(f, sizes) == Ticks(f, SumNat(sizes))
    decreases |sizes|
  {
    if sizes != [] {
      TicksClosedForm(f, sizes[0]);
      RunBlocksUntriggered(Ticks(f, sizes[0]), sizes[1..]);
      TicksCompose(f, sizes[0], SumNat(sizes[1..]));
    }
  }

  /** An accepted update (trigger set, no fade running) takes effect after exactly
      LossFadeLen samples, however they are split into blocks: before that the old
      slot stays active with the counter at LossFadeLen minus the samples seen; from
      then on the other slot is active, and the slots have swapped exactly once. */
  lemma FadeTakesEffect(f: Fade, sizes: seq<nat>)
    requires f.Valid() && Starts(f) && sizes != []
    ensures RunBlocks(f, sizes) ==
      if SumNat(sizes) < LossFadeLen then Fade(f.active, LossFadeLen - SumNat(sizes), false)
      else Fade(f.Back(), 0, false)
  {
    var g := BlockStart(f);
    BlockStartValid(f);
    assert sizes == [sizes[0]] + sizes[1..];
    SumNatAppend([sizes[0]], sizes[1..]);
    TicksClosedForm(g, sizes[0]);
    RunBlocksUntriggered(Ticks(g, sizes[0]), sizes[1..]);
    TicksCompose(g, sizes[0], SumNat(sizes[1..]));
    TicksClosedForm(g, SumNat(sizes));
  }

  /** The crossfade weight of the slot fading out. */
  function FadeGain(counter: int): (g: real)
    requires 0 < counter <= LossFadeLen
    ensures 0.0 < g <= 1.0
    ensures g * LossFadeLen as real == counter as real
  {
    counter as real / LossFadeLen as real
  }

  // ---------------------------------------------------------------------------
  // Parameter updates

  /** p_speed, p_spacing, p_thickness, p_gap. */
  datatype LossParams = LossParams(speed: real, spacing: real, thickness: real, gap: real)

  /** All four inputs within 0.01 of the stored values. */
  predicate Unchanged(p: LossParams, stored: LossParams)
  {
    Abs(p.speed - stored.speed) < 0.01 && Abs(p.spacing - stored.spacing) < 0.01 &&
    Abs(p.thickness - stored.thickness) < 0.01 && Abs(p.gap - stored.gap) < 0.01
  }

  /** What setParameters does with an update. */
  datatype Outcome = Ignored | Dropped | Accepted

  /** Ignored: no change; Dropped: stored but a fade is pending or running;
      Accepted: designed into the back slot and the fade triggered. */
  function Classify(f: Fade, stored: LossParams, p: LossParams): Outcome
  {
    if Unchanged(p, stored) then Ignored
    else if f.fadeCounter > 0 || f.triggerFade then Dropped
    else Accepted
  }

  /** The bookkeeping after setParameters. */
  function UpdateCtl(f: Fade, stored: LossParams, p: LossParams): (Fade, LossParams)
  {
    match Classify(f, stored, p)
    case Ignored => (f, stored)
    case Dropped => (f, p)
    case Accepted => (f.(triggerFade := true), p)
  }

  /** The number of updates accepted by a run of setParameters calls. */
  function AcceptedCount(f: Fade, stored: LossParams, ps: seq<LossParams>): nat
    decreases |ps|
  {
    if ps == [] then 0
    else
      var next := UpdateCtl(f, stored, ps[0]);
      (if Classify(f, stored, ps[0]) == Accepted then 1 else 0) + AcceptedCount(next.0, next.1, ps[1..])
  }

  /** Between two audio blocks at most one update is accepted, and none while a fade
      is pending or running: later updates are dropped, not queued. */
  lemma {:induction false} AtMostOneUpdatePerFade(f: Fade, stored: LossParams, ps: seq<LossParams>)
    ensures AcceptedCount(f, stored, ps) <= 1
    ensures (f.fadeCounter > 0 || f.triggerFade) ==> AcceptedCount(f, stored, ps) == 0
    decreases |ps|
  {
    if ps != [] {
      var next := UpdateCtl(f, stored, ps[0]);
      AtMostOneUpdatePerFade(next.0, next.1, ps[1..]);
    }
  }

  /** A dropped update is remembered as the stored parameters, so the same values
      sent again later (after the fade) are ignored rather than applied. */
  lemma DroppedUpdateIsForgotten(f: Fade, stored: LossParams, p: LossParams, later: Fade)
    requires Classify(f, stored, p) == Dropped
    ensures UpdateCtl(f, stored, p).1 == p
    ensures Classify(later, UpdateCtl(f, stored, p).1, p) == Ignored
  {
  }

  // ---------------------------------------------------------------------------
  // The two slots and the per-sample crossfade

  /** Both slots and the bookkeeping. */
  datatype LossSnap = LossSnap(fir0: FirSnap, fir1: FirSnap, bump0: BiquadSnap, bump1: BiquadSnap, fade: Fade)
  {
    ghost predicate Valid()
    {
      fir0.Valid() && fir1.Valid() && bump0.Valid() && bump1.Valid() && fade.Valid()
    }

    function Fir(i: int): FirSnap
    {
      if i == 0 then fir0 else fir1
    }

    function Bump(i: int): BiquadSnap
    {
      if i == 0 then bump0 else bump1
    }

    function WithFir(i: int, f: FirSnap): LossSnap
    {
      if i == 0 then this.(fir0 := f) else this.(fir1 := f)
    }

    function WithBump(i: int, b: BiquadSnap): LossSnap
    {
      if i == 0 then this.(bump0 := b) else this.(bump1 := b)
    }

    /** Slot i with new FIR taps and new head-bump coefficients; its ring, head and
        biquad histories stay. */
    function Load(i: int, taps: seq<real>, c: BiquadCoeffs): LossSnap
    {
      WithFir(i, Fir(i).(coeffs := taps)).WithBump(i, WithCoeffs(Bump(i), c))
    }
  }

  /** While a fade runs, both FIR slots hold the same ring contents and head, so
      they differ in their taps only. */
  ghost predicate Synced(s: LossSnap)
  {
    s.fade.fadeCounter > 0 ==>
      s.fir0.stateL == s.fir1.stateL && s.fir0.stateR == s.fir1.stateR && s.fir0.head == s.fir1.head
  }

  /** Start of processBlock: a pending trigger starts the fade and copies the FIR
      rings and head and the biquad histories of the active slot into the back slot. */
  function StartFade(s: LossSnap): (r: LossSnap)
    requires s.Valid()
    ensures r.Valid() && r.fade == BlockStart(s.fade)
  {
    if Starts(s.fade) then
      var a, b := s.fade.active, s.fade.Back();
      var fb := s.Fir(a).(coeffs := s.Fir(b).coeffs);
      var bb := s.Bump(b).(xL := s.Bump(a).xL, yL := s.Bump(a).yL, xR := s.Bump(a).xR, yR := s.Bump(a).yR);
      s.WithFir(b, fb).WithBump(b, bb).(fade := BlockStart(s.fade))
    else s
  }

  /** One slot, its FIR then its head bump, on one stereo sample. */
  function SlotStep(s: LossSnap, i: int, l: real, r: real): (res: (LossSnap, real, real))
    requires s.Valid() && (i == 0 || i == 1)
    ensures res.0.Valid() && res.0.fade == s.fade
    ensures res.0.Fir(1 - i) == s.Fir(1 - i) && res.0.Bump(1 - i) == s.Bump(1 - i)
    ensures res.0.Fir(i).coeffs == s.Fir(i).coeffs
  {
    var f := FirStep(s.Fir(i), l, r);
    var q := BiquadStep(s.Bump(i), f.1, f.2);
    (s.WithFir(i, f.0).WithBump(i, q.0), q.1, q.2)
  }

  /** The crossfade of two outputs with their gains. */
  function Mix(x: real, gx: real, y: real, gy: real): real
  {
    x * gx + y * gy
  }

  /** One sample of processBlock: the active slot; during a fade the back slot runs
      on the same input and the two are mixed with opposed linear weights. */
  function LossSample(s: LossSnap, l: real, r: real): (res: (LossSnap, real, real))
    requires s.Valid()
    ensures res.0.Valid() && res.0.fade == Tick(s.fade)
  {
    var sa := SlotStep(s, s.fade.active, l, r);
    if s.fade.fadeCounter > 0 then
      var sb := SlotStep(sa.0, s.fade.Back(), l, r);
      var gOld := FadeGain(s.fade.fadeCounter);
      var gNew := 1.0 - gOld;
      (sb.0.(fade := Tick(s.fade)), Mix(sa.1, gOld, sb.1, gNew), Mix(sa.2, gOld, sb.2, gNew))
    else
      sa
  }

  /** LossSample during a fade, unfolded into its two slot steps and the mix. */
  lemma LossSampleFading(s: LossSnap, l: real, r: real)
    requires s.Valid() && s.fade.fadeCounter > 0
    ensures var sa := SlotStep(s, s.fade.active, l, r);
      var sb := SlotStep(sa.0, s.fade.Back(), l, r);
      var g := FadeGain(s.fade.fadeCounter);
      && LossSample(s, l, r).0 == sb.0.(fade := Tick(s.fade))
      && LossSample(s, l, r).1 == Mix(sa.1, g, sb.1, 1.0 - g)
      && LossSample(s, l, r).2 == Mix(sa.2, g, sb.2, 1.0 - g)
  {
  }

  /** A stereo sequence, one LossSample per sample. */
  function LossRun(s: LossSnap, xsL: seq<real>, xsR: seq<real>): (r: (LossSnap, seq<real>, seq<real>))
    requires s.Valid() && |xsL| == |xsR|
    ensures r.0.Valid() && |r.1| == |xsL| && |r.2| == |xsL|
    decreases |xsL|
  {
    if xsL == [] then (s, [], [])
    else
      var n := |xsL| - 1;
      var prev := LossRun(s, xsL[..n], xsR[..n]);
      var step := LossSample(prev.0, xsL[n], xsR[n]);
      (step.0, prev.1 + [step.1], prev.2 + [step.2])
  }

  /** A run over the first n + 1 samples extends the run over the first n by one LossSample. */
  lemma LossRunSnoc(s: LossSnap, xsL: seq<real>, xsR: seq<real>, n: nat)
    requires s.Valid() && |xsL| == |xsR| && n < |xsL|
    ensures var prev := LossRun(s, xsL[..n], xsR[..n]);
      var step := LossSample(prev.0, xsL[n], xsR[n]);
      LossRun(s, xsL[..n + 1], xsR[..n + 1]) == (step.0, prev.1 + [step.1], prev.2 + [step.2])
  {
    assert xsL[..n + 1][..n] == xsL[..n] && xsR[..n + 1][..n] == xsR[..n];
  }

  /** The audio path does not influence the bookkeeping: a run of n samples moves
      the fade exactly as n Ticks do. */
  lemma {:induction false} LossRunFade(s: LossSnap, xsL: seq<real>, xsR: seq<real>)
    requires s.Valid() && |xsL| == |xsR|
    ensures LossRun(s, xsL, xsR).0.fade == Ticks(s.fade, |xsL|)
    decreases |xsL|
  {
    if xsL != [] {
      var n := |xsL| - 1;
      LossRunFade(s, xsL[..n], xsR[..n]);
    }
  }

  /** Starting a fade synchronises the slots, and processing keeps them synchronised
      for as long as the fade runs. */
  lemma StartFadeSyncs(s: LossSnap)
    requires s.Valid() && Synced(s)
    ensures Synced(StartFade(s))
  {
  }

  lemma LossSampleSynced(s: LossSnap, l: real, r: real)
    requires s.Valid() && Synced(s)
    ensures Synced(LossSample(s, l, r).0)
  {
  }

  lemma {:induction false} LossRunSynced(s: LossSnap, xsL: seq<real>, xsR: seq<real>)
    requires s.Valid() && Synced(s) && |xsL| == |xsR|
    ensures Synced(LossRun(s, xsL, xsR).0)
    decreases |xsL|
  {
    if xsL != [] {
      var n := |xsL| - 1;
      LossRunSynced(s, xsL[..n], xsR[..n]);
      var prev := LossRun(s, xsL[..n], xsR[..n]);
      LossSampleSynced(prev.0, xsL[n], xsR[n]);
    }
  }

  /** Without a running fade a sample goes through the active slot alone; the back
      slot is untouched and not heard. */
  lemma SampleWithoutFade(s: LossSnap, l: real, r: real)
    requires s.Valid() && s.fade.fadeCounter == 0
    ensures LossSample(s, l, r) == SlotStep(s, s.fade.active, l, r)
    ensures LossSample(s, l, r).0.Fir(s.fade.Back()) == s.Fir(s.fade.Back())
    ensures LossSample(s, l, r).0.Bump(s.fade.Back()) == s.Bump(s.fade.Back())
  {
  }

  // ---------------------------------------------------------------------------
  // Coefficient design (the transcendental values are uninterpreted)

  /** The loss magnitude of bin k (0 <= k < LossFirOrder / 2): spacing loss times
      thickness loss times gap loss, each sinc-like term skipped near its singularity. */
  function LossBin(m: MathLib, fs: real, p: LossParams, k: int): real
  {
    var binWidth := fs / LossFirOrder as real;
    var freq := k as real * binWidth;
    var waveNumber := Div(2.0 * Pi * Max(freq, 20.0), p.speed * 0.0254);
    var thickTimesK := waveNumber * (p.thickness * 0.000001);
    var kGapOverTwo := waveNumber * (p.gap * 0.000001) / 2.0;
    var spacingLoss := m.exp(-waveNumber * (p.spacing * 0.000001));
    var withThickness :=
      if Abs(thickTimesK) > 0.00001 then spacingLoss * ((1.0 - m.exp(-thickTimesK)) / thickTimesK)
      else spacingLoss;
    if Abs(kGapOverTwo) > 0.00001 then withThickness * (m.sin(kGapOverTwo) / kGapOverTwo)
    else withThickness
  }

  /** Hcoefs: the first half of the bins, mirrored. */
  function LossResponse(m: MathLib, fs: real, p: LossParams): (h: seq<real>)
    ensures |h| == LossFirOrder
    ensures forall k :: 0 <= k < LossFirOrder ==> h[k] == h[LossFirOrder - 1 - k]
  {
    seq(LossFirOrder, k requires 0 <= k < LossFirOrder =>
      LossBin(m, fs, p, if k < LossFirOrder / 2 then k else LossFirOrder - 1 - k))
  }

  /** The cosine argument of term (k, n) of the inverse DFT. */
  function IdftAngle(k: int, n: int): real
  {
    2.0 * Pi * k as real * n as real / LossFirOrder as real
  }

  /** The first `count` terms of the inverse-DFT sum for output index n. */
  function IdftSum(m: MathLib, h: seq<real>, n: int, count: nat): real
    requires count <= |h|
  {
    if count == 0 then 0.0
    else IdftSum(m, h, n, count - 1) + h[count - 1] * m.cos(IdftAngle(count - 1, n))
  }

  /** Impulse-response value n of the inverse DFT. */
  function IdftTap(m: MathLib, h: seq<real>, n: int): real
    requires |h| == LossFirOrder
  {
    IdftSum(m, h, n, LossFirOrder) / LossFirOrder as real
  }

  /** Tap j of computedFir after calcFirCoeffs: inverse-DFT value |j - 35| for
      j >= 1; tap 0 is never written and keeps `tap0`. */
  function TapValue(m: MathLib, h: seq<real>, tap0: real, j: int): real
    requires |h| == LossFirOrder
  {
    if j == 0 then tap0
    else IdftTap(m, h, if j >= LossFirOrder / 2 then j - LossFirOrder / 2 else LossFirOrder / 2 - j)
  }

  /** computedFir after calcFirCoeffs. */
  function FirTaps(m: MathLib, h: seq<real>, tap0: real): (t: seq<real>)
    requires |h| == LossFirOrder
    ensures |t| == LossFirOrder && t[0] == tap0
  {
    seq(LossFirOrder, j => TapValue(m, h, tap0, j))
  }

  /** The designed impulse response is symmetric about tap 35 (linear phase). */
  lemma FirTapsSymmetric(m: MathLib, h: seq<real>, tap0: real, n: int)
    requires |h| == LossFirOrder && 0 <= n < LossFirOrder / 2
    ensures FirTaps(m, h, tap0)[LossFirOrder / 2 + n] == FirTaps(m, h, tap0)[LossFirOrder / 2 - n]
  {
  }

  /** Normalised biquad coefficients b0, b1, b2, a1, a2. */
  datatype BiquadCoeffs = BiquadCoeffs(b0: real, b1: real, b2: real, a1: real, a2: real)

  /** The head-bump frequency: tape speed (in/s, as m/s) over 500 gap lengths. */
  function BumpFreq(speedIps: real, gapMeters: real): real
  {
    Div(speedIps * 0.0254, gapMeters * 500.0)
  }

  /** The head-bump peak gain: 1.5 at 100 Hz, falling linearly with the distance
      from 100 Hz, and flat at 1 from 1000/3 Hz away on. */
  function BumpGain(bumpFreq: real): (g: real)
    ensures 1.0 <= g <= 1.5
    ensures bumpFreq == 100.0 ==> g == 1.5
    ensures g == 1.0 <==> Abs(bumpFreq - 100.0) >= 1000.0 / 3.0
  {
    Max(1.5 * (1000.0 - Abs(bumpFreq - 100.0)) / 1000.0, 1.0)
  }

  /** The square root of the peak gain (A) of the design. */
  function BumpAmp(m: MathLib, speedIps: real, gapMeters: real): real
  {
    m.sqrt(BumpGain(BumpFreq(speedIps, gapMeters)))
  }

  /** The bandwidth term alpha = sin(phi) / (2 Q) with Q = 2. */
  function BumpAlpha(m: MathLib, fs: real, speedIps: real, gapMeters: real): real
  {
    m.sin(Div(2.0 * Pi * BumpFreq(speedIps, gapMeters), fs)) / (2.0 * 2.0)
  }

  /** a0 = 1 + alpha / A, the normaliser of the design. */
  function BumpNorm(m: MathLib, fs: real, speedIps: real, gapMeters: real): real
  {
    1.0 + Div(BumpAlpha(m, fs, speedIps, gapMeters), BumpAmp(m, speedIps, gapMeters))
  }

  /** calcHeadBumpCoeffs: a peaking filter (Q = 2) at the head-bump frequency,
      normalised by a0. */
  function HeadBump(m: MathLib, fs: real, speedIps: real, gapMeters: real): (c: BiquadCoeffs)
    ensures c.b1 == c.a1
  {
    var aVal := BumpAmp(m, speedIps, gapMeters);
    var alpha := BumpAlpha(m, fs, speedIps, gapMeters);
    var cosPhi := m.cos(Div(2.0 * Pi * BumpFreq(speedIps, gapMeters), fs));
    var b0 := 1.0 + alpha * aVal;
    var b1 := -2.0 * cosPhi;
    var b2 := 1.0 - alpha * aVal;
    var a0 := BumpNorm(m, fs, speedIps, gapMeters);
    var a1 := -2.0 * cosPhi;
    var a2 := 1.0 - Div(alpha, aVal);
    BiquadCoeffs(Div(b0, a0), Div(b1, a0), Div(b2, a0), Div(a1, a0), Div(a2, a0))
  }

  /** The head bump is a peaking filter: with a nonzero normaliser its gain is 1
      at DC (z = 1) and at Nyquist (z = -1), and with a nonzero A its gain at the
      centre frequency, (b0 - b2) / (1 - a2), is A^2, the peak gain. */
  lemma HeadBumpPeaking(m: MathLib, fs: real, speedIps: real, gapMeters: real)
    requires BumpNorm(m, fs, speedIps, gapMeters) != 0.0
    ensures var c := HeadBump(m, fs, speedIps, gapMeters);
            c.b0 + c.b1 + c.b2 == 1.0 + c.a1 + c.a2 && c.b0 - c.b1 + c.b2 == 1.0 - c.a1 + c.a2
    ensures var c := HeadBump(m, fs, speedIps, gapMeters);
            var a := BumpAmp(m, speedIps, gapMeters);
            a != 0.0 ==> c.b0 - c.b2 == a * a * (1.0 - c.a2)
  {
    var c := HeadBump(m, fs, speedIps, gapMeters);
    var a, alpha := BumpAmp(m, speedIps, gapMeters), BumpAlpha(m, fs, speedIps, gapMeters);
    var a0 := BumpNorm(m, fs, speedIps, gapMeters);
    assert c.b0 + c.b2 == 2.0 / a0;
    assert 1.0 + c.a2 == (a0 + 1.0 - Div(alpha, a)) / a0;
    if a != 0.0 {
      assert c.b0 - c.b2 == (2.0 * alpha * a) / a0;
      assert 1.0 - c.a2 == (2.0 * (alpha / a)) / a0;
      assert a * a * (2.0 * (alpha / a)) == 2.0 * alpha * a;
    }
  }

  /** A biquad snapshot with the given coefficients and the histories of q. */
  function WithCoeffs(q: BiquadSnap, c: BiquadCoeffs): BiquadSnap
  {
    q.(b0 := c.b0, b1 := c.b1, b2 := c.b2, a1 := c.a1, a2 := c.a2)
  }
}
