/** Pure model of the Degrade stage (include/DaisyDegrade.h, src/DaisyDegrade.cpp):
    the noise gain ramp, the one-pole filter with its once-per-call frequency slew,
    the envelope follower, the output gain slew, parameter cooking, and the split
    of a block into chunks that never cross a control boundary. The classes of
    DegradeParts and DegradeStage are proved against these functions. */
module DegradeSpec {
  import opened DspMath

  /** DEG_BLOCK_SIZE: the control period in samples, and the length of the scratch buffers. */
  const DegBlockSize: int := 2048

  /** t in [0, 1] puts a + (b - a) * t between a and b. */
  lemma LerpBetween(a: real, b: real, t: real)
    requires 0.0 <= t <= 1.0
    ensures Min(a, b) <= a + (b - a) * t <= Max(a, b)
  {
    var d := b - a;
    MulNonNeg(if d >= 0.0 then d else -d, t);
    MulNonNeg(if d >= 0.0 then d else -d, 1.0 - t);
    assert d * (1.0 - t) == d - d * t;
  }

  lemma MulPos(x: real, y: real)
    requires x > 0.0 && y > 0.0
    ensures x * y > 0.0
  {
  }

  /** a / b lies in [0, 1] for 0 <= a <= b and b positive. */
  lemma RatioInUnit(a: real, b: real)
    requires 0.0 <= a <= b && b > 0.0
    ensures 0.0 <= a / b <= 1.0
  {
    var q := a / b;
    assert q * b == a;
    assert (1.0 - q) * b == b - a;
    NonNegFactor(q, b);
    NonNegFactor(1.0 - q, b);
  }

  lemma NonNegFactor(x: real, y: real)
    requires y > 0.0 && x * y >= 0.0
    ensures x >= 0.0
  {
    if x < 0.0 {
      MulPos(-x, y);
    }
  }

  // ---------------------------------------------------------------------------
  // DegradeNoise

  /** Draw k of a random stream (rand() / RAND_MAX in the source). */
  function Draw(draws: nat -> real, k: nat): real
  {
    draws(k)
  }

  /** curGain (the gain being moved to) and prevGain (the gain of the last ramp end). */
  datatype NoiseState = NoiseState(cur: real, prev: real)

  /** The gains differ by less than 1e-5: the block is generated at constant gain. */
  predicate Steady(s: NoiseState)
  {
    Abs(s.cur - s.prev) < 0.00001
  }

  /** The gain applied to sample n of a len-sample noise block: constant, or the
      linear ramp prev + (cur - prev) * n / len, which starts at the old gain. */
  function NoiseGainAt(s: NoiseState, n: nat, len: nat): (g: real)
    ensures !Steady(s) && n == 0 ==> g == s.prev
    ensures n < len ==> Min(s.prev, s.cur) <= g <= Max(s.prev, s.cur)
  {
    if Steady(s) then s.cur
    else
      var t := Div(n as real, len as real);
      assert n < len ==> Min(s.prev, s.cur) <= Ramp(s.prev, s.cur, t) <= Max(s.prev, s.cur) by {
        if n < len {
          RatioInUnit(n as real, len as real);
          LerpBetween(s.prev, s.cur, t);
        }
      }
      Ramp(s.prev, s.cur, t)
  }

  /** The point prev + (cur - prev) t of the ramp. */
  function Ramp(prev: real, cur: real, t: real): real
  {
    prev + (cur - prev) * t
  }

  /** One noise sample from a uniform draw in [0, 1]. */
  function NoiseSample(draw: real, g: real): real
  {
    (draw - 0.5) * g
  }

  /** Sample k of a noise block starting at draw u. */
  function NoiseAt(s: NoiseState, draws: nat -> real, u: nat, len: nat, k: int): real
  {
    if k < 0 then 0.0 else NoiseSample(Draw(draws, u + k), NoiseGainAt(s, k, len))
  }

  /** A block of len noise samples consuming draws u .. u + len - 1. */
  function NoiseBlock(s: NoiseState, draws: nat -> real, u: nat, len: nat): (r: seq<real>)
    ensures |r| == len
  {
    seq(len, k => NoiseAt(s, draws, u, len, k))
  }

  /** The gains after a block: a ramp ends at cur; a steady block leaves prev as it was. */
  function NoiseAfter(s: NoiseState): (r: NoiseState)
    ensures r.cur == s.cur && Steady(r)
    ensures Steady(s) ==> r == s
    ensures !Steady(s) ==> r.prev == s.cur
  {
    if Steady(s) then s else s.(prev := s.cur)
  }

  // ---------------------------------------------------------------------------
  // DegradeFilter

  /** b[0], b[1], a[1] of the bilinear one-pole low-pass. */
  datatype OnePole = OnePole(b0: real, b1: real, a1: real)

  /** 1/tan(pi fc / fs) + 1, the a0 the design divides by. */
  function DesignA0(m: MathLib, fs: real, fc: real): real
  {
    Div(1.0, m.tan(Div(2.0 * Pi * fc, fs) * 0.5)) + 1.0
  }

  /** calcCoefs(fc). */
  function OnePoleDesign(m: MathLib, fs: real, fc: real): (p: OnePole)
    ensures p.b0 == p.b1
    ensures DesignA0(m, fs, fc) != 0.0 ==> 2.0 * p.b0 - p.a1 == 1.0
  {
    var c := Div(1.0, m.tan(Div(2.0 * Pi * fc, fs) * 0.5));
    var a0 := c + 1.0;
    var b0 := Div(1.0, a0);
    var a1 := Div(1.0 - c, a0);
    assert a0 != 0.0 ==> 2.0 * b0 - a1 == 1.0 by {
      if a0 != 0.0 {
        assert b0 * a0 == 1.0 && a1 * a0 == 1.0 - c;
        assert (2.0 * b0 - a1) * a0 == a0;
      }
    }
    OnePole(b0, b0, a1)
  }

  /** One sample of the filter in transposed form: y = z + x b0, z' = x b1 - y a1. */
  function OnePoleStep(p: OnePole, z: real, x: real): (real, real)
  {
    var y := OnePoleOut(p, z, x);
    (y, OnePoleNext(p, y, x))
  }

  /** The next state z' = x b1 - y a1 of one step. */
  function OnePoleNext(p: OnePole, y: real, x: real): real
  {
    x * p.b1 - y * p.a1
  }

  /** The output y = z + x b0 of one step. */
  function OnePoleOut(p: OnePole, z: real, x: real): real
  {
    z + x * p.b0
  }

  /** The filter run over xs from state z: the outputs and the final state. */
  function OnePoleRun(p: OnePole, z: real, xs: seq<real>): (r: (seq<real>, real))
    ensures |r.0| == |xs|
    decreases |xs|
  {
    if xs == [] then ([], z)
    else
      var n := |xs| - 1;
      var prev := OnePoleRun(p, z, xs[..n]);
      var step := OnePoleStep(p, prev.1, xs[n]);
      (prev.0 + [step.0], step.1)
  }

  /** Running a block in two pieces, carrying the state across, equals running it whole. */
  lemma {:induction false} OnePoleRunSplit(p: OnePole, z: real, xs: seq<real>, ys: seq<real>)
    ensures OnePoleRun(p, z, xs + ys).0 == OnePoleRun(p, z, xs).0 + OnePoleRun(p, OnePoleRun(p, z, xs).1, ys).0
    ensures OnePoleRun(p, z, xs + ys).1 == OnePoleRun(p, OnePoleRun(p, z, xs).1, ys).1
    decreases |ys|
  {
    if ys == [] {
      assert xs + ys == xs;
    } else {
      var n := |ys| - 1;
      assert (xs + ys)[..|xs + ys| - 1] == xs + ys[..n];
      assert (xs + ys)[|xs + ys| - 1] == ys[n];
      OnePoleRunSplit(p, z, xs, ys[..n]);
    }
  }

  /** A designed filter has unity gain at DC: from the state x (1 - b0), a constant
      input x comes out unchanged and leaves the state where it was. */
  lemma {:induction false} OnePoleRunDc(p: OnePole, x: real, xs: seq<real>)
    requires p.b0 == p.b1 && 2.0 * p.b0 - p.a1 == 1.0
    requires forall i :: 0 <= i < |xs| ==> xs[i] == x
    ensures OnePoleRun(p, x * (1.0 - p.b0), xs) == (xs, x * (1.0 - p.b0))
    decreases |xs|
  {
    if xs != [] {
      var n := |xs| - 1;
      OnePoleRunDc(p, x, xs[..n]);
      assert xs[n] == x;
      DcStep(p, x);
      assert xs[..n] + [xs[n]] == xs;
    }
  }

  lemma DcStep(p: OnePole, x: real)
    requires p.b0 == p.b1 && 2.0 * p.b0 - p.a1 == 1.0
    ensures OnePoleStep(p, x * (1.0 - p.b0), x) == (x, x * (1.0 - p.b0))
  {
    var z := x * (1.0 - p.b0);
    assert z == x - x * p.b0;
    assert OnePoleOut(p, z, x) == x;
    assert p.a1 == 2.0 * p.b0 - 1.0;
    assert x * p.a1 == x * (2.0 * p.b0 - 1.0) == 2.0 * (x * p.b0) - x;
    assert x * p.b1 - x * p.a1 == z;
    assert OnePoleNext(p, x, x) == z;
    assert OnePoleStep(p, z, x).0 == x;
    assert OnePoleStep(p, z, x).1 == z;
  }

  /** Once-per-call frequency slew: a tenth of the way to the target when they differ
      by more than 1 Hz, never past it. */
  function Slew(current: real, target: real): (r: real)
    ensures Abs(target - current) > 1.0 ==> target - r == 0.9 * (target - current)
    ensures Abs(target - current) <= 1.0 ==> r == current
    ensures current <= target ==> current <= r <= target
    ensures target <= current ==> target <= r <= current
  {
    if Abs(target - current) > 1.0 then current + (target - current) * 0.1 else current
  }

  /** fs, currentFreq, targetFreq, the coefficients and the state register z[1]. */
  datatype FilterState = FilterState(fs: real, currentFreq: real, targetFreq: real, coefs: OnePole, z1: real)

  /** reset(fs): both frequencies at 20 kHz, zero state, coefficients designed for 20 kHz. */
  function FilterReset(m: MathLib, fs: real): (s: FilterState)
    ensures s.currentFreq == s.targetFreq == 20000.0 && s.z1 == 0.0
  {
    FilterState(fs, 20000.0, 20000.0, OnePoleDesign(m, fs, 20000.0), 0.0)
  }

  /** The slew step at the start of process(), redesigning only when the frequency moved. */
  function FilterSlew(m: MathLib, s: FilterState): (r: FilterState)
    ensures r.currentFreq == Slew(s.currentFreq, s.targetFreq)
    ensures r.fs == s.fs && r.targetFreq == s.targetFreq && r.z1 == s.z1
    ensures r.currentFreq == s.currentFreq ==> r == s
  {
    if Abs(s.targetFreq - s.currentFreq) > 1.0 then
      var f := Slew(s.currentFreq, s.targetFreq);
      s.(currentFreq := f, coefs := OnePoleDesign(m, s.fs, f))
    else s
  }

  /** process(buffer, n): one slew, then the filter over the block. */
  function FilterProcess(m: MathLib, s: FilterState, xs: seq<real>): (r: (FilterState, seq<real>))
    ensures |r.1| == |xs|
    ensures r.0.targetFreq == s.targetFreq && r.0.fs == s.fs
    ensures r.0.currentFreq == Slew(s.currentFreq, s.targetFreq)
  {
    var s1 := FilterSlew(m, s);
    var run := OnePoleRun(s1.coefs, s1.z1, xs);
    (s1.(z1 := run.1), run.0)
  }

  // ---------------------------------------------------------------------------
  // SimpleLevelDetector

  /** fs, the envelope and the attack and release coefficients. */
  datatype DetState = DetState(fs: real, env: real, att: real, rel: real)

  /** The detector input: the mean of the two magnitudes. */
  function LevelIn(l: real, r: real): (v: real)
    ensures v >= 0.0 && 2.0 * v == Abs(l) + Abs(r)
  {
    (Abs(l) + Abs(r)) * 0.5
  }

  /** exp(-1000 / (ms fs)): the one-pole coefficient of a time constant in milliseconds. */
  function DetCoeff(m: MathLib, ms: real, fs: real): real
  {
    m.exp(Div(-1000.0, ms * fs))
  }

  /** setParameters(attackMs, releaseMs): only the two coefficients change. */
  function DetSetParams(m: MathLib, d: DetState, attackMs: real, releaseMs: real): (r: DetState)
    ensures r.fs == d.fs && r.env == d.env
  {
    d.(att := DetCoeff(m, attackMs, d.fs), rel := DetCoeff(m, releaseMs, d.fs))
  }

  /** prepare(fs): envelope cleared, 10 ms attack and 200 ms release. */
  function DetPrepare(m: MathLib, fs: real): (r: DetState)
    ensures r.fs == fs && r.env == 0.0
  {
    DetSetParams(m, DetState(fs, 0.0, 0.0, 0.0), 10.0, 200.0)
  }

  /** The envelope after one input: the attack coefficient exactly when the input is
      above the envelope, the release coefficient otherwise. */
  function EnvStep(d: DetState, input: real): real
  {
    EnvUpdate(if input > d.env then d.att else d.rel, d.env, input)
  }

  /** coeff (env - input) + input. */
  function EnvUpdate(coeff: real, env: real, input: real): real
  {
    coeff * (env - input) + input
  }

  /** With both coefficients in [0, 1], one step lands between the input and the old envelope. */
  lemma EnvStepBetween(d: DetState, input: real)
    requires 0.0 <= d.att <= 1.0 && 0.0 <= d.rel <= 1.0
    ensures Min(input, d.env) <= EnvStep(d, input) <= Max(input, d.env)
  {
    var c := if input > d.env then d.att else d.rel;
    assert EnvStep(d, input) == input + (d.env - input) * c;
    LerpBetween(input, d.env, c);
  }

  /** process(inL, inR, levelOut, n): levelOut[i] is the envelope after sample i, and the
      detector keeps the last one. */
  function EnvRun(d: DetState, ls: seq<real>, rs: seq<real>): (r: (DetState, seq<real>))
    requires |ls| == |rs|
    ensures |r.1| == |ls|
    ensures r.0 == d.(env := r.0.env)
    ensures ls == [] ==> r.0 == d
    ensures ls != [] ==> r.0.env == r.1[|ls| - 1]
    decreases |ls|
  {
    if ls == [] then (d, [])
    else
      var n := |ls| - 1;
      var prev := EnvRun(d, ls[..n], rs[..n]);
      var e := EnvStep(prev.0, LevelIn(ls[n], rs[n]));
      (prev.0.(env := e), prev.1 + [e])
  }

  /** With coefficients in [0, 1] and a non-negative start, every envelope is
      non-negative and bounded by the larger of the start and the largest input. */
  lemma {:induction false} EnvRunBounded(d: DetState, ls: seq<real>, rs: seq<real>, bound: real)
    requires |ls| == |rs| && 0.0 <= d.att <= 1.0 && 0.0 <= d.rel <= 1.0
    requires 0.0 <= d.env <= bound
    requires forall i :: 0 <= i < |ls| ==> LevelIn(ls[i], rs[i]) <= bound
    ensures 0.0 <= EnvRun(d, ls, rs).0.env <= bound
    ensures forall i :: 0 <= i < |ls| ==> 0.0 <= EnvRun(d, ls, rs).1[i] <= bound
    decreases |ls|
  {
    if ls != [] {
      var n := |ls| - 1;
      EnvRunBounded(d, ls[..n], rs[..n], bound);
      var prev := EnvRun(d, ls[..n], rs[..n]);
      EnvStepBetween(prev.0, LevelIn(ls[n], rs[n]));
    }
  }

  // ---------------------------------------------------------------------------
  // Output gain

  /** The output gain moves only while it is more than 1e-4 away from the target. */
  predicate GainMoving(g: real, t: real)
  {
    Abs(t - g) > 0.0001
  }

  /** One per-sample step of 1% towards the target. */
  function GainStep(g: real, t: real): (r: real)
    ensures t - r == 0.99 * (t - g)
  {
    g + (t - g) * 0.01
  }

  /** n slewed gains, each one step further than the last, and the final gain. */
  function GainRamp(g: real, t: real, n: nat): (r: (seq<real>, real))
    ensures |r.0| == n
    ensures n == 0 ==> r.1 == g
    ensures n > 0 ==> r.1 == r.0[n - 1]
  {
    if n == 0 then ([], g)
    else
      var prev := GainRamp(g, t, n - 1);
      var h := GainStep(prev.1, t);
      (prev.0 + [h], h)
  }

  /** The slew approaches the target monotonically and never passes it. */
  lemma {:induction false} GainRampBetween(g: real, t: real, n: nat)
    ensures g <= t ==> g <= GainRamp(g, t, n).1 <= t
    ensures t <= g ==> t <= GainRamp(g, t, n).1 <= g
    ensures forall i :: 0 <= i < n ==> Min(g, t) <= GainRamp(g, t, n).0[i] <= Max(g, t)
  {
    if n > 0 {
      GainRampBetween(g, t, n - 1);
      var prev := GainRamp(g, t, n - 1);
      LerpBetween(prev.1, t, 0.01);
      assert GainRamp(g, t, n).0 == prev.0 + [GainStep(prev.1, t)];
    }
  }

  /** The gains of an n-sample chunk and the gain left afterwards: the slew while the
      gain is away from the target, otherwise the target itself from the first sample. */
  function GainRun(g: real, t: real, n: nat): (r: (seq<real>, real))
    ensures |r.0| == n
    ensures !GainMoving(g, t) ==> r.1 == t && forall i :: 0 <= i < n ==> r.0[i] == t
    ensures GainMoving(g, t) ==> r == GainRamp(g, t, n)
  {
    if GainMoving(g, t) then GainRamp(g, t, n) else (seq(n, _ => t), t)
  }

  /** Element-wise product of samples and gains. */
  function Scale(xs: seq<real>, gs: seq<real>): (r: seq<real>)
    requires |gs| == |xs|
    ensures |r| == |xs| && forall i :: 0 <= i < |xs| ==> r[i] == xs[i] * gs[i]
  {
    seq(|xs|, i requires 0 <= i < |xs| => xs[i] * gs[i])
  }

  // ---------------------------------------------------------------------------
  // One chunk (processShortBlock)

  /** A chunk with noise added: modulated by the level when the envelope parameter is on. */
  function Noisy(xs: seq<real>, ns: seq<real>, lv: seq<real>, applyEnv: bool): (r: seq<real>)
    requires |ns| == |xs| && |lv| == |xs|
    ensures |r| == |xs|
    ensures forall i :: 0 <= i < |xs| ==> r[i] == xs[i] + (if applyEnv then ns[i] * lv[i] else ns[i])
  {
    seq(|xs|, i requires 0 <= i < |xs| => xs[i] + (if applyEnv then ns[i] * lv[i] else ns[i]))
  }

  /** One channel of a chunk: its noise (from draw u on) added, modulated by the
      levels when the envelope is on, then its filter. */
  function ChannelOut(m: MathLib, f: FilterState, ns: NoiseState, draws: nat -> real, u: nat,
                      xs: seq<real>, levels: seq<real>, applyEnv: bool): (r: (FilterState, seq<real>))
    requires |levels| == |xs|
    ensures |r.1| == |xs|
  {
    FilterProcess(m, f, Noisy(xs, NoiseBlock(ns, draws, u, |xs|), levels, applyEnv))
  }

  /** The sub-processor state of a DegradeProcessor, the output gain pair and the
      number of random draws taken so far. */
  datatype DegSnap = DegSnap(noise0: NoiseState, noise1: NoiseState, filt0: FilterState, filt1: FilterState,
                             det: DetState, targetGain: real, currentGain: real, used: nat)

  /** processShortBlock on a chunk: level detection on the clean input, left noise
      added and filtered, right noise added and filtered, then the same gain on both. */
  function ShortBlock(m: MathLib, s: DegSnap, draws: nat -> real, envelope: real, xsL: seq<real>, xsR: seq<real>)
    : (r: (DegSnap, seq<real>, seq<real>))
    requires |xsL| == |xsR|
    ensures |r.1| == |xsL| && |r.2| == |xsL|
  {
    var n := |xsL|;
    var det := EnvRun(s.det, xsL, xsR);
    var applyEnv := envelope > 0.0;
    var left := ChannelOut(m, s.filt0, s.noise0, draws, s.used, xsL, det.1, applyEnv);
    var right := ChannelOut(m, s.filt1, s.noise1, draws, s.used + n, xsR, det.1, applyEnv);
    var gains := GainRun(s.currentGain, s.targetGain, n);
    (DegSnap(NoiseAfter(s.noise0), NoiseAfter(s.noise1), left.0, right.0, det.0, s.targetGain, gains.1, s.used + 2 * n),
     Scale(left.1, gains.0), Scale(right.1, gains.0))
  }

  /** A chunk changes the output gain only as the slew allows, never past the target,
      and takes two draws per sample. */
  lemma ShortBlockGain(m: MathLib, s: DegSnap, draws: nat -> real, envelope: real, xsL: seq<real>, xsR: seq<real>)
    requires |xsL| == |xsR|
    ensures var r := ShortBlock(m, s, draws, envelope, xsL, xsR).0;
      r.targetGain == s.targetGain && r.used == s.used + 2 * |xsL| &&
      Min(s.currentGain, s.targetGain) <= r.currentGain <= Max(s.currentGain, s.targetGain)
  {
    GainRampBetween(s.currentGain, s.targetGain, |xsL|);
  }

  // ---------------------------------------------------------------------------
  // Parameters and cookParams

  /** p_depth, p_amount, p_variance, p_envelope. */
  datatype DegParams = DegParams(depth: real, amount: real, variance: real, envelope: real)

  /** The noise gain 0.5 * (0.1 depth) * amount. */
  function CookNoiseGain(p: DegParams): real
  {
    0.5 * (p.depth * 0.1) * p.amount
  }

  /** Cap at 0.49 fs, then floor at 20 Hz (the floor wins when fs is below about 40.8 Hz). */
  function ClampFreq(f: real, fs: real): (r: real)
    ensures r >= 20.0
    ensures fs * 0.49 >= 20.0 ==> r <= fs * 0.49
    ensures 20.0 <= f <= fs * 0.49 ==> r == f
  {
    var capped := if f > fs * 0.49 then fs * 0.49 else f;
    if capped < 20.0 then 20.0 else capped
  }

  /** The unvaried filter frequency 200 (100)^(1 - amount). */
  function CookBaseFreq(m: MathLib, p: DegParams): real
  {
    200.0 * m.pow(20000.0 / 200.0, 1.0 - p.amount)
  }

  /** The filter target for one draw: the base frequency varied by the draw, then clamped. */
  function CookFreq(p: DegParams, fs: real, freqHz: real, draw: real): (r: real)
    ensures r >= 20.0 && (fs * 0.49 >= 20.0 ==> r <= fs * 0.49)
  {
    ClampFreq(freqHz + FreqVariation(p.variance, freqHz, draw - 0.5), fs)
  }

  /** The drawn offset of a filter target: variance times freqHz / 0.6 times the centred draw. */
  function FreqVariation(variance: real, freqHz: real, centred: real): real
  {
    variance * (freqHz / 0.6) * centred
  }

  /** The output gain in dB: -24 (0.1 depth) plus the drawn variance, capped at +3 dB. */
  function CookGainDb(p: DegParams, draw: real): (r: real)
    ensures r <= 3.0
    ensures -24.0 * (p.depth * 0.1) + GainVariation(p.variance, draw - 0.5) <= 3.0 ==>
      r == -24.0 * (p.depth * 0.1) + GainVariation(p.variance, draw - 0.5)
  {
    var db := -24.0 * (p.depth * 0.1) + GainVariation(p.variance, draw - 0.5);
    if db > 3.0 then 3.0 else db
  }

  /** The drawn offset of the output gain: variance times 36 dB times the centred draw. */
  function GainVariation(variance: real, centred: real): real
  {
    variance * 36.0 * centred
  }

  /** The release time of the detector, 20 (250)^(1 - envelope^0.8) ms. */
  function CookRelease(m: MathLib, p: DegParams): real
  {
    20.0 * m.pow(5000.0 / 20.0, 1.0 - m.pow(p.envelope, 0.8))
  }

  /** The target output gain 10^(dB / 20). */
  function CookTargetGain(m: MathLib, p: DegParams, draw: real): real
  {
    DbToGain(m, CookGainDb(p, draw))
  }

  /** A level in dB as a linear gain, 10^(dB / 20). */
  function DbToGain(m: MathLib, db: real): real
  {
    m.pow(10.0, db / 20.0)
  }

  /** cookParams: new noise gains, the two filter targets from draws u and u + 1,
      10 ms attack and the cooked release, the target gain from draw u + 2. */
  function Cook(m: MathLib, s: DegSnap, fs: real, p: DegParams, draws: nat -> real): (r: DegSnap)
    ensures r.noise0 == s.noise0.(cur := CookNoiseGain(p)) && r.noise1 == s.noise1.(cur := CookNoiseGain(p))
    ensures r.filt0.targetFreq >= 20.0 && r.filt1.targetFreq >= 20.0
    ensures r.filt0 == s.filt0.(targetFreq := r.filt0.targetFreq) && r.filt1 == s.filt1.(targetFreq := r.filt1.targetFreq)
    ensures r.det.env == s.det.env && r.currentGain == s.currentGain && r.used == s.used + 3
  {
    s.(noise0 := s.noise0.(cur := CookNoiseGain(p)),
       noise1 := s.noise1.(cur := CookNoiseGain(p)),
       filt0 := s.filt0.(targetFreq := CookFreq(p, fs, CookBaseFreq(m, p), Draw(draws, s.used))),
       filt1 := s.filt1.(targetFreq := CookFreq(p, fs, CookBaseFreq(m, p), Draw(draws, s.used + 1))),
       det := DetSetParams(m, s.det, 10.0, CookRelease(m, p)),
       targetGain := CookTargetGain(m, p, Draw(draws, s.used + 2)),
       used := s.used + 3)
  }

  // ---------------------------------------------------------------------------
  // Chunking (processBlock)

  /** The chunk sizes processBlock uses for a block of len samples when the control
      counter stands at counter: each chunk runs to the block end or the next boundary. */
  function Chunks(counter: int, len: int): (r: seq<nat>)
    requires 0 <= counter < DegBlockSize && len >= 0
    ensures len == 0 <==> r == []
    decreases len
  {
    if len == 0 then []
    else
      var c := MinInt(len, DegBlockSize - counter);
      [c] + Chunks((counter + c) % DegBlockSize, len - c)
  }

  /** The chunks partition the block: they are positive, at most DEG_BLOCK_SIZE long,
      sum to the block length, and every chunk after the first starts on a boundary,
      so no chunk crosses one. */
  lemma {:induction false} ChunksPartition(counter: int, len: int)
    requires 0 <= counter < DegBlockSize && len >= 0
    ensures SumNat(Chunks(counter, len)) == len
    ensures forall k :: 0 <= k < |Chunks(counter, len)| ==> 0 < Chunks(counter, len)[k] <= DegBlockSize
    ensures len > 0 ==> counter + Chunks(counter, len)[0] <= DegBlockSize
    ensures forall k :: 1 <= k < |Chunks(counter, len)| ==>
      (counter + SumNat(Chunks(counter, len)[..k])) % DegBlockSize == 0
    decreases len
  {
    if len > 0 {
      var c := MinInt(len, DegBlockSize - counter);
      var c' := (counter + c) % DegBlockSize;
      var rest := Chunks(c', len - c);
      var ch := Chunks(counter, len);
      ChunksPartition(c', len - c);
      assert ch == [c] + rest;
      assert ch[1..] == rest;
      forall k | 1 <= k < |ch|
        ensures (counter + SumNat(ch[..k])) % DegBlockSize == 0
      {
        assert len - c > 0;
        assert counter + c == DegBlockSize && c' == 0;
        ChunkStartsOnBoundary(counter, c, rest, ch, k);
      }
    }
  }

  /** The step of ChunksPartition for a chunk after the first: the first chunk ends on
      a boundary, and the chunks of the rest start from there. */
  lemma ChunkStartsOnBoundary(counter: int, c: int, rest: seq<nat>, ch: seq<nat>, k: int)
    requires counter + c == DegBlockSize && ch == [c] + rest && 1 <= k < |ch|
    requires forall j :: 1 <= j < |rest| ==> (0 + SumNat(rest[..j])) % DegBlockSize == 0
    ensures (counter + SumNat(ch[..k])) % DegBlockSize == 0
  {
    assert ch[..k] == [c] + rest[..k - 1];
    assert ch[..k][1..] == rest[..k - 1];
    if k == 1 {
      assert rest[..0] == [];
    }
  }

  /** One pass of the processBlock loop once the chunk is chosen: processShortBlock on
      it, the counter advanced by its length, and at a boundary cookParams and a reset. */
  function DegStep(m: MathLib, s: DegSnap, counter: int, fs: real, p: DegParams, draws: nat -> real,
                   xsL: seq<real>, xsR: seq<real>): (r: (DegSnap, int, seq<real>, seq<real>))
    requires 0 <= counter && counter + |xsL| <= DegBlockSize && |xsL| == |xsR|
    ensures 0 <= r.1 < DegBlockSize && |r.2| == |xsL| && |r.3| == |xsL|
    ensures r.1 == (counter + |xsL|) % DegBlockSize
    ensures r.0.used == s.used + 2 * |xsL| + (if counter + |xsL| == DegBlockSize then 3 else 0)
  {
    CounterAdvance(counter, |xsL|);
    var chunk := ShortBlock(m, s, draws, p.envelope, xsL, xsR);
    ShortBlockGain(m, s, draws, p.envelope, xsL, xsR);
    var next := if counter + |xsL| >= DegBlockSize then (Cook(m, chunk.0, fs, p, draws), 0) else (chunk.0, counter + |xsL|);
    (next.0, next.1, chunk.1, chunk.2)
  }

  /** A chunk that stays within the control period is run as one DegStep. */
  lemma DegRunOneChunk(m: MathLib, s: DegSnap, counter: int, fs: real, p: DegParams, draws: nat -> real,
                       xsL: seq<real>, xsR: seq<real>)
    requires 0 <= counter && counter + |xsL| <= DegBlockSize && |xsL| == |xsR| && xsL != []
    ensures DegRun(m, s, counter, fs, p, draws, xsL, xsR) == DegStep(m, s, counter, fs, p, draws, xsL, xsR)
  {
    var n := |xsL|;
    assert Chunks(counter, n)[0] == n;
    assert xsL[..n] == xsL && xsR[..n] == xsR;
    assert xsL[n..] == [] && xsR[n..] == [];
    var step := DegStep(m, s, counter, fs, p, draws, xsL, xsR);
    assert RunChunks(m, step.0, step.1, fs, p, draws, [], []) == (step.0, step.1, [], []);
    assert step.2 + [] == step.2 && step.3 + [] == step.3;
    assert DegRun(m, s, counter, fs, p, draws, xsL, xsR) == FirstChunk(m, s, counter, fs, p, draws, xsL, xsR);
  }

  /** The run of a chunk from the outcome of processShortBlock on it and of the
      counter advance after it: cookParams at the boundary, where the counter restarts. */
  lemma DegRunChunk(m: MathLib, s: DegSnap, counter: int, fs: real, p: DegParams, draws: nat -> real,
                    xsL: seq<real>, xsR: seq<real>, k: int, chunk: (DegSnap, seq<real>, seq<real>),
                    s': DegSnap, counter': int, ysL: seq<real>, ysR: seq<real>)
    requires 0 <= counter && 0 < k && counter + k <= DegBlockSize && |xsL| == k && |xsR| == k
    requires chunk == ShortBlock(m, s, draws, p.envelope, xsL, xsR)
    requires s' == if counter + k >= DegBlockSize then Cook(m, chunk.0, fs, p, draws) else chunk.0
    requires counter' == if counter + k >= DegBlockSize then 0 else counter + k
    requires ysL == chunk.1 && ysR == chunk.2
    ensures (s', counter', ysL, ysR) == DegRun(m, s, counter, fs, p, draws, xsL, xsR)
  {
    DegRunOneChunk(m, s, counter, fs, p, draws, xsL, xsR);
    var step := DegStep(m, s, counter, fs, p, draws, xsL, xsR);
    assert step.2 == ysL && step.3 == ysR;
    assert step.1 == counter';
    assert step.0 == s';
  }

  /** processBlock: the chunks in order, each a DegStep. Returns the state, the counter
      and the outputs. */
  function DegRun(m: MathLib, s: DegSnap, counter: int, fs: real, p: DegParams, draws: nat -> real,
                  xsL: seq<real>, xsR: seq<real>): (r: (DegSnap, int, seq<real>, seq<real>))
    requires 0 <= counter < DegBlockSize && |xsL| == |xsR|
    ensures 0 <= r.1 < DegBlockSize && |r.2| == |xsL| && |r.3| == |xsL|
  {
    RunChunks(m, s, counter, fs, p, draws, xsL, xsR)
  }

  /** The chunks of a block from the given state and counter on. */
  function RunChunks(m: MathLib, s: DegSnap, counter: int, fs: real, p: DegParams, draws: nat -> real,
                     xsL: seq<real>, xsR: seq<real>): (r: (DegSnap, int, seq<real>, seq<real>))
    requires 0 <= counter < DegBlockSize && |xsL| == |xsR|
    ensures 0 <= r.1 < DegBlockSize && |r.2| == |xsL| && |r.3| == |xsL|
    decreases |xsL|, 1
  {
    if xsL == [] then (s, counter, [], []) else FirstChunk(m, s, counter, fs, p, draws, xsL, xsR)
  }

  /** A non-empty block: its first chunk, which runs to the block end or to the next
      control boundary, then the rest of the block. */
  function FirstChunk(m: MathLib, s: DegSnap, counter: int, fs: real, p: DegParams, draws: nat -> real,
                      xsL: seq<real>, xsR: seq<real>): (r: (DegSnap, int, seq<real>, seq<real>))
    requires 0 <= counter < DegBlockSize && |xsL| == |xsR| && xsL != []
    ensures 0 <= r.1 < DegBlockSize && |r.2| == |xsL| && |r.3| == |xsL|
    decreases |xsL|, 0
  {
    var c := Chunks(counter, |xsL|)[0];
    var step := DegStep(m, s, counter, fs, p, draws, xsL[..c], xsR[..c]);
    var rest := RunChunks(m, step.0, step.1, fs, p, draws, xsL[c..], xsR[c..]);
    (rest.0, rest.1, step.2 + rest.2, step.3 + rest.3)
  }

  /** After a block the counter is (counter + len) mod DEG_BLOCK_SIZE, cookParams ran
      (counter + len) div DEG_BLOCK_SIZE times (three draws each) and the chunks took two
      draws per sample. */
  lemma {:induction false} DegRunCounters(m: MathLib, s: DegSnap, counter: int, fs: real, p: DegParams,
                                          draws: nat -> real, xsL: seq<real>, xsR: seq<real>)
    requires 0 <= counter < DegBlockSize && |xsL| == |xsR|
    ensures DegRun(m, s, counter, fs, p, draws, xsL, xsR).1 == (counter + |xsL|) % DegBlockSize
    ensures DegRun(m, s, counter, fs, p, draws, xsL, xsR).0.used ==
      s.used + 2 * |xsL| + 3 * ((counter + |xsL|) / DegBlockSize)
    decreases |xsL|
  {
    if xsL != [] {
      assert DegRun(m, s, counter, fs, p, draws, xsL, xsR) == FirstChunk(m, s, counter, fs, p, draws, xsL, xsR);
      var c := Chunks(counter, |xsL|)[0];
      var step := DegStep(m, s, counter, fs, p, draws, xsL[..c], xsR[..c]);
      DegRunCounters(m, step.0, step.1, fs, p, draws, xsL[c..], xsR[c..]);
      var len := |xsL|;
      if counter + c == DegBlockSize {
        assert counter + len == DegBlockSize + (len - c);
        DivModStep(len - c);
      } else {
        assert c == len;
      }
    }
  }

  /** A counter advanced within the control period wraps to 0 exactly at its end. */
  lemma CounterAdvance(counter: int, k: int)
    requires 0 <= counter && 0 <= k && counter + k <= DegBlockSize
    ensures (counter + k) % DegBlockSize == if counter + k == DegBlockSize then 0 else counter + k
  {
  }

  /** Adding one control period moves the quotient by one and leaves the remainder. */
  lemma DivModStep(k: int)
    requires 0 <= k
    ensures (DegBlockSize + k) / DegBlockSize == 1 + k / DegBlockSize
    ensures (DegBlockSize + k) % DegBlockSize == k % DegBlockSize
  {
  }
}
