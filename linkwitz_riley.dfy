/** The fourth-order Linkwitz-Riley crossover of include/DaisyLinkwitzRiley.h:
    two cascaded state-variable (TPT) sections per channel, four registers per
    channel, coefficients g and h designed from the cutoff. The per-sample update
    and the denormal sweep are pure functions over a channel's registers; the
    class keeps the registers in a 2 x 4 array and is proved against them. */
module LinkwitzRiley {
  import opened DspMath

  /** R2_: the damping term, sqrt(2) to 11 decimals. */
  const R2: real := 1.41421356237

  /** Registers whose magnitude is below this are flushed by snapToZero. */
  const SnapThreshold: real := 0.000000001

  /** The four registers state_[ch][0..3] of one channel. */
  datatype Regs = Regs(s0: real, s1: real, s2: real, s3: real)

  const ZeroRegs: Regs := Regs(0.0, 0.0, 0.0, 0.0)

  /** The coefficients g_ and h_. */
  datatype Coeffs = Coeffs(g: real, h: real)

  /** update(): g = tan(pi fc / fs), h = 1 / (1 + R2 g + g^2). */
  function Design(math: MathLib, cutoff: real, sampleRate: real): Coeffs
  {
    var g := math.tan(Div(Pi * cutoff, sampleRate));
    Coeffs(g, Div(1.0, 1.0 + R2 * g + g * g))
  }

  // ---------------------------------------------------------------------------
  // The per-sample update

  /** The outputs and new registers of one state-variable section. */
  datatype Section = Section(hp: real, bp: real, lp: real, sa: real, sb: real)

  /** One TPT section fed with x, registers (sa, sb). */
  function SectionStep(c: Coeffs, sa: real, sb: real, x: real): Section
  {
    var yH := (x - (R2 + c.g) * sa - sb) * c.h;
    var tB := c.g * yH;
    var yB := tB + sa;
    var tL := c.g * yB;
    var yL := tL + sb;
    Section(yH, yB, yL, tB + yB, tL + yL)
  }

  /** processSample's results: the new registers, `low` and `high`. */
  datatype Out = Out(regs: Regs, low: real, high: real)

  /** processSample on one channel: the second section filters the first
      section's low-pass; low is its low-pass, high is yL - R2 yB + yH - yL2. */
  function Step(c: Coeffs, r: Regs, x: real): Out
  {
    var a := SectionStep(c, r.s0, r.s1, x);
    var b := SectionStep(c, r.s2, r.s3, a.lp);
    Out(Regs(a.sa, a.sb, b.sa, b.sb), b.lp, a.lp - R2 * a.bp + a.hp - b.lp)
  }

  /** The denominator of h is never zero: 1 + R2 g + g^2 > 0 for every g,
      because R2^2 < 4. */
  lemma DesignDenominatorPositive(g: real)
    ensures 1.0 + R2 * g + g * g > 0.0
  {
    var u := g + R2 / 2.0;
    assert 1.0 + R2 * g + g * g == u * u + (1.0 - R2 * R2 / 4.0);
    assert u * u >= 0.0;
  }

  /** For coefficients that come out of the design, h times the denominator is 1. */
  lemma DesignNormalised(math: MathLib, cutoff: real, sampleRate: real)
    ensures var c := Design(math, cutoff, sampleRate);
            c.h * (1.0 + R2 * c.g + c.g * c.g) == 1.0
  {
    var g := math.tan(Div(Pi * cutoff, sampleRate));
    DesignDenominatorPositive(g);
  }

  /** A section splits its input: high-pass + R2 band-pass + low-pass == x,
      whenever h normalises the section. */
  lemma SectionSplitsInput(c: Coeffs, sa: real, sb: real, x: real)
    requires c.h * (1.0 + R2 * c.g + c.g * c.g) == 1.0
    ensures var s := SectionStep(c, sa, sb, x);
            s.hp + R2 * s.bp + s.lp == x
  {
    var s := SectionStep(c, sa, sb, x);
    var d := 1.0 + R2 * c.g + c.g * c.g;
    assert s.bp == c.g * s.hp + sa;
    assert s.lp == c.g * s.bp + sb;
    assert s.hp + R2 * s.bp + s.lp == s.hp * d + (R2 + c.g) * sa + sb;
    assert s.hp * d == (x - (R2 + c.g) * sa - sb) * (c.h * d);
  }

  /** With designed coefficients the two outputs and the first section's band
      account for the input: high + low == x - 2 R2 yB. */
  lemma StepHighLow(math: MathLib, cutoff: real, sampleRate: real, r: Regs, x: real)
    ensures var c := Design(math, cutoff, sampleRate);
            var o := Step(c, r, x);
            o.high + o.low == x - 2.0 * R2 * SectionStep(c, r.s0, r.s1, x).bp
  {
    var c := Design(math, cutoff, sampleRate);
    DesignNormalised(math, cutoff, sampleRate);
    var a := SectionStep(c, r.s0, r.s1, x);
    SectionSplitsInput(c, r.s0, r.s1, x);
    var b := SectionStep(c, r.s2, r.s3, a.lp);
    assert Step(c, r, x) == Out(Regs(a.sa, a.sb, b.sa, b.sb), b.lp, a.lp - R2 * a.bp + a.hp - b.lp);
  }

  /** Silence into cleared registers stays silence, whatever the coefficients. */
  lemma StepSilence(c: Coeffs)
    ensures Step(c, ZeroRegs, 0.0) == Out(ZeroRegs, 0.0, 0.0)
  {
    assert SectionStep(c, 0.0, 0.0, 0.0).hp == 0.0 * c.h;
  }

  // ---------------------------------------------------------------------------
  // The denormal sweep

  /** snapToZero on one register. */
  function SnapValue(e: real): (r: real)
    ensures Abs(e) < SnapThreshold ==> r == 0.0
    ensures Abs(e) >= SnapThreshold ==> r == e
  {
    if Abs(e) < SnapThreshold then 0.0 else e
  }

  /** snapToZero on the four registers of a channel. */
  function SnapRegs(r: Regs): Regs
  {
    Regs(SnapValue(r.s0), SnapValue(r.s1), SnapValue(r.s2), SnapValue(r.s3))
  }

  /** Register k (0..3) of a channel. */
  function Reg(r: Regs, k: int): real
    requires 0 <= k < 4
  {
    match k
    case 0 => r.s0
    case 1 => r.s1
    case 2 => r.s2
    case _ => r.s3
  }

  /** A swept channel holds no register strictly between 0 and the threshold,
      and sweeping it again changes nothing. */
  lemma SnapRegsIdempotent(r: Regs)
    ensures forall k :: 0 <= k < 4 ==> Reg(SnapRegs(r), k) == 0.0 || Abs(Reg(SnapRegs(r), k)) >= SnapThreshold
    ensures SnapRegs(SnapRegs(r)) == SnapRegs(r)
  {
  }

  /** The sweep changes a register exactly when it is a nonzero value below the threshold. */
  lemma SnapRegsChanges(r: Regs, k: int)
    requires 0 <= k < 4
    ensures Reg(SnapRegs(r), k) != Reg(r, k) <==> Reg(r, k) != 0.0 && Abs(Reg(r, k)) < SnapThreshold
  {
  }

  // ---------------------------------------------------------------------------
  // The class

  class LinkwitzRileyFilter {
    /** The transcendental functions update() uses. */
    const math: MathLib
    var numChannels: int
    var g: real
    var h: real
    var sampleRate: real
    var cutoffFrequency: real
    /** state_[ch][k] is state[ch, k]. */
    const state: array2<real>

    ghost predicate Valid()
      reads this
    {
      state.Length0 == 2 && state.Length1 == 4 && 0 <= numChannels <= 2
    }

    function Coefs(): Coeffs
      reads this
    {
      Coeffs(g, h)
    }

    /** The registers of channel ch. */
    function Channel(ch: int): Regs
      requires state.Length0 == 2 && state.Length1 == 4 && 0 <= ch < 2
      reads state
    {
      Regs(state[ch, 0], state[ch, 1], state[ch, 2], state[ch, 3])
    }

    /** The constructor designs for 2 kHz at 48 kHz; with no channels yet,
        its reset clears nothing. */
    constructor (math: MathLib)
      ensures Valid() && fresh(state) && this.math == math
      ensures numChannels == 0 && sampleRate == 48000.0 && cutoffFrequency == 2000.0
      ensures Coefs() == Design(math, 2000.0, 48000.0)
    {
      this.math := math;
      numChannels := 0;
      g, h := 0.0, 0.0;
      sampleRate := 48000.0;
      cutoffFrequency := 2000.0;
      state := new real[2, 4];
      new;
      Update();
      Reset();
    }

    /** setCutoff: the source asserts the cutoff is below Nyquist. */
    method SetCutoff(newCutoffFrequencyHz: real)
      requires Valid() && newCutoffFrequencyHz < 0.5 * sampleRate
      modifies this`cutoffFrequency, this`g, this`h
      ensures Valid() && cutoffFrequency == newCutoffFrequencyHz
      ensures Coefs() == Design(math, newCutoffFrequencyHz, sampleRate)
    {
      cutoffFrequency := newCutoffFrequencyHz;
      Update();
    }

    /** prepare: asserts a positive rate and one or two channels, redesigns
        and clears the registers of those channels. */
    method Prepare(newSampleRate: real, newNumChannels: int)
      requires Valid()
      requires newSampleRate > 0.0 && 0 < newNumChannels <= 2
      modifies this`numChannels, this`sampleRate, this`g, this`h, state
      ensures Valid()
      ensures numChannels == newNumChannels && sampleRate == newSampleRate
      ensures cutoffFrequency == old(cutoffFrequency)
      ensures Coefs() == Design(math, cutoffFrequency, newSampleRate)
      ensures forall ch :: 0 <= ch < 2 ==> Channel(ch) == if ch < newNumChannels then ZeroRegs else old(Channel(ch))
    {
      numChannels := newNumChannels;
      sampleRate := newSampleRate;
      Update();
      Reset();
    }

    /** reset: clears the four registers of every channel below numChannels. */
    method Reset()
      requires Valid()
      modifies state
      ensures forall ch :: 0 <= ch < 2 ==> Channel(ch) == if ch < numChannels then ZeroRegs else old(Channel(ch))
    {
      for ch := 0 to numChannels
        invariant forall c, k :: 0 <= c < 2 && 0 <= k < 4 ==> state[c, k] == if c < ch then 0.0 else old(state[c, k])
      {
        state[ch, 0] := 0.0;
        state[ch, 1] := 0.0;
        state[ch, 2] := 0.0;
        state[ch, 3] := 0.0;
      }
    }

    /** processSample(channel, x, low, high): only that channel's registers move. */
    method ProcessSample(channel: int, x: real) returns (low: real, high: real)
      requires Valid() && 0 <= channel < 2
      modifies state
      ensures Out(Channel(channel), low, high) == Step(Coefs(), old(Channel(channel)), x)
      ensures Channel(1 - channel) == old(Channel(1 - channel))
    {
      var yH, yB, yL, s0, s1 := SectionUpdate(g, h, state[channel, 0], state[channel, 1], x);
      var yH2, yB2, yL2, s2, s3 := SectionUpdate(g, h, state[channel, 2], state[channel, 3], yL);
      low := yL2;
      high := yL - R2 * yB + yH - yL2;
      state[channel, 0] := s0;
      state[channel, 1] := s1;
      state[channel, 2] := s2;
      state[channel, 3] := s3;
    }

    /** snapToZero: the denormal sweep over the channels below numChannels. */
    method SnapToZero()
      requires Valid()
      modifies state
      ensures forall ch :: 0 <= ch < 2 ==> Channel(ch) == if ch < numChannels then SnapRegs(old(Channel(ch))) else old(Channel(ch))
    {
      for ch := 0 to numChannels
        invariant forall c, k :: 0 <= c < 2 && 0 <= k < 4 ==>
          state[c, k] == if c < ch then SnapValue(old(state[c, k])) else old(state[c, k])
      {
        for k := 0 to 4
          invariant forall c, j :: 0 <= c < 2 && 0 <= j < 4 ==>
            state[c, j] == if c < ch || (c == ch && j < k) then SnapValue(old(state[c, j])) else old(state[c, j])
        {
          if Abs(state[ch, k]) < SnapThreshold {
            state[ch, k] := 0.0;
          }
        }
      }
    }

    /** The code processSample repeats for each of its two sections. */
    static method SectionUpdate(g: real, h: real, s0: real, s1: real, x: real)
      returns (yH: real, yB: real, yL: real, n0: real, n1: real)
      ensures Section(yH, yB, yL, n0, n1) == SectionStep(Coeffs(g, h), s0, s1, x)
    {
      ghost var s := SectionStep(Coeffs(g, h), s0, s1, x);
      yH := (x - (R2 + g) * s0 - s1) * h;
      assert yH == s.hp;
      var tB := g * yH;
      yB := tB + s0;
      n0 := tB + yB;
      assert yB == s.bp && n0 == s.sa;
      var tL := g * yB;
      yL := tL + s1;
      n1 := tL + yL;
      assert yL == s.lp && n1 == s.sb;
    }

    /** update(): the coefficients follow the stored cutoff and rate. */
    method Update()
      modifies this`g, this`h
      ensures Coefs() == Design(math, cutoffFrequency, sampleRate)
    {
      g := math.tan(Div(Pi * cutoffFrequency, sampleRate));
      h := Div(1.0, 1.0 + R2 * g + g * g);
    }
  }
}
