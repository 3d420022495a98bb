/** The sub-processors of the Degrade stage (include/DaisyDegrade.h): the shared
    random source, the noise generator with its gain ramp, the one-pole filter with
    its frequency slew, and the level detector. Each class is proved against the
    pure functions of DegradeSpec. */
module DegradeParts {
  import opened DspMath
  import opened DegradeSpec

  /** The C library generator that every RandomGen calls: a fixed stream of draws
      (rand() / RAND_MAX) and the number taken so far. */
  class Rand {
    const draws: nat -> real
    var used: nat

    constructor (draws: nat -> real)
      ensures this.draws == draws && used == 0
    {
      this.draws := draws;
      used := 0;
    }

    /** nextFloat(): the next draw of the stream. */
    method NextFloat() returns (x: real)
      modifies this`used
      ensures x == Draw(draws, old(used)) && used == old(used) + 1
    {
      x := Draw(draws, used);
      used := used + 1;
    }
  }

  class DegradeNoise {
    var curGain: real
    var prevGain: real

    function State(): NoiseState
      reads this
    {
      NoiseState(curGain, prevGain)
    }

    /** Both gains start at 0 (member initialisers). */
    constructor ()
      ensures State() == NoiseState(0.0, 0.0)
    {
      curGain := 0.0;
      prevGain := 0.0;
    }

    method Prepare()
      modifies this
      ensures State() == NoiseState(0.0, 0.0)
    {
      curGain := 0.0;
      prevGain := 0.0;
    }

    /** setGain: only the gain being moved to changes. */
    method SetGain(newGain: real)
      modifies this`curGain
      ensures State() == old(State()).(cur := newGain)
    {
      curGain := newGain;
    }

    /** processBlock: numSamples noise samples into buffer, at constant gain or on the
        ramp from prevGain to curGain; a ramp ends with prevGain = curGain. */
    method ProcessBlock(buffer: array<real>, numSamples: int, rng: Rand)
      requires 0 <= numSamples <= buffer.Length
      modifies this`prevGain, buffer, rng`used
      ensures State() == NoiseAfter(old(State()))
      ensures Abs(curGain - prevGain) < 0.00001
      ensures rng.used == old(rng.used) + numSamples
      ensures buffer[..numSamples] == NoiseBlock(old(State()), rng.draws, old(rng.used), numSamples)
      ensures forall j :: numSamples <= j < buffer.Length ==> buffer[j] == old(buffer[j])
    {
      ghost var s0, u0 := State(), rng.used;
      if Abs(curGain - prevGain) < 0.00001 {
        for n := 0 to numSamples
          invariant rng.used == u0 + n && State() == s0
          invariant forall k :: 0 <= k < n ==> buffer[k] == NoiseAt(s0, rng.draws, u0, numSamples, k)
          invariant forall j :: numSamples <= j < buffer.Length ==> buffer[j] == old(buffer[j])
        {
          var x := rng.NextFloat();
          buffer[n] := NoiseSample(x, curGain);
        }
      } else {
        for n := 0 to numSamples
          invariant rng.used == u0 + n && State() == s0
          invariant forall k :: 0 <= k < n ==> buffer[k] == NoiseAt(s0, rng.draws, u0, numSamples, k)
          invariant forall j :: numSamples <= j < buffer.Length ==> buffer[j] == old(buffer[j])
        {
          var g := Ramp(prevGain, curGain, (n as real) / (numSamples as real));
          var x := rng.NextFloat();
          buffer[n] := NoiseSample(x, g);
        }
        prevGain := curGain;
      }
      assert buffer[..numSamples] == NoiseBlock(s0, rng.draws, u0, numSamples);
    }
  }

  class DegradeFilter {
    /** The transcendental functions the coefficient design uses. */
    const math: MathLib
    var fs: real
    var currentFreq: real
    var targetFreq: real
    var b0: real
    var b1: real
    var a1: real
    var z1: real

    function State(): FilterState
      reads this
    {
      FilterState(fs, currentFreq, targetFreq, OnePole(b0, b1, a1), z1)
    }

    /** The default constructor resets at 48 kHz. */
    constructor (math: MathLib)
      ensures this.math == math && State() == FilterReset(math, 48000.0)
    {
      this.math := math;
      new;
      Reset(48000.0);
    }

    method Reset(sampleRate: real)
      modifies this`fs, this`currentFreq, this`targetFreq, this`b0, this`b1, this`a1, this`z1
      ensures State() == FilterReset(math, sampleRate)
    {
      fs := sampleRate;
      z1 := 0.0;
      targetFreq := 20000.0;
      currentFreq := 20000.0;
      CalcCoefs(currentFreq);
    }

    /** setFreq: only the target moves; the slew in Process follows it. */
    method SetFreq(newFreq: real)
      modifies this`targetFreq
      ensures State() == old(State()).(targetFreq := newFreq)
    {
      targetFreq := newFreq;
    }

    /** calcCoefs(fc): b[0] = b[1] = 1/a0 and a[1] = (1 - c)/a0 with c = 1/tan(pi fc / fs). */
    method CalcCoefs(fc: real)
      modifies this`b0, this`b1, this`a1
      ensures State() == old(State()).(coefs := OnePoleDesign(math, fs, fc))
    {
      var wc := Div(2.0 * Pi * fc, fs);
      var tanVal := math.tan(wc * 0.5);
      var c := Div(1.0, tanVal);
      var a0 := c + 1.0;
      b0 := Div(1.0, a0);
      b1 := b0;
      a1 := Div(1.0 - c, a0);
    }

    /** process(buffer + off, numSamples): one slew step, then the filter in place. */
    method Process(buffer: array<real>, off: int, numSamples: int)
      requires 0 <= off && 0 <= numSamples && off + numSamples <= buffer.Length
      modifies this`currentFreq, this`b0, this`b1, this`a1, this`z1, buffer
      ensures (State(), buffer[off..off + numSamples]) == FilterProcess(math, old(State()), old(buffer[off..off + numSamples]))
      ensures forall j :: 0 <= j < buffer.Length && !(off <= j < off + numSamples) ==> buffer[j] == old(buffer[j])
    {
      if Abs(targetFreq - currentFreq) > 1.0 {
        currentFreq := currentFreq + (targetFreq - currentFreq) * 0.1;
        CalcCoefs(currentFreq);
      }
      assert State() == FilterSlew(math, old(State()));
      Run(buffer, off, numSamples);
    }

    /** The sample loop of process: the filter over the block, carrying z[1]. */
    method Run(buffer: array<real>, off: int, numSamples: int)
      requires 0 <= off && 0 <= numSamples && off + numSamples <= buffer.Length
      modifies this`z1, buffer
      ensures z1 == OnePoleRun(OnePole(b0, b1, a1), old(z1), old(buffer[off..off + numSamples])).1
      ensures buffer[off..off + numSamples] == OnePoleRun(OnePole(b0, b1, a1), old(z1), old(buffer[off..off + numSamples])).0
      ensures forall j :: 0 <= j < buffer.Length && !(off <= j < off + numSamples) ==> buffer[j] == old(buffer[j])
    {
      ghost var xs := buffer[off..off + numSamples];
      var p := OnePole(b0, b1, a1);
      ghost var z0 := z1;
      for n := 0 to numSamples
        invariant z1 == OnePoleRun(p, z0, xs[..n]).1
        invariant forall k :: 0 <= k < n ==> buffer[off + k] == OnePoleRun(p, z0, xs[..n]).0[k]
        invariant forall k :: n <= k < numSamples ==> buffer[off + k] == xs[k]
        invariant forall j :: 0 <= j < buffer.Length && !(off <= j < off + numSamples) ==> buffer[j] == old(buffer[j])
      {
        ghost var prev := OnePoleRun(p, z0, xs[..n]);
        assert xs[..n + 1][..n] == xs[..n];
        var x := buffer[off + n];
        assert x == xs[..n + 1][n];
        var y := OnePoleOut(p, z1, x);
        z1 := OnePoleNext(p, y, x);
        buffer[off + n] := y;
        assert OnePoleRun(p, z0, xs[..n + 1]).0 == prev.0 + [y];
      }
      assert xs[..numSamples] == xs;
      assert buffer[off..off + numSamples] == OnePoleRun(p, z0, xs).0;
    }
  }

  class SimpleLevelDetector {
    /** The transcendental functions the coefficient design uses. */
    const math: MathLib
    var fs: real
    var envelope: real
    var attackCoeff: real
    var releaseCoeff: real

    function State(): DetState
      reads this
    {
      DetState(fs, envelope, attackCoeff, releaseCoeff)
    }

    /** The source leaves every field uninitialised until prepare. */
    constructor (math: MathLib)
      ensures this.math == math
    {
      this.math := math;
    }

    method Prepare(sampleRate: real)
      modifies this
      ensures State() == DetPrepare(math, sampleRate)
    {
      fs := sampleRate;
      envelope := 0.0;
      SetParameters(10.0, 200.0);
    }

    method SetParameters(attackMs: real, releaseMs: real)
      modifies this`attackCoeff, this`releaseCoeff
      ensures State() == DetSetParams(math, old(State()), attackMs, releaseMs)
    {
      attackCoeff := DetCoeff(math, attackMs, fs);
      releaseCoeff := DetCoeff(math, releaseMs, fs);
    }

    /** process(inL + off, inR + off, levelOut, numSamples): the envelope after each sample. */
    method Process(inL: array<real>, inR: array<real>, off: int, levelOut: array<real>, numSamples: int)
      requires 0 <= off && 0 <= numSamples && off + numSamples <= inL.Length && off + numSamples <= inR.Length
      requires numSamples <= levelOut.Length && levelOut != inL && levelOut != inR
      modifies this`envelope, levelOut
      ensures (State(), levelOut[..numSamples]) == EnvRun(old(State()), inL[off..off + numSamples], inR[off..off + numSamples])
      ensures forall j :: numSamples <= j < levelOut.Length ==> levelOut[j] == old(levelOut[j])
    {
      ghost var d0 := State();
      ghost var ls, rs := inL[off..off + numSamples], inR[off..off + numSamples];
      for i := 0 to numSamples
        invariant State() == EnvRun(d0, ls[..i], rs[..i]).0
        invariant forall k :: 0 <= k < i ==> levelOut[k] == EnvRun(d0, ls[..i], rs[..i]).1[k]
        invariant forall j :: numSamples <= j < levelOut.Length ==> levelOut[j] == old(levelOut[j])
      {
        ghost var prev := EnvRun(d0, ls[..i], rs[..i]);
        assert ls[..i + 1][..i] == ls[..i] && rs[..i + 1][..i] == rs[..i];
        var input := (Abs(inL[off + i]) + Abs(inR[off + i])) * 0.5;
        assert input == LevelIn(ls[..i + 1][i], rs[..i + 1][i]);
        assert State() == prev.0;
        ghost var e := EnvStep(prev.0, input);
        if input > envelope {
          envelope := EnvUpdate(attackCoeff, envelope, input);
        } else {
          envelope := EnvUpdate(releaseCoeff, envelope, input);
        }
        assert envelope == e;
        levelOut[i] := envelope;
        assert EnvRun(d0, ls[..i + 1], rs[..i + 1]).1 == prev.1 + [envelope];
      }
      assert ls[..numSamples] == ls && rs[..numSamples] == rs;
      assert levelOut[..numSamples] == EnvRun(d0, ls, rs).1;
    }
  }
}
