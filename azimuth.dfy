/** The azimuth stage (src/DaisyAzimuthProc.cpp, include/DaisyAzimuthProc.h):
    a tilted playback head reaches one track later than the other, so one
    channel is delayed by the path difference across the tape. Each channel has
    a delay line and a one-pole smoother over its delay in samples; the smoother
    snaps to its target once it is close and otherwise moves a fixed fraction
    of the way there. */
module Azimuth {
  import opened DspMath
  import opened DelayLines

  /** AZIMUTH_DELAY_SIZE: the capacity of each azimuth delay line, 2^18 samples. */
  const DelaySize: nat := 262144

  /** Smoothing time prepare() gives both smoothers, in seconds. */
  const SmoothTime: real := 0.05

  /** Distance below which Process() jumps straight to the target. */
  const SnapThreshold: real := 0.0001

  /** inches2meters. */
  function InchesToMeters(inches: real): (r: real)
    ensures r * 39.370078740157 == inches
    ensures r == 0.0 <==> inches == 0.0
  {
    inches / 39.370078740157
  }

  /** degreesToRadians. */
  function DegreesToRadians(deg: real): (r: real)
    ensures r * 180.0 == deg * Pi
  {
    deg * Pi / 180.0
  }

  /** tapeWidth: a quarter inch, in metres. */
  const TapeWidth: real := InchesToMeters(0.25)

  // ---------------------------------------------------------------------------
  // The smoother as functions

  /** The coefficient Init(sr, time) computes: 1 / (time * sr) capped at 1.
      A zero product makes the float quotient +infinity, which the cap turns into 1. */
  function SmoothCoeff(sampleRate: real, time: real): (k: real)
    ensures k <= 1.0
    ensures time * sampleRate > 0.0 ==> 0.0 < k
    ensures time * sampleRate >= 1.0 ==> k * (time * sampleRate) == 1.0
    ensures 0.0 <= time * sampleRate <= 1.0 ==> k == 1.0
  {
    var d := time * sampleRate;
    if d == 0.0 then 1.0
    else if 1.0 / d > 1.0 then 1.0
    else 1.0 / d
  }

  /** The value one Process() call moves `current` to. Outside the snap
      window the remaining distance shrinks by the factor 1 - coeff. */
  function SmoothStep(current: real, target: real, coeff: real): (r: real)
    ensures Abs(target - current) < SnapThreshold ==> r == target
    ensures Abs(target - current) >= SnapThreshold ==> target - r == (1.0 - coeff) * (target - current)
  {
    var diff := target - current;
    if Abs(diff) < SnapThreshold then target else current + diff * coeff
  }

  /** The current value after n Process() calls with a fixed target. */
  function Smoothed(current: real, target: real, coeff: real, n: nat): real
  {
    if n == 0 then current else SmoothStep(Smoothed(current, target, coeff, n - 1), target, coeff)
  }


  /** With a coefficient in [0, 1] a step never overshoots: the new value lies
      between the old value and the target, and no farther from the target. */
  lemma StepBetween(current: real, target: real, coeff: real)
    requires 0.0 <= coeff <= 1.0
    ensures Min(current, target) <= SmoothStep(current, target, coeff) <= Max(current, target)
    ensures Abs(target - SmoothStep(current, target, coeff)) <= Abs(target - current)
  {
    var r := SmoothStep(current, target, coeff);
    if Abs(target - current) >= SnapThreshold {
      var d := target - current;
      assert target - r == (1.0 - coeff) * d;
      if d >= 0.0 {
        MulNonNeg(d, 1.0 - coeff);
        MulNonNeg(d, coeff);
        assert r - current == d * coeff;
      } else {
        MulNonNeg(-d, 1.0 - coeff);
        MulNonNeg(-d, coeff);
        assert current - r == (-d) * coeff;
      }
    }
  }

  /** Once at its target the smoother stays there: a step from the target is the target. */
  lemma StepFixedPoint(target: real, coeff: real)
    ensures SmoothStep(target, target, coeff) == target
  {
  }

  /** Running m steps and then j more is running m + j steps. */
  lemma {:induction false} SmoothedSplit(current: real, target: real, coeff: real, m: nat, j: nat)
    ensures Smoothed(current, target, coeff, m + j) == Smoothed(Smoothed(current, target, coeff, m), target, coeff, j)
  {
    if j > 0 {
      SmoothedSplit(current, target, coeff, m, j - 1);
      assert m + j - 1 == m + (j - 1);
    }
  }

  /** Starting at the target, every later value is the target. */
  lemma {:induction false} SmoothedFixedPoint(target: real, coeff: real, n: nat)
    ensures Smoothed(target, target, coeff, n) == target
  {
    if n > 0 {
      SmoothedFixedPoint(target, coeff, n - 1);
      StepFixedPoint(target, coeff);
    }
  }

  /** Once the target is reached it is kept for as long as the target is unchanged. */
  lemma SmoothedHoldsTarget(current: real, target: real, coeff: real, m: nat, n: nat)
    requires m <= n && Smoothed(current, target, coeff, m) == target
    ensures Smoothed(current, target, coeff, n) == target
  {
    SmoothedSplit(current, target, coeff, m, n - m);
    SmoothedFixedPoint(target, coeff, n - m);
  }

  /** With a coefficient in [0, 1] every value of a run lies between the start and
      the target, and the distance to the target never grows from one step to the next. */
  lemma {:induction false} SmoothedBetween(current: real, target: real, coeff: real, n: nat)
    requires 0.0 <= coeff <= 1.0
    ensures Min(current, target) <= Smoothed(current, target, coeff, n) <= Max(current, target)
    ensures Abs(target - Smoothed(current, target, coeff, n + 1)) <= Abs(target - Smoothed(current, target, coeff, n))
  {
    StepBetween(Smoothed(current, target, coeff, n), target, coeff);
    if n > 0 {
      SmoothedBetween(current, target, coeff, n - 1);
      StepBetween(Smoothed(current, target, coeff, n - 1), target, coeff);
    }
  }

  /** A coefficient of 1 (a smoothing time at or below one sample) reaches the
      target on the first step and keeps it. */
  lemma SmoothedCoeffOne(current: real, target: real, n: nat)
    requires n >= 1
    ensures Smoothed(current, target, 1.0, n) == target
  {
    assert Smoothed(current, target, 1.0, 1) == SmoothStep(current, target, 1.0);
    SmoothedHoldsTarget(current, target, 1.0, 1, n);
  }

  // ---------------------------------------------------------------------------
  // Target selection

  /** Which channel setAzimuthAngle delays: the left (0) for a negative angle,
      the right (1) otherwise. */
  function DelayedChannel(angleDeg: real): (ch: int)
    ensures 0 <= ch < 2
    ensures ch == 0 <==> angleDeg < 0.0
  {
    if angleDeg < 0.0 then 0 else 1
  }

  /** Extra distance the tilted head travels to the far track, in metres. */
  function PathDifference(m: MathLib, angleDeg: real): real
  {
    TapeWidth * m.sin(DegreesToRadians(Abs(angleDeg)))
  }

  /** delaySamp as the source computes it: the path difference times the tape
      speed times the sample rate. */
  function DelaySamplesAsWritten(m: MathLib, angleDeg: real, tapeSpeedIps: real, fs: real): real
  {
    PathDifference(m, angleDeg) * InchesToMeters(tapeSpeedIps) * fs
  }

  /** The delay in samples: the time the tape needs to cover the path
      difference (distance over speed), times the sample rate. A zero speed
      gives no delay. */
  function DelaySamples(m: MathLib, angleDeg: real, tapeSpeedIps: real, fs: real): (r: real)
    ensures tapeSpeedIps != 0.0 ==> r * InchesToMeters(tapeSpeedIps) == PathDifference(m, angleDeg) * fs
  {
    Div(PathDifference(m, angleDeg), InchesToMeters(tapeSpeedIps)) * fs
  }

  /** As written, doubling the tape speed doubles the delay, although a faster
      tape covers the path difference in less time. */
  lemma AsWrittenGrowsWithSpeed(m: MathLib, angleDeg: real, tapeSpeedIps: real, fs: real)
    ensures DelaySamplesAsWritten(m, angleDeg, 2.0 * tapeSpeedIps, fs) == 2.0 * DelaySamplesAsWritten(m, angleDeg, tapeSpeedIps, fs)
  {
  }

  /** At 15 ips and 48 kHz, with any nonzero path difference, the as-written
      delay does not correspond to the time the tape takes to cover that distance. */
  lemma AsWrittenMissesTravelTime(m: MathLib, angleDeg: real)
    requires PathDifference(m, angleDeg) != 0.0
    ensures DelaySamplesAsWritten(m, angleDeg, 15.0, 48000.0) * InchesToMeters(15.0) != PathDifference(m, angleDeg) * 48000.0
  {
    var p, v := PathDifference(m, angleDeg), InchesToMeters(15.0);
    assert v * v < 1.0;
    assert DelaySamplesAsWritten(m, angleDeg, 15.0, 48000.0) * v == (p * 48000.0) * (v * v);
  }

  /** The corrected delay halves when the tape runs twice as fast. */
  lemma DelayHalvesAtDoubleSpeed(m: MathLib, angleDeg: real, tapeSpeedIps: real, fs: real)
    requires tapeSpeedIps != 0.0
    ensures 2.0 * DelaySamples(m, angleDeg, 2.0 * tapeSpeedIps, fs) == DelaySamples(m, angleDeg, tapeSpeedIps, fs)
  {
    var v := InchesToMeters(tapeSpeedIps);
    assert InchesToMeters(2.0 * tapeSpeedIps) == 2.0 * v;
  }

  /** The smoother target setAzimuthAngle gives channel `ch`: the delay plus the
      one-sample read offset on the delayed channel, 1.0 (no extra delay) on the other. */
  function ChannelTarget(m: MathLib, ch: int, angleDeg: real, tapeSpeedIps: real, fs: real): real
  {
    if ch == DelayedChannel(angleDeg) then DelaySamples(m, angleDeg, tapeSpeedIps, fs) + 1.0 else 1.0
  }

  /** The delay depends on the angle only through its magnitude, so negating a
      nonzero angle swaps the two channels' targets. */
  lemma NegationSwapsTargets(m: MathLib, ch: int, angleDeg: real, tapeSpeedIps: real, fs: real)
    requires 0 <= ch < 2 && angleDeg != 0.0
    ensures ChannelTarget(m, ch, -angleDeg, tapeSpeedIps, fs) == ChannelTarget(m, 1 - ch, angleDeg, tapeSpeedIps, fs)
  {
    assert Abs(-angleDeg) == Abs(angleDeg);
  }

  /** At most one channel is delayed: the other always gets the bare offset 1.0. */
  lemma OneChannelUndelayed(m: MathLib, angleDeg: real, tapeSpeedIps: real, fs: real)
    ensures ChannelTarget(m, 1 - DelayedChannel(angleDeg), angleDeg, tapeSpeedIps, fs) == 1.0
  {
  }

  /** With a non-negative sine, tape speed and sample rate the delayed channel's
      target is at least the zero-latency offset 1.0. */
  lemma TargetAtLeastOne(m: MathLib, ch: int, angleDeg: real, tapeSpeedIps: real, fs: real)
    requires 0 <= ch < 2 && m.sin(DegreesToRadians(Abs(angleDeg))) >= 0.0
    requires tapeSpeedIps >= 0.0 && fs >= 0.0
    ensures ChannelTarget(m, ch, angleDeg, tapeSpeedIps, fs) >= 1.0
  {
    var p := PathDifference(m, angleDeg);
    MulNonNeg(m.sin(DegreesToRadians(Abs(angleDeg))), TapeWidth);
    if tapeSpeedIps != 0.0 {
      var v := InchesToMeters(tapeSpeedIps);
      assert v > 0.0;
      assert p / v >= 0.0;
      MulNonNeg(p / v, fs);
    }
  }

  // ---------------------------------------------------------------------------
  // The per-channel block

  /** What the n-th sample of a block reads: the smoother advanced n + 1 times,
      the input written up to and including sample n, a cubic read at that delay. */
  function AzimuthReads(hermite: (seq<real>, real) -> real, written: seq<real>,
                        current: real, target: real, coeff: real, xs: seq<real>): (r: seq<real>)
    ensures |r| == |xs|
  {
    seq(|xs|, n requires 0 <= n < |xs| => hermite(written + xs[..n + 1], Smoothed(current, target, coeff, n + 1)))
  }

  /** A settled smoother reads every sample at the fixed target delay. */
  lemma SettledReads(hermite: (seq<real>, real) -> real, written: seq<real>, target: real, coeff: real, xs: seq<real>)
    ensures AzimuthReads(hermite, written, target, target, coeff, xs) == ReadsAfterWrites(hermite, written, target, xs)
  {
    forall n | 0 <= n < |xs|
      ensures AzimuthReads(hermite, written, target, target, coeff, xs)[n] == ReadsAfterWrites(hermite, written, target, xs)[n]
    {
      SmoothedFixedPoint(target, coeff, n + 1);
    }
  }

  /** The number of samples a loop `for (i = 0; i < blockSize; i++)` visits. */
  function BlockLen(blockSize: int): (n: nat)
    ensures blockSize >= 0 ==> n == blockSize
    ensures blockSize < 0 ==> n == 0
  {
    if blockSize < 0 then 0 else blockSize
  }

  // ---------------------------------------------------------------------------
  // The classes

  /** AzimuthSmoother. */
  class AzimuthSmoother {
    var current: real
    var target: real
    var coeff: real

    /** The C++ members start indeterminate; here they start at the values given. */
    constructor (current: real, target: real, coeff: real)
      ensures this.current == current && this.target == target && this.coeff == coeff
    {
      this.current := current;
      this.target := target;
      this.coeff := coeff;
    }

    method Init(sampleRate: real, timeSec: real)
      modifies this
      ensures coeff == SmoothCoeff(sampleRate, timeSec)
      ensures current == 0.0 && target == 0.0
    {
      var d := timeSec * sampleRate;
      if d == 0.0 {
        // 1 / 0 is +infinity in float arithmetic, which the cap brings to 1
        coeff := 1.0;
      } else {
        coeff := 1.0 / d;
        if coeff > 1.0 {
          coeff := 1.0;
        }
      }
      current := 0.0;
      target := 0.0;
    }

    method SetTarget(t: real)
      modifies this`target
      ensures target == t
    {
      target := t;
    }

    /** Jumps to `val` with nothing left to smooth. */
    method SetCurrent(val: real)
      modifies this`current, this`target
      ensures current == val && target == val
    {
      current := val;
      target := val;
    }

    method Process() returns (y: real)
      modifies this`current
      ensures current == SmoothStep(old(current), target, coeff)
      ensures y == current
    {
      var diff := target - current;
      if Abs(diff) < SnapThreshold {
        current := target;
      } else {
        current := current + diff * coeff;
      }
      y := current;
    }

    method GetCurrent() returns (y: real)
      ensures y == current
    {
      y := current;
    }
  }

  /** One channel of processBlock: a pass-through when the channel has no delay
      line; otherwise, sample by sample, advance the smoother, write the input,
      and read at the smoothed delay. Input and output may be the same array. */
  method RunChannel(dl: DelayLine?, sm: AzimuthSmoother, input: array<real>, output: array<real>, n: nat)
    requires n <= input.Length && n <= output.Length
    modifies output, dl, sm`current
    ensures output[n..] == old(output[n..])
    ensures dl == null ==> output[..n] == old(input[..n]) && sm.current == old(sm.current)
    ensures dl != null ==> output[..n] == AzimuthReads(dl.hermite, old(dl.written), old(sm.current), sm.target, sm.coeff, old(input[..n]))
    ensures dl != null ==> sm.current == Smoothed(old(sm.current), sm.target, sm.coeff, n)
    ensures dl != null ==> dl.written == old(dl.written) + old(input[..n]) && dl.delay == old(dl.delay)
  {
    ghost var xs := input[..n];
    if dl == null {
      for i := 0 to n
        invariant forall k :: i <= k < n ==> input[k] == xs[k]
        invariant forall k :: 0 <= k < i ==> output[k] == xs[k]
        invariant output[n..] == old(output[n..]) && sm.current == old(sm.current)
      {
        output[i] := input[i];
      }
      return;
    }
    ghost var w, c0 := dl.written, sm.current;
    for i := 0 to n
      invariant forall k :: i <= k < n ==> input[k] == xs[k]
      invariant forall k :: 0 <= k < i ==> output[k] == dl.hermite(w + xs[..k + 1], Smoothed(c0, sm.target, sm.coeff, k + 1))
      invariant output[n..] == old(output[n..])
      invariant sm.current == Smoothed(c0, sm.target, sm.coeff, i)
      invariant dl.written == w + xs[..i] && dl.delay == old(dl.delay)
    {
      var cur := sm.Process();
      assert cur == Smoothed(c0, sm.target, sm.coeff, i + 1);
      dl.Write(input[i]);
      assert xs[..i + 1] == xs[..i] + [xs[i]];
      assert dl.written == w + xs[..i + 1];
      output[i] := dl.ReadHermite(cur);
    }
    assert xs[..n] == xs;
  }

  /** AzimuthProc. */
  class AzimuthProc {
    var fs: real
    /** delays[0], delays[1]: the externally allocated delay lines, possibly absent. */
    var delayL: DelayLine?
    var delayR: DelayLine?
    /** delaySampSmooth[0], delaySampSmooth[1]. */
    const smoothL: AzimuthSmoother
    const smoothR: AzimuthSmoother

    /** The two channels have their own smoothers. */
    predicate Valid()
      reads this
    {
      smoothL != smoothR
    }

    function Smoother(ch: int): AzimuthSmoother
      requires 0 <= ch < 2
      reads this
    {
      if ch == 0 then smoothL else smoothR
    }

    function Delay(ch: int): DelayLine?
      requires 0 <= ch < 2
      reads this
    {
      if ch == 0 then delayL else delayR
    }

    /** The C++ constructor leaves fs and the delay pointers indeterminate; here
        they start at 0 and absent. */
    constructor ()
      ensures Valid() && fs == 0.0 && delayL == null && delayR == null
      ensures fresh(smoothL) && fresh(smoothR)
    {
      fs := 0.0;
      delayL := null;
      delayR := null;
      smoothL := new AzimuthSmoother(0.0, 0.0, 0.0);
      smoothR := new AzimuthSmoother(0.0, 0.0, 0.0);
    }

    /** Stores the sample rate, clears the present delay lines and starts both
        smoothers settled at 1.0 (zero extra delay). */
    method Prepare(sampleRate: real)
      requires Valid()
      modifies this`fs, delayL, delayR, smoothL, smoothR
      ensures Valid() && fs == sampleRate
      ensures forall ch :: 0 <= ch < 2 ==>
        Smoother(ch).current == 1.0 && Smoother(ch).target == 1.0 && Smoother(ch).coeff == SmoothCoeff(sampleRate, SmoothTime)
      ensures forall ch :: 0 <= ch < 2 && Delay(ch) != null ==> Delay(ch).written == []
    {
      fs := sampleRate;
      for ch := 0 to 2
        invariant Valid() && fs == sampleRate
        invariant forall c :: 0 <= c < ch ==>
          Smoother(c).current == 1.0 && Smoother(c).target == 1.0 && Smoother(c).coeff == SmoothCoeff(sampleRate, SmoothTime)
        invariant forall c :: 0 <= c < ch && Delay(c) != null ==> Delay(c).written == []
      {
        if Delay(ch) != null {
          Delay(ch).Init();
        }
        Smoother(ch).Init(sampleRate, SmoothTime);
        Smoother(ch).SetCurrent(1.0);
      }
    }

    method SetDelayLinePointers(l: DelayLine?, r: DelayLine?)
      modifies this`delayL, this`delayR
      ensures delayL == l && delayR == r
    {
      delayL := l;
      delayR := r;
    }

    /** Points the delayed channel's smoother at the delay for this tilt and the
        other channel's at the bare offset 1.0. */
    method SetAzimuthAngle(m: MathLib, angleDeg: real, tapeSpeedIps: real)
      requires Valid()
      modifies smoothL`target, smoothR`target
      ensures forall ch :: 0 <= ch < 2 ==> Smoother(ch).target == ChannelTarget(m, ch, angleDeg, tapeSpeedIps, fs)
    {
      var delayIdx := if angleDeg < 0.0 then 0 else 1;
      var tapeSpeed := InchesToMeters(tapeSpeedIps);
      var azimuthAngle := DegreesToRadians(Abs(angleDeg));
      var delayDist := TapeWidth * m.sin(azimuthAngle);
      var delaySamp := Div(delayDist, tapeSpeed) * fs;
      Smoother(delayIdx).SetTarget(delaySamp + 1.0);
      Smoother(1 - delayIdx).SetTarget(1.0);
    }

    /** Runs both channels over the first blockSize samples. The in-place call
        (out == in on a channel) is allowed; the left output must not be the
        right input or output, which would change what the right channel reads
        or overwrite the left result. */
    method ProcessBlock(inL: array<real>, inR: array<real>, outL: array<real>, outR: array<real>, blockSize: int)
      requires Valid()
      requires blockSize <= inL.Length && blockSize <= inR.Length
      requires blockSize <= outL.Length && blockSize <= outR.Length
      requires outL != inR && outL != outR
      requires delayL == null || delayL != delayR
      modifies outL, outR, delayL, delayR, smoothL`current, smoothR`current
      ensures Valid()
      ensures outL[BlockLen(blockSize)..] == old(outL[BlockLen(blockSize)..])
      ensures outR[BlockLen(blockSize)..] == old(outR[BlockLen(blockSize)..])
      ensures delayL == null ==> outL[..BlockLen(blockSize)] == old(inL[..BlockLen(blockSize)]) && smoothL.current == old(smoothL.current)
      ensures delayR == null ==> outR[..BlockLen(blockSize)] == old(inR[..BlockLen(blockSize)]) && smoothR.current == old(smoothR.current)
      ensures delayL != null ==>
        outL[..BlockLen(blockSize)] == AzimuthReads(delayL.hermite, old(delayL.written), old(smoothL.current), smoothL.target, smoothL.coeff, old(inL[..BlockLen(blockSize)])) &&
        smoothL.current == Smoothed(old(smoothL.current), smoothL.target, smoothL.coeff, BlockLen(blockSize)) &&
        delayL.written == old(delayL.written) + old(inL[..BlockLen(blockSize)]) && delayL.delay == old(delayL.delay)
      ensures delayR != null ==>
        outR[..BlockLen(blockSize)] == AzimuthReads(delayR.hermite, old(delayR.written), old(smoothR.current), smoothR.target, smoothR.coeff, old(inR[..BlockLen(blockSize)])) &&
        smoothR.current == Smoothed(old(smoothR.current), smoothR.target, smoothR.coeff, BlockLen(blockSize)) &&
        delayR.written == old(delayR.written) + old(inR[..BlockLen(blockSize)]) && delayR.delay == old(delayR.delay)
    {
      var n := BlockLen(blockSize);
      RunChannel(delayL, smoothL, inL, outL, n);
      RunChannel(delayR, smoothR, inR, outR, n);
    }
  }
}
