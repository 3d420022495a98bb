/** The two filter kinds a loss-filter slot is made of (include/DaisyLossFilter.h):
    a stereo FIR over a circular state buffer, and a stereo direct-form-I biquad
    for the head bump. Each class is specified by a pure step function over a
    snapshot of its fields; the lemmas say what those steps mean. */
module LossFilterParts {
  import opened DspMath

  /** FIR length (taps and ring size). */
  const LossFirOrder: int := 70

  // ---------------------------------------------------------------------------
  // FIR: pure model

  /** The ring read backwards from the slot before `head`: the last
      LossFirOrder samples written, most recent first. */
  function Window(s: seq<real>, head: int): (w: seq<real>)
    requires |s| == LossFirOrder && 0 <= head < LossFirOrder
    ensures |w| == LossFirOrder
  {
    seq(LossFirOrder, i requires 0 <= i < LossFirOrder => s[(head - 1 - i) % LossFirOrder])
  }

  /** The sum the convolution loop accumulates after n taps:
      c[i] * s[(h - i) mod LossFirOrder] for i < n. */
  function RingConv(c: seq<real>, s: seq<real>, h: int, n: nat): real
    requires |c| == LossFirOrder && |s| == LossFirOrder && n <= LossFirOrder
  {
    if n == 0 then 0.0
    else RingConv(c, s, h, n - 1) + c[n - 1] * s[(h - (n - 1)) % LossFirOrder]
  }

  /** Stepping a ring index back by one wraps from 0 to LossFirOrder - 1. */
  lemma RingIndexStep(k: int)
    ensures (k - 1) % LossFirOrder == if k % LossFirOrder == 0 then LossFirOrder - 1 else k % LossFirOrder - 1
  {
  }

  /** The fields of a StereoFIR. */
  datatype FirSnap = FirSnap(coeffs: seq<real>, stateL: seq<real>, stateR: seq<real>, head: int)
  {
    ghost predicate Valid()
    {
      |coeffs| == LossFirOrder && |stateL| == LossFirOrder && |stateR| == LossFirOrder &&
      0 <= head < LossFirOrder
    }

    /** Last LossFirOrder left inputs, most recent first. */
    function HistoryL(): seq<real>
      requires Valid()
    {
      Window(stateL, head)
    }

    /** Last LossFirOrder right inputs, most recent first. */
    function HistoryR(): seq<real>
      requires Valid()
    {
      Window(stateR, head)
    }
  }

  /** One call of StereoFIR::process: write the inputs at `head`, convolve
      backwards from `head`, then advance `head` modulo the order. */
  function FirStep(f: FirSnap, inL: real, inR: real): (r: (FirSnap, real, real))
    requires f.Valid()
    ensures r.0.Valid() && r.0.coeffs == f.coeffs
  {
    var sL := f.stateL[f.head := inL];
    var sR := f.stateR[f.head := inR];
    (FirSnap(f.coeffs, sL, sR, (f.head + 1) % LossFirOrder),
     RingConv(f.coeffs, sL, f.head, LossFirOrder),
     RingConv(f.coeffs, sR, f.head, LossFirOrder))
  }

  /** Writing x at the head and advancing it shifts x into the front of the window. */
  lemma WindowAfterWrite(s: seq<real>, h: int, x: real)
    requires |s| == LossFirOrder && 0 <= h < LossFirOrder
    ensures Window(s[h := x], (h + 1) % LossFirOrder) == [x] + Window(s, h)[..LossFirOrder - 1]
  {
    var h' := (h + 1) % LossFirOrder;
    assert h' == if h == LossFirOrder - 1 then 0 else h + 1;
    var lhs := Window(s[h := x], h');
    var rhs := [x] + Window(s, h)[..LossFirOrder - 1];
    forall i | 0 <= i < LossFirOrder
      ensures lhs[i] == rhs[i]
    {
      assert (h' - 1 - i) % LossFirOrder == (h - i) % LossFirOrder;
      if i > 0 {
        assert (h - 1 - (i - 1)) % LossFirOrder == (h - i) % LossFirOrder;
      }
    }
  }

  /** The ring-indexed sum equals the dot product of the taps with the window. */
  lemma {:induction false} RingConvIsDot(c: seq<real>, s: seq<real>, h: int, n: nat)
    requires |c| == LossFirOrder && |s| == LossFirOrder && 0 <= h < LossFirOrder && n <= LossFirOrder
    ensures RingConv(c, s, h, n) == DotN(c, Window(s, (h + 1) % LossFirOrder), n)
  {
    if n > 0 {
      RingConvIsDot(c, s, h, n - 1);
      WrapShift(h, n - 1);
    }
  }

  /** Reading k places behind the advanced head reaches the slot k places behind the
      old head. */
  lemma WrapShift(h: int, k: int)
    requires 0 <= h < LossFirOrder
    ensures ((h + 1) % LossFirOrder - 1 - k) % LossFirOrder == (h - k) % LossFirOrder
  {
    if h == LossFirOrder - 1 {
      assert (h + 1) % LossFirOrder == 0;
      assert (h - k) % LossFirOrder == (-1 - k + LossFirOrder) % LossFirOrder;
    } else {
      assert (h + 1) % LossFirOrder == h + 1;
    }
  }

  /** StereoFIR::process is a convolution of the taps with the last LossFirOrder
      inputs of each channel: the new input enters the front of the history, the
      oldest leaves, and each output is the dot product of taps and history. */
  lemma FirStepIsConvolution(f: FirSnap, inL: real, inR: real)
    requires f.Valid()
    ensures FirStep(f, inL, inR).0.HistoryL() == [inL] + f.HistoryL()[..LossFirOrder - 1]
    ensures FirStep(f, inL, inR).0.HistoryR() == [inR] + f.HistoryR()[..LossFirOrder - 1]
    ensures FirStep(f, inL, inR).1 == DotN(f.coeffs, FirStep(f, inL, inR).0.HistoryL(), LossFirOrder)
    ensures FirStep(f, inL, inR).2 == DotN(f.coeffs, FirStep(f, inL, inR).0.HistoryR(), LossFirOrder)
  {
    WindowAfterWrite(f.stateL, f.head, inL);
    WindowAfterWrite(f.stateR, f.head, inR);
    RingConvIsDot(f.coeffs, f.stateL[f.head := inL], f.head, LossFirOrder);
    RingConvIsDot(f.coeffs, f.stateR[f.head := inR], f.head, LossFirOrder);
  }

  // ---------------------------------------------------------------------------
  // FIR: the class

  class StereoFIR {
    const coeffs: array<real>
    const stateL: array<real>
    const stateR: array<real>
    var head: int
    /** The contents of the three arrays and the head, as values. */
    ghost var model: FirSnap

    ghost predicate Valid()
      reads this, coeffs, stateL, stateR
    {
      coeffs.Length == LossFirOrder && stateL.Length == LossFirOrder && stateR.Length == LossFirOrder &&
      coeffs != stateL && coeffs != stateR && stateL != stateR &&
      0 <= head < LossFirOrder &&
      model == FirSnap(coeffs[..], stateL[..], stateR[..], head)
    }

    ghost function Repr(): set<object>
    {
      {this, coeffs, stateL, stateR}
    }

    ghost function Snap(): FirSnap
      reads this
    {
      model
    }

    constructor ()
      ensures Valid() && fresh(coeffs) && fresh(stateL) && fresh(stateR)
      ensures Snap() == FirSnap(Zeros(LossFirOrder), Zeros(LossFirOrder), Zeros(LossFirOrder), 0)
    {
      coeffs := new real[LossFirOrder];
      stateL := new real[LossFirOrder];
      stateR := new real[LossFirOrder];
      head := 0;
      new;
      model := FirSnap(coeffs[..], stateL[..], stateR[..], head);
      Reset();
    }

    /** Zeroes all taps and both rings and rewinds the head. */
    method Reset()
      requires Valid()
      modifies this`head, this`model, coeffs, stateL, stateR
      ensures Valid()
      ensures Snap() == FirSnap(Zeros(LossFirOrder), Zeros(LossFirOrder), Zeros(LossFirOrder), 0)
    {
      for i := 0 to LossFirOrder
        invariant forall j :: 0 <= j < i ==> coeffs[j] == 0.0 && stateL[j] == 0.0 && stateR[j] == 0.0
      {
        coeffs[i] := 0.0;
        stateL[i] := 0.0;
        stateR[i] := 0.0;
      }
      head := 0;
      model := FirSnap(coeffs[..], stateL[..], stateR[..], head);
    }

    /** Takes over the head and both rings of `other`; the taps stay. */
    method CopyStateFrom(other: StereoFIR)
      requires Valid() && other.Valid() && Repr() !! other.Repr()
      modifies this`head, this`model, stateL, stateR
      ensures Valid()
      ensures Snap() == old(other.Snap()).(coeffs := old(Snap()).coeffs)
    {
      for i := 0 to LossFirOrder
        invariant forall j :: 0 <= j < i ==> stateL[j] == other.stateL[j] && stateR[j] == other.stateR[j]
      {
        stateL[i] := other.stateL[i];
        stateR[i] := other.stateR[i];
      }
      head := other.head;
      model := FirSnap(coeffs[..], stateL[..], stateR[..], head);
    }

    /** Replaces the taps with the first LossFirOrder values of `newCoeffs`. */
    method SetCoefficients(newCoeffs: seq<real>)
      requires Valid() && |newCoeffs| >= LossFirOrder
      modifies this`model, coeffs
      ensures Valid()
      ensures Snap() == old(Snap()).(coeffs := newCoeffs[..LossFirOrder])
    {
      for i := 0 to LossFirOrder
        invariant forall j :: 0 <= j < i ==> coeffs[j] == newCoeffs[j]
      {
        coeffs[i] := newCoeffs[i];
      }
      model := FirSnap(coeffs[..], stateL[..], stateR[..], head);
    }

    /** One stereo sample through the FIR. */
    method Process(inL: real, inR: real) returns (outL: real, outR: real)
      requires Valid()
      modifies this`head, this`model, stateL, stateR
      ensures Valid()
      ensures (Snap(), outL, outR) == FirStep(old(Snap()), inL, inR)
    {
      ghost var before := Snap();
      stateL[head] := inL;
      stateR[head] := inR;
      assert stateL[..] == before.stateL[head := inL] && stateR[..] == before.stateR[head := inR];
      outL, outR := Convolve();
      head := head + 1;
      if head >= LossFirOrder {
        head := 0;
      }
      model := FirSnap(coeffs[..], stateL[..], stateR[..], head);
    }

    /** The convolution loop of process: taps against the ring, walking backwards
        from `head`. */
    method Convolve() returns (sumL: real, sumR: real)
      requires coeffs.Length == LossFirOrder && stateL.Length == LossFirOrder && stateR.Length == LossFirOrder
      requires 0 <= head < LossFirOrder
      ensures sumL == RingConv(coeffs[..], stateL[..], head, LossFirOrder)
      ensures sumR == RingConv(coeffs[..], stateR[..], head, LossFirOrder)
    {
      sumL, sumR := 0.0, 0.0;
      var idx := head;
      for i := 0 to LossFirOrder
        invariant 0 <= idx < LossFirOrder && idx == (head - i) % LossFirOrder
        invariant sumL == RingConv(coeffs[..], stateL[..], head, i)
        invariant sumR == RingConv(coeffs[..], stateR[..], head, i)
      {
        sumL := sumL + coeffs[i] * stateL[idx];
        sumR := sumR + coeffs[i] * stateR[idx];
        RingIndexStep(head - i);
        idx := idx - 1;
        if idx < 0 {
          idx := LossFirOrder - 1;
        }
      }
    }
  }

  // ---------------------------------------------------------------------------
  // Biquad: pure model

  /** The fields of a StereoBiquad; index 0 of each history is the most recent value. */
  datatype BiquadSnap = BiquadSnap(
    b0: real, b1: real, b2: real, a1: real, a2: real,
    xL: seq<real>, yL: seq<real>, xR: seq<real>, yR: seq<real>)
  {
    ghost predicate Valid()
    {
      |xL| == 2 && |yL| == 2 && |xR| == 2 && |yR| == 2
    }
  }

  /** The direct-form-I difference equation for one channel. */
  function DF1(q: BiquadSnap, x: real, xh: seq<real>, yh: seq<real>): real
    requires |xh| == 2 && |yh| == 2
  {
    q.b0 * x + q.b1 * xh[0] + q.b2 * xh[1] - q.a1 * yh[0] - q.a2 * yh[1]
  }

  /** One call of StereoBiquad::process: per channel, compute the output, then
      shift the input and the output into the two-deep histories. */
  function BiquadStep(q: BiquadSnap, inL: real, inR: real): (r: (BiquadSnap, real, real))
    requires q.Valid()
    ensures r.0.Valid()
  {
    var ln := DF1(q, inL, q.xL, q.yL);
    var rn := DF1(q, inR, q.xR, q.yR);
    (q.(xL := [inL, q.xL[0]], yL := [ln, q.yL[0]], xR := [inR, q.xR[0]], yR := [rn, q.yR[0]]), ln, rn)
  }

  /** A stereo sequence through the biquad, one BiquadStep per sample. */
  function BiquadRun(q: BiquadSnap, xsL: seq<real>, xsR: seq<real>): (r: (BiquadSnap, seq<real>, seq<real>))
    requires q.Valid() && |xsL| == |xsR|
    ensures r.0.Valid() && |r.1| == |xsL| && |r.2| == |xsL|
    decreases |xsL|
  {
    if xsL == [] then (q, [], [])
    else
      var n := |xsL| - 1;
      var prev := BiquadRun(q, xsL[..n], xsR[..n]);
      var step := BiquadStep(prev.0, xsL[n], xsR[n]);
      (step.0, prev.1 + [step.1], prev.2 + [step.2])
  }

  /** The coefficients of q with the given histories. */
  function WithHistories(q: BiquadSnap, h: BiquadSnap): BiquadSnap
  {
    q.(xL := h.xL, yL := h.yL, xR := h.xR, yR := h.yR)
  }

  /** A run changes the histories only. */
  lemma {:induction false} BiquadRunKeepsCoeffs(q: BiquadSnap, xsL: seq<real>, xsR: seq<real>)
    requires q.Valid() && |xsL| == |xsR|
    ensures BiquadRun(q, xsL, xsR).0 == WithHistories(q, BiquadRun(q, xsL, xsR).0)
    decreases |xsL|
  {
    if xsL != [] {
      var n := |xsL| - 1;
      BiquadRunKeepsCoeffs(q, xsL[..n], xsR[..n]);
    }
  }

  /** ye follows the difference equation of q's coefficients at every
      index from 2 on: ye[n] = b0 xe[n] + b1 xe[n-1] + b2 xe[n-2] - a1 ye[n-1] - a2 ye[n-2]
      (xe and ye are the input and output signals, oldest first). */
  ghost predicate FollowsDF1(q: BiquadSnap, xe: seq<real>, ye: seq<real>)
  {
    |xe| == |ye| &&
    forall n :: 2 <= n < |xe| ==> ye[n] == DF1(q, xe[n], [xe[n - 1], xe[n - 2]], [ye[n - 1], ye[n - 2]])
  }

  /** Extending both signals by one sample that obeys the equation keeps FollowsDF1. */
  lemma FollowsDF1Snoc(q: BiquadSnap, xe: seq<real>, ye: seq<real>, x: real, y: real)
    requires FollowsDF1(q, xe, ye) && |xe| >= 2
    requires y == DF1(q, x, [xe[|xe| - 1], xe[|xe| - 2]], [ye[|ye| - 1], ye[|ye| - 2]])
    ensures FollowsDF1(q, xe + [x], ye + [y])
  {
    var xe', ye' := xe + [x], ye + [y];
    forall k | 2 <= k < |xe'|
      ensures ye'[k] == DF1(q, xe'[k], [xe'[k - 1], xe'[k - 2]], [ye'[k - 1], ye'[k - 2]])
    {
      if k < |xe| {
        assert xe'[k] == xe[k] && [xe'[k - 1], xe'[k - 2]] == [xe[k - 1], xe[k - 2]];
        assert ye'[k] == ye[k] && [ye'[k - 1], ye'[k - 2]] == [ye[k - 1], ye[k - 2]];
      } else {
        assert [xe'[k - 1], xe'[k - 2]] == [xe[|xe| - 1], xe[|xe| - 2]];
        assert [ye'[k - 1], ye'[k - 2]] == [ye[|ye| - 1], ye[|ye| - 2]];
      }
    }
  }

  /** Over a whole run the biquad computes, on each channel, the difference equation
      y[n] = b0 x[n] + b1 x[n-1] + b2 x[n-2] - a1 y[n-1] - a2 y[n-2], where the
      signals are extended into the past by the starting histories; the coefficients
      are untouched and the histories end up holding the last two inputs and outputs. */
  lemma {:induction false} BiquadRunRecurrence(q: BiquadSnap, xsL: seq<real>, xsR: seq<real>)
    requires q.Valid() && |xsL| == |xsR|
    ensures FollowsDF1(q, [q.xL[1], q.xL[0]] + xsL, [q.yL[1], q.yL[0]] + BiquadRun(q, xsL, xsR).1)
    ensures BiquadRun(q, xsL, xsR).0.xL == Last2([q.xL[1], q.xL[0]] + xsL)
    ensures BiquadRun(q, xsL, xsR).0.yL == Last2([q.yL[1], q.yL[0]] + BiquadRun(q, xsL, xsR).1)
    ensures FollowsDF1(q, [q.xR[1], q.xR[0]] + xsR, [q.yR[1], q.yR[0]] + BiquadRun(q, xsL, xsR).2)
    ensures BiquadRun(q, xsL, xsR).0.xR == Last2([q.xR[1], q.xR[0]] + xsR)
    ensures BiquadRun(q, xsL, xsR).0.yR == Last2([q.yR[1], q.yR[0]] + BiquadRun(q, xsL, xsR).2)
    decreases |xsL|
  {
    if xsL != [] {
      var n := |xsL| - 1;
      BiquadRunRecurrence(q, xsL[..n], xsR[..n]);
      BiquadRunKeepsCoeffs(q, xsL[..n], xsR[..n]);
      var r := BiquadRun(q, xsL[..n], xsR[..n]);
      var xem := [q.xL[1], q.xL[0]] + xsL[..n];
      var yem := [q.yL[1], q.yL[0]] + r.1;
      var y := DF1(r.0, xsL[n], r.0.xL, r.0.yL);
      assert BiquadRun(q, xsL, xsR).1 == r.1 + [y];
      assert [q.xL[1], q.xL[0]] + xsL == xem + [xsL[n]];
      assert [q.yL[1], q.yL[0]] + BiquadRun(q, xsL, xsR).1 == yem + [y];
      assert r.0.xL == [xem[|xem| - 1], xem[|xem| - 2]] && r.0.yL == [yem[|yem| - 1], yem[|yem| - 2]];
      assert y == DF1(q, xsL[n], r.0.xL, r.0.yL);
      FollowsDF1Snoc(q, xem, yem, xsL[n], y);
      var xemR := [q.xR[1], q.xR[0]] + xsR[..n];
      var yemR := [q.yR[1], q.yR[0]] + r.2;
      var yR := DF1(r.0, xsR[n], r.0.xR, r.0.yR);
      assert BiquadRun(q, xsL, xsR).2 == r.2 + [yR];
      assert [q.xR[1], q.xR[0]] + xsR == xemR + [xsR[n]];
      assert [q.yR[1], q.yR[0]] + BiquadRun(q, xsL, xsR).2 == yemR + [yR];
      assert r.0.xR == [xemR[|xemR| - 1], xemR[|xemR| - 2]] && r.0.yR == [yemR[|yemR| - 1], yemR[|yemR| - 2]];
      assert yR == DF1(q, xsR[n], r.0.xR, r.0.yR);
      FollowsDF1Snoc(q, xemR, yemR, xsR[n], yR);
    } else {
      assert [q.xL[1], q.xL[0]] + xsL == [q.xL[1], q.xL[0]];
      assert [q.xR[1], q.xR[0]] + xsR == [q.xR[1], q.xR[0]];
    }
  }

  /** The last two elements of s, most recent first. */
  function Last2(s: seq<real>): (r: seq<real>)
    requires |s| >= 2
    ensures |r| == 2
  {
    [s[|s| - 1], s[|s| - 2]]
  }

  // ---------------------------------------------------------------------------
  // Biquad: the class

  class StereoBiquad {
    var b0: real
    var b1: real
    var b2: real
    var a1: real
    var a2: real
    /** The two-sample histories are value members of the struct. */
    var xL: seq<real>
    var yL: seq<real>
    var xR: seq<real>
    var yR: seq<real>

    ghost predicate Valid()
      reads this
    {
      |xL| == 2 && |yL| == 2 && |xR| == 2 && |yR| == 2
    }

    ghost function Repr(): set<object>
    {
      {this}
    }

    ghost function Snap(): BiquadSnap
      reads this
    {
      BiquadSnap(b0, b1, b2, a1, a2, xL, yL, xR, yR)
    }

    /** The struct has no constructor: coefficients and histories are unspecified. */
    constructor ()
      ensures Valid()
    {
      assert |[0.0, 0.0]| == 2;
      var h: seq<real> :| |h| == 2;
      xL, yL, xR, yR := h, h, h, h;
    }

    /** Zeroes both histories and all coefficients. */
    method Reset()
      modifies this
      ensures Valid()
      ensures Snap() == BiquadSnap(0.0, 0.0, 0.0, 0.0, 0.0, [0.0, 0.0], [0.0, 0.0], [0.0, 0.0], [0.0, 0.0])
    {
      xL, yL := [0.0, 0.0], [0.0, 0.0];
      xR, yR := [0.0, 0.0], [0.0, 0.0];
      b0, b1, b2, a1, a2 := 0.0, 0.0, 0.0, 0.0, 0.0;
    }

    /** Takes over the eight history registers of `other`; the coefficients stay. */
    method CopyStateFrom(other: StereoBiquad)
      requires Valid() && other.Valid()
      modifies this
      ensures Valid()
      ensures Snap() == old(Snap()).(xL := old(other.xL), yL := old(other.yL),
                                     xR := old(other.xR), yR := old(other.yR))
    {
      xL := [other.xL[0], other.xL[1]];
      yL := [other.yL[0], other.yL[1]];
      xR := [other.xR[0], other.xR[1]];
      yR := [other.yR[0], other.yR[1]];
    }

    /** Replaces the five coefficients; the histories stay. */
    method SetCoeffs(nb0: real, nb1: real, nb2: real, na1: real, na2: real)
      requires Valid()
      modifies this
      ensures Valid()
      ensures Snap() == old(Snap()).(b0 := nb0, b1 := nb1, b2 := nb2, a1 := na1, a2 := na2)
    {
      b0, b1, b2, a1, a2 := nb0, nb1, nb2, na1, na2;
    }

    /** One stereo sample through the biquad. */
    method Process(inL: real, inR: real) returns (outL: real, outR: real)
      requires Valid()
      modifies this
      ensures Valid()
      ensures (Snap(), outL, outR) == BiquadStep(old(Snap()), inL, inR)
    {
      var ln := b0 * inL + b1 * xL[0] + b2 * xL[1] - a1 * yL[0] - a2 * yL[1];
      xL := [inL, xL[0]];
      yL := [ln, yL[0]];
      outL := ln;

      var rn := b0 * inR + b1 * xR[0] + b2 * xR[1] - a1 * yR[0] - a2 * yR[1];
      xR := [inR, xR[0]];
      yR := [rn, yR[0]];
      outR := rn;
      ghost var q := old(Snap());
      assert ln == DF1(q, inL, q.xL, q.yL);
      assert rn == DF1(q, inR, q.xR, q.yR);
    }
  }
}
