/** The daisysp delay line, a foreign library, seen only through the calls the
    tape chain makes on it. Its storage is abstracted to the sequence of samples
    written since the last Init, and its (interpolating) read is an uninterpreted
    function of that history and of the delay setting. */
module DelayLines {

  class DelayLine {
    /** Read(): interpolated read at the stored delay. */
    const interp: (seq<real>, real) -> real
    /** ReadHermite(d): cubic read at an explicit delay. */
    const hermite: (seq<real>, real) -> real

    /** Samples written since Init, oldest first. */
    var written: seq<real>
    /** The delay set by SetDelay, in samples. */
    var delay: real

    constructor (interp: (seq<real>, real) -> real, hermite: (seq<real>, real) -> real)
      ensures this.interp == interp && this.hermite == hermite
      ensures written == [] && delay == 0.0
    {
      this.interp := interp;
      this.hermite := hermite;
      written := [];
      delay := 0.0;
    }

    /** Clears the line. */
    method Init()
      modifies this`written
      ensures written == []
    {
      written := [];
    }

    method SetDelay(d: real)
      modifies this`delay
      ensures delay == d
    {
      delay := d;
    }

    method Write(x: real)
      modifies this`written
      ensures written == old(written) + [x]
    {
      written := written + [x];
    }

    method Read() returns (y: real)
      ensures y == interp(written, delay)
    {
      y := interp(written, delay);
    }

    method ReadHermite(d: real) returns (y: real)
      ensures y == hermite(written, d)
    {
      y := hermite(written, d);
    }
  }

  /** The history of a delay line that may be unlinked (empty when it is). */
  ghost function History(dl: DelayLine?): seq<real>
    reads dl
  {
    if dl == null then [] else dl.written
  }

  /** The delay setting of a delay line that may be unlinked (0 when it is). */
  ghost function Setting(dl: DelayLine?): real
    reads dl
  {
    if dl == null then 0.0 else dl.delay
  }

  /** What Read returns after each of a run of Writes, one Read per Write:
      the n-th read sees xs[..n + 1] appended to the history. */
  function ReadsAfterWrites(read: (seq<real>, real) -> real, written: seq<real>, delay: real, xs: seq<real>): (r: seq<real>)
    ensures |r| == |xs|
  {
    seq(|xs|, n requires 0 <= n < |xs| => read(written + xs[..n + 1], delay))
  }
}
