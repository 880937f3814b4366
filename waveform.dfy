/** The signal generators of core/waveform.py: Wave and Pulse record their
    parameters and write amplitude * series into their stream's existing
    buffer; the rectangle and step series are built index by index; the sinc
    pulse contributes its width clamp and its centre rule.

    The sine-derived series (sin, sign, arcsin of the phase of the time base)
    and the random series are not computed here: a Wave receives its amplitude
    series as an argument. */
module Waveform {
  import opened Base
  import opened StreamCore

  /** The sum of a series. */
  function Total(s: seq<real>): real
  {
    if |s| == 0 then 0.0 else Total(s[..|s| - 1]) + s[|s| - 1]
  }

  /** A periodic generator bound to one stream; the frequency and the
      amplitude start at 1. */
  class Wave {
    const stream: Stream
    var frequency: real
    var amplitude: real
    const offset: real

    constructor (stream: Stream, offset: real := 0.0)
      ensures this.stream == stream && this.offset == offset
      ensures frequency == 1.0 && amplitude == 1.0
    {
      this.stream := stream;
      this.offset := offset;
      frequency := 1.0;
      amplitude := 1.0;
    }

    /** generate: records the frequency and the amplitude, then overwrites the
        stream's buffer in place with amplitude * series, where series is the
        shape's amplitude series for that frequency. numpy broadcasts a
        one-sample series over the buffer and refuses any other length but
        N, before writing anything. The offset is recorded by the constructor
        but never added. */
    method Generate(frequency: real, amplitude: real, series: seq<real>) returns (r: Result<Stream>)
      requires stream.Valid()
      modifies this`frequency, this`amplitude, stream.samples
      ensures stream.Valid() && this.frequency == frequency && this.amplitude == amplitude
      ensures r.Err? <==> |series| != stream.n && |series| != 1
      ensures r.Err? ==> r.error.ValueError? && stream.samples[..] == old(stream.samples[..])
      ensures r.Ok? ==> r.value == stream && stream.samples[..] == Scaled(Broadcast(series, stream.n), amplitude)
    {
      this.frequency := frequency;
      this.amplitude := amplitude;
      if |series| != stream.n && |series| != 1 {
        return Err(ValueError("could not broadcast the series into the output"));
      }
      WriteScaled(stream.samples, Broadcast(series, stream.n), this.amplitude);
      r := Ok(stream);
    }
  }

  /** Python's int() of a float: truncation toward zero. */
  function Trunc(x: real): (r: int)
    ensures x >= 0.0 ==> r as real <= x < r as real + 1.0
    ensures x < 0.0 ==> r as real - 1.0 < x <= r as real
  {
    if x >= 0.0 then x.Floor else -((-x).Floor)
  }

  /** RectanglePulse's pulse_start, int(N/2) - int(w/2), and pulse_end,
      int(pulse_start + w), for a width w. */
  function RectangleStart(n: nat, width: real): int
  {
    n / 2 - Trunc(width / 2.0)
  }

  function RectangleEnd(n: nat, width: real): int
  {
    Trunc(RectangleStart(n, width) as real + width)
  }

  /** The loop over range(pulse_start, pulse_end) reaches an index outside
      -N..N-1, where numpy raises IndexError. */
  predicate RectangleOverruns(n: nat, width: real)
  {
    var start, end := RectangleStart(n, width), RectangleEnd(n, width);
    start < end && (start + n < 0 || end > n)
  }

  /** The series the loop leaves when it does not overrun: 1 at every index
      written, where a negative index i stands for i + N. */
  function RectangleWritten(n: nat, width: real): (r: seq<real>)
    ensures |r| == n
  {
    var start, end := RectangleStart(n, width), RectangleEnd(n, width);
    seq(n, k requires 0 <= k < n => if start <= k < end || start <= k - n < end then 1.0 else 0.0)
  }

  /** Where a rectangle pulse of a whole width starts: int(N/2) - int(w/2). */
  function PulseStart(n: nat, width: nat): int
  {
    n / 2 - width / 2
  }

  /** A rectangle of a whole width: 1 on [start, start + width), 0 elsewhere. */
  function RectangleShape(n: nat, width: nat): (r: seq<real>)
    ensures |r| == n
  {
    seq(n, i requires 0 <= i < n => if PulseStart(n, width) <= i < PulseStart(n, width) + width then 1.0 else 0.0)
  }

  /** StepPulse's series: 0 before int(N/2), 1 from there on. */
  function StepShape(n: nat): (r: seq<real>)
    ensures |r| == n
  {
    seq(n, i requires 0 <= i < n => if i >= n / 2 then 1.0 else 0.0)
  }

  /** RectanglePulse.amplitude_series: a zero buffer with 1 written at each
      index of range(pulse_start, pulse_end), Python's negative indices
      counting from the end; the first index outside the buffer raises. */
  method RectangleSeries(n: nat, width: real) returns (r: Result<array<real>>)
    ensures r.Err? <==> RectangleOverruns(n, width)
    ensures r.Err? ==> r.error == IndexError
    ensures r.Ok? ==> fresh(r.value) && r.value[..] == RectangleWritten(n, width)
  {
    var a := new real[n](_ => 0.0);
    var pulseStart := n / 2 - Trunc(width / 2.0);
    var pulseEnd := Trunc(pulseStart as real + width);
    var i := pulseStart;
    while i < pulseEnd
      invariant pulseStart <= i && (i <= pulseEnd || i == pulseStart)
      invariant i > pulseStart ==> 0 <= pulseStart + n && i <= n
      invariant forall k :: 0 <= k < n ==> a[k] == (if pulseStart <= k < i || pulseStart <= k - n < i then 1.0 else 0.0)
    {
      if i + n < 0 || i >= n {
        return Err(IndexError);
      }
      if i >= 0 {
        a[i] := 1.0;
      } else {
        a[i + n] := 1.0;
      }
      i := i + 1;
    }
    r := Ok(a);
  }

  /** StepPulse.amplitude_series: ones from int(N/2) to the end; the width
      argument plays no part. */
  method StepSeries(n: nat) returns (a: array<real>)
    ensures fresh(a) && a[..] == StepShape(n)
  {
    a := new real[n](_ => 0.0);
    var pulseStart := n / 2;
    var pulseEnd := n;
    for i := pulseStart to pulseEnd
      invariant forall k :: 0 <= k < n ==> a[k] == (if pulseStart <= k < i then 1.0 else 0.0)
    {
      a[i] := 1.0;
    }
  }

  /** For a width within 0..N the pulse lies inside the buffer, so the loop
      never indexes outside it. */
  lemma RectangleFits(n: nat, width: nat)
    requires width <= n
    ensures 0 <= PulseStart(n, width) && PulseStart(n, width) + width <= n
  {
  }

  /** For a width up to N the loop stays inside the buffer, and it writes
      the rectangle of the width's whole part (none for a negative width). */
  lemma RectangleWithin(n: nat, width: real)
    requires width <= n as real
    ensures !RectangleOverruns(n, width)
    ensures width >= 0.0 ==> RectangleWritten(n, width) == RectangleShape(n, width.Floor)
    ensures width < 0.0 ==> RectangleWritten(n, width) == Zeros(n)
  {
    var start := RectangleStart(n, width);
    if width >= 0.0 {
      var w := width.Floor;
      var q := w / 2;
      assert w == 2 * q || w == 2 * q + 1;
      assert q as real <= width / 2.0 < q as real + 1.0;
      assert Trunc(width / 2.0) == q;
      assert start == PulseStart(n, w);
      RectangleFits(n, w);
      assert (start as real + width).Floor == start + w;
      assert RectangleEnd(n, width) == start + w;
    } else {
      assert start >= n / 2;
      assert RectangleEnd(n, width) <= start;
    }
  }

  /** The sum of a series that is 1 exactly on [lo, hi) and 0 elsewhere. */
  lemma {:induction false} IndicatorTotal(s: seq<real>, lo: nat, hi: nat)
    requires lo <= hi <= |s|
    requires forall i :: 0 <= i < |s| ==> s[i] == if lo <= i < hi then 1.0 else 0.0
    ensures Total(s) == (hi - lo) as real
  {
    if |s| > 0 {
      var m := |s| - 1;
      if hi <= m {
        IndicatorTotal(s[..m], lo, hi);
      } else if lo <= m {
        IndicatorTotal(s[..m], lo, m);
      } else {
        IndicatorTotal(s[..m], m, m);
      }
    }
  }

  /** A rectangle pulse of a width w within 0..N holds exactly int(w) ones. */
  lemma RectangleArea(n: nat, width: real)
    requires 0.0 <= width <= n as real
    ensures Total(RectangleWritten(n, width)) == width.Floor as real
  {
    var w := width.Floor;
    RectangleWithin(n, width);
    RectangleFits(n, w);
    IndicatorTotal(RectangleShape(n, w), PulseStart(n, w), PulseStart(n, w) + w);
  }

  /** A step holds N - int(N/2) ones, the second half of the buffer. */
  lemma StepArea(n: nat)
    ensures Total(StepShape(n)) == (n - n / 2) as real
  {
    IndicatorTotal(StepShape(n), n / 2, n);
  }

  /** The pulse shapes with a loop-built series. */
  datatype PulseShape = Rectangle | Step

  /** The series a shape generates for the given width when it does not raise. */
  function Shape(shape: PulseShape, n: nat, width: real): (r: seq<real>)
    ensures |r| == n
  {
    match shape
    case Rectangle => RectangleWritten(n, width)
    case Step => StepShape(n)
  }

  /** Pulse.max_width: int(N/10), the largest whole number of tenths of N. */
  function MaxWidth(n: nat): (r: nat)
    ensures r * 10 <= n < (r + 1) * 10
  {
    n / 10
  }

  /** A pulse generator bound to one stream; the width and the amplitude
      start at 1. */
  class Pulse {
    const stream: Stream
    const shape: PulseShape
    var width: real
    var amplitude: real
    const offset: real

    constructor (stream: Stream, shape: PulseShape, offset: real := 0.0)
      ensures this.stream == stream && this.shape == shape && this.offset == offset
      ensures width == 1.0 && amplitude == 1.0
    {
      this.stream := stream;
      this.shape := shape;
      this.offset := offset;
      width := 1.0;
      amplitude := 1.0;
    }

    /** generate: records the width and the amplitude, then overwrites the
        stream's buffer in place with amplitude * series; no offset is added.
        A rectangle series that overruns the buffer raises before anything
        is written; a step ignores the width. */
    method Generate(width: real, amplitude: real) returns (r: Result<Stream>)
      requires stream.Valid()
      modifies this`width, this`amplitude, stream.samples
      ensures stream.Valid() && this.width == width && this.amplitude == amplitude
      ensures r.Err? <==> shape.Rectangle? && RectangleOverruns(stream.n, width)
      ensures r.Err? ==> r.error == IndexError && stream.samples[..] == old(stream.samples[..])
      ensures r.Ok? ==> r.value == stream && stream.samples[..] == Scaled(Shape(shape, stream.n, width), amplitude)
    {
      this.width := width;
      this.amplitude := amplitude;
      var series: array<real>;
      match shape {
        case Rectangle =>
          var built := RectangleSeries(stream.n, width);
          if built.Err? {
            return Err(built.error);
          }
          series := built.value;
        case Step =>
          series := StepSeries(stream.n);
      }
      WriteScaled(stream.samples, series[..], this.amplitude);
      r := Ok(stream);
    }
  }

  /** SincPulse's bandwidth: widths below 0.001 are raised to 0.001. */
  function SincBandwidth(width: real): (r: real)
    ensures r >= 0.001
    ensures width >= 0.001 ==> r == width
    ensures width < 0.001 ==> r == 0.001
  {
    if width < 0.001 then 0.001 else width
  }

  /** Sample i of SincPulse.amplitude_series: at time t = (i - int(N/2))*dt
      it is exactly 1 where t is 0, and sin(x)/x at x = 2*pi*bandwidth*t
      elsewhere, which sinc supplies. */
  function SincSample(n: nat, dt: real, width: real, sinc: (real, real) -> real, i: int): real
  {
    var t := (i - n / 2) as real * dt;
    if t == 0.0 then 1.0 else sinc(SincBandwidth(width), t)
  }

  /** SincPulse.amplitude_series, sample by sample. The centre sample is 1
      and, for a non-zero sample period, it is the only one the rule fixes. */
  method SincSeries(n: nat, dt: real, width: real, sinc: (real, real) -> real) returns (a: array<real>)
    ensures fresh(a) && a.Length == n
    ensures forall i :: 0 <= i < n ==> a[i] == SincSample(n, dt, width, sinc, i)
    ensures n > 0 ==> a[n / 2] == 1.0
    ensures dt != 0.0 ==> forall i :: 0 <= i < n && i != n / 2 ==> a[i] == sinc(SincBandwidth(width), (i - n / 2) as real * dt)
  {
    a := new real[n](_ => 0.0);
    var bandwidth := if width < 0.001 then 0.001 else width;
    for i := 0 to n
      invariant forall k :: 0 <= k < i ==> a[k] == SincSample(n, dt, width, sinc, k)
    {
      var t := (i - n / 2) as real * dt;
      if t == 0.0 {
        a[i] := 1.0;
      } else {
        a[i] := sinc(bandwidth, t);
      }
      assert a[i] == SincSample(n, dt, width, sinc, i);
    }
  }
}
