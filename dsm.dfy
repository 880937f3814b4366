/** The delta-sigma modulators of blocks/dsm.py: the first- and second-order
    loops and the MASH 1-1 and 2-1 cascades as module functions, run() (which
    selects the unscaled first-order loop), and the FirstOrder block, which runs
    the scaled first-order loop over its test-point buffers in place.

    The source's scaled and unscaled functions differ only in the integrator
    gain: 0.5 (Scaled) or none at all (Unscaled, gain 1). Every function
    allocates its buffers with the length of the time base t and runs its loops
    over range(1, len(vin)); an input longer than t (with at least two samples)
    makes the first out-of-range write raise IndexError. */
module Dsm {
  import opened Base
  import opened StreamCore

  /** The integrator gain: 0.5 in _first_order, _second_order, the scaled
      MASH functions and the FirstOrder block; none in the *_unscaled ones. */
  datatype Gain = Scaled | Unscaled

  /** The gain as a number. */
  function Factor(gain: Gain): (r: real)
    ensures 0.0 < r <= 1.0
  {
    match gain
    case Scaled => 0.5
    case Unscaled => 1.0
  }

  /** The integrator input scaled by the gain, as each variant writes it. */
  function Amplify(gain: Gain, x: real): real
  {
    match gain
    case Scaled => 0.5 * x
    case Unscaled => x
  }

  /** The one-bit quantizer: +1 for a strictly positive integrator, else -1. */
  function Quantize(u: real): real
  {
    if u > 0.0 then 1.0 else -1.0
  }

  /** u[n] and y[n] of a first-order loop. */
  datatype Loop1 = Loop1(u: real, y: real)

  /** u[n], v[n] and y[n] of a second-order loop. */
  datatype Loop2 = Loop2(u: real, v: real, y: real)

  /** The first-order loop's state after sample n of vin: zero at n = 0, then
      u[n] = gain*(vin[n] - y[n-1]) + u[n-1] and y[n] = Quantize(u[n]). */
  function FirstOrderAt(vin: seq<real>, gain: Gain, n: nat): Loop1
    requires n < |vin|
  {
    if n == 0 then Loop1(0.0, 0.0)
    else
      var prev := FirstOrderAt(vin, gain, n - 1);
      var u := Amplify(gain, vin[n] - prev.y) + prev.u;
      Loop1(u, Quantize(u))
  }

  /** The second-order loop's state after sample n of vin: two integrators
      fed back from the same delayed output, the quantizer acting on v. */
  function SecondOrderAt(vin: seq<real>, gain: Gain, n: nat): Loop2
    requires n < |vin|
  {
    if n == 0 then Loop2(0.0, 0.0, 0.0)
    else
      var prev := SecondOrderAt(vin, gain, n - 1);
      var u := Amplify(gain, vin[n] - prev.y) + prev.u;
      var v := Amplify(gain, u - prev.y) + prev.v;
      Loop2(u, v, Quantize(v))
  }

  /* Every loop of the module runs n over range(1, len(vin)) and writes index
     n of buffers of length m that start out zero. The *After functions give a
     buffer once the indices below n are written; the buffer a function
     returns is the one after the whole range. */

  /** The first-order u buffer once the loop has written the indices below n. */
  function FirstOrderUAfter(vin: seq<real>, gain: Gain, m: nat, n: nat): (r: seq<real>)
    ensures |r| == m
  {
    seq(m, k requires 0 <= k < m => if k < n && k < |vin| then FirstOrderAt(vin, gain, k).u else 0.0)
  }

  function FirstOrderYAfter(vin: seq<real>, gain: Gain, m: nat, n: nat): (r: seq<real>)
    ensures |r| == m
  {
    seq(m, k requires 0 <= k < m => if k < n && k < |vin| then FirstOrderAt(vin, gain, k).y else 0.0)
  }

  /** The u and y buffers of a first-order loop run over a time base of
      length m: the loop's state where it ran, zero elsewhere. */
  function FirstOrderU(vin: seq<real>, gain: Gain, m: nat): (r: seq<real>)
    ensures |r| == m
  {
    FirstOrderUAfter(vin, gain, m, |vin|)
  }

  function FirstOrderY(vin: seq<real>, gain: Gain, m: nat): (r: seq<real>)
    ensures |r| == m
  {
    FirstOrderYAfter(vin, gain, m, |vin|)
  }

  /** One iteration of the first-order loop writes the state of sample n,
      computed from the values at n - 1 already in the buffers. */
  lemma FirstOrderFill(vin: seq<real>, gain: Gain, m: nat, n: nat, u: seq<real>, y: seq<real>, integrator: real)
    requires 1 <= n < |vin| && n < m
    requires u == FirstOrderUAfter(vin, gain, m, n) && y == FirstOrderYAfter(vin, gain, m, n)
    requires integrator == Amplify(gain, vin[n] - y[n - 1]) + u[n - 1]
    ensures FirstOrderUAfter(vin, gain, m, n + 1) == u[n := integrator]
    ensures FirstOrderYAfter(vin, gain, m, n + 1) == y[n := if integrator > 0.0 then 1.0 else -1.0]
  {
  }

  /** Once n reaches the end of vin the buffers are complete. */
  lemma FirstOrderDone(vin: seq<real>, gain: Gain, m: nat, n: nat)
    requires n >= |vin|
    ensures FirstOrderUAfter(vin, gain, m, n) == FirstOrderU(vin, gain, m)
    ensures FirstOrderYAfter(vin, gain, m, n) == FirstOrderY(vin, gain, m)
  {
  }

  /** The second-order u, v and y buffers once the indices below n are written. */
  function SecondOrderUAfter(vin: seq<real>, gain: Gain, m: nat, n: nat): (r: seq<real>)
    ensures |r| == m
  {
    seq(m, k requires 0 <= k < m => if k < n && k < |vin| then SecondOrderAt(vin, gain, k).u else 0.0)
  }

  function SecondOrderVAfter(vin: seq<real>, gain: Gain, m: nat, n: nat): (r: seq<real>)
    ensures |r| == m
  {
    seq(m, k requires 0 <= k < m => if k < n && k < |vin| then SecondOrderAt(vin, gain, k).v else 0.0)
  }

  function SecondOrderYAfter(vin: seq<real>, gain: Gain, m: nat, n: nat): (r: seq<real>)
    ensures |r| == m
  {
    seq(m, k requires 0 <= k < m => if k < n && k < |vin| then SecondOrderAt(vin, gain, k).y else 0.0)
  }

  /** The u, v and y buffers of a second-order loop over a time base of length m. */
  function SecondOrderU(vin: seq<real>, gain: Gain, m: nat): (r: seq<real>)
    ensures |r| == m
  {
    SecondOrderUAfter(vin, gain, m, |vin|)
  }

  function SecondOrderV(vin: seq<real>, gain: Gain, m: nat): (r: seq<real>)
    ensures |r| == m
  {
    SecondOrderVAfter(vin, gain, m, |vin|)
  }

  function SecondOrderY(vin: seq<real>, gain: Gain, m: nat): (r: seq<real>)
    ensures |r| == m
  {
    SecondOrderYAfter(vin, gain, m, |vin|)
  }

  /** One iteration of the second-order loop. */
  lemma SecondOrderFill(vin: seq<real>, gain: Gain, m: nat, n: nat,
                        u: seq<real>, v: seq<real>, y: seq<real>, first: real, second: real)
    requires 1 <= n < |vin| && n < m
    requires u == SecondOrderUAfter(vin, gain, m, n) && v == SecondOrderVAfter(vin, gain, m, n)
    requires y == SecondOrderYAfter(vin, gain, m, n)
    requires first == Amplify(gain, vin[n] - y[n - 1]) + u[n - 1]
    requires second == Amplify(gain, first - y[n - 1]) + v[n - 1]
    ensures SecondOrderUAfter(vin, gain, m, n + 1) == u[n := first]
    ensures SecondOrderVAfter(vin, gain, m, n + 1) == v[n := second]
    ensures SecondOrderYAfter(vin, gain, m, n + 1) == y[n := if second > 0.0 then 1.0 else -1.0]
  {
    var prev := SecondOrderAt(vin, gain, n - 1);
    assert y[n - 1] == prev.y && u[n - 1] == prev.u && v[n - 1] == prev.v;
    assert SecondOrderAt(vin, gain, n) == Loop2(first, second, Quantize(second));
  }

  lemma SecondOrderDone(vin: seq<real>, gain: Gain, m: nat, n: nat)
    requires n >= |vin|
    ensures SecondOrderUAfter(vin, gain, m, n) == SecondOrderU(vin, gain, m)
    ensures SecondOrderVAfter(vin, gain, m, n) == SecondOrderV(vin, gain, m)
    ensures SecondOrderYAfter(vin, gain, m, n) == SecondOrderY(vin, gain, m)
  {
  }

  /** The MASH noise-stage input e1[k] = y1[k-1] - u1[k], written for the
      indices 1 <= k < n of the loop's range. */
  function MashErrorAfter(vin: seq<real>, u1: seq<real>, y1: seq<real>, n: nat): (r: seq<real>)
    requires |u1| == |y1|
    ensures |r| == |u1|
  {
    seq(|u1|, k requires 0 <= k < |u1| => if 1 <= k < n && k < |vin| then y1[k - 1] - u1[k] else 0.0)
  }

  /** The first difference d[k] = y2[k] - y2[k-1], written for 1 <= k < n;
      d[0] stays 0. */
  function DifferenceAfter(vin: seq<real>, y2: seq<real>, n: nat): (r: seq<real>)
    ensures |r| == |y2|
  {
    seq(|y2|, k requires 0 <= k < |y2| => if 1 <= k < n && k < |vin| then y2[k] - y2[k - 1] else 0.0)
  }

  /** The reconstruction y[k] = y1[k] - d[k], written for 1 <= k < n. */
  function ReconstructAfter(vin: seq<real>, y1: seq<real>, d: seq<real>, n: nat): (r: seq<real>)
    requires |y1| == |d|
    ensures |r| == |y1|
  {
    seq(|y1|, k requires 0 <= k < |y1| => if 1 <= k < n && k < |vin| then y1[k] - d[k] else 0.0)
  }

  /** One iteration of each MASH loop writes index n of its buffer. */
  lemma MashErrorFill(vin: seq<real>, u1: seq<real>, y1: seq<real>, n: nat)
    requires |u1| == |y1| && 1 <= n < |vin| && n < |u1|
    ensures MashErrorAfter(vin, u1, y1, n + 1) == MashErrorAfter(vin, u1, y1, n)[n := y1[n - 1] - u1[n]]
  {
  }

  lemma DifferenceFill(vin: seq<real>, y2: seq<real>, n: nat)
    requires 1 <= n < |vin| && n < |y2|
    ensures DifferenceAfter(vin, y2, n + 1) == DifferenceAfter(vin, y2, n)[n := y2[n] - y2[n - 1]]
    ensures DifferenceAfter(vin, y2, n)[n - 1] == Difference(vin, y2)[n - 1]
    ensures Difference(vin, y2)[n] == y2[n] - y2[n - 1]
    ensures Difference(vin, Difference(vin, y2))[n] == Difference(vin, y2)[n] - Difference(vin, y2)[n - 1]
  {
  }

  lemma ReconstructFill(vin: seq<real>, y1: seq<real>, d: seq<real>, n: nat)
    requires |y1| == |d| && 1 <= n < |vin| && n < |y1|
    ensures ReconstructAfter(vin, y1, d, n + 1) == ReconstructAfter(vin, y1, d, n)[n := y1[n] - d[n]]
  {
  }

  /** One iteration of the _mash_2_1 reconstruction loop, given the three
      buffers a, b, c as they stand before it and the two differences it
      computes. */
  lemma ReconstructSecondStep(vin: seq<real>, y1: seq<real>, y2: seq<real>, n: nat,
                              a: seq<real>, b: seq<real>, c: seq<real>, first: real, second: real)
    requires |y1| == |y2| && 1 <= n < |vin| && n < |y1|
    requires a == DifferenceAfter(vin, y2, n)
    requires b == DifferenceAfter(vin, Difference(vin, y2), n)
    requires c == ReconstructAfter(vin, y1, Difference(vin, Difference(vin, y2)), n)
    requires first == y2[n] - y2[n - 1] && second == first - a[n - 1]
    ensures DifferenceAfter(vin, y2, n + 1) == a[n := first]
    ensures DifferenceAfter(vin, Difference(vin, y2), n + 1) == b[n := second]
    ensures ReconstructAfter(vin, y1, Difference(vin, Difference(vin, y2)), n + 1) == c[n := y1[n] - second]
  {
    var d := Difference(vin, y2);
    var dd := Difference(vin, d);
    DifferenceFill(vin, y2, n);
    DifferenceFill(vin, d, n);
    ReconstructFill(vin, y1, dd, n);
    assert first == d[n] && second == dd[n];
  }

  /** Once n reaches the end of vin each MASH buffer is complete. */
  lemma MashDone(vin: seq<real>, u1: seq<real>, y1: seq<real>, y2: seq<real>, d: seq<real>, n: nat)
    requires |u1| == |y1| == |d| && n >= |vin|
    ensures MashErrorAfter(vin, u1, y1, n) == MashError(vin, u1, y1)
    ensures DifferenceAfter(vin, y2, n) == Difference(vin, y2)
    ensures ReconstructAfter(vin, y1, d, n) == Reconstruct(vin, y1, d)
  {
  }

  function MashError(vin: seq<real>, u1: seq<real>, y1: seq<real>): (r: seq<real>)
    requires |u1| == |y1|
    ensures |r| == |u1|
  {
    MashErrorAfter(vin, u1, y1, |vin|)
  }

  function Difference(vin: seq<real>, y2: seq<real>): (r: seq<real>)
    ensures |r| == |y2|
  {
    DifferenceAfter(vin, y2, |vin|)
  }

  function Reconstruct(vin: seq<real>, y1: seq<real>, d: seq<real>): (r: seq<real>)
    requires |y1| == |d|
    ensures |r| == |y1|
  {
    ReconstructAfter(vin, y1, d, |vin|)
  }

  /** The MASH 1-1 output over a time base of length m: first-order signal
      stage, first-order noise stage on its error, one difference. */
  function Mash11Output(vin: seq<real>, gain: Gain, m: nat): (r: seq<real>)
    ensures |r| == m
  {
    var y1 := FirstOrderY(vin, gain, m);
    var e1 := MashError(vin, FirstOrderU(vin, gain, m), y1);
    Reconstruct(vin, y1, Difference(vin, FirstOrderY(e1, gain, m)))
  }

  /** The MASH 2-1 output over a time base of length m: second-order signal
      stage, first-order noise stage on its error, two differences. */
  function Mash21Output(vin: seq<real>, m: nat): (r: seq<real>)
    ensures |r| == m
  {
    var y1 := SecondOrderY(vin, Scaled, m);
    var e1 := MashError(vin, SecondOrderU(vin, Scaled, m), y1);
    var y2d := Difference(vin, FirstOrderY(e1, Scaled, m));
    Reconstruct(vin, y1, Difference(vin, y2d))
  }

  /** The inputs for which a module function raises IndexError: its loop
      reaches an index past the buffers it allocated with the length m of t. */
  predicate Overruns(vin: seq<real>, m: nat)
  {
    |vin| >= 2 && |vin| > m
  }

  /** The buffers returned by _first_order and _first_order_unscaled. */
  datatype FirstOrderTaps = FirstOrderTaps(vin: seq<real>, u: seq<real>, y: seq<real>)

  /** The buffers returned by _second_order and _second_order_unscaled. */
  datatype SecondOrderTaps = SecondOrderTaps(vin: seq<real>, u: seq<real>, v: seq<real>, y: seq<real>)

  /** The buffers returned by the MASH functions. */
  datatype MashTaps = MashTaps(vin: seq<real>, e1: seq<real>, y: seq<real>)

  /** _first_order (gain Scaled) and _first_order_unscaled (gain Unscaled). */
  method FirstOrderModulator(t: seq<real>, vin: seq<real>, gain: Gain) returns (r: Result<FirstOrderTaps>)
    ensures r.Err? <==> Overruns(vin, |t|)
    ensures r.Err? ==> r.error == IndexError
    ensures r.Ok? ==> r.value == FirstOrderTaps(vin, FirstOrderU(vin, gain, |t|), FirstOrderY(vin, gain, |t|))
  {
    var y := new real[|t|](_ => 0.0);
    var u := new real[|t|](_ => 0.0);
    var n := 1;
    while n < |vin|
      modifies u, y
      invariant 1 <= n && (n == 1 || (n <= |vin| && n <= |t|))
      invariant u[..] == FirstOrderUAfter(vin, gain, |t|, n)
      invariant y[..] == FirstOrderYAfter(vin, gain, |t|, n)
    {
      if n >= |t| {
        return Err(IndexError);
      }
      var integrator := Amplify(gain, vin[n] - y[n - 1]) + u[n - 1];
      FirstOrderFill(vin, gain, |t|, n, u[..], y[..], integrator);
      u[n] := integrator;
      y[n] := if integrator > 0.0 then 1.0 else -1.0;
      n := n + 1;
    }
    FirstOrderDone(vin, gain, |t|, n);
    r := Ok(FirstOrderTaps(vin, u[..], y[..]));
  }

  /** _second_order (gain Scaled) and _second_order_unscaled (gain Unscaled). */
  method SecondOrderModulator(t: seq<real>, vin: seq<real>, gain: Gain) returns (r: Result<SecondOrderTaps>)
    ensures r.Err? <==> Overruns(vin, |t|)
    ensures r.Err? ==> r.error == IndexError
    ensures r.Ok? ==> r.value == SecondOrderTaps(vin, SecondOrderU(vin, gain, |t|),
                                                 SecondOrderV(vin, gain, |t|), SecondOrderY(vin, gain, |t|))
  {
    var y := new real[|t|](_ => 0.0);
    var u := new real[|t|](_ => 0.0);
    var v := new real[|t|](_ => 0.0);
    var ok := SecondOrderLoop(vin, gain, u, v, y);
    if !ok {
      return Err(IndexError);
    }
    r := Ok(SecondOrderTaps(vin, u[..], v[..], y[..]));
  }

  /** The loop of the second-order functions over zero buffers of one length
      m: false when it indexes past them, as _second_order does when vin is
      longer than the time base. */
  method SecondOrderLoop(vin: seq<real>, gain: Gain, u: array<real>, v: array<real>, y: array<real>)
    returns (ok: bool)
    requires u.Length == v.Length == y.Length && u != v && v != y && u != y
    requires u[..] == Zeros(u.Length) && v[..] == Zeros(u.Length) && y[..] == Zeros(u.Length)
    modifies u, v, y
    ensures ok <==> !Overruns(vin, u.Length)
    ensures ok ==> u[..] == SecondOrderU(vin, gain, u.Length) && v[..] == SecondOrderV(vin, gain, u.Length)
    ensures ok ==> y[..] == SecondOrderY(vin, gain, u.Length)
  {
    var n := 1;
    while n < |vin|
      invariant 1 <= n && (n == 1 || (n <= |vin| && n <= u.Length))
      invariant u[..] == SecondOrderUAfter(vin, gain, u.Length, n)
      invariant v[..] == SecondOrderVAfter(vin, gain, u.Length, n)
      invariant y[..] == SecondOrderYAfter(vin, gain, u.Length, n)
    {
      if n >= u.Length {
        return false;
      }
      var first := Amplify(gain, vin[n] - y[n - 1]) + u[n - 1];
      var second := Amplify(gain, first - y[n - 1]) + v[n - 1];
      SecondOrderFill(vin, gain, u.Length, n, u[..], v[..], y[..], first, second);
      u[n] := first;
      v[n] := second;
      y[n] := if second > 0.0 then 1.0 else -1.0;
      n := n + 1;
    }
    SecondOrderDone(vin, gain, u.Length, n);
    ok := true;
  }

  /** The e1 loop of the MASH functions, into a fresh zero buffer. */
  method NoiseStageInput(vin: seq<real>, u1: seq<real>, y1: seq<real>) returns (e1: array<real>)
    requires |u1| == |y1| && (|vin| <= 1 || |vin| <= |u1|)
    ensures fresh(e1) && e1[..] == MashError(vin, u1, y1)
  {
    e1 := new real[|u1|](_ => 0.0);
    var n := 1;
    while n < |vin|
      modifies e1
      invariant 1 <= n && (n == 1 || n <= |vin|)
      invariant e1[..] == MashErrorAfter(vin, u1, y1, n)
    {
      MashErrorFill(vin, u1, y1, n);
      e1[n] := y1[n - 1] - u1[n];
      n := n + 1;
    }
    MashDone(vin, u1, y1, [], u1, n);
  }

  /** The reconstruction loop of _mash_1_1: y2d is the first difference of
      the noise stage's output y2, and y = y1 - y2d. */
  method ReconstructFirst(vin: seq<real>, y1: seq<real>, y2: seq<real>) returns (y: array<real>)
    requires |y1| == |y2| && (|vin| <= 1 || |vin| <= |y1|)
    ensures fresh(y) && y[..] == Reconstruct(vin, y1, Difference(vin, y2))
  {
    var y2d := new real[|y1|](_ => 0.0);
    y := new real[|y1|](_ => 0.0);
    ghost var d := Difference(vin, y2);
    var n := 1;
    while n < |vin|
      modifies y2d, y
      invariant 1 <= n && (n == 1 || n <= |vin|)
      invariant y2d[..] == DifferenceAfter(vin, y2, n)
      invariant y[..] == ReconstructAfter(vin, y1, d, n)
    {
      DifferenceFill(vin, y2, n);
      ReconstructFill(vin, y1, d, n);
      y2d[n] := 1.0 * (y2[n] - y2[n - 1]);
      y[n] := y1[n] - y2d[n];
      n := n + 1;
    }
    MashDone(vin, y1, y1, y2, d, n);
  }

  /** The reconstruction loop of _mash_2_1: y2dd is the second difference of
      the noise stage's output y2, and y = y1 - y2dd. */
  method ReconstructSecond(vin: seq<real>, y1: seq<real>, y2: seq<real>) returns (y: array<real>)
    requires |y1| == |y2| && (|vin| <= 1 || |vin| <= |y1|)
    ensures fresh(y) && y[..] == Reconstruct(vin, y1, Difference(vin, Difference(vin, y2)))
  {
    var y2d := new real[|y1|](_ => 0.0);
    var y2dd := new real[|y1|](_ => 0.0);
    y := new real[|y1|](_ => 0.0);
    ghost var d := Difference(vin, y2);
    ghost var dd := Difference(vin, d);
    var n := 1;
    while n < |vin|
      modifies y2d, y2dd, y
      invariant 1 <= n && (n == 1 || n <= |vin|)
      invariant y2d[..] == DifferenceAfter(vin, y2, n)
      invariant y2dd[..] == DifferenceAfter(vin, d, n)
      invariant y[..] == ReconstructAfter(vin, y1, dd, n)
    {
      var first := y2[n] - y2[n - 1];
      var second := first - y2d[n - 1];
      ReconstructSecondStep(vin, y1, y2, n, y2d[..], y2dd[..], y[..], first, second);
      y2d[n] := first;
      y2dd[n] := second;
      y[n] := y1[n] - second;
      n := n + 1;
    }
    MashDone(vin, y1, y1, d, dd, n);
  }

  /** _mash_1_1 (gain Scaled) and _mash_1_1_unscaled (gain Unscaled): both
      stages use the same first-order loop. */
  method Mash11(t: seq<real>, vin: seq<real>, gain: Gain) returns (r: Result<MashTaps>)
    ensures r.Err? <==> Overruns(vin, |t|)
    ensures r.Err? ==> r.error == IndexError
    ensures r.Ok? ==> r.value == MashTaps(vin, MashError(vin, FirstOrderU(vin, gain, |t|), FirstOrderY(vin, gain, |t|)),
                                          Mash11Output(vin, gain, |t|))
  {
    var signal := FirstOrderModulator(t, vin, gain);
    if signal.Err? {
      return Err(signal.error);
    }
    var e1 := NoiseStageInput(vin, signal.value.u, signal.value.y);
    var noise := FirstOrderModulator(t, e1[..], gain);
    assert noise.Ok?;
    var y := ReconstructFirst(vin, signal.value.y, noise.value.y);
    r := Ok(MashTaps(vin, e1[..], y[..]));
  }

  /** _mash_2_1: a scaled second-order signal stage, a scaled first-order
      noise stage, and a second difference in the reconstruction. */
  method Mash21(t: seq<real>, vin: seq<real>) returns (r: Result<MashTaps>)
    ensures r.Err? <==> Overruns(vin, |t|)
    ensures r.Err? ==> r.error == IndexError
    ensures r.Ok? ==> r.value == MashTaps(vin, MashError(vin, SecondOrderU(vin, Scaled, |t|), SecondOrderY(vin, Scaled, |t|)),
                                          Mash21Output(vin, |t|))
  {
    var signal := SecondOrderModulator(t, vin, Scaled);
    if signal.Err? {
      return Err(signal.error);
    }
    var e1 := NoiseStageInput(vin, signal.value.u, signal.value.y);
    var noise := FirstOrderModulator(t, e1[..], Scaled);
    assert noise.Ok?;
    var y := ReconstructSecond(vin, signal.value.y, noise.value.y);
    r := Ok(MashTaps(vin, e1[..], y[..]));
  }

  /** run(t, vin): the modulator the module selects, the unscaled first-order loop. */
  method Run(t: seq<real>, vin: seq<real>) returns (r: Result<FirstOrderTaps>)
    ensures r.Err? <==> Overruns(vin, |t|)
    ensures r.Err? ==> r.error == IndexError
    ensures r.Ok? ==> r.value == FirstOrderTaps(vin, FirstOrderU(vin, Unscaled, |t|), FirstOrderY(vin, Unscaled, |t|))
  {
    r := FirstOrderModulator(t, vin, Unscaled);
  }

  /* Properties of the loops. */

  /** Every written sample of a first-order output is +1 or -1; y[0] and the
      samples past the end of vin keep the zero they were allocated with. */
  lemma FirstOrderLevels(vin: seq<real>, gain: Gain, m: nat, k: nat)
    requires k < m
    ensures var y := FirstOrderY(vin, gain, m)[k];
            (1 <= k < |vin| ==> y == 1.0 || y == -1.0) && (k == 0 || k >= |vin| ==> y == 0.0)
  {
  }

  /** The same for the second-order output. */
  lemma SecondOrderLevels(vin: seq<real>, gain: Gain, m: nat, k: nat)
    requires k < m
    ensures var y := SecondOrderY(vin, gain, m)[k];
            (1 <= k < |vin| ==> y == 1.0 || y == -1.0) && (k == 0 || k >= |vin| ==> y == 0.0)
  {
  }

  /** Stability of the first-order loop: for an input within full scale the
      integrator never leaves [-2*gain, 2*gain]. */
  lemma {:induction false} FirstOrderStable(vin: seq<real>, gain: Gain, n: nat)
    requires n < |vin|
    requires forall k :: 0 <= k < |vin| ==> -1.0 <= vin[k] <= 1.0
    ensures -2.0 * Factor(gain) <= FirstOrderAt(vin, gain, n).u <= 2.0 * Factor(gain)
    ensures n >= 1 ==> (FirstOrderAt(vin, gain, n).y == 1.0 <==> FirstOrderAt(vin, gain, n).u > 0.0)
  {
    if n > 0 {
      FirstOrderStable(vin, gain, n - 1);
    }
  }

  /** The sum vin[1] + ... + vin[n] of the samples the loop has consumed
      (the loop never reads vin[0]). */
  function InputSum(vin: seq<real>, n: nat): real
    requires n < |vin|
  {
    if n == 0 then 0.0 else InputSum(vin, n - 1) + vin[n]
  }

  /** The sum y[0] + ... + y[n-1] of the outputs fed back by step n. */
  function FeedbackSum(vin: seq<real>, gain: Gain, n: nat): real
    requires n < |vin|
  {
    if n == 0 then 0.0 else FeedbackSum(vin, gain, n - 1) + FirstOrderAt(vin, gain, n - 1).y
  }

  /** The integrator holds the gain times the accumulated difference between
      what came in and what was fed back. */
  lemma {:induction false} FirstOrderIntegrates(vin: seq<real>, gain: Gain, n: nat)
    requires n < |vin|
    ensures FirstOrderAt(vin, gain, n).u == Amplify(gain, InputSum(vin, n) - FeedbackSum(vin, gain, n))
  {
    if n > 0 {
      FirstOrderIntegrates(vin, gain, n - 1);
    }
  }

  /** The modulator's point: for an input within full scale the running sum
      of its one-bit output tracks the running sum of the input to within 2,
      whatever the length of the run. */
  lemma FirstOrderTracksInput(vin: seq<real>, gain: Gain, n: nat)
    requires n < |vin|
    requires forall k :: 0 <= k < |vin| ==> -1.0 <= vin[k] <= 1.0
    ensures -2.0 <= InputSum(vin, n) - FeedbackSum(vin, gain, n) <= 2.0
  {
    FirstOrderStable(vin, gain, n);
    FirstOrderIntegrates(vin, gain, n);
  }

  /** A first difference of a sequence bounded by b is bounded by 2b. */
  lemma DifferenceBounded(vin: seq<real>, y2: seq<real>, b: real, k: nat)
    requires k < |y2|
    requires forall j :: 0 <= j < |y2| ==> -b <= y2[j] <= b
    ensures -2.0 * b <= Difference(vin, y2)[k] <= 2.0 * b
  {
    assert -b <= y2[k] <= b;
    if 1 <= k < |vin| {
      assert -b <= y2[k - 1] <= b;
    }
  }

  /** MASH 1-1 output levels: within [-3, 3], and from the third sample on
      exactly one of -3, -1, 1 and 3 (signal bit minus the noise stage's
      differenced bits). */
  lemma Mash11Levels(vin: seq<real>, gain: Gain, m: nat, k: nat)
    requires k < m
    ensures -3.0 <= Mash11Output(vin, gain, m)[k] <= 3.0
    ensures 2 <= k < |vin| ==> Mash11Output(vin, gain, m)[k] in {-3.0, -1.0, 1.0, 3.0}
  {
    var e1 := MashError(vin, FirstOrderU(vin, gain, m), FirstOrderY(vin, gain, m));
    FirstOrderLevels(vin, gain, m, k);
    FirstOrderLevels(e1, gain, m, k);
    if k >= 1 {
      FirstOrderLevels(e1, gain, m, k - 1);
    }
  }

  /** MASH 2-1 output levels: within [-5, 5], the signal bit minus a second
      difference of the noise stage's bits. */
  lemma Mash21Levels(vin: seq<real>, m: nat, k: nat)
    requires k < m
    ensures -5.0 <= Mash21Output(vin, m)[k] <= 5.0
  {
    var y1 := SecondOrderY(vin, Scaled, m);
    var e1 := MashError(vin, SecondOrderU(vin, Scaled, m), y1);
    var y2 := FirstOrderY(e1, Scaled, m);
    forall j | 0 <= j < m
      ensures -1.0 <= y2[j] <= 1.0
    {
      FirstOrderLevels(e1, Scaled, m, j);
    }
    var d := Difference(vin, y2);
    forall j | 0 <= j < m
      ensures -2.0 <= d[j] <= 2.0
    {
      DifferenceBounded(vin, y2, 1.0, j);
    }
    DifferenceBounded(vin, d, 2.0, k);
    SecondOrderLevels(vin, Scaled, m, k);
  }

  /** The loop of FirstOrder.process: the scaled first-order recurrence over
      vin, written in place into the zero buffers u and y. */
  method FirstOrderLoop(vin: array<real>, u: array<real>, y: array<real>)
    requires u.Length == vin.Length && y.Length == vin.Length
    requires u != y && u != vin && y != vin
    requires u[..] == Zeros(vin.Length) && y[..] == Zeros(vin.Length)
    modifies u, y
    ensures u[..] == FirstOrderU(vin[..], Scaled, vin.Length)
    ensures y[..] == FirstOrderY(vin[..], Scaled, vin.Length)
  {
    ghost var x := vin[..];
    var n := 1;
    while n < vin.Length
      invariant 1 <= n && (n == 1 || n <= vin.Length)
      invariant u[..] == FirstOrderUAfter(x, Scaled, vin.Length, n)
      invariant y[..] == FirstOrderYAfter(x, Scaled, vin.Length, n)
    {
      var integrator := 0.5 * (vin[n] - y[n - 1]) + u[n - 1];
      FirstOrderFill(x, Scaled, vin.Length, n, u[..], y[..], integrator);
      u[n] := integrator;
      y[n] := if integrator > 0.0 then 1.0 else -1.0;
      n := n + 1;
    }
    FirstOrderDone(x, Scaled, vin.Length, n);
  }

  /** The FirstOrder block: a scaled first-order modulator over its input
      stream, run in place on test-point buffers. */
  class FirstOrder {
    const blockName: string
    const vIn: Stream
    const result: Stream
    const testpoints: Streams

    /** The input and the output are distinct streams of the same shape. */
    ghost predicate Valid()
      reads this, vIn, result
    {
      vIn.Valid() && result.Valid() && SameShape(result, vIn) && result != vIn
    }

    /** A probe built by the testpoints property: a copy of the input's
        shape under the given name, listened to by the group only. */
    ghost predicate Probe(s: Stream, name: string)
      reads this, s
    {
      s.Valid() && s.name == name && SameShape(s, vIn) && s.listeners == [testpoints]
    }

    /** The three test points as the testpoints property builds them. */
    ghost predicate Built()
      reads this, testpoints
      reads if |testpoints.streams| == 3 then {testpoints.streams[1], testpoints.streams[2]} else {}
    {
      |testpoints.streams| == 3 && testpoints.streams[0] == vIn
      && Probe(testpoints.streams[1], "v(u)") && Probe(testpoints.streams[2], "v(y)")
      && testpoints.streams[1].samples != testpoints.streams[2].samples
    }

    /** The block is named 'First Order DSM', its output is a zero copy of the
        input under the given name, it subscribes to the input, and it starts
        with an empty test-point group. */
    constructor (name: string, input: Stream)
      requires input.Valid()
      modifies input`listeners
      ensures Valid() && blockName == "First Order DSM" && vIn == input
      ensures fresh(result) && fresh(result.samples) && result.name == name
      ensures result.samples[..] == Zeros(input.n) && result.listeners == []
      ensures fresh(testpoints) && testpoints.name == "Test Points"
      ensures testpoints.streams == [] && testpoints.listeners == []
      ensures input.listeners == old(input.listeners) + [this]
    {
      blockName := "First Order DSM";
      vIn := input;
      var copy := input.Copy(name);
      result := copy;
      var group := new Streams("Test Points");
      testpoints := group;
      new;
      input.AddListener(this);
    }

    /** The testpoints property: an empty group is filled with the input and
        fresh u and y probes (each append subscribing the group to the
        member); a non-empty group is returned as it is. */
    method Testpoints() returns (tp: Streams)
      requires Valid()
      modifies testpoints`streams, vIn`listeners
      ensures tp == testpoints && Valid()
      ensures old(testpoints.streams) != [] ==>
                testpoints.streams == old(testpoints.streams) && vIn.listeners == old(vIn.listeners)
      ensures old(testpoints.streams) == [] ==>
                Built() && fresh(testpoints.streams[1]) && fresh(testpoints.streams[1].samples)
                && fresh(testpoints.streams[2]) && fresh(testpoints.streams[2].samples)
                && testpoints.streams[1].samples[..] == Zeros(vIn.n)
                && testpoints.streams[2].samples[..] == Zeros(vIn.n)
                && vIn.listeners == old(vIn.listeners) + [testpoints]
    {
      if |testpoints.streams| == 0 {
        testpoints.Append(vIn);
        var uStream := vIn.Copy("v(u)");
        testpoints.Append(uStream);
        var yStream := vIn.Copy("v(y)");
        testpoints.Append(yStream);
      }
      tp := testpoints;
    }

    /** process: rebuilds the test points, runs the scaled first-order loop
        over the input in place on the u and y probes, and makes the output
        stream refer to the y buffer itself. */
    method Process(ignored: object?) returns (r: Stream)
      requires Valid()
      modifies testpoints`streams, vIn`listeners, result`samples
      ensures Valid() && r == result && Built()
      ensures fresh(testpoints.streams[1]) && fresh(testpoints.streams[2])
      ensures vIn.listeners == old(vIn.listeners) + [testpoints]
      ensures vIn.samples == old(vIn.samples) && vIn.samples[..] == old(vIn.samples[..])
      ensures result.samples == testpoints.streams[2].samples && fresh(result.samples)
      ensures testpoints.streams[1].samples[..] == FirstOrderU(vIn.samples[..], Scaled, vIn.n)
      ensures result.samples[..] == FirstOrderY(vIn.samples[..], Scaled, vIn.n)
    {
      testpoints.Reset();
      var tp := Testpoints();
      var vin := tp.streams[0].samples;
      var u := tp.streams[1].samples;
      var y := tp.streams[2].samples;
      FirstOrderLoop(vin, u, y);
      var stored := result.SetSamples(y);
      r := result;
    }
  }
}
