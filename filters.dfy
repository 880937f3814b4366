/** The first-order IIR filters of blocks/filters.py: a running-average filter
    divided by a filter factor, and an exponential filter whose decay factor
    is given (the source computes it as exp(-2*pi*fc*dt), which is not modelled).
    Both overwrite their result buffer in place, index by index. */
module Filters {
  import opened Base
  import opened StreamCore
  import opened Parameters

  /** IntegerIIR's accumulator after sample i of x: 0.001 at the start, then
      each step moves it by 1/filterFactor of the distance to the next sample. */
  function IntegerIIRAt(x: seq<real>, filterFactor: real, i: nat): real
    requires i < |x| && (i == 0 || filterFactor != 0.0)
  {
    if i == 0 then 0.001
    else
      var prev := IntegerIIRAt(x, filterFactor, i - 1);
      prev + (x[i] - prev) / filterFactor
  }

  /** The buffer IntegerIIR.process leaves in its result for input x. */
  function IntegerIIROutput(x: seq<real>, filterFactor: real): (r: seq<real>)
    requires |x| <= 1 || filterFactor != 0.0
    ensures |r| == |x|
  {
    seq(|x|, i requires 0 <= i < |x| => IntegerIIRAt(x, filterFactor, i))
  }

  /** FloatIIR's moving average after sample i of x: the previous average
      (0.0 before the first sample) times decay, plus (1 - decay) times x[i]. */
  function FloatIIRAt(x: seq<real>, decay: real, i: nat): real
    requires i < |x|
  {
    var prev := if i == 0 then 0.0 else FloatIIRAt(x, decay, i - 1);
    prev * decay + (1.0 - decay) * x[i]
  }

  /** The buffer FloatIIR.process leaves in its result for input x. */
  function FloatIIROutput(x: seq<real>, decay: real): (r: seq<real>)
    ensures |r| == |x|
  {
    seq(|x|, i requires 0 <= i < |x| => FloatIIRAt(x, decay, i))
  }

  /** Sample i of IntegerIIR's output, from the accumulator before it. */
  lemma IntegerIIRStep(x: seq<real>, filterFactor: real, i: nat, prev: real, sample: real)
    requires 1 <= i < |x| && filterFactor != 0.0
    requires prev == IntegerIIRAt(x, filterFactor, i - 1) && sample == x[i]
    ensures IntegerIIROutput(x, filterFactor)[i] == prev + (sample - prev) / filterFactor
  {
  }

  /** Sample i of FloatIIR's output, from the average before it. */
  lemma FloatIIRStep(x: seq<real>, decay: real, i: nat, prev: real, sample: real)
    requires i < |x| && prev == (if i == 0 then 0.0 else FloatIIRAt(x, decay, i - 1)) && sample == x[i]
    ensures FloatIIROutput(x, decay)[i] == prev * decay + (1.0 - decay) * sample
    ensures FloatIIRAt(x, decay, i) == prev * decay + (1.0 - decay) * sample
  {
  }

  /** Every sample of x lies in [-bound, bound]. */
  predicate BoundedBy(x: seq<real>, bound: real)
  {
    forall i :: 0 <= i < |x| ==> -bound <= x[i] <= bound
  }

  /** The product of two non-negative reals is non-negative. */
  lemma MulNonNegative(a: real, b: real)
    requires a >= 0.0 && b >= 0.0
    ensures a * b >= 0.0
  {
  }

  /** A convex combination of two values in [-bound, bound] stays in it. */
  lemma ConvexStep(p: real, v: real, w: real, bound: real)
    requires 0.0 <= w <= 1.0
    requires -bound <= p <= bound && -bound <= v <= bound
    ensures -bound <= (1.0 - w) * p + w * v <= bound
  {
    var k := 1.0 - w;
    MulNonNegative(k, bound - p);
    MulNonNegative(k, p + bound);
    MulNonNegative(w, bound - v);
    MulNonNegative(w, v + bound);
    assert k * bound + w * bound == bound;
  }

  /** With filter factor 1 the integer filter reproduces its input exactly at
      every index after the first. */
  lemma IntegerIIRUnitFactor(x: seq<real>, i: nat)
    requires 1 <= i < |x|
    ensures IntegerIIROutput(x, 1.0)[i] == x[i]
  {
  }

  /** With a filter factor of at least 1 each step is a convex combination, so
      the integer filter keeps its output within any bound on its input that
      also covers the starting value 0.001. */
  lemma {:induction false} IntegerIIRBounded(x: seq<real>, filterFactor: real, bound: real, i: nat)
    requires filterFactor >= 1.0 && bound >= 0.001 && BoundedBy(x, bound) && i < |x|
    ensures -bound <= IntegerIIRAt(x, filterFactor, i) <= bound
  {
    if i > 0 {
      IntegerIIRBounded(x, filterFactor, bound, i - 1);
      var prev := IntegerIIRAt(x, filterFactor, i - 1);
      var w := 1.0 / filterFactor;
      assert prev + (x[i] - prev) / filterFactor == (1.0 - w) * prev + w * x[i];
      ConvexStep(prev, x[i], w, bound);
    }
  }

  /** With decay 0 the float filter outputs exactly its input. */
  lemma FloatIIRNoDecay(x: seq<real>)
    ensures FloatIIROutput(x, 0.0) == x
  {
    assert forall i :: 0 <= i < |x| ==> FloatIIROutput(x, 0.0)[i] == x[i];
  }

  /** With 0 <= decay <= 1 each step is a convex combination of the previous
      average and the new sample, so the output never leaves the input's bound. */
  lemma {:induction false} FloatIIRBounded(x: seq<real>, decay: real, bound: real, i: nat)
    requires 0.0 <= decay <= 1.0 && BoundedBy(x, bound) && i < |x|
    ensures -bound <= FloatIIRAt(x, decay, i) <= bound
  {
    assert -bound <= x[i] <= bound;
    var prev := if i == 0 then 0.0 else FloatIIRAt(x, decay, i - 1);
    if i > 0 {
      FloatIIRBounded(x, decay, bound, i - 1);
    }
    assert -bound <= prev <= bound;
    assert prev * decay + (1.0 - decay) * x[i] == (1.0 - (1.0 - decay)) * prev + (1.0 - decay) * x[i];
    ConvexStep(prev, x[i], 1.0 - decay, bound);
  }

  /** The buffer o once its first i samples have been replaced by those of v. */
  function Overwrite(o: seq<real>, v: seq<real>, i: nat): (r: seq<real>)
    requires |o| == |v|
    ensures |r| == |o|
  {
    seq(|o|, j requires 0 <= j < |o| => if j < i then v[j] else o[j])
  }

  /** Writing sample i extends the replaced prefix by one. */
  lemma OverwriteStep(o: seq<real>, v: seq<real>, i: nat)
    requires |o| == |v| && i < |o|
    ensures Overwrite(o, v, i + 1) == Overwrite(o, v, i)[i := v[i]]
    ensures Overwrite(o, v, i)[i] == o[i]
  {
  }

  /** Once every index is written the buffer is v. */
  lemma OverwriteDone(o: seq<real>, v: seq<real>)
    requires |o| == |v|
    ensures Overwrite(o, v, |o|) == v
  {
  }

  class IntegerIIR {
    const blockName: string
    const input: Stream
    const result: Stream
    const filterFactor: real

    ghost predicate Valid()
      reads input, result
    {
      input.Valid() && result.Valid() && result.n == input.n
    }

    /** IntegerIIR(name, input, filter_factor): result is a zero copy of the
        input; the block listens to its input only. */
    constructor (name: string, input: Stream, filterFactor: real)
      requires input.Valid()
      modifies input`listeners
      ensures Valid() && blockName == "First Order Integer IIR"
      ensures this.input == input && this.filterFactor == filterFactor
      ensures fresh(result) && fresh(result.samples)
      ensures result.name == name && SameShape(result, input)
      ensures result.samples[..] == Zeros(input.n) && result.listeners == []
      ensures input.listeners == old(input.listeners) + [this]
    {
      blockName := "First Order Integer IIR";
      this.input := input;
      this.filterFactor := filterFactor;
      var copy := input.Copy(name);
      result := copy;
      new;
      input.AddListener(this);
    }

    /** process: overwrites every index of the result buffer in place with the
        running average of the input (an empty stream raises IndexError at
        index 0). The input is read before each index is written, so the
        result holds the filter of the input as it was on entry even if the two
        streams share a buffer; otherwise the input is not changed. */
    method Process(ignored: object?) returns (r: Result<Stream>)
      requires Valid() && (input.n <= 1 || filterFactor != 0.0)
      modifies result.samples
      ensures Valid() && result.samples == old(result.samples)
      ensures r.Err? <==> input.n == 0
      ensures r.Err? ==> r.error.IndexError?
      ensures r.Ok? ==> r.value == result
      ensures r.Ok? ==> result.samples[..] == IntegerIIROutput(old(input.samples[..]), filterFactor)
      ensures input.samples != result.samples ==> input.samples[..] == old(input.samples[..])
    {
      if result.samples.Length == 0 {
        return Err(IndexError);
      }
      ghost var x := input.samples[..];
      var out := result.samples;
      ghost var o := out[..];
      ghost var v := IntegerIIROutput(x, filterFactor);
      ghost var aliased := input.samples == out;
      var filterValue := 0.001;
      OverwriteStep(o, v, 0);
      out[0] := filterValue;
      for i := 1 to input.n
        invariant filterValue == IntegerIIRAt(x, filterFactor, i - 1)
        invariant out[..] == Overwrite(o, v, i)
        invariant aliased ==> o == x
        invariant !aliased ==> input.samples[..] == x
      {
        OverwriteStep(o, v, i);
        assert input.samples[i] == x[i];
        IntegerIIRStep(x, filterFactor, i, filterValue, input.samples[i]);
        filterValue := filterValue + (input.samples[i] - filterValue) / filterFactor;
        out[i] := filterValue;
      }
      OverwriteDone(o, v);
      r := Ok(result);
    }
  }

  class FloatIIR {
    const blockName: string
    const input: Stream
    const result: Stream
    const cutoff: Parameter

    ghost predicate Valid()
      reads input, result
    {
      input.Valid() && result.Valid() && result.n == input.n
    }

    /** FloatIIR(name, input, cutoff_frequency): result is a zero copy of the
        input; the block listens to its input and to the cutoff parameter. */
    constructor (name: string, input: Stream, cutoff: Parameter)
      requires input.Valid()
      modifies input`listeners, cutoff`listeners
      ensures Valid() && blockName == "First Order IIR"
      ensures this.input == input && this.cutoff == cutoff
      ensures fresh(result) && fresh(result.samples)
      ensures result.name == name && SameShape(result, input)
      ensures result.samples[..] == Zeros(input.n) && result.listeners == []
      ensures input.listeners == old(input.listeners) + [this]
      ensures cutoff.listeners == old(cutoff.listeners) + [this]
    {
      blockName := "First Order IIR";
      this.input := input;
      this.cutoff := cutoff;
      var copy := input.Copy(name);
      result := copy;
      new;
      input.AddListener(this);
      cutoff.AddListener(this);
    }

    /** process: with decay standing for exp(-2*pi*cutoff*dt) and gain
        1 - decay, overwrites every index of the result buffer in place with
        the exponential moving average of the input as it was on entry. */
    method Process(ignored: object?, decay: real) returns (r: Stream)
      requires Valid()
      modifies result.samples
      ensures Valid() && r == result && result.samples == old(result.samples)
      ensures result.samples[..] == FloatIIROutput(old(input.samples[..]), decay)
      ensures input.samples != result.samples ==> input.samples[..] == old(input.samples[..])
    {
      ghost var x := input.samples[..];
      var out := result.samples;
      ghost var o := out[..];
      ghost var v := FloatIIROutput(x, decay);
      ghost var aliased := input.samples == out;
      var gain := 1.0 - decay;
      var movingAverage := 0.0;
      for i := 0 to input.n
        invariant movingAverage == if i == 0 then 0.0 else FloatIIRAt(x, decay, i - 1)
        invariant out[..] == Overwrite(o, v, i)
        invariant aliased ==> o == x
        invariant !aliased ==> input.samples[..] == x
      {
        OverwriteStep(o, v, i);
        assert input.samples[i] == x[i];
        FloatIIRStep(x, decay, i, movingAverage, input.samples[i]);
        movingAverage := movingAverage * decay;
        movingAverage := movingAverage + gain * input.samples[i];
        out[i] := movingAverage;
      }
      OverwriteDone(o, v);
      r := result;
    }
  }
}
