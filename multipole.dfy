/** The blocks of examples/multipole.py: a power-of-two gain stage (Shift), a
    copy stage (Cast), and a three-pole filter built from three chained
    IntegerIIR stages whose output is selected by a pole-count parameter. */
module Multipole {
  import opened Base
  import opened StreamCore
  import opened Parameters
  import opened Filters

  /** The smallest k for which the float 2**k is not 0.0: 2**-1074 is the
      smallest positive float64, a subnormal. */
  const MinShift: int := -1074

  /** The largest k for which the int 2**k converts to a float64. */
  const MaxShift: int := 1023

  /** 2**shift_count in Python: an integer power for a non-negative count,
      the float reciprocal power for a negative one, which is exact down to
      2**-1074 and rounds to 0.0 below it. */
  function ShiftValue(shiftCount: int): (r: real)
    ensures r >= 0.0
    ensures r > 0.0 <==> shiftCount >= MinShift
  {
    if shiftCount >= 0 then Pow2(shiftCount) as real
    else if shiftCount >= MinShift then 1.0 / Pow2(-shiftCount) as real
    else 0.0
  }

  /** Shifting by k and then by -k restores the scale wherever neither gain
      underflows: the two shift stages around the filter in the example
      cancel. */
  lemma ShiftValueInverse(shiftCount: int)
    requires MinShift <= shiftCount <= -MinShift
    ensures ShiftValue(shiftCount) * ShiftValue(-shiftCount) == 1.0
  {
    if shiftCount > 0 {
      var p := Pow2(shiftCount) as real;
      assert ShiftValue(shiftCount) == p && ShiftValue(-shiftCount) == 1.0 / p;
      Reciprocal(p);
    } else if shiftCount < 0 {
      var p := Pow2(-shiftCount) as real;
      assert ShiftValue(shiftCount) == 1.0 / p && ShiftValue(-shiftCount) == p;
      Reciprocal(p);
    }
  }

  /** A positive number times its reciprocal, in either order. */
  lemma Reciprocal(p: real)
    requires p > 0.0
    ensures p * (1.0 / p) == 1.0 && (1.0 / p) * p == 1.0
  {
  }

  /** Each extra step of shift doubles the gain, from the smallest gain that
      is not 0.0 on. */
  lemma {:induction false} ShiftValueDoubles(shiftCount: int)
    requires shiftCount >= MinShift
    ensures ShiftValue(shiftCount + 1) == 2.0 * ShiftValue(shiftCount)
  {
    if shiftCount < -1 {
      var p := Pow2(-shiftCount - 1) as real;
      assert Pow2(-shiftCount) as real == 2.0 * p;
      assert ShiftValue(shiftCount + 1) == 1.0 / p;
      assert ShiftValue(shiftCount) == 1.0 / (2.0 * p);
    }
  }

  /** Shift: multiplies its input by 2**shift_count into its own result buffer. */
  class Shift {
    const blockName: string
    const input: Stream
    const result: Stream
    const shiftCount: int
    const shiftValue: real

    ghost predicate Valid()
      reads input, result
    {
      input.Valid() && result.Valid() && result.n == input.n && shiftValue == ShiftValue(shiftCount)
    }

    /** Shift(name, input, shift_count): a zero copy of the input for the
        result, the gain 2**shift_count, and a subscription to the input. */
    constructor (name: string, input: Stream, shiftCount: int)
      requires input.Valid()
      modifies input`listeners
      ensures Valid() && blockName == "Shift" && this.input == input
      ensures this.shiftCount == shiftCount && shiftValue == ShiftValue(shiftCount)
      ensures fresh(result) && fresh(result.samples)
      ensures result.name == name && SameShape(result, input)
      ensures result.samples[..] == Zeros(input.n) && result.listeners == []
      ensures input.listeners == old(input.listeners) + [this]
    {
      blockName := "Shift";
      this.input := input;
      var copy := input.Copy(name);
      result := copy;
      this.shiftCount := shiftCount;
      shiftValue := ShiftValue(shiftCount);
      new;
      input.AddListener(this);
    }

    /** process: a positive gain multiplies the input into the existing
        result buffer, and raises OverflowError when the int gain does not
        convert to a float; a gain that underflowed to 0.0 makes the result
        share the input's buffer. The divide branch, for a negative gain,
        cannot be reached. */
    method Process(ignored: object?) returns (r: Result<Stream>)
      requires Valid()
      modifies result`samples, result.samples
      ensures Valid()
      ensures r.Err? <==> shiftCount > MaxShift
      ensures r.Err? ==> r.error == OverflowError
      ensures r.Err? ==> result.samples == old(result.samples) && result.samples[..] == old(result.samples[..])
      ensures r.Ok? ==> r.value == result
      ensures MinShift <= shiftCount <= MaxShift ==> result.samples == old(result.samples)
      ensures MinShift <= shiftCount <= MaxShift ==> result.samples[..] == Scaled(old(input.samples[..]), shiftValue)
      ensures shiftCount < MinShift ==> result.samples == input.samples
    {
      if shiftValue > 0.0 {
        if shiftCount > MaxShift {
          return Err(OverflowError);
        }
        WriteScaled(result.samples, input.samples[..], shiftValue);
      } else if shiftValue < 0.0 {
        assert false;
      } else {
        result.samples := input.samples;
      }
      r := Ok(result);
    }
  }

  /** A shift by 0 leaves every sample as it is. */
  lemma ShiftByZero(x: seq<real>)
    ensures Scaled(x, ShiftValue(0)) == x
  {
  }

  /** Multiplying by a and then by its inverse b is the identity. */
  lemma MulRegroup(a: real, b: real, x: real)
    requires a * b == 1.0
    ensures b * (a * x) == x
  {
    assert b * (a * x) == (a * b) * x;
  }

  /** Scaling by a and then by its inverse b returns the samples. */
  lemma ScaledInverse(x: seq<real>, a: real, b: real)
    requires a * b == 1.0
    ensures Scaled(Scaled(x, a), b) == x
  {
    forall i | 0 <= i < |x|
      ensures Scaled(Scaled(x, a), b)[i] == x[i]
    {
      MulRegroup(a, b, x[i]);
    }
  }

  /** Shifting by k and then by -k returns the samples. */
  lemma ShiftRoundTrip(x: seq<real>, shiftCount: int)
    requires MinShift <= shiftCount <= -MinShift
    ensures Scaled(Scaled(x, ShiftValue(shiftCount)), ShiftValue(-shiftCount)) == x
  {
    var a, b := ShiftValue(shiftCount), ShiftValue(-shiftCount);
    ShiftValueInverse(shiftCount);
    ScaledInverse(x, a, b);
  }

  /** Cast: copies its input into its own result buffer (the source also asks
      for a different sample type; samples are reals here). */
  class Cast {
    const blockName: string
    const input: Stream
    const result: Stream

    ghost predicate Valid()
      reads input, result
    {
      input.Valid() && result.Valid() && result.n == input.n
    }

    constructor (name: string, input: Stream)
      requires input.Valid()
      modifies input`listeners
      ensures Valid() && blockName == "Resize" && this.input == input
      ensures fresh(result) && fresh(result.samples)
      ensures result.name == name && SameShape(result, input)
      ensures result.samples[..] == Zeros(input.n) && result.listeners == []
      ensures input.listeners == old(input.listeners) + [this]
    {
      blockName := "Resize";
      this.input := input;
      var copy := input.Copy(name);
      result := copy;
      new;
      input.AddListener(this);
    }

    /** process: np.copyto into the existing result buffer; the result keeps
        its own buffer, which now holds the input's samples. */
    method Process(ignored: object?) returns (r: Stream)
      requires Valid()
      modifies result.samples
      ensures r == result && Valid() && result.samples == old(result.samples)
      ensures result.samples[..] == old(input.samples[..])
    {
      var source := input.samples;
      var target := result.samples;
      forall i | 0 <= i < target.Length {
        target[i] := source[i];
      }
      r := result;
    }
  }

  /** The input after k chained IntegerIIR stages with the same factor. */
  function Poles(x: seq<real>, filterFactor: real, k: nat): (r: seq<real>)
    requires |x| <= 1 || filterFactor != 0.0
    ensures |r| == |x|
  {
    if k == 0 then x else IntegerIIROutput(Poles(x, filterFactor, k - 1), filterFactor)
  }

  /** A settled chain holds the input after one, two and three stages. */
  lemma PolesChain(x: seq<real>, y1: seq<real>, y2: seq<real>, y3: seq<real>, filterFactor: real)
    requires |x| <= 1 || filterFactor != 0.0
    requires y1 == IntegerIIROutput(x, filterFactor)
    requires y2 == IntegerIIROutput(y1, filterFactor) && y3 == IntegerIIROutput(y2, filterFactor)
    ensures Poles(x, filterFactor, 0) == x && Poles(x, filterFactor, 1) == y1
    ensures Poles(x, filterFactor, 2) == y2 && Poles(x, filterFactor, 3) == y3
  {
    assert Poles(x, filterFactor, 1) == y1;
    assert Poles(x, filterFactor, 2) == y2;
  }

  /** The number of stages a pole-count value selects: 1, 2 or 3, and the
      raw input (no stage) for any other value. */
  function PoleIndex(poleCount: real): (k: nat)
    ensures k <= 3
    ensures k != 0 ==> poleCount == k as real
    ensures poleCount in {1.0, 2.0, 3.0} ==> k != 0
  {
    if poleCount == 1.0 then 1 else if poleCount == 2.0 then 2 else if poleCount == 3.0 then 3 else 0
  }

  /** ThreePoleIIR: three IntegerIIR stages chained input -> p1 -> p2 -> p3,
      all with one filter factor; the block listens to the pole count and to
      the last stage's output. */
  class ThreePoleIIR {
    const blockName: string
    const input: Stream
    const result: Stream
    const filterFactor: real
    const poleCount: Parameter
    const p1: IntegerIIR
    const p2: IntegerIIR
    const p3: IntegerIIR

    /** The chain is wired as the constructor builds it, and every stream
        involved has the input's length. */
    ghost predicate Valid()
      reads input, result, p1.result, p2.result, p3.result
    {
      input.Valid() && result.Valid() && SameShape(result, input)
      && p1.input == input && p2.input == p1.result && p3.input == p2.result
      && p1.Valid() && p2.Valid() && p3.Valid()
      && p1.filterFactor == filterFactor && p2.filterFactor == filterFactor && p3.filterFactor == filterFactor
      && result != input && result != p1.result && result != p2.result && result != p3.result
    }

    /** Each stage's result holds the filter of the stage before it: the
        state after a notification of the input has run through the chain. */
    ghost predicate Settled()
      reads input, input.samples, p1.result, p1.result.samples, p2.result, p2.result.samples, p3.result, p3.result.samples
    {
      (|input.samples[..]| <= 1 || filterFactor != 0.0)
      && |p1.result.samples[..]| == |input.samples[..]| && |p2.result.samples[..]| == |input.samples[..]|
      && p1.result.samples[..] == IntegerIIROutput(input.samples[..], filterFactor)
      && p2.result.samples[..] == IntegerIIROutput(p1.result.samples[..], filterFactor)
      && p3.result.samples[..] == IntegerIIROutput(p2.result.samples[..], filterFactor)
    }

    /** ThreePoleIIR(name, input, filter, poles): a zero copy of the input for
        the result, the three-stage chain, and subscriptions to the pole count
        and to p3's output only. */
    constructor (name: string, input: Stream, filterFactor: real, poleParameter: Parameter)
      requires input.Valid()
      modifies input`listeners, poleParameter`listeners
      ensures Valid() && blockName == "MultiPole Integer IIR"
      ensures this.input == input && this.filterFactor == filterFactor && poleCount == poleParameter
      ensures fresh(result) && fresh(result.samples) && result.name == name
      ensures result.samples[..] == Zeros(input.n) && result.listeners == []
      ensures fresh(p1) && fresh(p2) && fresh(p3)
      ensures fresh(p1.result) && fresh(p2.result) && fresh(p3.result)
      ensures p1.result.name == "p1" && p2.result.name == "p2" && p3.result.name == "p3"
      ensures input.listeners == old(input.listeners) + [p1]
      ensures p1.result.listeners == [p2] && p2.result.listeners == [p3] && p3.result.listeners == [this]
      ensures poleParameter.listeners == old(poleParameter.listeners) + [this]
    {
      blockName := "MultiPole Integer IIR";
      this.input := input;
      var copy := input.Copy(name);
      result := copy;
      this.filterFactor := filterFactor;
      poleCount := poleParameter;
      var first := new IntegerIIR("p1", input, filterFactor);
      var second := new IntegerIIR("p2", first.result, filterFactor);
      var third := new IntegerIIR("p3", second.result, filterFactor);
      p1, p2, p3 := first, second, third;
      new;
      poleParameter.AddListener(this);
      p3.result.AddListener(this);
    }

    /** process: the result stream is made to refer to the buffer of p1, p2 or
        p3 for a pole count of 1, 2 or 3, and to the input's buffer otherwise.
        Once the chain has settled, the result is the input passed through
        that many stages. */
    method Process(event: object?) returns (r: Stream)
      requires Valid()
      modifies result`samples
      ensures r == result && Valid()
      ensures PoleIndex(poleCount.value) == 0 ==> result.samples == input.samples
      ensures PoleIndex(poleCount.value) == 1 ==> result.samples == p1.result.samples
      ensures PoleIndex(poleCount.value) == 2 ==> result.samples == p2.result.samples
      ensures PoleIndex(poleCount.value) == 3 ==> result.samples == p3.result.samples
      ensures old(Settled()) ==>
                result.samples[..] == Poles(input.samples[..], filterFactor, PoleIndex(poleCount.value))
    {
      if Settled() {
        PolesChain(input.samples[..], p1.result.samples[..], p2.result.samples[..], p3.result.samples[..], filterFactor);
      }
      var samples := input.samples;
      if poleCount.value == 1.0 {
        samples := p1.result.samples;
      } else if poleCount.value == 2.0 {
        samples := p2.result.samples;
      } else if poleCount.value == 3.0 {
        samples := p3.result.samples;
      }
      var stored := result.SetSamples(samples);
      r := result;
    }
  }
}
