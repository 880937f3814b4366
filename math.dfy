/** The elementwise arithmetic blocks of blocks/math.py. Each allocates its
    result as a zero-filled copy of its (first) input and, when notified,
    replaces the result's buffer by a freshly computed one. */
module MathBlocks {
  import opened Base
  import opened StreamCore

  /** -1.0 * s. */
  function Negated(s: seq<real>): (r: seq<real>)
    ensures |r| == |s|
  {
    seq(|s|, i requires 0 <= i < |s| => -s[i])
  }

  /** np.absolute(s): every sample is non-negative and has the magnitude of
      the sample it comes from. */
  function Magnitudes(s: seq<real>): (r: seq<real>)
    ensures |r| == |s|
    ensures forall i :: 0 <= i < |s| ==> r[i] >= 0.0 && (r[i] == s[i] || r[i] == -s[i])
  {
    seq(|s|, i requires 0 <= i < |s| => Abs(s[i]))
  }

  /** The operand lengths for which a + b and a * b are defined and fit the
      result stream, which has a's length. */
  predicate Compatible(a: seq<real>, b: seq<real>)
  {
    |a| == |b| || |b| == 1
  }

  /** a + b, elementwise after broadcasting. */
  function Sum(a: seq<real>, b: seq<real>): (r: seq<real>)
    requires Compatible(a, b)
    ensures |r| == |a|
  {
    var b' := Broadcast(b, |a|);
    seq(|a|, i requires 0 <= i < |a| => a[i] + b'[i])
  }

  /** a * b, elementwise after broadcasting. */
  function Product(a: seq<real>, b: seq<real>): (r: seq<real>)
    requires Compatible(a, b)
    ensures |r| == |a|
  {
    var b' := Broadcast(b, |a|);
    seq(|a|, i requires 0 <= i < |a| => a[i] * b'[i])
  }

  /** Inverting twice gives back the original samples. */
  lemma NegatedTwice(s: seq<real>)
    ensures Negated(Negated(s)) == s
  {
    assert forall i :: 0 <= i < |s| ==> Negated(Negated(s))[i] == s[i];
  }

  /** Taking magnitudes twice is the same as taking them once. */
  lemma MagnitudesIdempotent(s: seq<real>)
    ensures Magnitudes(Magnitudes(s)) == Magnitudes(s)
  {
    var m := Magnitudes(s);
    assert forall i :: 0 <= i < |s| ==> Magnitudes(m)[i] == m[i];
  }

  /** For operands of equal length, the sum and product are the samplewise
      ones, with the inputs in either order. */
  lemma SumProductSamplewise(a: seq<real>, b: seq<real>, i: nat)
    requires |a| == |b| && i < |a|
    ensures Sum(a, b)[i] == a[i] + b[i] == Sum(b, a)[i]
    ensures Product(a, b)[i] == a[i] * b[i] == Product(b, a)[i]
  {
    assert |b| == 1 ==> Broadcast(b, |a|)[i] == b[0] == b[i];
    assert |a| == 1 ==> Broadcast(a, |b|)[i] == a[0] == a[i];
  }

  /** A buffer that process writes into a block's result: the expression's
      value in a fresh array, passed through the samples setter. */
  method Store(result: Stream, values: seq<real>) returns (r: Result<Stream>)
    requires result.Valid()
    modifies result`samples
    ensures result.Valid()
    ensures r.Err? <==> |values| != result.n
    ensures r.Err? ==> r.error.ValueError? && result.samples == old(result.samples)
    ensures r.Ok? ==> r.value == result && fresh(result.samples) && result.samples[..] == values
  {
    var buffer := NewBuffer(values);
    var stored := result.SetSamples(buffer);
    if stored.Err? {
      r := Err(stored.error);
    } else {
      r := Ok(result);
    }
  }

  class Invert {
    const blockName: string
    const result: Stream

    /** Invert(result_name, input): result is a zero copy of the input, and
        the block listens to the input. */
    constructor (resultName: string, input: Stream)
      requires input.Valid()
      modifies input`listeners
      ensures blockName == "Inverse"
      ensures fresh(result) && fresh(result.samples) && result.Valid()
      ensures result.name == resultName && SameShape(result, input)
      ensures result.samples[..] == Zeros(input.n) && result.listeners == []
      ensures input.listeners == old(input.listeners) + [this]
    {
      blockName := "Inverse";
      var copy := input.Copy(resultName);
      result := copy;
      new;
      input.AddListener(this);
    }

    /** process(input): the result becomes -input, samplewise; the input is
        not changed. A notifying stream of another length makes the setter raise. */
    method Process(changed: Stream) returns (r: Result<Stream>)
      requires result.Valid() && changed.Valid()
      modifies result`samples
      ensures result.Valid()
      ensures r.Err? <==> changed.n != result.n
      ensures r.Err? ==> result.samples == old(result.samples)
      ensures r.Ok? ==> r.value == result && fresh(result.samples)
      ensures r.Ok? ==> forall i :: 0 <= i < result.n ==> result.samples[i] == -old(changed.samples[i])
    {
      r := Store(result, Negated(changed.samples[..]));
    }
  }

  class Absolute {
    const blockName: string
    const result: Stream

    /** Absolute(result_name, input): result is a zero copy of the input, and
        the block listens to the input. */
    constructor (resultName: string, input: Stream)
      requires input.Valid()
      modifies input`listeners
      ensures blockName == "Absolute"
      ensures fresh(result) && fresh(result.samples) && result.Valid()
      ensures result.name == resultName && SameShape(result, input)
      ensures result.samples[..] == Zeros(input.n) && result.listeners == []
      ensures input.listeners == old(input.listeners) + [this]
    {
      blockName := "Absolute";
      var copy := input.Copy(resultName);
      result := copy;
      new;
      input.AddListener(this);
    }

    /** process(input): the result becomes |input|, samplewise. */
    method Process(changed: Stream) returns (r: Result<Stream>)
      requires result.Valid() && changed.Valid()
      modifies result`samples
      ensures result.Valid()
      ensures r.Err? <==> changed.n != result.n
      ensures r.Err? ==> result.samples == old(result.samples)
      ensures r.Ok? ==> r.value == result && fresh(result.samples)
      ensures r.Ok? ==> result.samples[..] == Magnitudes(old(changed.samples[..]))
    {
      r := Store(result, Magnitudes(changed.samples[..]));
    }
  }

  class Multiply {
    const blockName: string
    const inputA: Stream
    const inputB: Stream
    const result: Stream

    ghost predicate Valid()
      reads result, inputA, inputB
    {
      result.Valid() && inputA.Valid() && inputB.Valid() && result.n == inputA.n
    }

    /** Multiply(result_name, a, b): result is a zero copy of a, and the
        block listens to a and then to b (twice to a when b is a). */
    constructor (resultName: string, a: Stream, b: Stream)
      requires a.Valid() && b.Valid()
      modifies a`listeners, b`listeners
      ensures Valid() && blockName == "Product" && inputA == a && inputB == b
      ensures fresh(result) && fresh(result.samples)
      ensures result.name == resultName && SameShape(result, a)
      ensures result.samples[..] == Zeros(a.n) && result.listeners == []
      ensures a == b ==> a.listeners == old(a.listeners) + [this, this]
      ensures a != b ==> a.listeners == old(a.listeners) + [this] && b.listeners == old(b.listeners) + [this]
    {
      blockName := "Product";
      inputA := a;
      inputB := b;
      var copy := a.Copy(resultName);
      result := copy;
      new;
      a.AddListener(this);
      b.AddListener(this);
    }

    /** process(any): the result becomes a * b from the two retained inputs,
        whichever of them notified; operands numpy cannot combine into a
        buffer of the result's length raise ValueError. */
    method Process(changed: object?) returns (r: Result<Stream>)
      requires Valid()
      modifies result`samples
      ensures Valid()
      ensures r.Err? <==> !Compatible(old(inputA.samples[..]), old(inputB.samples[..]))
      ensures r.Err? ==> result.samples == old(result.samples)
      ensures r.Ok? ==> r.value == result && fresh(result.samples)
      ensures r.Ok? ==> result.samples[..] == Product(old(inputA.samples[..]), old(inputB.samples[..]))
    {
      if !Compatible(inputA.samples[..], inputB.samples[..]) {
        r := Err(ValueError("operands could not be broadcast together"));
      } else {
        r := Store(result, Product(inputA.samples[..], inputB.samples[..]));
      }
    }
  }

  class Add {
    const blockName: string
    const inputA: Stream
    const inputB: Stream
    const result: Stream

    ghost predicate Valid()
      reads result, inputA, inputB
    {
      result.Valid() && inputA.Valid() && inputB.Valid() && result.n == inputA.n
    }

    /** Add(result_name, a, b): result is a zero copy of a, and the block
        listens to a and then to b (twice to a when b is a). */
    constructor (resultName: string, a: Stream, b: Stream)
      requires a.Valid() && b.Valid()
      modifies a`listeners, b`listeners
      ensures Valid() && blockName == "Sum" && inputA == a && inputB == b
      ensures fresh(result) && fresh(result.samples)
      ensures result.name == resultName && SameShape(result, a)
      ensures result.samples[..] == Zeros(a.n) && result.listeners == []
      ensures a == b ==> a.listeners == old(a.listeners) + [this, this]
      ensures a != b ==> a.listeners == old(a.listeners) + [this] && b.listeners == old(b.listeners) + [this]
    {
      blockName := "Sum";
      inputA := a;
      inputB := b;
      var copy := a.Copy(resultName);
      result := copy;
      new;
      a.AddListener(this);
      b.AddListener(this);
    }

    /** process(any): the result becomes a + b from the two retained inputs,
        whichever of them notified. */
    method Process(changed: object?) returns (r: Result<Stream>)
      requires Valid()
      modifies result`samples
      ensures Valid()
      ensures r.Err? <==> !Compatible(old(inputA.samples[..]), old(inputB.samples[..]))
      ensures r.Err? ==> result.samples == old(result.samples)
      ensures r.Ok? ==> r.value == result && fresh(result.samples)
      ensures r.Ok? ==> result.samples[..] == Sum(old(inputA.samples[..]), old(inputB.samples[..]))
    {
      if !Compatible(inputA.samples[..], inputB.samples[..]) {
        r := Err(ValueError("operands could not be broadcast together"));
      } else {
        r := Store(result, Sum(inputA.samples[..], inputB.samples[..]));
      }
    }
  }
}
