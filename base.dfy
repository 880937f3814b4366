/** Vocabulary shared by every module: the exceptions the modelled code raises,
    a result type for operations that can raise them, and sample-buffer helpers. */
module Base {

  /** The Python exceptions raised by the modelled code. */
  datatype Error = ValueError(message: string) | IndexError | ZeroDivisionError | OverflowError

  /** The value of an operation, or the exception it raised. */
  datatype Result<T> = Ok(value: T) | Err(error: Error)

  /** 2 to the power k, for a natural k. */
  function Pow2(k: nat): (r: nat)
    ensures r >= 1
  {
    if k == 0 then 1 else 2 * Pow2(k - 1)
  }

  /** A buffer of n zero samples, as np.zeros(n) allocates. */
  function Zeros(n: nat): seq<real>
  {
    seq(n, _ => 0.0)
  }

  /** numpy broadcasting of an operand against a shape of length n: a
      one-sample buffer is repeated, any other buffer is taken as it is. */
  function Broadcast(b: seq<real>, n: nat): (r: seq<real>)
  {
    if |b| == 1 then seq(n, _ => b[0]) else b
  }

  /** |x| on reals. */
  function Abs(x: real): real
  {
    if x < 0.0 then -x else x
  }

  /** The elementwise product of s by the scalar k (numpy `s * k`). */
  function Scaled(s: seq<real>, k: real): seq<real>
  {
    seq(|s|, i requires 0 <= i < |s| => k * s[i])
  }

  /** np.multiply(series, amplitude, out=buffer): the product is written
      into the buffer itself, element by element. */
  method WriteScaled(buffer: array<real>, series: seq<real>, amplitude: real)
    requires buffer.Length == |series|
    modifies buffer
    ensures buffer[..] == Scaled(series, amplitude)
  {
    forall i | 0 <= i < buffer.Length {
      buffer[i] := amplitude * series[i];
    }
    assert forall i :: 0 <= i < buffer.Length ==> buffer[i] == Scaled(series, amplitude)[i];
  }
}
