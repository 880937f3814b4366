/** The change-notification base and the sample containers of core/stream.py:
    the listener list every notifier keeps, the fixed-length Stream, and the
    Streams group that re-notifies whenever one of its members does. */
module StreamCore {
  import opened Base

  /** One callback made by update_listeners: the listener that was called and
      the object it received (null stands for Python's None). */
  datatype Call = Call(listener: object, arg: object?)

  /** Listener.update_listeners: every registered callback is invoked exactly
      once, in subscription order, each receiving obj. The result is the list
      of invocations, in the order they are made. */
  method Dispatch(listeners: seq<object>, obj: object?) returns (calls: seq<Call>)
    ensures |calls| == |listeners|
    ensures forall i :: 0 <= i < |calls| ==> calls[i] == Call(listeners[i], obj)
  {
    calls := [];
    for i := 0 to |listeners|
      invariant |calls| == i
      invariant forall j :: 0 <= j < i ==> calls[j] == Call(listeners[j], obj)
    {
      calls := calls + [Call(listeners[i], obj)];
    }
  }

  /** Stream.full_scale: 1.0 for a float stream (bit count 0 or less), else
      2^(bits-1), the positive range of a signed integer of that width. */
  function FullScale(bitCount: int): (r: real)
    ensures r >= 1.0
    ensures bitCount <= 1 ==> r == 1.0
  {
    if bitCount > 0 then Pow2(bitCount - 1) as real else 1.0
  }

  /** Each extra bit doubles the full-scale value of an integer stream. */
  lemma FullScaleDoubles(bitCount: int)
    requires bitCount >= 1
    ensures FullScale(bitCount + 1) == 2.0 * FullScale(bitCount)
  {
  }

  /** A fresh array holding the values of s: numpy building the array of an
      elementwise expression. */
  method NewBuffer(s: seq<real>) returns (a: array<real>)
    ensures fresh(a) && a[..] == s
  {
    a := new real[|s|](i requires 0 <= i < |s| => s[i]);
  }

  /** The metadata Stream.copy carries over: dt, N, osr and bit depth. */
  predicate SameShape(a: Stream, b: Stream)
  {
    a.dt == b.dt && a.n == b.n && a.osr == b.osr && a.bitDepth == b.bitDepth
  }

  /** A named, fixed-length buffer of samples with its sampling metadata. */
  class Stream {
    const name: string
    const dt: real
    const n: nat
    const osr: int
    const bitDepth: int
    var samples: array<real>
    var listeners: seq<object>

    /** The length invariant: the buffer always holds exactly n samples. */
    ghost predicate Valid()
      reads this
    {
      samples.Length == n && osr >= 2 && dt != 0.0
    }

    /** The constructor body past the two checks that can raise: a
        zero-filled buffer of n samples and no listeners. */
    constructor (name: string, dt: real, n: nat, osr: int, bitDepth: int)
      requires osr >= 2 && dt != 0.0
      ensures Valid()
      ensures this.name == name && this.dt == dt && this.n == n
      ensures this.osr == osr && this.bitDepth == bitDepth
      ensures fresh(samples) && samples[..] == Zeros(n)
      ensures listeners == []
    {
      this.name := name;
      this.dt := dt;
      this.n := n;
      this.osr := osr;
      this.bitDepth := bitDepth;
      samples := new real[n](_ => 0.0);
      listeners := [];
    }

    /** Stream(name, dt, N, osr, bit_depth): raises ValueError when osr < 2,
        then ZeroDivisionError when the time base np.arange(dt, tmax, dt)
        has a zero step, then ValueError when np.zeros(N) is asked for a
        negative length; otherwise a stream holding the given metadata
        unchanged. */
    static method New(name: string, dt: real, n: int, osr: int, bitDepth: int)
      returns (r: Result<Stream>)
      ensures r.Err? <==> osr < 2 || dt == 0.0 || n < 0
      ensures r.Err? ==> (if osr < 2 || dt != 0.0 then r.error.ValueError? else r.error == ZeroDivisionError)
      ensures r.Ok? ==> fresh(r.value) && r.value.Valid() && fresh(r.value.samples)
      ensures r.Ok? ==> r.value.name == name && r.value.dt == dt && r.value.n == n
      ensures r.Ok? ==> r.value.osr == osr && r.value.bitDepth == bitDepth
      ensures r.Ok? ==> r.value.samples[..] == Zeros(n) && r.value.listeners == []
    {
      if osr < 2 {
        r := Err(ValueError("the oversampling ratio must be 2 or larger"));
      } else if dt == 0.0 {
        r := Err(ZeroDivisionError);
      } else if n < 0 {
        r := Err(ValueError("negative dimensions are not allowed"));
      } else {
        var s := new Stream(name, dt, n, osr, bitDepth);
        r := Ok(s);
      }
    }

    /** add_listener: appends, with no duplicate detection. */
    method AddListener(listener: object)
      modifies this`listeners
      ensures listeners == old(listeners) + [listener]
    {
      listeners := listeners + [listener];
    }

    /** Stream.update_listeners(obj): a non-None obj raises before any
        listener runs; otherwise each listener, in order, receives this stream. */
    method UpdateListeners(obj: object?) returns (r: Result<seq<Call>>)
      ensures r.Err? <==> obj != null
      ensures r.Ok? ==> |r.value| == |listeners|
      ensures r.Ok? ==> forall i :: 0 <= i < |listeners| ==> r.value[i] == Call(listeners[i], this)
    {
      if obj != null {
        r := Err(ValueError("a stream references itself"));
      } else {
        var calls := Dispatch(listeners, this);
        r := Ok(calls);
      }
    }

    /** copy(new_name): a distinct stream with the same dt, N, osr and bit
        depth, the new name, a fresh all-zero buffer and no listeners; this
        stream is not touched. */
    method Copy(newName: string) returns (c: Stream)
      requires Valid()
      ensures fresh(c) && fresh(c.samples) && c.Valid()
      ensures c.name == newName && SameShape(c, this)
      ensures c.samples[..] == Zeros(n) && c.listeners == []
    {
      c := new Stream(newName, dt, n, osr, bitDepth);
    }

    /** The samples setter: a buffer whose length is not N raises ValueError
        and leaves the old buffer in place; otherwise the stream now refers to
        the given buffer itself (no copy is made). */
    method SetSamples(buffer: array<real>) returns (r: Result<()>)
      requires Valid()
      modifies this`samples
      ensures Valid()
      ensures r.Err? <==> buffer.Length != n
      ensures r.Err? ==> r.error.ValueError? && samples == old(samples)
      ensures r.Ok? ==> samples == buffer
    {
      if buffer.Length != n {
        r := Err(ValueError("samples length != time_series length"));
      } else {
        samples := buffer;
        r := Ok(());
      }
    }
  }

  /** A named group of streams that re-notifies its own listeners whenever a
      member notifies. */
  class Streams {
    const name: string
    var streams: seq<Stream>
    var listeners: seq<object>

    constructor (name: string)
      ensures this.name == name && streams == [] && listeners == []
    {
      this.name := name;
      streams := [];
      listeners := [];
    }

    /** add_listener, as on every notifier. */
    method AddListener(listener: object)
      modifies this`listeners
      ensures listeners == old(listeners) + [listener]
    {
      listeners := listeners + [listener];
    }

    /** append: adds the member and subscribes the group to it. */
    method Append(s: Stream)
      modifies this`streams, s`listeners
      ensures streams == old(streams) + [s]
      ensures s.listeners == old(s.listeners) + [this]
    {
      streams := streams + [s];
      s.AddListener(this);
    }

    /** reset: empties the member list; the group stays subscribed to every
        former member. */
    method Reset()
      modifies this`streams
      ensures streams == []
    {
      streams := [];
    }

    /** listener_update: a member changed, so each of the group's listeners,
        in order, receives the group itself. */
    method ListenerUpdate(ignored: object?) returns (calls: seq<Call>)
      ensures |calls| == |listeners|
      ensures forall i :: 0 <= i < |listeners| ==> calls[i] == Call(listeners[i], this)
    {
      calls := Dispatch(listeners, this);
    }
  }
}
