/** The observable scalar of gui/parameters.py: a named value that notifies its
    listeners each time it is assigned, and the initial value a slider gives it. */
module Parameters {
  import opened Base
  import opened StreamCore

  class Parameter {
    const name: string
    var value: real
    var listeners: seq<object>

    /** Parameter(name, value=1). */
    constructor (name: string, value: real := 1.0)
      ensures this.name == name && this.value == value && listeners == []
    {
      this.name := name;
      this.value := value;
      listeners := [];
    }

    /** add_listener, as on every notifier. */
    method AddListener(listener: object)
      modifies this`listeners
      ensures listeners == old(listeners) + [listener]
    {
      listeners := listeners + [listener];
    }

    /** Parameter.update_listeners(obj): a non-None obj raises before any
        listener runs; otherwise each listener, in order, receives this parameter. */
    method UpdateListeners(obj: object?) returns (r: Result<seq<Call>>)
      ensures r.Err? <==> obj != null
      ensures r.Ok? ==> |r.value| == |listeners|
      ensures r.Ok? ==> forall i :: 0 <= i < |listeners| ==> r.value[i] == Call(listeners[i], this)
    {
      if obj != null {
        r := Err(ValueError("a parameter references itself"));
      } else {
        var calls := Dispatch(listeners, this);
        r := Ok(calls);
      }
    }

    /** The value setter: stores the value first, then notifies every listener
        once, in order, with this parameter, whether or not the value changed. */
    method SetValue(v: real) returns (calls: seq<Call>)
      modifies this`value
      ensures value == v
      ensures |calls| == |listeners|
      ensures forall i :: 0 <= i < |listeners| ==> calls[i] == Call(listeners[i], this)
    {
      value := v;
      var r := UpdateListeners(null);
      calls := r.value;
    }
  }

  /** SliderParameter's initial parameter value: the midpoint of its range. */
  function SliderDefault(minVal: real, maxVal: real): (r: real)
    ensures r - minVal == maxVal - r
    ensures minVal <= maxVal ==> minVal <= r <= maxVal
  {
    (maxVal + minVal) / 2.0
  }
}
