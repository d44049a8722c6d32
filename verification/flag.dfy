/** `useBoolean`: a flag with set-true, set-false and toggle. */
module Flags {
  import opened Js

  class Flag {
    var value: bool

    /** Starts as `!!defaultValue`. */
    constructor (defaultValue: JsValue)
      ensures value == Truthy(defaultValue)
      ensures value <==> !(defaultValue.Undefined? || defaultValue.Null? || defaultValue == Bool(false)
                            || defaultValue == Number(0) || defaultValue == Text(""))
    {
      value := Truthy(defaultValue);
    }

    method SetTrue()
      modifies this
      ensures value
    {
      value := true;
    }

    method SetFalse()
      modifies this
      ensures !value
    {
      value := false;
    }

    method Toggle()
      modifies this
      ensures value == !old(value)
    {
      value := !value;
    }

    /** `setValue(b)`, handed out to callers as is. */
    method Set(b: bool)
      modifies this
      ensures value == b
    {
      value := b;
    }
  }

  /** Toggling twice restores the flag. */
  method ToggleTwice(f: Flag)
    modifies f
    ensures f.value == old(f.value)
  {
    f.Toggle();
    f.Toggle();
  }

  /** Setting true (or false) twice is the same as setting it once: the prior
      value does not matter. */
  method SetTwice(f: Flag, b: bool)
    modifies f
    ensures f.value == b
  {
    if b {
      f.SetTrue();
      f.SetTrue();
    } else {
      f.SetFalse();
      f.SetFalse();
    }
  }
}
