/** The gating rule of `useInterval`: which delays register a repeating timer. */
module Interval {
  import opened Js

  /** True when `useInterval(callback, delay)` registers a timer: a falsy delay
      registers nothing, except 0, which is a valid delay. */
  function Schedules(delay: JsValue): (armed: bool)
    ensures Nullish(delay) ==> !armed
    ensures delay.Number? ==> armed
    ensures delay.Bool? ==> armed == delay.b
    ensures delay.Text? ==> armed == (delay.s != "")
  {
    !(!Truthy(delay) && delay != Number(0))
  }
}
