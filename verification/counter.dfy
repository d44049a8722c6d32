/** `useCounter`: an integer count with increment, decrement and reset. */
module Counters {
  import opened Js

  /** The start values the model's integer count can hold: a number, or any
      falsy value (which `|| 0` turns into 0). */
  predicate Countable(initialValue: JsValue) {
    !Truthy(initialValue) || initialValue.Number?
  }

  /** `initialValue || 0` read as an integer. */
  function StartValue(initialValue: JsValue): (n: int)
    requires Countable(initialValue)
    ensures !Truthy(initialValue) ==> n == 0
    ensures initialValue.Number? ==> n == initialValue.n
    ensures Or(initialValue, Number(0)) == Number(n)
  {
    if Truthy(initialValue) then initialValue.n else 0
  }

  class Counter {
    /** The state held by `useState`. */
    var count: int
    /** `initialValue || 0` of the latest render, which `reset` restores. */
    var initial: int

    constructor (initialValue: JsValue)
      requires Countable(initialValue)
      ensures initial == StartValue(initialValue)
      ensures count == initial
    {
      initial := StartValue(initialValue);
      count := StartValue(initialValue);
    }

    method Increment()
      modifies this`count
      ensures count == old(count) + 1
    {
      count := count + 1;
    }

    method Decrement()
      modifies this`count
      ensures count == old(count) - 1
    {
      count := count - 1;
    }

    /** Restores the initial value, whatever the count is now. */
    method Reset()
      modifies this`count
      ensures count == initial
    {
      count := initial;
    }

    /** `setCount(n)`, handed out to callers as is. */
    method Set(n: int)
      modifies this`count
      ensures count == n
    {
      count := n;
    }

    /** A later render passing `initialValue` again: `useState` keeps the count,
        but the `reset` closure of that render restores the new initial value. */
    method Rerender(initialValue: JsValue)
      requires Countable(initialValue)
      modifies this`initial
      ensures initial == StartValue(initialValue)
      ensures count == old(count)
    {
      initial := StartValue(initialValue);
    }
  }

  /** Increment and decrement undo each other. */
  method IncrementThenDecrement(c: Counter)
    modifies c
    ensures c.count == old(c.count) && c.initial == old(c.initial)
  {
    c.Increment();
    c.Decrement();
  }

  /** No lower bound: decrementing from the initial value 0 gives -1. */
  method DecrementBelowZero() returns (c: Counter)
    ensures c.count == -1
  {
    c := new Counter(Undefined);
    c.Decrement();
  }
}
