/** The option object of `useCountdown`, normalised into one configuration. */
module CountdownConfig {
  import opened Js

  /** The configuration after defaults are filled in. The fields keep the
      JavaScript values: the tick reads `isIncrement` by truthiness, compares
      `countStop` with `===`, and hands `intervalMs` to the interval's gate. */
  datatype Config = Config(countStart: JsValue, intervalMs: JsValue, isIncrement: JsValue, countStop: JsValue)

  /** Two shapes: the legacy `{seconds, interval, isIncrement}`, chosen by the
      presence of the `seconds` key, and `{countStart, intervalMs, isIncrement,
      countStop}`. Missing or nullish settings get their defaults. */
  function Normalize(option: map<string, JsValue>): (c: Config)
    // defaults are filled in: only the start may stay nullish
    ensures !Nullish(c.intervalMs) && !Nullish(c.isIncrement) && !Nullish(c.countStop)
    // legacy shape: `seconds` and `interval` are read, any `countStop` is ignored
    ensures "seconds" in option ==>
              c.countStart == option["seconds"] && c.countStop == Number(0)
    ensures "seconds" in option && !Nullish(Get(option, "interval")) ==> c.intervalMs == option["interval"]
    // generic shape
    ensures "seconds" !in option ==> c.countStart == Get(option, "countStart")
    ensures "seconds" !in option && !Nullish(Get(option, "intervalMs")) ==> c.intervalMs == option["intervalMs"]
    ensures "seconds" !in option && !Nullish(Get(option, "countStop")) ==> c.countStop == option["countStop"]
    // both shapes
    ensures !Nullish(Get(option, "isIncrement")) ==> c.isIncrement == option["isIncrement"]
    ensures Nullish(Get(option, "isIncrement")) ==> c.isIncrement == Bool(false)
    ensures Nullish(Get(option, if "seconds" in option then "interval" else "intervalMs")) ==> c.intervalMs == Number(1000)
    ensures "seconds" !in option && Nullish(Get(option, "countStop")) ==> c.countStop == Number(0)
  {
    // the settings as read from the option object, before defaults
    var read :=
      if "seconds" in option then
        Config(option["seconds"], Get(option, "interval"), Get(option, "isIncrement"), Undefined)
      else
        Config(Get(option, "countStart"), Get(option, "intervalMs"), Get(option, "isIncrement"), Get(option, "countStop"));
    Config(read.countStart,
           Coalesce(read.intervalMs, Number(1000)),
           Coalesce(read.isIncrement, Bool(false)),
           Coalesce(read.countStop, Number(0)))
  }

  /** A configuration as `Normalize` produces it. */
  predicate Normalized(c: Config) {
    !Nullish(c.intervalMs) && !Nullish(c.isIncrement) && !Nullish(c.countStop)
  }

  function LegacyShape(seconds: JsValue, interval: JsValue, isIncrement: JsValue): map<string, JsValue> {
    map["seconds" := seconds, "interval" := interval, "isIncrement" := isIncrement]
  }

  function GenericShape(c: Config): map<string, JsValue> {
    map["countStart" := c.countStart, "intervalMs" := c.intervalMs,
        "isIncrement" := c.isIncrement, "countStop" := c.countStop]
  }

  /** Writing a normalised configuration back as a generic option object and
      normalising it again gives the same configuration. */
  lemma GenericRoundTrip(c: Config)
    requires Normalized(c)
    ensures Normalize(GenericShape(c)) == c
  {
    assert "seconds" !in GenericShape(c);
  }

  /** The legacy shape means the same as the generic shape with the stop left out. */
  lemma LegacyMatchesGeneric(seconds: JsValue, interval: JsValue, isIncrement: JsValue)
    ensures Normalize(LegacyShape(seconds, interval, isIncrement))
         == Normalize(map["countStart" := seconds, "intervalMs" := interval, "isIncrement" := isIncrement])
  {
    var generic := map["countStart" := seconds, "intervalMs" := interval, "isIncrement" := isIncrement];
    assert "seconds" !in generic;
  }

  /** A supplied 0 (or false) survives normalisation: `??` only replaces null and undefined. */
  lemma ZeroIsKept(option: map<string, JsValue>)
    requires "seconds" !in option
    requires Get(option, "intervalMs") == Number(0) && Get(option, "countStop") == Number(0)
    requires Get(option, "isIncrement") == Bool(false)
    ensures Normalize(option) == Config(Get(option, "countStart"), Number(0), Bool(false), Number(0))
  {
  }
}
