/** The countdown as a state machine on values: what one tick does, when the
    interval fires, and where a run of interval periods leads. */
module CountdownSpec {
  import opened Js
  import opened Interval
  import opened CountdownConfig

  /** What the hook returns: the current count and whether it is running. */
  datatype Snapshot = Snapshot(count: int, running: bool)

  /** `count === countStop` */
  predicate AtStop(c: Config, count: int) {
    c.countStop == Number(count)
  }

  /** The step a tick takes: up when `isIncrement` is truthy, down otherwise. */
  function Direction(c: Config): (d: int)
    ensures d == 1 || d == -1
    ensures d == 1 <==> Truthy(c.isIncrement)
  {
    if Truthy(c.isIncrement) then 1 else -1
  }

  /** The interval callback: stop if the count already equals the stop value,
      otherwise move the count one step. */
  function TickStep(c: Config, s: Snapshot): (t: Snapshot)
    ensures t.count == s.count <==> AtStop(c, s.count)
    ensures AtStop(c, s.count) ==> !t.running
    ensures !AtStop(c, s.count) ==> t.running == s.running && t.count - s.count == Direction(c)
    ensures t.running ==> s.running
  {
    if AtStop(c, s.count) then s.(running := false)
    else s.(count := s.count + Direction(c))
  }

  /** The delay handed to `useInterval`: `isCountdownRunning ? intervalMs : null`. */
  function Delay(running: bool, intervalMs: JsValue): JsValue {
    if running then intervalMs else Null
  }

  /** Whether the interval is registered, so that ticks fire. */
  predicate Armed(c: Config, running: bool) {
    Schedules(Delay(running, c.intervalMs))
  }

  /** One interval period: the callback fires only while the interval is armed. */
  function Elapse(c: Config, s: Snapshot): Snapshot {
    if Armed(c, s.running) then TickStep(c, s) else s
  }

  /** `n` interval periods in a row. */
  function Run(c: Config, s: Snapshot, n: nat): (r: Snapshot)
    ensures !Armed(c, s.running) ==> r == s
    ensures r.running ==> s.running
    ensures s.count - n <= r.count <= s.count + n
    decreases n
  {
    if n == 0 then s else Run(c, Elapse(c, s), n - 1)
  }

  /** A stopped countdown never ticks, and with a usable delay a running one
      always does: the interval is armed exactly while running. */
  lemma ArmedWhileRunning(c: Config, running: bool)
    ensures !Armed(c, false)
    ensures c.intervalMs.Number? ==> (Armed(c, running) <==> running)
  {
  }

  /** Periods compose: running `a` then `b` periods is running `a + b`. */
  lemma {:induction false} RunAdditive(c: Config, s: Snapshot, a: nat, b: nat)
    ensures Run(c, s, a + b) == Run(c, Run(c, s, a), b)
    decreases a
  {
    if a > 0 {
      RunAdditive(c, Elapse(c, s), a - 1, b);
    }
  }

  /** The stop value lies ahead of (or at) `count` in the tick direction. */
  predicate StopAhead(c: Config, count: int) {
    c.countStop.Number? && (c.countStop.n - count) * Direction(c) >= 0
  }

  /** The number of steps from `count` to an ahead stop value. */
  function Gap(c: Config, count: int): (g: nat)
    requires StopAhead(c, count)
    ensures count + g * Direction(c) == c.countStop.n
    ensures g == 0 <==> AtStop(c, count)
  {
    (c.countStop.n - count) * Direction(c)
  }

  /** No overshoot: however many periods elapse, a count that starts on the
      near side of the stop value stays there, and only moves toward it. */
  lemma {:induction false} NoOvershoot(c: Config, s: Snapshot, n: nat)
    requires StopAhead(c, s.count)
    ensures StopAhead(c, Run(c, s, n).count)
    ensures (Run(c, s, n).count - s.count) * Direction(c) >= 0
    decreases n
  {
    if n > 0 {
      var e := Elapse(c, s);
      assert StopAhead(c, e.count) && (e.count - s.count) * Direction(c) >= 0;
      NoOvershoot(c, e, n - 1);
    }
  }

  /** While the stop value is not yet reached, each period moves the count one
      step and the countdown keeps running. */
  lemma {:induction false} RunTowardStop(c: Config, s: Snapshot, k: nat)
    requires s.running && Armed(c, true)
    requires StopAhead(c, s.count) && k <= Gap(c, s.count)
    ensures Run(c, s, k) == Snapshot(s.count + k * Direction(c), true)
    decreases k
  {
    if k > 0 {
      var e := Elapse(c, s);
      assert e == Snapshot(s.count + Direction(c), true);
      RunTowardStop(c, e, k - 1);
    }
  }

  /** Termination at the stop value: after exactly `Gap` periods the count is
      the stop value, the next period stops the countdown without moving the
      count, and from then on nothing changes. */
  lemma ReachesStopThenHalts(c: Config, s: Snapshot, m: nat)
    requires s.running && Armed(c, true)
    requires StopAhead(c, s.count)
    ensures Run(c, s, Gap(c, s.count)) == Snapshot(c.countStop.n, true)
    ensures m > Gap(c, s.count) ==> Run(c, s, m) == Snapshot(c.countStop.n, false)
  {
    var g := Gap(c, s.count);
    RunTowardStop(c, s, g);
    if m > g {
      RunAdditive(c, s, g + 1, m - g - 1);
      RunAdditive(c, s, g, 1);
    }
  }

  /** A stop value behind the start (or one that is not a number, which `===`
      never matches) is never met: the countdown runs on forever. */
  lemma {:induction false} RunsAway(c: Config, s: Snapshot, n: nat)
    requires s.running && Armed(c, true)
    requires !StopAhead(c, s.count)
    ensures Run(c, s, n) == Snapshot(s.count + n * Direction(c), true)
    decreases n
  {
    if n > 0 {
      var e := Elapse(c, s);
      assert e == Snapshot(s.count + Direction(c), true);
      assert !StopAhead(c, e.count);
      RunsAway(c, e, n - 1);
    }
  }

  /** A start equal to the stop value: the first tick stops the countdown and
      leaves the count alone. */
  lemma StartAtStop(c: Config, s: Snapshot)
    requires s.running && Armed(c, true) && AtStop(c, s.count)
    ensures Run(c, s, 1) == Snapshot(s.count, false)
  {
  }

  /** `{countStart: 3}` counts 3, 2, 1, 0 and then stops at 0. */
  lemma CountdownFromThree()
    ensures var c := Normalize(map["countStart" := Number(3)]);
            var s := Snapshot(3, true);
            [Run(c, s, 1), Run(c, s, 2), Run(c, s, 3), Run(c, s, 4), Run(c, s, 9)]
            == [Snapshot(2, true), Snapshot(1, true), Snapshot(0, true), Snapshot(0, false), Snapshot(0, false)]
  {
    var c := Normalize(map["countStart" := Number(3)]);
    var s := Snapshot(3, true);
    RunTowardStop(c, s, 1);
    RunTowardStop(c, s, 2);
    ReachesStopThenHalts(c, s, 4);
    ReachesStopThenHalts(c, s, 9);
  }

  /** `{countStart: 0, countStop: 5, isIncrement: true}` counts up 0..5 and stops at 5. */
  lemma CountUpToFive()
    ensures var c := Normalize(map["countStart" := Number(0), "countStop" := Number(5), "isIncrement" := Bool(true)]);
            var s := Snapshot(0, true);
            (forall k: nat :: k <= 5 ==> Run(c, s, k) == Snapshot(k, true))
            && Run(c, s, 6) == Snapshot(5, false)
  {
    var c := Normalize(map["countStart" := Number(0), "countStop" := Number(5), "isIncrement" := Bool(true)]);
    var s := Snapshot(0, true);
    forall k: nat | k <= 5 ensures Run(c, s, k) == Snapshot(k, true) {
      RunTowardStop(c, s, k);
    }
    ReachesStopThenHalts(c, s, 6);
  }
}
