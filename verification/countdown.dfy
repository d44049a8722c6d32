/** `useCountdown`: a counter and a running flag driven by an interval. */
module Countdowns {
  import opened Js
  import opened Counters
  import opened Flags
  import opened CountdownConfig
  import opened CountdownSpec

  class Countdown {
    /** The normalised option object of the latest render. */
    var config: Config
    /** `useCounter(countStart)` */
    const counter: Counter
    /** `useBoolean(false)`: `isCountdownRunning` */
    const flag: Flag

    /** The counter's reset value is the configured start. */
    ghost predicate Valid()
      reads this, counter
    {
      Normalized(config) && Countable(config.countStart) && counter.initial == StartValue(config.countStart)
    }

    function State(): Snapshot
      reads this, counter, flag
    {
      Snapshot(counter.count, flag.value)
    }

    /** `isCountdownRunning` */
    function IsCountdownRunning(): bool
      reads this, flag
    {
      flag.value
    }

    /** Whether the interval is registered and may call `Tick`. */
    function IsArmed(): (armed: bool)
      reads this, flag
      ensures armed ==> IsCountdownRunning()
    {
      ArmedWhileRunning(config, false);
      Armed(config, flag.value)
    }

    constructor (option: map<string, JsValue>)
      requires Countable(Normalize(option).countStart)
      ensures Valid() && config == Normalize(option)
      ensures State() == Snapshot(StartValue(config.countStart), false)
      ensures fresh(counter) && fresh(flag)
    {
      config := Normalize(option);
      counter := new Counter(Normalize(option).countStart);
      flag := new Flag(Bool(false));
    }

    /** `startCountdown`: sets running, leaves the count; a no-op when already running. */
    method Start()
      modifies flag
      ensures State() == Snapshot(old(counter.count), true)
    {
      flag.SetTrue();
    }

    /** `stopCountdown`: clears running, leaves the count. */
    method Stop()
      modifies flag
      ensures State() == Snapshot(old(counter.count), false)
    {
      flag.SetFalse();
    }

    /** `resetCountdown`: from any state, not running and back at the start. */
    method Reset()
      requires Valid()
      modifies counter, flag
      ensures Valid()
      ensures State() == Snapshot(StartValue(config.countStart), false)
    {
      flag.SetFalse();
      counter.Reset();
    }

    /** `countdownCallback`, called by the interval, hence only while armed. */
    method Tick()
      requires IsArmed()
      modifies counter, flag
      ensures State() == TickStep(config, old(State()))
      ensures counter.initial == old(counter.initial)
    {
      if config.countStop == Number(counter.count) {  // count === countStop
        flag.SetFalse();
        return;
      }
      if Truthy(config.isIncrement) {
        counter.Increment();
      } else {
        counter.Decrement();
      }
    }

    /** One interval period: the interval calls `Tick` if it is armed. */
    method Elapse()
      modifies counter, flag
      ensures State() == CountdownSpec.Elapse(config, old(State()))
      ensures counter.initial == old(counter.initial)
    {
      if IsArmed() {
        Tick();
      }
    }

    /** `n` interval periods. */
    method RunFor(n: nat)
      modifies counter, flag
      ensures State() == Run(config, old(State()), n)
      ensures counter.initial == old(counter.initial)
    {
      var i := 0;
      while i < n
        invariant 0 <= i <= n
        invariant Run(config, State(), n - i) == Run(config, old(State()), n)
        invariant counter.initial == old(counter.initial)
      {
        Elapse();
        i := i + 1;
      }
    }

    /** A later render with a new option object: the configuration is read
        again, the count and the running flag keep their values, and reset now
        restores the new start. */
    method Rerender(option: map<string, JsValue>)
      requires Countable(Normalize(option).countStart)
      modifies this, counter
      ensures Valid() && config == Normalize(option)
      ensures State() == old(State())
    {
      config := Normalize(option);
      counter.Rerender(config.countStart);
    }
  }

  /** Stopping mid-countdown and starting again resumes from the current count. */
  method StopThenStart(cd: Countdown)
    modifies cd.flag
    ensures cd.State() == Snapshot(old(cd.counter.count), true)
  {
    cd.Stop();
    cd.Start();
  }

  /** `{countStart: 3}` driven end to end: start, three periods reach 0, the
      fourth stops the countdown at 0, and reset brings back 3, not running. */
  method CountdownFromThreeEndToEnd() returns (observed: seq<Snapshot>)
    ensures observed == [Snapshot(3, false), Snapshot(3, true), Snapshot(0, true), Snapshot(0, false), Snapshot(3, false)]
  {
    var cd := new Countdown(map["countStart" := Number(3)]);
    observed := [cd.State()];
    cd.Start();
    observed := observed + [cd.State()];
    cd.RunFor(3);
    ReachesStopThenHalts(cd.config, Snapshot(3, true), 4);
    observed := observed + [cd.State()];
    cd.RunFor(1);
    RunAdditive(cd.config, Snapshot(3, true), 3, 1);
    observed := observed + [cd.State()];
    cd.Reset();
    observed := observed + [cd.State()];
  }

  /** Each countdown owns its counter and flag: driving one leaves another alone. */
  method InstancesAreIndependent(option: map<string, JsValue>) returns (a: Countdown, b: Countdown)
    requires Countable(Normalize(option).countStart)
    ensures a.State() == Snapshot(StartValue(Normalize(option).countStart), true)
    ensures b.State() == Snapshot(StartValue(Normalize(option).countStart), false)
  {
    a := new Countdown(option);
    b := new Countdown(option);
    a.Start();
  }
}
