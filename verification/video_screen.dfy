/** The one use of the countdown in `VideoScreen`: when the last video ends,
    the countdown is reset and started again. */
module VideoScreen {
  import opened Js
  import opened Counters
  import opened CountdownConfig
  import opened CountdownSpec
  import opened Countdowns

  /** `onEnded` for the last video: reset, then start. With a start of at
      least 0 the countdown then reaches 0 after `start` periods and stops on
      the next one. */
  method OnLastVideoEnded(cd: Countdown)
    requires cd.Valid()
    requires cd.config.countStop == Number(0) && !Truthy(cd.config.isIncrement)
    requires cd.config.intervalMs.Number?
    requires StartValue(cd.config.countStart) >= 0
    modifies cd.counter, cd.flag
    ensures cd.Valid()
    ensures cd.State() == Snapshot(StartValue(cd.config.countStart), true)
    ensures Run(cd.config, cd.State(), StartValue(cd.config.countStart)) == Snapshot(0, true)
    ensures Run(cd.config, cd.State(), StartValue(cd.config.countStart) + 1) == Snapshot(0, false)
  {
    cd.Reset();
    cd.Start();
    ArmedWhileRunning(cd.config, true);
    ReachesStopThenHalts(cd.config, cd.State(), StartValue(cd.config.countStart) + 1);
  }
}
