# Countdown hooks of the video carousel, in Dafny

The carousel's only stateful logic is the countdown in `src/utils/hooks.js`.
It is built from three React hooks:

- `useCounter` holds an integer count, with increment, decrement and reset.
- `useBoolean` holds a flag, with set-true, set-false and toggle.
- `useInterval` registers a repeating timer while its delay is usable.

`useCountdown` combines them. It normalises an option object that comes in a
legacy shape (`seconds`) or a generic shape (`countStart`), and it exposes
start, stop and reset. Its interval callback, the tick, stops the countdown
when the count already equals the stop value. Otherwise the tick moves the
count one step up or down.

The model leaves React out. Each hook becomes a class whose methods update its
fields immediately, in sequence:

- `Counters.Counter` holds `count` and `initial`.
- `Flags.Flag` holds `value`.
- `Countdowns.Countdown` holds the normalised `config` and owns one fresh counter and one fresh flag. `useCountdown` likewise calls `useCounter` and `useBoolean` once each and gates `useInterval` on the flag; the interval is not an object here but the `Elapse` step below.

Time is not modelled. One interval period is an explicit call: `Elapse` calls
`Tick` when the interval is armed, and `Tick` itself may only be called while
armed. The module `CountdownSpec` states the same machine on values:

- `TickStep` is one tick.
- `Elapse` is one period.
- `Run` is `n` periods.

The lemmas about `Run` cover termination at the stop value, no overshoot,
running away from a stop value that lies behind the start, and the concrete
sequences 3, 2, 1, 0 and 0 to 5.

JavaScript values are `Js.JsValue`: undefined, null, booleans, integer numbers
and strings, with JavaScript's truthiness, `??` and `||`. The configuration
keeps JavaScript values because the code uses them that way:

- `isIncrement` is read by truthiness.
- `countStop` is compared with `===`, so a non-number stop is never met.
- `intervalMs` goes through the interval's gate, so `false` or `""` never arms it, while `0` does.

`useCountdown` re-reads its option object on every render
(src/utils/hooks.js:179-190). `useState` keeps the current count, but each
render's `reset` closure restores that render's `countStart || 0`
(src/utils/hooks.js:136, 140). `Countdown.Rerender` and `Counter.Rerender`
model this.

The counter starts at `initialValue || 0`, so every falsy start, not only a
missing one, gives 0. An option object of neither shape is not rejected: its
start is undefined, and `undefined || 0` starts the count at 0. `Normalize`
does the same.

Reaching the stop value does not stop the countdown at once. The tick that
finds the count equal to the stop value stops it, so the countdown runs one
period more than the distance to the stop value
(src/utils/hooks.js:215-218).

## Model

| member | source | states |
|---|---|---|
| `Counters.StartValue` | src/utils/hooks.js:136 | `initialValue \|\| 0`: any falsy start gives 0, a number gives itself |
| `Counters.Counter.constructor` | src/utils/hooks.js:135-136 | the count starts at `initialValue \|\| 0` and that is the value reset restores |
| `Counters.Counter.Increment` | src/utils/hooks.js:138 | the count grows by exactly 1 |
| `Counters.Counter.Decrement` | src/utils/hooks.js:139 | the count shrinks by exactly 1, with no lower bound |
| `Counters.Counter.Reset` | src/utils/hooks.js:140 | the count becomes the initial value, whatever it was |
| `Counters.Counter.Set` | src/utils/hooks.js:147 | `setCount(n)` makes the count `n` |
| `Counters.Counter.Rerender` | src/utils/hooks.js:135-140 | a later render keeps the count but changes what reset restores |
| `Counters.IncrementThenDecrement` | src/utils/hooks.js:138-139 | increment then decrement leaves the count unchanged |
| `Counters.DecrementBelowZero` | src/utils/hooks.js:136-139 | from an absent start, one decrement gives -1: the count may go negative |
| `Flags.Flag.constructor` | src/utils/hooks.js:5 | the flag starts as `!!defaultValue`: false exactly for undefined, null, false, 0 and "" |
| `Flags.Flag.SetTrue` | src/utils/hooks.js:7 | the flag is true afterwards, whatever it was |
| `Flags.Flag.SetFalse` | src/utils/hooks.js:8 | the flag is false afterwards, whatever it was |
| `Flags.Flag.Toggle` | src/utils/hooks.js:9 | the flag is flipped |
| `Flags.Flag.Set` | src/utils/hooks.js:11 | `setValue(b)` makes the flag `b` |
| `Flags.ToggleTwice` | src/utils/hooks.js:9 | toggling twice restores the flag |
| `Flags.SetTwice` | src/utils/hooks.js:7-8 | setting true or false twice equals setting it once (idempotence) |
| `Interval.Schedules` | src/utils/hooks.js:160-170 | null and undefined delays register no timer, every number including 0 does, and booleans and strings do by truthiness |
| `CountdownConfig.Normalize` | src/utils/hooks.js:179-190 | `seconds` selects the legacy shape, where `countStop` is ignored and is 0. Otherwise the generic keys are read. Nullish settings become interval 1000, decrement and stop 0. A supplied non-nullish value, 0 included, is kept |
| `CountdownConfig.GenericRoundTrip` | src/utils/hooks.js:184-190 | normalising a normalised configuration written as a generic option object gives it back |
| `CountdownConfig.LegacyMatchesGeneric` | src/utils/hooks.js:179-190 | the legacy shape means the same as the generic shape with no stop value |
| `CountdownConfig.ZeroIsKept` | src/utils/hooks.js:188-190 | supplied 0 and false settings survive the defaults |
| `CountdownSpec.Direction` | src/utils/hooks.js:220-224 | a tick steps +1 exactly when `isIncrement` is truthy, else -1 |
| `CountdownSpec.TickStep` | src/utils/hooks.js:214-225 | the count stays put exactly when it equals the stop value, and the tick then stops. Otherwise the count moves one step in the direction and running is unchanged. A tick never starts the countdown |
| `CountdownSpec.Run` | src/utils/hooks.js:214-227 | a run of periods never restarts a stopped countdown. Nothing changes while the interval is not armed. The count moves at most one per period |
| `CountdownSpec.ArmedWhileRunning` | src/utils/hooks.js:227 | the delay `running ? intervalMs : null` never arms a stopped countdown, and with a numeric interval, 0 included, it arms exactly while running |
| `CountdownSpec.RunAdditive` | src/utils/hooks.js:227 | `a` periods followed by `b` periods are `a + b` periods |
| `CountdownSpec.NoOvershoot` | src/utils/hooks.js:215-224 | a count on the near side of the stop value stays there and only moves toward it, for any number of periods |
| `CountdownSpec.RunTowardStop` | src/utils/hooks.js:214-227 | before the stop value is reached, each period moves the count one step and keeps it running |
| `CountdownSpec.ReachesStopThenHalts` | src/utils/hooks.js:214-227 | after exactly the distance's number of periods the count is the stop value. Any later period stops the countdown without moving the count |
| `CountdownSpec.RunsAway` | src/utils/hooks.js:215-224 | a stop value behind the start, or a non-number stop, is never met, and the count moves one step per period forever |
| `CountdownSpec.StartAtStop` | src/utils/hooks.js:215-218 | a start equal to the stop value stops on the first tick with the count unchanged |
| `CountdownSpec.CountdownFromThree` | src/utils/hooks.js:173-227 | `{countStart: 3}` counts 3, 2, 1, 0 and then stops at 0 |
| `CountdownSpec.CountUpToFive` | src/utils/hooks.js:173-227 | counting up from 0 to stop 5 passes through 0 to 5 and stops at 5 |
| `Countdowns.Countdown.constructor` | src/utils/hooks.js:173-204 | the countdown starts not running, at `countStart \|\| 0`, with the normalised configuration, and owns a fresh counter and a fresh flag of its own |
| `Countdowns.Countdown.IsArmed` | src/utils/hooks.js:227 | the interval is armed only while the countdown runs |
| `Countdowns.Countdown.Start` | src/utils/hooks.js:202 | running afterwards, count unchanged, so starting twice is starting once |
| `Countdowns.Countdown.Stop` | src/utils/hooks.js:203 | not running afterwards, count unchanged |
| `Countdowns.Countdown.Reset` | src/utils/hooks.js:209-212 | from any state: not running and back at the configured start |
| `Countdowns.Countdown.Tick` | src/utils/hooks.js:214-225 | callable only while armed, and the new state is `TickStep` of the old one |
| `Countdowns.Countdown.Elapse` | src/utils/hooks.js:167 | one interval period ticks only if the interval is armed |
| `Countdowns.Countdown.RunFor` | src/utils/hooks.js:227 | `n` periods in a row give `Run` of the old state |
| `Countdowns.Countdown.Rerender` | src/utils/hooks.js:173-192 | a later render re-reads the options and keeps count and running, so reset restores the new start |
| `Countdowns.CountdownFromThreeEndToEnd` | src/utils/hooks.js:173-238 | `{countStart: 3}` driven through the class: 3 idle, start, three periods reach 0 still running, the fourth stops at 0, and reset gives 3 idle |
| `Countdowns.InstancesAreIndependent` | src/utils/hooks.js:192-204 | two countdowns from the same options keep separate state: starting one leaves the other stopped |
| `Countdowns.StopThenStart` | src/utils/hooks.js:200-204 | stop then start resumes from the current count, not the initial one |
| `VideoScreen.OnLastVideoEnded` | src/components/VideoScreen.jsx:26-34 | after the last video, reset then start runs the countdown from its start. It reaches 0 after `start` periods and stops on the next one |

## Left out

- `useOnClickOutside`, `useEventListener`, `useElementSize` and `useWindowSize` are left out. They are DOM listeners and layout measurement with no logic of their own.
- `useDebounce` is left out. It is a wall-clock timer.
- Real time is left out: `setInterval`, `clearInterval`, the period length and the timer's phase. One period is the explicit call `Countdown.Elapse`.
- React's render cycle is left out: `useCallback` and `useRef` identity, the latest-callback ref, effect cleanup and state batching. Every hook operation is an immediate, sequential state update.
- `Countdowns.Countdown.Tick` requires the interval to be armed. The source's callback has no such check, but only the armed interval ever calls it.
- `Counters.Counter.constructor`, `Counters.Counter.Rerender`, `Countdowns.Countdown.constructor` and `Countdowns.Countdown.Rerender` require the start to be a number or falsy. JavaScript would count from a truthy string or `true` by string concatenation or coercion, which this integer model does not capture.
- JavaScript numbers are integers in this model. Fractional values, `NaN` and infinities are not modelled. Objects and functions are not modelled as option values either.
- `'seconds' in countdownOption` also sees inherited keys. Option objects are plain maps here.
- `useCountdown` throws a TypeError when its argument is not an object (undefined, null or a number), at the `in` test on src/utils/hooks.js:179 or the destructuring on line 184. The model's option is always an object (a map), so this error path is not modelled.
- The notifications, the player embed and the 3-second autoplay timer in `src/components/VideoScreen.jsx` are left out as UI glue. So is the non-last-video branch of `onEnded`.
- `src/App.js` is left out. It holds the carousel wiring, a fixed video list and a 5-second timer.
