# Work&Rest Balance timer: a Dafny model

Work&Rest Balance is a single-screen Android timer for a work/rest cycle
("Pomodoro" style). It counts down a work period, then a short break, and
after a configured number of work periods a long break; at the end of each
period it may vibrate, posts a notification and either starts the next
period at once (auto-start) or waits paused.

All of its logic lives in the `App()` composable of `MainActivity.kt`. This
project models that logic and proves what it promises:

- `schedule.dfy`, module `Schedule` (pure): the three modes, the settings
  and their slider ranges, `DurationFor` (minutes × 60000), and the period
  transition `Advance` with `Run` (many periods in a row). Lemmas prove the
  long-break cadence: from a work period with an in-range count, after `k`
  work periods with their breaks the count since the last long break is
  `(count + k) mod cyclesToLong`, and the long break comes exactly after the
  work period that brings the count to a multiple of `cyclesToLong`.
- `dial.dfy`, module `Dial` (pure): the `MM:SS` text of the dial. Kotlin's
  `/` and `%` round toward zero, so they are written out (`TruncDiv`,
  `TruncRem`); minutes are not wrapped at 60; zero padding to two digits
  is modelled and the label is proved to read back to the whole seconds
  remaining.
- `timer.dfy`, module `Timer` (imperative): class `WorkRestTimer` with the
  screen's mutable state (`settings`, `mode`, `running`, `cyclesSinceLong`,
  `completed`, `millisLeft`, the single timer slot) and one method per
  handler: start, pause, reset, the countdown's tick and finish callbacks,
  the mode chips, the sliders and the two switches. `Finish` is proved
  against `Schedule.Advance`.

The platform `CountDownTimer` is abstracted: every countdown started gets a
fresh id and records the time it counts down from; `timer` is the slot
holding the last one started; `live` is the set of countdowns that are
neither cancelled nor finished, the only ones the platform calls back. The
invariant `live <= SlotIds()` is the "at most one active timer" property
that cancelling before replacing (MainActivity.kt:117-119) secures, and
`running <==> live != {}` ties the button state to the countdown. Ticks and
the finish are methods that a live countdown calls.

Three behaviours of the code that the model keeps:

- The code does not clamp stored settings when reading them; they are only
  ever written from the sliders, whose ranges the model takes as the class
  invariant.
- The break slider resets the clock in a long break too, not only in a
  short break (MainActivity.kt:218), although the long break's length did
  not change.
- The invariant `0 <= cyclesSinceLong < cyclesToLong` is not kept by the
  cycles slider (MainActivity.kt:220): lowering the setting can leave the
  count at or above it. The next work period that ends restores the bound
  (`Finish`, `Advance`), as `Timer.CyclesSliderScenario` shows.

## Model

Source paths are relative to the repository root.

| member | source | states |
|---|---|---|
| `Schedule.Defaults` | app/src/main/java/com/example/workrestbalance/MainActivity.kt:66-71 | the settings used when none are stored are 50/10/20 minutes, 3 cycles, auto-start and vibration on, and lie in the slider ranges |
| `Schedule.DurationFor` | app/src/main/java/com/example/workrestbalance/MainActivity.kt:92-96 | a period lasts a whole number of minutes equal to the configured minutes of its mode; under the slider ranges it is between 1 and 120 minutes, so strictly positive |
| `Schedule.DurationOfOtherModes` | app/src/main/java/com/example/workrestbalance/MainActivity.kt:92-96 | changing one mode's minutes (or the cycles setting) leaves the duration of every other mode unchanged |
| `Schedule.Advance` | app/src/main/java/com/example/workrestbalance/MainActivity.kt:128-137 | a finished work period adds exactly 1 to both counters and leads to a long break iff the new count reaches `cyclesToLong` (count reset to 0), else to a break with the count kept, so the count ends in `[0, cyclesToLong)`; a finished break of either kind leads to work with both counters unchanged |
| `Schedule.RunPairs` | app/src/main/java/com/example/workrestbalance/MainActivity.kt:128-137 | from work with an in-range count, `k` work periods and their breaks add `k` to `completed`, return to work, and leave the count at `(count + k) mod cyclesToLong` |
| `Schedule.LongBreakCadence` | app/src/main/java/com/example/workrestbalance/MainActivity.kt:128-134 | the `k+1`-th work period from an in-range count is followed by a long break exactly when `count + k + 1` is a multiple of `cyclesToLong`, by a short break otherwise, and the count is 0 exactly at the long break |
| `Schedule.ThreeCycleSequence` | app/src/main/java/com/example/workrestbalance/MainActivity.kt:128-137 | with 3 cycles to a long break a fresh timer runs work, break, work, break, work, long break, work, the count is 0 at the long break and 3 periods are completed |
| `Schedule.EveryWorkPeriodLong` | app/src/main/java/com/example/workrestbalance/MainActivity.kt:131-133 | with 1 cycle to a long break every work period is followed by a long break with the count at 0 |
| `Dial.TruncDiv` | app/src/main/java/com/example/workrestbalance/MainActivity.kt:253-254 | Kotlin's `/`: the quotient rounded toward zero, the remainder on the side of the dividend's sign |
| `Dial.TruncRem` | app/src/main/java/com/example/workrestbalance/MainActivity.kt:254 | Kotlin's `%`: `a == (a / b) * b + a % b` with the remainder in `[0, b)` for `a >= 0` and in `(-b, 0]` for `a < 0` |
| `Dial.Split` | app/src/main/java/com/example/workrestbalance/MainActivity.kt:253-254 | for a non-negative remaining time the seconds lie in `[0, 59]` and `minutes * 60 + seconds` is the whole seconds remaining (rounded down); negative times split toward zero |
| `Dial.MinutesNotWrapped` | app/src/main/java/com/example/workrestbalance/MainActivity.kt:253 | the dial's minutes are the whole minutes remaining, not wrapped at 60 |
| `Dial.FullPeriodShowsMinutes` | app/src/main/java/com/example/workrestbalance/MainActivity.kt:253-254 | a full period of a mode shows as its configured minutes and 0 seconds |
| `Dial.Decimal` | app/src/main/java/com/example/workrestbalance/MainActivity.kt:255 | the digits of `n` with no leading zero read back as `n`; one digit exactly below 10, at most two below 100 |
| `Dial.Pad2` | app/src/main/java/com/example/workrestbalance/MainActivity.kt:255 | `%02d` of a non-negative number: digits that read back as the number, at least two of them, exactly two below 100, and no leading zero from 10 up |
| `Dial.Label` | app/src/main/java/com/example/workrestbalance/MainActivity.kt:253-255 | the `MM:SS` text: a colon third from the end, the digits before it times 60 plus the two after it give the whole seconds remaining, the two after it are below 60, five characters below 100 minutes and no leading zero when longer |
| `Timer.NoticeFor` | app/src/main/java/com/example/workrestbalance/MainActivity.kt:124-127 | the notification after a work period says it is time to rest, after either break that a new cycle begins |
| `Timer.WorkRestTimer.constructor` | app/src/main/java/com/example/workrestbalance/MainActivity.kt:66-98 | a fresh screen is in work mode, not running, with both counters 0, no timer and the full work period on the clock |
| `Timer.WorkRestTimer.StartTimer` | app/src/main/java/com/example/workrestbalance/MainActivity.kt:116-119 | cancels the countdown in the slot, then starts one new countdown from the time left (resume, not restart): running, exactly one live countdown, which is the one in the slot; mode, counters and time left unchanged |
| `Timer.WorkRestTimer.Tick` | app/src/main/java/com/example/workrestbalance/MainActivity.kt:120 | a tick from the live countdown sets the time left to the reported value and changes nothing else |
| `Timer.WorkRestTimer.Finish` | app/src/main/java/com/example/workrestbalance/MainActivity.kt:121-140 | the counters and mode take `Advance` (so the count is below `cyclesToLong` after a work period), the full period of the new mode is on the clock, vibration (if enabled) and the mode-specific notice are requested in that order, running equals auto-start with a fresh single live countdown when on, and the finished countdown never fires again |
| `Timer.WorkRestTimer.TakeTransition` | app/src/main/java/com/example/workrestbalance/MainActivity.kt:128-137 | the step-by-step counter and mode update computes exactly `Advance` |
| `Timer.WorkRestTimer.PauseTimer` | app/src/main/java/com/example/workrestbalance/MainActivity.kt:143 | stops and cancels: not running, no live countdown, time left, mode and counters unchanged; on a paused timer it changes nothing (idempotent) |
| `Timer.WorkRestTimer.ResetTimer` | app/src/main/java/com/example/workrestbalance/MainActivity.kt:144 | whatever the prior state, ends not running with the full period of the current mode on the clock, counters unchanged; on a reset timer it changes nothing (idempotent) |
| `Timer.WorkRestTimer.StartOrPause` | app/src/main/java/com/example/workrestbalance/MainActivity.kt:187 | the start/pause button flips `running` and keeps the time left, mode and counters; pausing cancels the live countdown and keeps the slot, starting installs one fresh live countdown from the unchanged time left (resume) |
| `Timer.WorkRestTimer.SelectMode` | app/src/main/java/com/example/workrestbalance/MainActivity.kt:201-203 | a mode chip sets the chosen mode, stops, and puts that mode's full period on the clock, counters and settings unchanged |
| `Timer.WorkRestTimer.SetWorkMinutes` | app/src/main/java/com/example/workrestbalance/MainActivity.kt:217 | stores the new work minutes and resets the clock only in work mode; otherwise running state and time left are kept |
| `Timer.WorkRestTimer.SetBreakMinutes` | app/src/main/java/com/example/workrestbalance/MainActivity.kt:218 | stores the new break minutes and resets the clock in any break mode, long breaks included; in work mode running state and time left are kept |
| `Timer.WorkRestTimer.SetLongBreakMinutes` | app/src/main/java/com/example/workrestbalance/MainActivity.kt:219 | stores the new long-break minutes and resets the clock only in a long break |
| `Timer.WorkRestTimer.SetCyclesToLong` | app/src/main/java/com/example/workrestbalance/MainActivity.kt:220 | stores the new cycles setting and never touches the time left, running state or counters |
| `Timer.WorkRestTimer.ToggleAutoStart` | app/src/main/java/com/example/workrestbalance/MainActivity.kt:226 | flips auto-start and nothing else |
| `Timer.WorkRestTimer.ToggleVibrate` | app/src/main/java/com/example/workrestbalance/MainActivity.kt:227 | flips vibration and nothing else |

## Left out

- Compose layout, colours, icons, labels, the settings tab switch, the slider widget and the canvas arcs of the dial (MainActivity.kt:149-186, 188-200, 204-216, 221-225, 228-249, 257-283): rendering only. The handlers inside that range (the start/pause button at :187, the mode chips at :201-203, the sliders and switches at :217-220 and :226-227) are modelled.
- The progress value and its animation (MainActivity.kt:146-147, 183): floating-point division and animation smoothing.
- The "cycles to the long break" text (MainActivity.kt:207): display only; after the cycles slider is lowered it can show zero or a negative number.
- Reading and writing the preferences store (MainActivity.kt:65-89): persistence I/O. Only the default values are modelled (`Schedule.Defaults`).
- Timer.WorkRestTimer.constructor: requires the stored settings to lie in the slider ranges, whereas the source reads them from the preferences store without checking; the store is only written from the sliders.
- Timer.WorkRestTimer.Tick: requires the reported time to be at most the time left, which is what the platform countdown delivers as it counts down from the time it was started with.
- Delivery of notifications, the vibration itself, the notification channel and the permission request (MainActivity.kt:101-112, 286-312): device side effects. The model records the requests as `Vibrate` and `Notify` values in `effects`.
- The platform countdown's scheduling (1000 ms cadence, callback thread): a foreign library. Ticks and the finish are events a live countdown calls; the rule that a cancelled or finished countdown does not call back is the platform's and is taken as the precondition of `Tick` and `Finish`.
- 64-bit overflow of `Long` arithmetic: with the slider ranges no value comes near the limit, so integers are unbounded.
- `Dial.Label`: covers non-negative times only; the remaining time is never negative.
- Locale-dependent digits of `String.format`: ASCII digits are assumed.
