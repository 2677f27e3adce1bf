# Memo stopwatch service, modelled in Dafny

This project models the stopwatch inside `TimerService`, the foreground service of the Memo
Android app. The service keeps a state (`INITIALIZED`, `START`, `PAUSE`, `STOP`) and two
`Int` counters, `currentTime` and `startedAtTimestamp`. A tick callback on the main looper
increments `currentTime` once a second and re-posts itself. `onStartCommand` dispatches the
START, PAUSE and STOP commands that arrive in an intent. On every update the service
broadcasts the elapsed time to the activity and rewrites its notification text.

The model has three layers:

- `TimerSteps` (timer_steps.dfy): each operation as a pure step over a `Snapshot` of the
  fields. A step returns the new fields and the platform effects (`Event`s) in order.
  The contracts of these functions state what each operation guarantees.
- `Services.TimerService` (timer_service.dfy): the service as a class whose fields the methods
  update in place. The methods call each other as the Kotlin code does, and they append
  platform calls to a ghost `log`. Each method is proved to take exactly the step its
  `TimerSteps` function describes.
- `TimerProperties` (timer_properties.dfy): a run is a sequence of platform inputs (a command
  delivered, the looper running a posted tick, `onDestroy`). Its lemmas cover whole runs:
  ticks counting up, PAUSE freezing, STOP ending the ticking, non-negative elapsed times.

`KotlinInt` (kotlin_int.dfy) gives Kotlin's 32-bit `Int` with its silent wrap-around.
`Wrappers` (wrappers.dfy) gives Kotlin's nullable values.

Modelling choices:

- The looper's message queue is the number of tick callbacks posted and not yet run.
  `post` adds one and `removeCallbacks` sets it to 0. The looper runs a callback only when one
  is posted, so `Tick` requires one.
- The coroutine `Job` is a flag. `startCoroutineTimer` posts its tick synchronously. It posts
  nothing once the job is cancelled, because a coroutine launched under a cancelled job never
  runs its block.
- The notification text is `TimeIsRunning(elapsed)` or `GetBack`. The string resources and the
  `secondsToTime` formatting are not visible, so only the message and its argument are kept.
- `onStartCommand`'s intent is a `Delivery`. It is either "no intent or no extras", or extras
  that may hold a `TimerState` under `SERVICE_COMMAND`. When there is none, the unchecked
  `as TimerState` cast throws, and the model returns `CastException`.
- `START_NOT_STICKY` is Android's value 2. `NOTIFICATION_ID` is 99.

The code is modelled as written. Some of its behaviour differs from what a stopwatch
design would lead one to expect:

- START never resumes. `startTimer` is only called without an offset, and the setter of
  `startedAtTimestamp` copies any offset into `currentTime` too. So every START broadcasts 0
  and ticks count from 0 again (`TimerSteps.StartTimer`, `TimerProperties.PauseThenStartRestarts`).
- A START while already started posts a second tick callback. Two callback chains then
  increment `currentTime` (`TimerProperties.RepeatedStartPostsTwoTicks`). The code does not
  keep "exactly one tick timer".
- STOP calls `broadcastUpdate` after setting the state to STOP, so it emits nothing. There is
  no final update.
- After STOP or `onDestroy` the job stays cancelled. A later START on the same instance still
  broadcasts 0, but no tick ever follows (`TimerProperties.StopEndsTicking`).
- `currentTime` is a Kotlin `Int`. The 2^31-th tick after a START wraps it, and the broadcast elapsed
  time becomes negative (`TimerProperties.TickWrapsAtIntMax`).

## Model

| member | source | states |
|---|---|---|
| `KotlinInt.Inc` | app/src/main/java/com/raywenderlich/android/memo/services/TimerService.kt:72 | `currentTime++` adds exactly 1 below `Int.MAX_VALUE` and wraps to `Int.MIN_VALUE` at it |
| `KotlinInt.Minus` | app/src/main/java/com/raywenderlich/android/memo/services/TimerService.kt:136 | the elapsed-time subtraction is exact when the difference fits in an `Int`; equal counters give 0 |
| `TimerSteps.SetStartedAtTimestamp` | app/src/main/java/com/raywenderlich/android/memo/services/TimerService.kt:63-67 | the setter writes the value to both counters, so the elapsed time afterwards is 0; the state, the pending ticks and the job are untouched |
| `TimerSteps.BroadcastUpdate` | app/src/main/java/com/raywenderlich/android/memo/services/TimerService.kt:132-154 | an elapsed-time broadcast happens exactly in START and carries `currentTime - startedAtTimestamp`, and START also sets the running text with that value; PAUSE sets the "get back" text and does nothing else, and that text is set only in PAUSE; in INITIALIZED and STOP nothing happens |
| `TimerSteps.StartCoroutineTimer` | app/src/main/java/com/raywenderlich/android/memo/services/TimerService.kt:178-182 | one more tick is pending unless the job is cancelled; nothing else changes |
| `TimerSteps.StartTimer` | app/src/main/java/com/raywenderlich/android/memo/services/TimerService.kt:119-130 | state becomes START and both counters become the offset (0 when absent); the effects are the foreground start, then a broadcast of 0 and its notification text; one more tick is pending unless the job is cancelled |
| `TimerSteps.Tick` | app/src/main/java/com/raywenderlich/android/memo/services/TimerService.kt:70-76 | a tick changes only `currentTime`, which becomes its Kotlin `Int` increment: exactly +1 below `Int.MAX_VALUE`, `Int.MIN_VALUE` at it; the state, the baseline and the number of pending ticks are unchanged; its effects are the update for the new value |
| `TimerSteps.PauseTimerService` | app/src/main/java/com/raywenderlich/android/memo/services/TimerService.kt:156-160 | state becomes PAUSE, no tick is pending, both counters and so the elapsed time are unchanged; the only effect is the "get back" text, with no broadcast |
| `TimerSteps.StopService` | app/src/main/java/com/raywenderlich/android/memo/services/TimerService.kt:170-176 | the service leaves the foreground, removing its notification, and then stops itself |
| `TimerSteps.EndTimerService` | app/src/main/java/com/raywenderlich/android/memo/services/TimerService.kt:162-168 | state becomes STOP, no tick is pending, the job is cancelled, the counters are unchanged; the effects are the cancellation, then leaving the foreground, then stopping, with no broadcast |
| `TimerSteps.OnDestroy` | app/src/main/java/com/raywenderlich/android/memo/services/TimerService.kt:109-117 | whatever the state, no tick is pending and the job is cancelled afterwards; the state and the counters are untouched |
| `TimerSteps.OnStartCommand` | app/src/main/java/com/raywenderlich/android/memo/services/TimerService.kt:88-107 | every path that returns gives START_NOT_STICKY, and only a missing command throws; no intent, no extras or INITIALIZED change nothing; START, PAUSE and STOP take the steps of `startTimer()` without offset, `pauseTimerService` and `endTimerService` |
| `Services.TimerService.constructor` | app/src/main/java/com/raywenderlich/android/memo/services/TimerService.kt:56-81 | a new service is INITIALIZED with both counters 0, no tick posted and an active job |
| `Services.TimerService.SetStartedAtTimestamp` | app/src/main/java/com/raywenderlich/android/memo/services/TimerService.kt:63-67 | the in-place setter updates both fields as `TimerSteps.SetStartedAtTimestamp` says |
| `Services.TimerService.Tick` | app/src/main/java/com/raywenderlich/android/memo/services/TimerService.kt:70-76 | running the posted callback updates the fields and the log as `TimerSteps.Tick` says |
| `Services.TimerService.OnStartCommand` | app/src/main/java/com/raywenderlich/android/memo/services/TimerService.kt:88-107 | the dispatch returns START_NOT_STICKY on every returning path, and updates the fields and the log as `TimerSteps.OnStartCommand` says |
| `Services.TimerService.OnDestroy` | app/src/main/java/com/raywenderlich/android/memo/services/TimerService.kt:109-117 | removes the callbacks and cancels the job in place, as `TimerSteps.OnDestroy` says |
| `Services.TimerService.StartTimer` | app/src/main/java/com/raywenderlich/android/memo/services/TimerService.kt:119-130 | the fields and the log change as `TimerSteps.StartTimer` says |
| `Services.TimerService.BroadcastUpdate` | app/src/main/java/com/raywenderlich/android/memo/services/TimerService.kt:132-154 | only the log changes, by the effects `TimerSteps.BroadcastUpdate` gives for the current fields |
| `Services.TimerService.PauseTimerService` | app/src/main/java/com/raywenderlich/android/memo/services/TimerService.kt:156-160 | the fields and the log change as `TimerSteps.PauseTimerService` says |
| `Services.TimerService.EndTimerService` | app/src/main/java/com/raywenderlich/android/memo/services/TimerService.kt:162-168 | the fields and the log change as `TimerSteps.EndTimerService` says |
| `Services.TimerService.StopService` | app/src/main/java/com/raywenderlich/android/memo/services/TimerService.kt:170-176 | the log gains leaving the foreground (removing the notification), then stopping |
| `Services.TimerService.StartCoroutineTimer` | app/src/main/java/com/raywenderlich/android/memo/services/TimerService.kt:178-182 | only the pending-tick count changes, as `TimerSteps.StartCoroutineTimer` says |
| `TimerProperties.RunFiresIsTicks` | app/src/main/java/com/raywenderlich/android/memo/services/TimerService.kt:70-76 | while a tick callback is posted, n runs of a callback by the looper are exactly n ticks, because each tick re-posts itself; with one callback posted these are n seconds |
| `TimerProperties.TicksKeepCounting` | app/src/main/java/com/raywenderlich/android/memo/services/TimerService.kt:70-76 | while started from a zero baseline, n ticks change nothing but `currentTime`, which grows by exactly n |
| `TimerProperties.TicksEmitRunning` | app/src/main/java/com/raywenderlich/android/memo/services/TimerService.kt:70-76 | while started from a zero baseline, n ticks emit, for each new count in turn, its broadcast and then its running notification text, and nothing else |
| `TimerProperties.TicksCountUp` | app/src/main/java/com/raywenderlich/android/memo/services/TimerService.kt:70-76 | while started from a zero baseline, n ticks broadcast currentTime + 1, ..., currentTime + n, in that order |
| `TimerProperties.StartThenTicks` | app/src/main/java/com/raywenderlich/android/memo/services/TimerService.kt:119-130 | `startTimer()` followed by n ticks broadcasts exactly 0, 1, ..., n |
| `TimerProperties.StartCommandThenTicks` | app/src/main/java/com/raywenderlich/android/memo/services/TimerService.kt:96 | a START command followed by n tick callback runs and no other input broadcasts exactly 0, 1, ..., n, so the last elapsed value is n; from a new or paused service START posts exactly one callback, so these are n seconds (a START while running posts a second one, see `RepeatedStartPostsTwoTicks`) |
| `TimerProperties.ElapsedNeverNegative` | app/src/main/java/com/raywenderlich/android/memo/services/TimerService.kt:63-67 | from a zero baseline and a non-negative count, any run shorter than the distance to `Int.MAX_VALUE` keeps the baseline 0 and broadcasts only values between 0 and the count plus the run length |
| `TimerProperties.FromCreationElapsedNeverNegative` | app/src/main/java/com/raywenderlich/android/memo/services/TimerService.kt:122 | from a new service, no run of at most 2^31 - 1 inputs broadcasts a negative elapsed time, nor one above the run length |
| `TimerProperties.TickWrapsAtIntMax` | app/src/main/java/com/raywenderlich/android/memo/services/TimerService.kt:72 | a tick at `currentTime == Int.MAX_VALUE` broadcasts `Int.MIN_VALUE`: the non-negativity needs the length bound |
| `TimerProperties.PausedStaysFrozen` | app/src/main/java/com/raywenderlich/android/memo/services/TimerService.kt:156-160 | after PAUSE the looper runs nothing: any number of seconds leaves the fields unchanged and emits nothing |
| `TimerProperties.PauseThenStartRestarts` | app/src/main/java/com/raywenderlich/android/memo/services/TimerService.kt:96-97 | PAUSE then START leaves START with both counters 0, and the only elapsed value broadcast is 0 |
| `TimerProperties.HaltedStaysHalted` | app/src/main/java/com/raywenderlich/android/memo/services/TimerService.kt:178-182 | once the job is cancelled and nothing is posted, every input keeps it so, and every broadcast carries 0 |
| `TimerProperties.StopEndsTicking` | app/src/main/java/com/raywenderlich/android/memo/services/TimerService.kt:162-168 | after STOP, whatever inputs follow, no tick is pending and no non-zero elapsed time is broadcast |
| `TimerProperties.StoppedIgnoresFires` | app/src/main/java/com/raywenderlich/android/memo/services/TimerService.kt:164 | after STOP the looper has nothing to run: the fields stay and nothing is emitted |
| `TimerProperties.StopIsIdempotent` | app/src/main/java/com/raywenderlich/android/memo/services/TimerService.kt:162-168 | STOP applied twice leaves the same fields as STOP once |
| `TimerProperties.IgnoredCommandsChangeNothing` | app/src/main/java/com/raywenderlich/android/memo/services/TimerService.kt:94-99 | any sequence of intents without extras or with INITIALIZED leaves the fields unchanged and emits nothing |
| `TimerProperties.RepeatedStartPostsTwoTicks` | app/src/main/java/com/raywenderlich/android/memo/services/TimerService.kt:119-130 | two START commands on a new service leave two tick callbacks pending |

## Left out

- `NotificationHelper` (channel creation, the builder, the pending intent, the SDK-version check) is Android library code; `helper.updateNotification(text)` is the `NotifyText` event and `helper.getNotification()` is part of the `StartForeground` event.
- `secondsToTime` is not part of this model: its file is not available, so the notification keeps the elapsed seconds, not the formatted clock text.
- The contents of the string resources `time_is_running` and `get_back` are not visible; they are the `TimeIsRunning` and `GetBack` messages.
- Real time: the 1000 ms delay of `postDelayed`, and the `Handler` and `Looper` themselves. A tick is an input of the run, one run of one posted callback, not a point in time: with two callbacks posted the looper runs two ticks a second.
- The coroutine dispatch on `Dispatchers.IO` is asynchronous in the app; the model posts the first tick synchronously, so interleavings of that post with other commands are not captured.
- `onBind` always returns null and takes part in no state; it is not modelled.
- `super.onStartCommand` and `super.onDestroy`, and the `flags` and `startId` arguments, have no effect the code relies on.
- What Android does after `stopSelf` (destroying the instance, creating a new one for the next intent) is platform behaviour; a run keeps feeding inputs to the same instance.
- `TimerProperties.ElapsedNeverNegative`: proved only for runs shorter than the distance to `Int.MAX_VALUE`, because Kotlin's `Int` wraps and `TimerProperties.TickWrapsAtIntMax` shows the invariant failing beyond it.
