# Auto-clicker core, modelled in Dafny

This project models the native Android core of an auto-clicker app. The core has three parts.

- **Click sequencer** (`AutoClickAccessibilityService`). It repeats a tap at one screen point a requested number of times. It corrects the wait between taps for drift: the next wait is the interval minus the time the tap took. Each tap is reported to a callback. The sequencer can be stopped at any time.
- **Keep-alive timer service** (`TimerForegroundService`). It holds a partial wake lock with a 30-minute timeout while a countdown runs. It releases the lock when destroyed. It republishes the remaining time only while running.
- **Method-call handler** (`MainActivity`). It maps each call from the Flutter side to a reply: success, an error code, or "not implemented". It also fills in default arguments and drives the two services.

The model is functional. Each service's mutable fields become an immutable record, and each Kotlin function becomes a pure function. A step returns the next state together with the callback notifications or platform calls it made, in order.

The sequencer state also holds the work the platform keeps for it:

- ticks posted to the main-looper handler;
- taps handed to `dispatchGesture` whose result callback has not run yet.

This makes cancellation precise. `stopExecution` drops posted ticks but cannot withdraw a tap that has already been dispatched.

Platform behaviour that the code cannot see is passed in as a parameter:

- whether `dispatchGesture` accepts, refuses or throws;
- whether each click succeeds, and the elapsed milliseconds it reports;
- the clock;
- whether the wake lock is granted;
- whether starting or stopping a service throws.

Files:

- `basics.dfy`: `Option` for Kotlin nullables, and removal from a queue.
- `clicker.dfy`: the sequencer's operations.
- `clicker_runs.dfy`: the sequencer's inputs, runs over input traces, and the trace properties.
- `keepalive.dfy`: the timer service.
- `host.dfy`: the method-call handler.

The model follows the code, including where it departs from what the app evidently intends:

- **Completion comes one tick late.** Completion is never reported by the tap that reaches the total. The tick that tap posts reports it, because that tick finds the count reached.
- **Stop during a tap is not silent.** If `stopExecution` arrives while a tap is in flight and the tap then succeeds, the tap is still reported. The tick it posts after the stop then reports completion with the count reached so far.
- **The count can exceed the total.** After a stop, a new sequence may start while the old tap is still in flight. The count can then pass the new sequence's total (`ClickerRuns.RestartDuringClickExceedsTotal`). "count ≤ total" is proved only for runs where every start is either ignored or finds no earlier work outstanding. The platform's `dispatchGesture` cancels a gesture still in progress, so in practice the old tap is likely to fail instead. Its failure path (AutoClickAccessibilityService.kt:98-100) then clears the flag of the new sequence, while the new sequence's tap is still out (`ClickerRuns.RestartDuringClickOldFailureStopsNew`). The readiness check does not prevent either case: after a stop the service is ready with the old tap outstanding (`ClickerRuns.ReadyWithClickOutstanding`).
- **A second start leaks the first wake lock.** The service keeps only one lock reference, so a second start overwrites it. The first lock stays held until its own timeout.
- **A lock failure is only logged.** It is not reported, and the countdown runs on without a lock.
- **The count is not checked.** A count of 0 or less completes at once with `sequenceCompleted(0)`.
- **`emergencyStop` can fail.** Without an accessibility service it returns `SERVICE_NOT_AVAILABLE`, though it still stops the timer service.
- **The stats fallback has an extra field.** When no service exists, `getExecutionStats` adds `serviceAvailable: false`.

## Model

Paths are relative to the repository root.

| member | source | states |
|---|---|---|
| Clicker.DriftDelay | android/app/src/main/kotlin/com/example/binance_auto_clicker/AutoClickAccessibilityService.kt:91-92 | the wait before the next tick is never negative and never below interval − elapsed. It is zero once the tap took the whole interval, and at most the interval when both are non-negative |
| Clicker.OnClickResult | android/app/src/main/kotlin/com/example/binance_auto_clicker/AutoClickAccessibilityService.kt:86-102 | success raises the count by exactly one, reports `clickExecuted` with the new count and the same point, and posts exactly one tick. It leaves the flag alone, so it reports no completion. Failure reports one error, clears the flag, and keeps the count and the posted ticks |
| Clicker.PerformClick | android/app/src/main/kotlin/com/example/binance_auto_clicker/AutoClickAccessibilityService.kt:108-136 | an accepted tap is outstanding with no notice yet; a refused one fails at once through the failure path; a throwing one changes nothing and raises |
| Clicker.ExecuteClickSequence | android/app/src/main/kotlin/com/example/binance_auto_clicker/AutoClickAccessibilityService.kt:76-103 | a tick that finds the flag clear or the count reached clears the flag and reports completion with the count, dispatching nothing. Otherwise it dispatches exactly one tap of its sequence, with the count unchanged |
| Clicker.ExecuteRapidClicks | android/app/src/main/kotlin/com/example/binance_auto_clicker/AutoClickAccessibilityService.kt:59-71 | a start while executing changes nothing and reports nothing. From idle the count is 0 and the first tap goes out at once. A non-positive total completes at once with 0; a refused first tap ends with one error; a throwing one leaves the flag raised |
| Clicker.OnProbeResult | android/app/src/main/kotlin/com/example/binance_auto_clicker/AutoClickAccessibilityService.kt:144-150 | the result of a simulated tap reports click 1 or the simulation error to its own callback and leaves the sequencer as it was |
| Clicker.SimulateClick | android/app/src/main/kotlin/com/example/binance_auto_clicker/AutoClickAccessibilityService.kt:141-151 | a simulated tap never changes the flag, the count, the posted ticks or the sequence's taps; it raises exactly when the dispatch throws |
| Clicker.StopExecution | android/app/src/main/kotlin/com/example/binance_auto_clicker/AutoClickAccessibilityService.kt:156-160 | stopping clears the flag and every posted tick, and keeps the count and the taps already dispatched |
| Clicker.EmergencyStop | android/app/src/main/kotlin/com/example/binance_auto_clicker/AutoClickAccessibilityService.kt:165-169 | has the same effect as a stop |
| Clicker.OnInterrupt | android/app/src/main/kotlin/com/example/binance_auto_clicker/AutoClickAccessibilityService.kt:46-49 | has the same effect as a stop |
| Clicker.IsReady | android/app/src/main/kotlin/com/example/binance_auto_clicker/AutoClickAccessibilityService.kt:174-176 | ready exactly when connected and no sequence is executing. A connected service is ready exactly when `executeRapidClicks` would not ignore a request, for every request and every dispatch outcome |
| Clicker.GetExecutionStats | android/app/src/main/kotlin/com/example/binance_auto_clicker/AutoClickAccessibilityService.kt:181-187 | the snapshot reports the flag, the count and readiness, never ready while executing, and has no availability entry |
| Clicker.StopIsIdempotent | android/app/src/main/kotlin/com/example/binance_auto_clicker/AutoClickAccessibilityService.kt:156-169 | stopping twice is stopping once, and the emergency stop and an interrupt equal a stop |
| ClickerRuns.Step | android/app/src/main/kotlin/com/example/binance_auto_clicker/AutoClickAccessibilityService.kt:46-169 | stops of all three kinds have the same effect. Simulation and its results leave the sequence's state alone. A tick or tap result that does not exist is a no-op |
| ClickerRuns.RunAppend | android/app/src/main/kotlin/com/example/binance_auto_clicker/AutoClickAccessibilityService.kt:76-103 | running two input traces one after the other is running their concatenation, and a halted run stays halted |
| ClickerRuns.RoundStep | android/app/src/main/kotlin/com/example/binance_auto_clicker/AutoClickAccessibilityService.kt:77-96 | one successful tap and the tick it posts report the next count; the tick after the last tap reports completion and clears the flag |
| ClickerRuns.RoundsRun | android/app/src/main/kotlin/com/example/binance_auto_clicker/AutoClickAccessibilityService.kt:76-96 | from any count below the total, undisturbed rounds report each following count once and in order. The round that reaches the total ends in completion with the total and a stopped sequencer |
| ClickerRuns.CompleteRun | android/app/src/main/kotlin/com/example/binance_auto_clicker/AutoClickAccessibilityService.kt:59-96 | a start from idle with all taps succeeding and no stop reports `clickExecuted` for counts 1..total, then exactly one `sequenceCompleted(total)`. It ends idle at the total |
| ClickerRuns.CompleteRunNotices | android/app/src/main/kotlin/com/example/binance_auto_clicker/AutoClickAccessibilityService.kt:59-96 | the same run read notice by notice: the k-th reports click k+1 at the requested point, and notice number total is the completion |
| ClickerRuns.FailedRun | android/app/src/main/kotlin/com/example/binance_auto_clicker/AutoClickAccessibilityService.kt:86-101 | a failure on tap k after k−1 successes yields k−1 click notices, one error and no completion, with the flag clear and the count at k−1 |
| ClickerRuns.StopWhileClicking | android/app/src/main/kotlin/com/example/binance_auto_clicker/AutoClickAccessibilityService.kt:77-96 | a stop while a tap is out, followed by that tap's success, still yields that tap's notice and then a completion with the count reached |
| ClickerRuns.StopWhileWaiting | android/app/src/main/kotlin/com/example/binance_auto_clicker/AutoClickAccessibilityService.kt:156-160 | a stop with no tap outstanding is followed by silence and no change, whatever ticks or results arrive, until the next start or simulated tap |
| ClickerRuns.StepKeepsDiscipline | android/app/src/main/kotlin/com/example/binance_auto_clicker/AutoClickAccessibilityService.kt:76-101 | every admissible input keeps the invariant: at most one tick or tap outstanding, and a count within that work's total |
| ClickerRuns.RunKeepsDiscipline | android/app/src/main/kotlin/com/example/binance_auto_clicker/AutoClickAccessibilityService.kt:59-101 | the invariant holds along every admissible run, so the count never exceeds the running sequence's total |
| ClickerRuns.CountWithinTotal | android/app/src/main/kotlin/com/example/binance_auto_clicker/AutoClickAccessibilityService.kt:86-89 | under the invariant, a successful tap raises the count to at most its sequence's total |
| ClickerRuns.RestartDuringClickExceedsTotal | android/app/src/main/kotlin/com/example/binance_auto_clicker/AutoClickAccessibilityService.kt:59-70 | stop a one-tap sequence during its tap and start another one-tap sequence. If both taps succeed, the second sequence reports click 2 of 1 |
| ClickerRuns.RestartDuringClickOldFailureStopsNew | android/app/src/main/kotlin/com/example/binance_auto_clicker/AutoClickAccessibilityService.kt:96-100 | the same restart when the old tap fails: the old listener gets the error, and the new sequence's flag is cleared while its tap is still out |
| ClickerRuns.ReadyWithClickOutstanding | android/app/src/main/kotlin/com/example/binance_auto_clicker/AutoClickAccessibilityService.kt:174-176 | after a stop during a tap, the service is ready although that tap is still outstanding |
| KeepAlive.AcquireWakeLock | android/app/src/main/kotlin/com/example/binance_auto_clicker/TimerForegroundService.kt:119-132 | a granted lock has deadline now + 1,800,000 ms and is held. A refused one changes nothing, so the previous reference stays |
| KeepAlive.OnStartCommand | android/app/src/main/kotlin/com/example/binance_auto_clicker/TimerForegroundService.kt:52-67 | a null intent changes nothing. Any other intent makes the service run, with target time 0 and description "Countdown Active" when the extras are missing. It goes to the foreground first; it holds a 30-minute lock if granted, and otherwise keeps the old reference |
| KeepAlive.ReleaseWakeLock | android/app/src/main/kotlin/com/example/binance_auto_clicker/TimerForegroundService.kt:134-146 | `release` is called exactly when a lock is referenced and still held, and the reference is dropped in every case |
| KeepAlive.OnDestroy | android/app/src/main/kotlin/com/example/binance_auto_clicker/TimerForegroundService.kt:69-74 | afterwards the service is not running and has no lock. The platform calls are exactly one release of the stored lock when it is still held, and none otherwise |
| KeepAlive.UpdateNotification | android/app/src/main/kotlin/com/example/binance_auto_clicker/TimerForegroundService.kt:148-158 | nothing happens when not running; when running, exactly one notification reads "Time remaining: " followed by the text |
| KeepAlive.IsServiceRunning | android/app/src/main/kotlin/com/example/binance_auto_clicker/TimerForegroundService.kt:160 | reports the running flag; when it is false, every status update, whatever its text, changes nothing and notifies nothing |
| KeepAlive.CreatedIsConsistent | android/app/src/main/kotlin/com/example/binance_auto_clicker/TimerForegroundService.kt:42-44 | a new service is not running and holds no lock reference |
| KeepAlive.OperationsKeepConsistency | android/app/src/main/kotlin/com/example/binance_auto_clicker/TimerForegroundService.kt:52-74 | every operation keeps "a lock reference only while running" |
| KeepAlive.DestroyIsIdempotent | android/app/src/main/kotlin/com/example/binance_auto_clicker/TimerForegroundService.kt:134-146 | a second destroy changes nothing and releases nothing |
| KeepAlive.StartThenDestroy | android/app/src/main/kotlin/com/example/binance_auto_clicker/TimerForegroundService.kt:119-146 | start then destroy within 30 minutes releases exactly the lock that was acquired, and leaves the service stopped with no lock |
| KeepAlive.DestroyAfterTimeout | android/app/src/main/kotlin/com/example/binance_auto_clicker/TimerForegroundService.kt:136-140 | destroying after the 30-minute deadline calls `release` no more |
| KeepAlive.DegradedStart | android/app/src/main/kotlin/com/example/binance_auto_clicker/TimerForegroundService.kt:119-131 | a refused lock still leaves a fresh service running in the foreground, without a lock |
| KeepAlive.SecondStartLeaksFirstLock | android/app/src/main/kotlin/com/example/binance_auto_clicker/TimerForegroundService.kt:119-142 | after two starts, a destroy releases only the second lock. The first lock is never released by the service and is still held |
| Host.PointOf | android/app/src/main/kotlin/com/example/binance_auto_clicker/MainActivity.kt:26-27 | a missing coordinate is 0, and a given one is passed through unchanged |
| Host.RapidRequest | android/app/src/main/kotlin/com/example/binance_auto_clicker/MainActivity.kt:26-29 | a missing count is 1 and a missing interval 10 ms, and given values are used as they are. The sequence reports over the channel |
| Host.IsAvailable | android/app/src/main/kotlin/com/example/binance_auto_clicker/MainActivity.kt:21-23 | always replies with a flag and changes nothing. The flag is false exactly when `stopExecution`, `executeRapidClicks` and `simulateClick` would each reply `SERVICE_NOT_AVAILABLE`, whatever their arguments |
| Host.ExecuteRapidClicks | android/app/src/main/kotlin/com/example/binance_auto_clicker/MainActivity.kt:75-121 | no service gives `SERVICE_NOT_AVAILABLE`, then a service that is not ready gives `SERVICE_BUSY`, both with nothing changed. Otherwise the sequencer starts; a throwing first dispatch gives `EXECUTION_FAILED`, and anything else gives success |
| Host.SimulateClick | android/app/src/main/kotlin/com/example/binance_auto_clicker/MainActivity.kt:123-152 | no service gives `SERVICE_NOT_AVAILABLE`. Otherwise the flag and count are unchanged, and the reply is `SIMULATION_FAILED` exactly when the dispatch throws |
| Host.StopExecution | android/app/src/main/kotlin/com/example/binance_auto_clicker/MainActivity.kt:154-163 | no service gives `SERVICE_NOT_AVAILABLE`. Otherwise the sequencer is stopped with no posted tick, and the reply is success |
| Host.EmergencyStop | android/app/src/main/kotlin/com/example/binance_auto_clicker/MainActivity.kt:165-177 | the timer service is destroyed in every case. The sequencer is stopped with success when present, and `SERVICE_NOT_AVAILABLE` is returned otherwise |
| Host.GetExecutionStats | android/app/src/main/kotlin/com/example/binance_auto_clicker/MainActivity.kt:179-193 | without a service the reply is {isExecuting false, count 0, isReady false, serviceAvailable false}; with one it is the service's snapshot |
| Host.OpenAccessibilitySettings | android/app/src/main/kotlin/com/example/binance_auto_clicker/MainActivity.kt:195-205 | replies `SETTINGS_FAILED` exactly when opening the settings throws, and changes nothing |
| Host.StartTimerService | android/app/src/main/kotlin/com/example/binance_auto_clicker/MainActivity.kt:207-215 | a throwing start gives `SERVICE_START_FAILED` with nothing changed. Otherwise the timer service runs with the given target and description, and holds a 30-minute lock if granted |
| Host.StopTimerService | android/app/src/main/kotlin/com/example/binance_auto_clicker/MainActivity.kt:217-225 | a throwing stop gives `SERVICE_STOP_FAILED` with nothing changed. Otherwise the timer service is destroyed: it is not running and has no lock |
| Host.Handle | android/app/src/main/kotlin/com/example/binance_auto_clicker/MainActivity.kt:19-72 | an unknown method replies notImplemented and changes nothing, and a known one never does. Defaults are filled in before the matching handler runs |
| Host.BusyExactlyWhileExecuting | android/app/src/main/kotlin/com/example/binance_auto_clicker/MainActivity.kt:83-86 | with a connected service, a start is refused as busy exactly while a sequence executes, and the refusal leaves the running sequence untouched |
| Host.RapidClickDefaults | android/app/src/main/kotlin/com/example/binance_auto_clicker/MainActivity.kt:25-31 | a start call with no arguments starts one tap at (0, 0) with a 10 ms interval |
| Host.TimerDefaults | android/app/src/main/kotlin/com/example/binance_auto_clicker/MainActivity.kt:57-61 | a timer start with no arguments targets time 0 and shows "Countdown Active" |
| Host.EmergencyStopAlwaysStopsTimer | android/app/src/main/kotlin/com/example/binance_auto_clicker/MainActivity.kt:165-177 | the emergency stop leaves the timer service stopped with no lock, whether or not the accessibility service exists, and succeeds exactly when it exists |
| Host.AvailabilityAgrees | android/app/src/main/kotlin/com/example/binance_auto_clicker/MainActivity.kt:179-193 | the stats report the service unavailable exactly when `isAvailable` replies false |
| Host.ClickCommandsLeaveTimer | android/app/src/main/kotlin/com/example/binance_auto_clicker/MainActivity.kt:19-72 | only the emergency stop and the two timer commands touch the timer service |

## Left out

- Gesture construction (`Path`, `GestureDescription`, the 50 ms stroke): a platform call. It is modelled only as accepted, refused or throwing, followed by a success or failure result.
- `Handler`/`Looper` timing and `System.currentTimeMillis`: real time cannot be verified here. A posted tick records its computed delay, and the elapsed time arrives with each tap result. When several ticks are posted (only possible after a stop and restart with a tap in flight), the model lets them run in any order, not in due-time order.
- An exception out of `dispatchGesture` inside a posted tick is uncaught and ends the process: a run halts there, and process death is not modelled further.
- Float coordinates: the point is a pair of reals passed through unchanged. The `Double` to `Float` narrowing of the arguments is not modelled.
- Integer widths: counts and times are unbounded integers. A 32-bit `executionCount` cannot wrap in an admissible run, since it stays within a 32-bit total. `intervalMs − elapsed` in 64 bits is not checked for overflow.
- A null `ClickCallback`: the method-call handler always passes one, so notices are always delivered to their listener.
- The accessibility service's `onCreate`, `onDestroy`, `onServiceConnected` and `onAccessibilityEvent`: the instance lifecycle is reduced to "service present" and "connected" flags, and the event handler does nothing.
- Notification channel and notification building, `PendingIntent`, `Build.VERSION` branches, `START_NOT_STICKY`: Android plumbing. Only the text shown is modelled.
- Timer service lifecycle: starting the service runs `onStartCommand` at once, though the platform delivers it later. Stopping runs `onDestroy` on the current state, and a destroyed service is treated like a fresh one. `targetTime` is kept, though a new instance would start at 0; the value is only ever logged.
- `release()` throwing, and a lock expiring between the `isHeld` check and `release()`: platform races, not modelled.
- The `stopService` call inside `emergencyStop` is outside any `try` in the source. The model treats it as always succeeding.
- Flutter `MethodChannel` messaging, argument type errors from `call.argument`, the settings `Intent` launch, and logging: I/O and UI. The reply of `openAccessibilitySettings` is modelled, but the screen it opens is not.
