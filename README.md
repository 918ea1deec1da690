# PHP daemon supervisor — Dafny model

The repository is a small PHP library for writing Unix daemons. A `Daemon`
object (`src/Daemon.php`) holds a list of foreground tasks, which run inside
the daemon process, and a list of background tasks, each of which runs in a
forked child. A `Task` (`src/Task.php`) stores callables and an interval in
milliseconds, set through chained setters. Once started, the daemon loops
while its run flag is up. Each iteration:

1. stamps its start;
2. dispatches pending signals;
3. launches the ready background tasks, at most one live child per task;
4. dispatches signals;
5. runs the ready foreground tasks;
6. dispatches signals;
7. sleeps;
8. dispatches signals once more.

Hang-up and terminate clear the run flag. An interrupt clears it and shuts
down at once: every live child is sent terminate, the lock is released and
the process exits with status 0. Every handled signal is first passed on to
the live children.

This project models that bookkeeping. The operating system is replaced by
inputs and a log:

- The clock is an integer number of seconds, read once per phase.
- `pcntl_fork` and `pcntl_waitpid` answers are per-slot inputs (`Schedule.Probe`).
- The signals delivered before each dispatch point are inputs.
- Every outward action is appended to an effect log: a kill, a fork, a call of a foreground task's main callable, a sleep, the lock release, the exit (`Process.Effect`).

The model has two layers:

- **Value level.** Each phase is a function on a `State` value: `Daemons.DispatchSignals`, `BackgroundPhase`, `ForegroundPhase`, `SleepPhase`, `Iteration`, `Looping` and `Serve`.
- **Class level.** `Daemons.Daemon` is a class with the source's fields. Each of its methods is proved to change the fields exactly as the matching function says.

The properties proved include:

- Readiness and stamping in both passes.
- The exclusive-launch rule: a live child is never doubled.
- Exactly which children receive which signals.
- Arrival order of the signal queue, and the early exit on an interrupt.
- Whenever the daemon exits cleanly (status `Exited`), it has exited through the shutdown routine.

`loopEnd` is modelled as written (`src/Daemon.php:198-206`):

- It calls the method `loopStart()`, which returns nothing and restamps the iteration, instead of reading the field. The elapsed time is therefore the raw clock reading.
- That reading is in seconds, but it is subtracted from a budget in microseconds.

`Timing.AsWrittenNeverSleeps` shows that, with any realistic clock, the computed sleep is 0. `Timing.IntendedSleep` states, next to it, what the method evidently means.

Two consequences of the code are worth spelling out:

- **First pass.** Every new foreground task is stamped 0 (`src/Daemon.php:95`), so a configured task is ready on the first pass, not one interval after start-up (`Schedule.FirstPassRunsEverything`).
- **Unset interval.** A task whose interval was never set compares as always ready, because every number is `>=` null.

## Model

| member | source | states |
|---|---|---|
| Signals.HandlerFor | src/Daemon.php:36 | interrupt is routed to `sigint`, and hang-up and terminate to `sigterm`; both directions |
| Tasks.Dispatch | src/Task.php:32-45 | a stored property is called iff it was set, and then exactly the stored callable runs |
| Tasks.Task.constructor | src/Task.php:5-6 | a new task has no callables and no interval |
| Tasks.Task.SetStart | src/Task.php:8-12 | stores the start callable, returns the task itself, other properties unchanged |
| Tasks.Task.SetMain | src/Task.php:14-18 | stores the main callable, returns the task itself, other properties unchanged |
| Tasks.Task.SetStop | src/Task.php:20-24 | stores the stop callable, returns the task itself, other properties unchanged |
| Tasks.Task.SetInterval | src/Task.php:26-30 | stores the interval, returns the task itself, other properties unchanged |
| Tasks.Task.GetInterval | src/Task.php:47-50 | yields the stored interval, null (`None`) when never set |
| Tasks.Task.RunStart | src/Task.php:32-35 | calls the start callable when set; `Unconfigured` otherwise |
| Tasks.Task.RunMain | src/Task.php:37-40 | calls the main callable when set; `Unconfigured` otherwise |
| Tasks.Task.RunStop | src/Task.php:42-45 | calls the stop callable when set; `Unconfigured` otherwise |
| Tasks.ConfigureChained | src/Task.php:26-30 | chained setters act on the same task, and of two intervals the last wins |
| Process.ExecuteInNewProcess | src/Daemon.php:162-168 | the parent gets the child's PID, and a negative fork result is the "Failed to Fork" exception; both directions |
| Process.ExclusiveLaunch | src/Daemon.php:238-248 | the prior PID is kept iff it is positive and the non-blocking wait reports no exit; otherwise a new child is forked |
| Process.KillsFor | src/Daemon.php:229-236 | the kills `signalBackgroundTasks` sends: at most one per slot, each carrying the given signal and a PID > 0 |
| Process.KillsForAppend | src/Daemon.php:229-236 | signalling a list of slots is signalling its parts in order |
| Process.KillsForExactlyLive | src/Daemon.php:229-236 | every kill carries the given signal, and each positive PID is signalled once per slot holding it, others never |
| Process.KillsForOnlyLive | src/Daemon.php:229-236 | no PID <= 0 is ever signalled, and only stored PIDs are |
| Schedule.Ready | src/Daemon.php:253 | the readiness test: a never-set interval (null) is always ready; otherwise ready iff the clock has reached the stamp plus the interval |
| Schedule.ForegroundPass | src/Daemon.php:250-258 | the foreground pass keeps one stamp per task, and a stamp only ever moves to this pass's clock reading |
| Schedule.ForegroundFailsIff | src/Daemon.php:250-258 | the pass throws iff some ready task has no main callable |
| Schedule.ForegroundFailedStays | src/Daemon.php:250-258 | once the pass has thrown, later tasks are neither run nor stamped |
| Schedule.ForegroundStamps | src/Daemon.php:250-258 | each stamp becomes the clock if its task was ready, and stays otherwise |
| Schedule.ForegroundLog | src/Daemon.php:250-258 | the callables run are exactly the ready tasks' main callables, in registration order |
| Schedule.ForegroundPassFacts | src/Daemon.php:250-258 | the whole pass: the throw condition, the new stamps, and the run order |
| Schedule.ScheduledAppend | src/Daemon.php:252-257 | the reference run order of a concatenation is the concatenation of run orders |
| Schedule.AllMains | src/Daemon.php:252-257 | one call per task, in registration order |
| Schedule.ScheduledAllDue | src/Daemon.php:95 | with all stamps 0, every configured task whose interval has elapsed since the epoch is scheduled |
| Schedule.FirstPassRunsEverything | src/Daemon.php:95 | on the first pass every such task runs, in order, and is stamped with the clock |
| Schedule.BackgroundPass | src/Daemon.php:219-227 | the background pass keeps one stamp and one PID per task; a slot whose stamp did not move to this pass's clock reading kept its PID |
| Schedule.BackgroundFailsIff | src/Daemon.php:219-227 | the pass throws iff some ready slot needed a fork and the fork failed |
| Schedule.BackgroundFailedStays | src/Daemon.php:219-227 | once the pass has thrown, later slots are unchanged |
| Schedule.BackgroundSlots | src/Daemon.php:219-227 | a ready slot holds the launch's PID and the clock; a slot that was not ready keeps both |
| Schedule.BackgroundLog | src/Daemon.php:219-227 | the children forked are exactly those of the ready slots that needed one, in order |
| Schedule.SpawnedAppend | src/Daemon.php:221-226 | the reference fork order of a concatenation is the concatenation of fork orders |
| Schedule.BackgroundPassFacts | src/Daemon.php:219-227 | the whole pass: the throw condition, the new PIDs and stamps, and the fork order |
| Schedule.BackgroundKeepsLiveChild | src/Daemon.php:238-244 | a slot whose child is still alive keeps its PID, and no second child is forked for it |
| SignalQueue.Drain | src/Daemon.php:212-216 | the queue drain: one that does not exit empties the queue, one that exits has consumed at least the interrupt |
| SignalQueue.DrainEmptiesUnlessInterrupted | src/Daemon.php:208-217 | the drain exits iff an interrupt is queued; the queue then keeps exactly the entries after the first interrupt, and otherwise ends empty |
| SignalQueue.DrainAppend | src/Daemon.php:212-216 | entries are handled in arrival order: draining an interrupt-free prefix and then the rest is draining the whole |
| SignalQueue.InterruptShutdownOrder | src/Daemon.php:149-153 | an interrupt's effects end with its propagation, then terminate to every live child, the lock release and exit 0 |
| Timing.ClampedSleep | src/Daemon.php:201-204 | the sleep is the budget minus the duration, or 0 when that is negative |
| Timing.AsWrittenSleep | src/Daemon.php:200-204 | as written: a clamped sleep of `interval * 1000` minus the raw clock reading |
| Timing.IntendedSleep | src/Daemon.php:198-206 | as meant: wake exactly one interval after the iteration's start, or at once after an overrun |
| Timing.AsWrittenNeverSleeps | src/Daemon.php:200-205 | as written, at any clock reading of at least `interval * 1000` seconds the sleep is 0 |
| Timing.BusyLoopExample | src/Daemon.php:200-205 | a 1000 ms interval at a present-day clock: as written it sleeps 0 microseconds, as meant 1000000 |
| Daemons.DispatchSignals | src/Daemon.php:208-217 | a dispatch changes no stamp, no PID and no iteration start |
| Daemons.BackgroundPhase | src/Daemon.php:219-227 | the background pass keeps the PID and stamp lists in step with the tasks and leaves foreground stamps alone |
| Daemons.ForegroundPhase | src/Daemon.php:250-258 | the foreground pass keeps the stamps in step with the tasks and leaves background slots alone |
| Daemons.Iteration | src/Daemon.php:108-124 | an iteration keeps the per-task lists in step with the tasks |
| Daemons.Looping | src/Daemon.php:106-125 | the loop keeps the per-task lists in step with the tasks |
| Daemons.SleepPhase | src/Daemon.php:198-206 | `loopEnd` as written restamps the iteration start with the reading, appends one non-negative sleep, and changes nothing else |
| Daemons.Shutdown | src/Daemon.php:137-142 | `last` leaves the process exited |
| Daemons.DispatchExitShutsDown | src/Daemon.php:149-153 | a dispatch that exits has just shut every live child down, released the lock and exited, with the run flag down |
| Daemons.InterruptSkipsIteration | src/Daemon.php:108-111 | an interrupt at the first dispatch point exits there: no stamp or PID changes, and only the propagation and the shutdown happen |
| Daemons.GracefulStopFinishesIteration | src/Daemon.php:108-124 | after hang-up or terminate the iteration still runs both passes and then ends with the run flag down and the queue empty |
| Daemons.IterationExitShutsDown | src/Daemon.php:108-124 | an iteration ends in exit only through the shutdown routine |
| Daemons.LoopingExitShutsDown | src/Daemon.php:106-125 | the loop ends in exit only through the shutdown routine |
| Daemons.Serve | src/Daemon.php:155-160 | `startDaemon` keeps the lists in lock-step, and a daemon still running when the ticks run out has its run flag up, since a lowered flag leads to `last` |
| Daemons.ServeExitsThroughShutdown | src/Daemon.php:155-160 | whenever the daemon exits cleanly (status `Exited`), its last effects are terminate to every live child, the lock release and exit 0 |
| Daemons.Views | src/Daemon.php:252-253 | what the passes read from each task: its main callable and its interval |
| Daemons.Daemon.constructor | src/Daemon.php:11-31 | the default 1000 ms interval, run flag down, no tasks, empty queue, iteration start 0 |
| Daemons.Daemon.SetInterval | src/Daemon.php:86-91 | stores the interval and returns the daemon itself; nothing else changes |
| Daemons.Daemon.NewTask | src/Daemon.php:93-97 | appends a fresh task with stamp 0 and returns it |
| Daemons.Daemon.NewBackgroundTask | src/Daemon.php:99-104 | appends a fresh background task with stamp 0 and PID 0 and returns it |
| Daemons.Daemon.Init | src/Daemon.php:134 | raises the run flag |
| Daemons.Daemon.GetSignals | src/Daemon.php:188-191 | appends the signal to the queue |
| Daemons.Daemon.SignalBackgroundTasks | src/Daemon.php:229-236 | appends one kill per positive stored PID, in slot order; nothing else changes |
| Daemons.Daemon.Last | src/Daemon.php:137-142 | terminate to every live child, lock release, exit 0 |
| Daemons.Daemon.Sigterm | src/Daemon.php:144-147 | clears only the run flag |
| Daemons.Daemon.Sigint | src/Daemon.php:149-153 | clears the run flag, then runs `last` |
| Daemons.Daemon.ReceiveSignals | src/Daemon.php:210 | the delivered signals join the queue in delivery order |
| Daemons.Daemon.HandleNextSignal | src/Daemon.php:212-216 | removes the oldest entry, propagates and handles it; the rest of the drain is the drain of the shorter queue unless the handler exited |
| Daemons.Daemon.DrainSignals | src/Daemon.php:212-216 | the queue, run flag, log and status end as the reference drain says |
| Daemons.Daemon.ProcessSignals | src/Daemon.php:208-217 | the new state is `DispatchSignals` of the old one, and the configuration is unchanged |
| Daemons.Daemon.LaunchSlot | src/Daemon.php:222-225 | one background slot changes as `BackgroundStep` says |
| Daemons.Daemon.LaunchReadySlots | src/Daemon.php:221-226 | PIDs, stamps, log and status end as `BackgroundPass` says |
| Daemons.Daemon.ProcessBackgroundTasks | src/Daemon.php:219-227 | the new state is `BackgroundPhase` of the old one |
| Daemons.Daemon.RunSlot | src/Daemon.php:253-256 | one foreground slot changes as `ForegroundStep` says |
| Daemons.Daemon.RunReadySlots | src/Daemon.php:252-257 | stamps, log and status end as `ForegroundPass` says |
| Daemons.Daemon.ProcessTasks | src/Daemon.php:250-258 | the new state is `ForegroundPhase` of the old one |
| Daemons.Daemon.LoopStart | src/Daemon.php:193-196 | stamps the iteration start with the clock, and nothing else changes |
| Daemons.Daemon.LoopEnd | src/Daemon.php:198-206 | as written: restamps the iteration start and sleeps `AsWrittenSleep` |
| Daemons.Daemon.Iterate | src/Daemon.php:108-124 | one iteration changes the state as `Iteration` says, stopping where an exit or exception ends the process |
| Daemons.Daemon.Loop | src/Daemon.php:106-125 | the loop changes the state as `Looping` says |
| Daemons.Daemon.StartDaemon | src/Daemon.php:155-160 | raise the flag, loop, then shut down, as `Serve` says |

## Left out

- The daemon's own start-up (`start`, the first fork, `setSID`, `chdir`, closing and reopening the standard streams, the working directory): operating-system setup outside the loop. `init` is reduced to raising the run flag.
- The lock file: only its release is logged, as `Unlock`. Acquiring it, and the `LockUnavailable` failure, are operating-system setup.
- `installSignalHandlers` and its "Unable to install signal handlers" failure: the handlers are assumed installed. Delivery through `pcntl_signal_dispatch` is an explicit list of signals per dispatch point.
- The forked child's side of `executeInNewProcess` (running the callable and exiting 0 or 1): it runs in another process, which the daemon only observes through the wait result.
- `stop` and the setters for stdin, stdout, stderr, the lock file and the working directory: they only store paths used by the start-up that is left out.
- The bodies of user callables: a foreground task's main callable is logged as `Invoke` and assumed to return normally. An exception it throws is not modelled.
- An exception in the loop ("Failed to Fork", or the error from a never-set main callable) is recorded as status `Crashed` and ends the model's run there. No `Exit` effect is logged and `last` does not run, so no terminate reaches the children and the lock is not released. How the process then ends (the exit 1 of the enclosing `executeInNewProcess` in `start`, or an uncaught error) is not modelled.
- `call_user_func` on a never-set main callable is treated as fatal, as under PHP 8, where it throws a `TypeError` and ends the daemon (`UnconfiguredPhase`).
- `microtime` floats: the clock is whole seconds. Each phase reads it once. The source reads it again to stamp a task, so the model's stamp equals the reading that found the task ready.
- `usleep` is logged as a `Sleep` effect; no time passes in the model.
- The source calls `postix_kill` (`src/Daemon.php:233`), a function PHP does not define. The model records the kill the code evidently intends (`posix_kill`), as a `Kill` effect. As written, the first kill to a stored PID > 0 throws "Call to undefined function" and ends the daemon. Stored PIDs are never reset to 0, so after any background launch every handled signal, and every `last`, ends the daemon there: the handler, the lock release and `exit(0)` never run. `SignalQueue.InterruptShutdownOrder`, `Daemons.DispatchExitShutsDown` and `Daemons.ServeExitsThroughShutdown` therefore describe the intended call, not the code as written.
- Daemons.Daemon.Loop and Daemons.Daemon.StartDaemon: they run for a finite list of ticks. A daemon still running when the ticks run out is left in its current state, without the final `last`.
- `RunDaemon.php` and the examples: a client of the library, not part of this model.
