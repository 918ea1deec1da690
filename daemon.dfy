/**
 * The daemon supervisor (src/Daemon.php): per-task stamps and child PIDs in
 * lock-step with the registered tasks, the queue of received signals, the
 * run flag, and the fixed order of the phases of one loop iteration.
 *
 * The first half states every phase as a function of a `State` value; the
 * class `Daemon` below holds the same data in fields and its methods are
 * proved to change them exactly as those functions say.
 */
module Daemons {

  import opened Wrappers
  import opened Signals
  import opened Tasks
  import opened Process
  import opened Schedule
  import opened SignalQueue
  import opened Timing
  import opened Sequences

  /** The exceptions that end the daemon process from inside the loop. */
  datatype Fault =
    | ForkFailure        // "Failed to Fork" from a background launch
    | UnconfiguredPhase  // a ready foreground task had no main callable

  /** Whether the daemon process still runs the loop. */
  datatype Status = Running | Exited | Crashed(fault: Fault)

  /** Everything the loop changes. */
  datatype State = State(
    run: bool,
    queue: seq<Signal>,
    taskRuns: seq<int>,
    backgroundRuns: seq<int>,
    backgroundPids: seq<int>,
    loopStart: int,
    effects: seq<Effect>,
    status: Status)

  /** What the loop reads and never changes: the tick interval (ms) and the registered tasks. */
  datatype Config = Config(interval: int, tasks: seq<TaskView>, backgroundTasks: seq<TaskView>)

  /**
   * Lock-step: one stamp per foreground task, one stamp and one PID per
   * background task. Stated on lengths, so that the value level and the
   * class share it.
   */
  predicate LockStep(tasks: nat, taskRuns: nat, backgroundTasks: nat, backgroundRuns: nat, backgroundPids: nat)
  {
    taskRuns == tasks && backgroundRuns == backgroundTasks && backgroundPids == backgroundTasks
  }

  /** The per-task arrays are in lock-step with the task lists. */
  predicate Consistent(c: Config, s: State)
  {
    LockStep(|c.tasks|, |s.taskRuns|, |c.backgroundTasks|, |s.backgroundRuns|, |s.backgroundPids|)
  }

  /** What the clock and the operating system answer during one loop iteration. */
  datatype Tick = Tick(
    startAt: int,                    // clock (s) read by `loopStart`
    backgroundAt: int,               // clock (s) during the background pass
    foregroundAt: int,               // clock (s) during the foreground pass
    endAt: int,                      // clock (s) read by `loopEnd`
    probes: seq<Probe>,              // per background slot: wait result and fork result
    atStart: seq<Signal>,            // signals pending at each of the four dispatch points
    afterBackground: seq<Signal>,
    afterForeground: seq<Signal>,
    afterSleep: seq<Signal>)

  predicate TickFits(t: Tick, c: Config)
  {
    |t.probes| == |c.backgroundTasks|
  }

  /**
   * `processSignals`: the pending signals join the queue, then the queue is
   * drained. Each handler clears the run flag, so the flag survives only an
   * empty queue.
   */
  function DispatchSignals(s: State, delivered: seq<Signal>): (r: State)
    ensures r.taskRuns == s.taskRuns && r.backgroundRuns == s.backgroundRuns
    ensures r.backgroundPids == s.backgroundPids && r.loopStart == s.loopStart
  {
    var queue := s.queue + delivered;
    var d := Drain(queue, s.backgroundPids);
    s.(run := s.run && queue == [],
       queue := d.remaining,
       effects := s.effects + d.effects,
       status := if d.exited then Exited else s.status)
  }

  /** `processBackgroundTasks`. */
  function BackgroundPhase(tasks: seq<TaskView>, s: State, now: int, probes: seq<Probe>): (r: State)
    requires |s.backgroundRuns| == |s.backgroundPids| == |tasks| == |probes|
    ensures |r.backgroundRuns| == |r.backgroundPids| == |tasks| && r.taskRuns == s.taskRuns
  {
    var p := BackgroundPass(tasks, s.backgroundRuns, s.backgroundPids, now, probes);
    s.(backgroundRuns := p.runs,
       backgroundPids := p.pids,
       effects := s.effects + p.log,
       status := if p.failed then Crashed(ForkFailure) else s.status)
  }

  /** `processTasks`. */
  function ForegroundPhase(tasks: seq<TaskView>, s: State, now: int): (r: State)
    requires |s.taskRuns| == |tasks|
    ensures |r.taskRuns| == |tasks|
    ensures r.backgroundRuns == s.backgroundRuns && r.backgroundPids == s.backgroundPids
  {
    var p := ForegroundPass(tasks, s.taskRuns, now);
    s.(taskRuns := p.runs,
       effects := s.effects + p.log,
       status := if p.failed then Crashed(UnconfiguredPhase) else s.status)
  }

  /** `loopEnd` as written: it calls `loopStart()`, restamping the iteration, and sleeps. */
  function SleepPhase(interval: int, s: State, now: int): (r: State)
    ensures r.loopStart == now
    ensures |r.effects| == |s.effects| + 1 && r.effects[..|s.effects|] == s.effects
    ensures r.effects[|s.effects|].Sleep? && r.effects[|s.effects|].micros >= 0
    ensures r == s.(loopStart := r.loopStart, effects := r.effects)
  {
    s.(loopStart := now, effects := s.effects + [Sleep(AsWrittenSleep(interval, now))])
  }

  /**
   * One iteration of `main`: stamp, signals, background pass, signals,
   * foreground pass, signals, sleep, signals. An exit or an exception ends
   * the process where it happens, so nothing after it takes place.
   */
  function Iteration(c: Config, s: State, t: Tick): (r: State)
    requires Consistent(c, s) && TickFits(t, c)
    ensures Consistent(c, r)
  {
    var s1 := DispatchSignals(s.(loopStart := t.startAt), t.atStart);
    if !s1.status.Running? then s1 else BackgroundStage(c, s1, t)
  }

  /** The rest of the iteration from the background pass on. */
  function BackgroundStage(c: Config, s: State, t: Tick): (r: State)
    requires Consistent(c, s) && TickFits(t, c)
    ensures Consistent(c, r)
  {
    var s2 := BackgroundPhase(c.backgroundTasks, s, t.backgroundAt, t.probes);
    if !s2.status.Running? then s2 else
    var s3 := DispatchSignals(s2, t.afterBackground);
    if !s3.status.Running? then s3 else ForegroundStage(c, s3, t)
  }

  /** The rest of the iteration from the foreground pass on. */
  function ForegroundStage(c: Config, s: State, t: Tick): (r: State)
    requires Consistent(c, s)
    ensures Consistent(c, r)
  {
    var s4 := ForegroundPhase(c.tasks, s, t.foregroundAt);
    if !s4.status.Running? then s4 else
    var s5 := DispatchSignals(s4, t.afterForeground);
    if !s5.status.Running? then s5 else
    DispatchSignals(SleepPhase(c.interval, s5, t.endAt), t.afterSleep)
  }

  /** `last`: terminate every live child, release the lock, exit 0. */
  function Shutdown(s: State): (r: State)
    ensures r.status == Exited
  {
    s.(effects := s.effects + ShutdownEffects(s.backgroundPids), status := Exited)
  }

  /** The `while ($this->run)` loop over the iterations the ticks describe. */
  function Looping(c: Config, s: State, ticks: seq<Tick>): (r: State)
    requires Consistent(c, s) && forall i :: 0 <= i < |ticks| ==> TickFits(ticks[i], c)
    ensures Consistent(c, r)
    decreases |ticks|
  {
    if !s.status.Running? || !s.run || ticks == [] then s
    else Looping(c, Iteration(c, s, ticks[0]), ticks[1..])
  }

  /**
   * `startDaemon` after the operating-system setup: the run flag is raised,
   * the loop runs, and once it has ended by a cleared flag `last` runs.
   * When the ticks run out first, the state is the one reached so far.
   */
  function Serve(c: Config, s: State, ticks: seq<Tick>): (r: State)
    requires Consistent(c, s) && forall i :: 0 <= i < |ticks| ==> TickFits(ticks[i], c)
    ensures Consistent(c, r)
    ensures r.status.Running? ==> r.run
  {
    var e := Looping(c, s.(run := true), ticks);
    if e.status.Running? && !e.run then Shutdown(e) else e
  }

  // ---------------------------------------------------------------------------
  // Properties of the phases

  /** The effect log ends with the shutdown of the children in `s`. */
  predicate EndsWithShutdown(s: State)
  {
    EndsWith(s.effects, ShutdownEffects(s.backgroundPids))
  }

  /** A dispatch that exits has just terminated every live child, released the lock and exited. */
  lemma DispatchExitShutsDown(s: State, delivered: seq<Signal>)
    requires DispatchSignals(s, delivered).status == Exited && s.status != Exited
    ensures EndsWithShutdown(DispatchSignals(s, delivered))
    ensures !DispatchSignals(s, delivered).run
  {
    var queue := s.queue + delivered;
    DrainEmptiesUnlessInterrupted(queue, s.backgroundPids);
    InterruptShutdownOrder(queue, s.backgroundPids);
    EndsWithShorter(Drain(queue, s.backgroundPids).effects, KillsFor(s.backgroundPids, SIGINT), ShutdownEffects(s.backgroundPids));
    EndsWithExtend(s.effects, Drain(queue, s.backgroundPids).effects, ShutdownEffects(s.backgroundPids));
  }

  /**
   * Interrupt: when an interrupt is among the signals handled at the first
   * dispatch point, the daemon exits there; no task is looked at, no stamp
   * or PID changes, and the only effects are the propagation and the shutdown.
   */
  lemma InterruptSkipsIteration(c: Config, s: State, t: Tick)
    requires Consistent(c, s) && TickFits(t, c) && s.status == Running
    requires SIGINT in s.queue + t.atStart
    ensures var r := Iteration(c, s, t);
      && r.status == Exited && !r.run
      && r.taskRuns == s.taskRuns && r.backgroundRuns == s.backgroundRuns && r.backgroundPids == s.backgroundPids
      && r.effects == s.effects + Drain(s.queue + t.atStart, s.backgroundPids).effects
      && EndsWithShutdown(r)
  {
    DrainEmptiesUnlessInterrupted(s.queue + t.atStart, s.backgroundPids);
    DispatchExitShutsDown(s.(loopStart := t.startAt), t.atStart);
  }

  /**
   * Hang-up or terminate: when signals arrive but none of them is an
   * interrupt, the iteration still runs both task passes on the stamps it
   * started with, and ends with the run flag cleared.
   */
  lemma GracefulStopFinishesIteration(c: Config, s: State, t: Tick)
    requires Consistent(c, s) && TickFits(t, c) && s.status == Running
    requires s.queue + t.atStart != []
    requires SIGINT !in s.queue + t.atStart && SIGINT !in t.afterBackground
    requires SIGINT !in t.afterForeground && SIGINT !in t.afterSleep
    requires !BackgroundPass(c.backgroundTasks, s.backgroundRuns, s.backgroundPids, t.backgroundAt, t.probes).failed
    requires !ForegroundPass(c.tasks, s.taskRuns, t.foregroundAt).failed
    ensures var r := Iteration(c, s, t);
      && r.status == Running && !r.run && r.queue == []
      && r.backgroundRuns == BackgroundPass(c.backgroundTasks, s.backgroundRuns, s.backgroundPids, t.backgroundAt, t.probes).runs
      && r.backgroundPids == BackgroundPass(c.backgroundTasks, s.backgroundRuns, s.backgroundPids, t.backgroundAt, t.probes).pids
      && r.taskRuns == ForegroundPass(c.tasks, s.taskRuns, t.foregroundAt).runs
      && r.loopStart == t.endAt
  {
    var s1 := DispatchSignals(s.(loopStart := t.startAt), t.atStart);
    DrainEmptiesUnlessInterrupted(s.queue + t.atStart, s.backgroundPids);
    var s2 := BackgroundPhase(c.backgroundTasks, s1, t.backgroundAt, t.probes);
    var s3 := DispatchSignals(s2, t.afterBackground);
    assert s2.queue == [];
    DrainEmptiesUnlessInterrupted(s2.queue + t.afterBackground, s2.backgroundPids);
    var s4 := ForegroundPhase(c.tasks, s3, t.foregroundAt);
    var s5 := DispatchSignals(s4, t.afterForeground);
    DrainEmptiesUnlessInterrupted(s4.queue + t.afterForeground, s4.backgroundPids);
    var s6 := SleepPhase(c.interval, s5, t.endAt);
    DrainEmptiesUnlessInterrupted(s6.queue + t.afterSleep, s6.backgroundPids);
  }

  /** Only a dispatch can end an iteration in exit, and then it has shut down. */
  lemma IterationExitShutsDown(c: Config, s: State, t: Tick)
    requires Consistent(c, s) && TickFits(t, c) && s.status == Running
    requires Iteration(c, s, t).status == Exited
    ensures EndsWithShutdown(Iteration(c, s, t)) && !Iteration(c, s, t).run
  {
    var s1 := DispatchSignals(s.(loopStart := t.startAt), t.atStart);
    if !s1.status.Running? {
      DispatchExitShutsDown(s.(loopStart := t.startAt), t.atStart);
      return;
    }
    var s2 := BackgroundPhase(c.backgroundTasks, s1, t.backgroundAt, t.probes);
    var s3 := DispatchSignals(s2, t.afterBackground);
    if !s3.status.Running? {
      DispatchExitShutsDown(s2, t.afterBackground);
      return;
    }
    var s4 := ForegroundPhase(c.tasks, s3, t.foregroundAt);
    var s5 := DispatchSignals(s4, t.afterForeground);
    if !s5.status.Running? {
      DispatchExitShutsDown(s4, t.afterForeground);
      return;
    }
    DispatchExitShutsDown(SleepPhase(c.interval, s5, t.endAt), t.afterSleep);
  }

  /**
   * The daemon exits only through the shutdown routine: whenever `Serve`
   * ends in exit, the last effects are terminate to every live child, the
   * release of the lock and exit 0, and the run flag is down.
   */
  lemma {:induction false} ServeExitsThroughShutdown(c: Config, s: State, ticks: seq<Tick>)
    requires Consistent(c, s) && forall i :: 0 <= i < |ticks| ==> TickFits(ticks[i], c)
    requires s.status == Running
    requires Serve(c, s, ticks).status == Exited
    ensures EndsWithShutdown(Serve(c, s, ticks))
  {
    var e := Looping(c, s.(run := true), ticks);
    if !e.status.Running? {
      LoopingExitShutsDown(c, s.(run := true), ticks);
    }
  }

  lemma {:induction false} LoopingExitShutsDown(c: Config, s: State, ticks: seq<Tick>)
    requires Consistent(c, s) && forall i :: 0 <= i < |ticks| ==> TickFits(ticks[i], c)
    requires s.status == Running
    requires Looping(c, s, ticks).status == Exited
    ensures EndsWithShutdown(Looping(c, s, ticks)) && !Looping(c, s, ticks).run
    decreases |ticks|
  {
    if s.run && ticks != [] {
      var s' := Iteration(c, s, ticks[0]);
      if s'.status == Exited {
        IterationExitShutsDown(c, s, ticks[0]);
        assert Looping(c, s, ticks) == s';
      } else {
        LoopingExitShutsDown(c, s', ticks[1..]);
      }
    }
  }

  // ---------------------------------------------------------------------------
  // The daemon object

  /** What the passes read from the task objects. */
  function Views(ts: seq<Task>): (vs: seq<TaskView>)
    reads ts
    ensures |vs| == |ts|
    ensures forall i :: 0 <= i < |ts| ==> vs[i] == TaskView(ts[i].main, ts[i].GetInterval())
  {
    seq(|ts|, i requires 0 <= i < |ts| reads ts => TaskView(ts[i].main, ts[i].GetInterval()))
  }

  class Daemon {
    var interval: int
    var run: bool
    var incomingSignals: seq<Signal>
    var tasks: seq<Task>
    var taskRuns: seq<int>
    var backgroundTasks: seq<Task>
    var backgroundTaskPID: seq<int>
    var backgroundTaskRuns: seq<int>
    var loopStart: int
    var effects: seq<Effect>  // what the process did to the outside world, in order
    var status: Status

    /** The per-task arrays stay in lock-step with the task lists. */
    ghost predicate Valid()
      reads this`taskRuns, this`tasks, this`backgroundTaskRuns, this`backgroundTaskPID, this`backgroundTasks
    {
      LockStep(|tasks|, |taskRuns|, |backgroundTasks|, |backgroundTaskRuns|, |backgroundTaskPID|)
    }

    function Snapshot(): State
      reads this`run, this`incomingSignals, this`taskRuns, this`backgroundTaskRuns, this`backgroundTaskPID,
            this`loopStart, this`effects, this`status
    {
      State(run, incomingSignals, taskRuns, backgroundTaskRuns, backgroundTaskPID, loopStart, effects, status)
    }

    function Configuration(): Config
      reads this`interval, this`tasks, this`backgroundTasks, tasks, backgroundTasks
    {
      Config(interval, Views(tasks), Views(backgroundTasks))
    }

    /** A daemon with the default 1000 ms tick, no tasks, an empty queue and the run flag down. */
    constructor ()
      ensures Valid()
      ensures interval == 1000 && tasks == [] && backgroundTasks == []
      ensures Snapshot() == State(false, [], [], [], [], 0, [], Running)
    {
      interval := 1000;
      run := false;
      incomingSignals := [];
      tasks, taskRuns := [], [];
      backgroundTasks, backgroundTaskPID, backgroundTaskRuns := [], [], [];
      loopStart := 0;
      effects := [];
      status := Running;
    }

    /** Sets the tick interval (ms); returns the daemon itself for chaining. */
    method SetInterval(ms: int) returns (self: Daemon)
      requires Valid()
      modifies this`interval
      ensures Valid() && self == this
      ensures interval == ms
      ensures Snapshot() == old(Snapshot())
    {
      interval := ms;
      self := this;
    }

    /** `task`: registers a new foreground task with the stamp 0 and returns it. */
    method NewTask() returns (t: Task)
      requires Valid()
      modifies this`taskRuns, this`tasks
      ensures Valid() && fresh(t)
      ensures t.start == None && t.main == None && t.stop == None && t.interval == None
      ensures tasks == old(tasks) + [t] && taskRuns == old(taskRuns) + [0]
      ensures Snapshot() == old(Snapshot()).(taskRuns := old(taskRuns) + [0])
    {
      taskRuns := taskRuns + [0];
      t := new Task();
      tasks := tasks + [t];
    }

    /** `backgroundTask`: registers a new background task with the stamp 0 and the PID 0 and returns it. */
    method NewBackgroundTask() returns (t: Task)
      requires Valid()
      modifies this`backgroundTaskRuns, this`backgroundTaskPID, this`backgroundTasks
      ensures Valid() && fresh(t)
      ensures t.start == None && t.main == None && t.stop == None && t.interval == None
      ensures backgroundTasks == old(backgroundTasks) + [t]
      ensures backgroundTaskRuns == old(backgroundTaskRuns) + [0]
      ensures backgroundTaskPID == old(backgroundTaskPID) + [0]
      ensures Snapshot() == old(Snapshot()).(backgroundRuns := old(backgroundTaskRuns) + [0],
                                             backgroundPids := old(backgroundTaskPID) + [0])
    {
      backgroundTaskRuns := backgroundTaskRuns + [0];
      backgroundTaskPID := backgroundTaskPID + [0];
      t := new Task();
      backgroundTasks := backgroundTasks + [t];
    }

    /** The last step of `init`: the loop may run. */
    method Init()
      requires Valid()
      modifies this`run
      ensures Valid()
      ensures Snapshot() == old(Snapshot()).(run := true)
    {
      run := true;
    }

    /** `getSignals`: the installed handler only appends the signal to the queue. */
    method GetSignals(sig: Signal)
      requires Valid()
      modifies this`incomingSignals
      ensures Valid()
      ensures Snapshot() == old(Snapshot()).(queue := old(incomingSignals) + [sig])
    {
      incomingSignals := incomingSignals + [sig];
    }

    /** `signalBackgroundTasks`: one kill per stored PID > 0, in slot order; no field but the log changes. */
    method SignalBackgroundTasks(sig: Signal)
      requires Valid()
      modifies this`effects
      ensures Valid()
      ensures effects == old(effects) + KillsFor(backgroundTaskPID, sig)
    {
      var i := 0;
      while i < |backgroundTaskPID|
        invariant 0 <= i <= |backgroundTaskPID|
        invariant effects == old(effects) + KillsFor(backgroundTaskPID[..i], sig)
      {
        var pid := backgroundTaskPID[i];
        if pid > 0 {
          effects := effects + [Kill(pid, sig)];
        }
        PrefixSnoc(backgroundTaskPID, i + 1);
        KillsForAppend(backgroundTaskPID[..i], [pid], sig);
        i := i + 1;
      }
      assert backgroundTaskPID[..i] == backgroundTaskPID;
    }

    /** `last`: terminate the children, release the lock, exit 0. */
    method Last()
      requires Valid()
      modifies this`effects, this`status
      ensures Valid()
      ensures Snapshot() == Shutdown(old(Snapshot()))
    {
      SignalBackgroundTasks(SIGTERM);
      effects := effects + [Unlock, Exit(0)];
      status := Exited;
    }

    /** `sigterm`: only clears the run flag. */
    method Sigterm()
      requires Valid()
      modifies this`run
      ensures Valid()
      ensures Snapshot() == old(Snapshot()).(run := false)
    {
      run := false;
    }

    /** `sigint`: clears the run flag, then shuts down. */
    method Sigint()
      requires Valid()
      modifies this`run, this`effects, this`status
      ensures Valid()
      ensures Snapshot() == Shutdown(old(Snapshot()).(run := false))
    {
      run := false;
      Last();
    }

    /** The signals delivered since the last iteration reach `getSignals` in order. */
    method ReceiveSignals(delivered: seq<Signal>)
      requires Valid()
      modifies this`incomingSignals
      ensures Valid()
      ensures Snapshot() == old(Snapshot()).(queue := old(incomingSignals) + delivered)
    {
      var k := 0;
      while k < |delivered|
        invariant 0 <= k <= |delivered|
        invariant incomingSignals == old(incomingSignals) + delivered[..k]
      {
        PrefixSnoc(delivered, k + 1);
        GetSignals(delivered[k]);
        k := k + 1;
      }
      assert delivered[..k] == delivered;
    }

    /**
     * One round of the drain: the oldest entry leaves the queue, is sent on
     * to the children, then its handler runs. What is left of the drain is
     * the drain of the shorter queue, unless the handler exited.
     */
    method HandleNextSignal()
      requires Valid() && status == Running && incomingSignals != []
      modifies this`incomingSignals, this`run, this`effects, this`status
      ensures Valid() && !run && incomingSignals == old(incomingSignals)[1..]
      ensures var d := Drain(old(incomingSignals), backgroundTaskPID);
              var later := Drain(incomingSignals, backgroundTaskPID);
              if status == Running
              then later.exited == d.exited && later.remaining == d.remaining
                   && old(effects) + d.effects == effects + later.effects
              else status == Exited && d.exited && d.remaining == incomingSignals
                   && old(effects) + d.effects == effects
    {
      var sig := incomingSignals[0];
      DrainStep(incomingSignals, backgroundTaskPID);
      incomingSignals := incomingSignals[1..];
      SignalBackgroundTasks(sig);
      match HandlerFor(sig)
      case OnSigterm =>
        Sigterm();
        AppendAssoc(old(effects), KillsFor(backgroundTaskPID, sig), Drain(incomingSignals, backgroundTaskPID).effects);
      case OnSigint =>
        Sigint();
        AppendAssoc(old(effects), KillsFor(backgroundTaskPID, sig), ShutdownEffects(backgroundTaskPID));
    }

    /** The queue drain of `processSignals`: entries are handled oldest first until the queue is empty or one exits. */
    method DrainSignals()
      requires Valid() && status == Running
      modifies this`incomingSignals, this`run, this`effects, this`status
      ensures Valid()
      ensures run == (old(run) && old(incomingSignals) == [])
      ensures incomingSignals == Drain(old(incomingSignals), backgroundTaskPID).remaining
      ensures effects == old(effects) + Drain(old(incomingSignals), backgroundTaskPID).effects
      ensures status == if Drain(old(incomingSignals), backgroundTaskPID).exited then Exited else Running
    {
      ghost var d := Drain(incomingSignals, backgroundTaskPID);
      while incomingSignals != [] && status == Running
        invariant Valid()
        invariant run == (old(run) && incomingSignals == old(incomingSignals))
        invariant status == Running ==> Drain(incomingSignals, backgroundTaskPID).exited == d.exited
        invariant status == Running ==> Drain(incomingSignals, backgroundTaskPID).remaining == d.remaining
        invariant status == Running ==> old(effects) + d.effects == effects + Drain(incomingSignals, backgroundTaskPID).effects
        invariant status != Running ==> status == Exited && !run && d.exited && d.remaining == incomingSignals
                                         && old(effects) + d.effects == effects
        decreases |incomingSignals|
      {
        HandleNextSignal();
      }
      assert effects + [] == effects;
    }

    /**
     * `processSignals`: the pending signals reach `getSignals`, then each
     * queued entry is removed, sent on to the children and handled.
     */
    method ProcessSignals(delivered: seq<Signal>)
      requires Valid() && status == Running
      modifies this`incomingSignals, this`run, this`effects, this`status
      ensures Valid() && Configuration() == old(Configuration())
      ensures Snapshot() == DispatchSignals(old(Snapshot()), delivered)
    {
      ReceiveSignals(delivered);
      DrainSignals();
      assert old(incomingSignals) + delivered + [] == old(incomingSignals) + delivered;
    }

    /**
     * One slot of `processBackgroundTasks`: when the task is ready, the
     * exclusive launch runs, and its PID and the stamp `now` are kept.
     */
    method LaunchSlot(i: nat, now: int, probe: Probe)
      requires Valid() && status == Running && i < |backgroundTasks|
      modifies this`backgroundTaskPID, this`backgroundTaskRuns, this`effects, this`status
      ensures Valid()
      ensures var s := BackgroundStep(Views(backgroundTasks)[i],
                                      BackgroundResult(old(backgroundTaskRuns), old(backgroundTaskPID), old(effects), false),
                                      i, now, probe);
              backgroundTaskRuns == s.runs && backgroundTaskPID == s.pids && effects == s.log
              && status == if s.failed then Crashed(ForkFailure) else Running
    {
      var task := backgroundTasks[i];
      if Ready(task.GetInterval(), backgroundTaskRuns[i], now) {
        var launch := ExclusiveLaunch(backgroundTaskPID[i], probe.wait, probe.fork);
        if launch.ForkFailed? {
          status := Crashed(ForkFailure);
          return;
        }
        if launch.Forked? {
          effects := effects + [Fork(launch.pid)];
        }
        backgroundTaskPID := backgroundTaskPID[i := launch.pid];
        backgroundTaskRuns := backgroundTaskRuns[i := now];
      }
    }

    /** The loop of `processBackgroundTasks` over the slots, with the clock at `now`. */
    method LaunchReadySlots(now: int, probes: seq<Probe>)
      requires Valid() && status == Running && |probes| == |backgroundTasks|
      modifies this`backgroundTaskPID, this`backgroundTaskRuns, this`effects, this`status
      ensures Valid()
      ensures var p := BackgroundPass(Views(backgroundTasks), old(backgroundTaskRuns), old(backgroundTaskPID), now, probes);
              backgroundTaskRuns == p.runs && backgroundTaskPID == p.pids && effects == old(effects) + p.log
              && status == if p.failed then Crashed(ForkFailure) else Running
    {
      ghost var views := Views(backgroundTasks);
      ghost var runs0, pids0 := backgroundTaskRuns, backgroundTaskPID;
      var i := 0;
      while i < |backgroundTasks| && status == Running
        invariant 0 <= i <= |backgroundTasks|
        invariant var r := BackgroundUpTo(views, runs0, pids0, now, probes, i);
                  backgroundTaskRuns == r.runs && backgroundTaskPID == r.pids && effects == old(effects) + r.log
                  && status == if r.failed then Crashed(ForkFailure) else Running
      {
        BackgroundStepLog(views[i], BackgroundUpTo(views, runs0, pids0, now, probes, i), old(effects), i, now, probes[i]);
        LaunchSlot(i, now, probes[i]);
        i := i + 1;
      }
      assert Views(backgroundTasks) == views;
      if i < |views| {
        BackgroundFailedStays(views, runs0, pids0, now, probes, i, |views|);
      }
    }

    /** `processBackgroundTasks`, with the clock at `now` and the operating system's answers per slot. */
    method ProcessBackgroundTasks(now: int, probes: seq<Probe>)
      requires Valid() && status == Running && |probes| == |backgroundTasks|
      modifies this`backgroundTaskPID, this`backgroundTaskRuns, this`effects, this`status
      ensures Valid() && Configuration() == old(Configuration())
      ensures Snapshot() == BackgroundPhase(Views(backgroundTasks), old(Snapshot()), now, probes)
    {
      LaunchReadySlots(now, probes);
    }

    /**
     * One slot of `processTasks`: when the task is ready, its main callable
     * runs and the stamp becomes `now`.
     */
    method RunSlot(i: nat, now: int)
      requires Valid() && status == Running && i < |tasks|
      modifies this`taskRuns, this`effects, this`status
      ensures Valid()
      ensures var s := ForegroundStep(Views(tasks)[i], ForegroundResult(old(taskRuns), old(effects), false), i, now);
              taskRuns == s.runs && effects == s.log
              && status == if s.failed then Crashed(UnconfiguredPhase) else Running
    {
      var task := tasks[i];
      if Ready(task.GetInterval(), taskRuns[i], now) {
        var outcome := task.RunMain();
        match outcome
        case Unconfigured =>
          status := Crashed(UnconfiguredPhase);
        case Invoked(f) =>
          effects := effects + [Invoke(f)];
          taskRuns := taskRuns[i := now];
      }
    }

    /** The loop of `processTasks` over the slots, with the clock at `now`. */
    method RunReadySlots(now: int)
      requires Valid() && status == Running
      modifies this`taskRuns, this`effects, this`status
      ensures Valid()
      ensures var p := ForegroundPass(Views(tasks), old(taskRuns), now);
              taskRuns == p.runs && effects == old(effects) + p.log
              && status == if p.failed then Crashed(UnconfiguredPhase) else Running
    {
      ghost var views := Views(tasks);
      ghost var runs0 := taskRuns;
      var i := 0;
      while i < |tasks| && status == Running
        invariant 0 <= i <= |tasks|
        invariant var r := ForegroundUpTo(views, runs0, now, i);
                  taskRuns == r.runs && effects == old(effects) + r.log
                  && status == if r.failed then Crashed(UnconfiguredPhase) else Running
      {
        ForegroundStepLog(views[i], ForegroundUpTo(views, runs0, now, i), old(effects), i, now);
        RunSlot(i, now);
        i := i + 1;
      }
      if i < |views| {
        ForegroundFailedStays(views, runs0, now, i, |views|);
      }
    }

    /** `processTasks`, with the clock at `now`. */
    method ProcessTasks(now: int)
      requires Valid() && status == Running
      modifies this`taskRuns, this`effects, this`status
      ensures Valid() && Configuration() == old(Configuration())
      ensures Snapshot() == ForegroundPhase(Views(tasks), old(Snapshot()), now)
    {
      RunReadySlots(now);
    }

    /** `loopStart`: stamps the iteration. */
    method LoopStart(now: int)
      requires Valid()
      modifies this`loopStart
      ensures Valid() && Configuration() == old(Configuration())
      ensures Snapshot() == old(Snapshot()).(loopStart := now)
    {
      loopStart := now;
    }

    /** `loopEnd` as written: restamps through `loopStart()` and sleeps `AsWrittenSleep`. */
    method LoopEnd(now: int)
      requires Valid()
      modifies this`loopStart, this`effects
      ensures Valid() && Configuration() == old(Configuration())
      ensures Snapshot() == SleepPhase(interval, old(Snapshot()), now)
    {
      LoopStart(now);
      var loopDuration := now - 0;
      var sleepTime := interval * 1000 - loopDuration;
      if sleepTime < 0 {
        sleepTime := 0;
      }
      effects := effects + [Sleep(sleepTime)];
    }

    /** One iteration of the body of `main`. */
    method Iterate(t: Tick)
      requires Valid() && status == Running && |t.probes| == |backgroundTasks|
      modifies this`run, this`incomingSignals, this`taskRuns, this`backgroundTaskPID, this`backgroundTaskRuns,
               this`loopStart, this`effects, this`status
      ensures Valid()
      ensures Snapshot() == Iteration(Configuration(), old(Snapshot()), t)
    {
      ghost var c := Configuration();
      ghost var s0 := Snapshot();
      LoopStart(t.startAt);
      ProcessSignals(t.atStart);
      ghost var s1 := Snapshot();
      assert c == Configuration();
      if status != Running { return; }
      assert Iteration(c, s0, t) == BackgroundStage(c, s1, t);
      ProcessBackgroundTasks(t.backgroundAt, t.probes);
      ghost var s2 := Snapshot();
      assert s2 == BackgroundPhase(c.backgroundTasks, s1, t.backgroundAt, t.probes);
      assert c == Configuration();
      if status != Running { return; }
      ProcessSignals(t.afterBackground);
      ghost var s3 := Snapshot();
      assert s3 == DispatchSignals(s2, t.afterBackground);
      assert c == Configuration();
      if status != Running { return; }
      assert Iteration(c, s0, t) == ForegroundStage(c, s3, t);
      ProcessTasks(t.foregroundAt);
      ghost var s4 := Snapshot();
      assert s4 == ForegroundPhase(c.tasks, s3, t.foregroundAt);
      assert c == Configuration();
      if status != Running { return; }
      ProcessSignals(t.afterForeground);
      ghost var s5 := Snapshot();
      assert s5 == DispatchSignals(s4, t.afterForeground);
      assert c == Configuration();
      if status != Running { return; }
      LoopEnd(t.endAt);
      ProcessSignals(t.afterSleep);
      assert c == Configuration();
    }

    /** `main`: iterate while the run flag is up, for as many iterations as there are ticks. */
    method Loop(ticks: seq<Tick>)
      requires Valid() && forall i :: 0 <= i < |ticks| ==> |ticks[i].probes| == |backgroundTasks|
      modifies this`run, this`incomingSignals, this`taskRuns, this`backgroundTaskPID, this`backgroundTaskRuns,
               this`loopStart, this`effects, this`status
      ensures Valid()
      ensures Snapshot() == Looping(Configuration(), old(Snapshot()), ticks)
    {
      var i := 0;
      while i < |ticks| && status == Running && run
        invariant 0 <= i <= |ticks|
        invariant Valid()
        invariant Looping(Configuration(), old(Snapshot()), ticks) == Looping(Configuration(), Snapshot(), ticks[i..])
      {
        assert ticks[i..][1..] == ticks[i + 1..];
        Iterate(ticks[i]);
        i := i + 1;
      }
    }

    /** `startDaemon` after the operating-system setup: raise the flag, loop, shut down. */
    method StartDaemon(ticks: seq<Tick>)
      requires Valid() && forall i :: 0 <= i < |ticks| ==> |ticks[i].probes| == |backgroundTasks|
      modifies this`run, this`incomingSignals, this`taskRuns, this`backgroundTaskPID, this`backgroundTaskRuns,
               this`loopStart, this`effects, this`status
      ensures Valid()
      ensures Snapshot() == Serve(Configuration(), old(Snapshot()), ticks)
    {
      Init();
      Loop(ticks);
      if status == Running && !run {
        Last();
      }
    }
  }

}
