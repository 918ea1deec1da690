/**
 * The per-task readiness rule and one pass over the foreground tasks
 * (`processTasks`) and over the background tasks (`processBackgroundTasks`),
 * as functions of the registered tasks, their last-run stamps and the clock.
 * A pass goes through the slots in registration order; `...UpTo(k)` is the
 * state after the first `k` slots.
 */
module Schedule {

  import opened Wrappers
  import opened Tasks
  import opened Process
  import opened Sequences

  /** What a pass reads from a registered task object. */
  datatype TaskView = TaskView(main: Option<Callable>, interval: Option<int>)

  /**
   * `(now - last) * 1000 >= interval`: clock and stamps in whole seconds, the
   * interval in milliseconds. An interval never set is PHP null, and every
   * number compares `>=` to null.
   */
  function Ready(interval: Option<int>, last: int, now: int): (b: bool)
    ensures interval.None? ==> b
    ensures interval.Some? ==> (b <==> now * 1000 >= last * 1000 + interval.value)
  {
    match interval
    case None => true
    case Some(ms) => (now - last) * 1000 >= ms
  }

  // ---------------------------------------------------------------------------
  // Foreground tasks

  /** Stamps after the pass, effects it produced, and whether it threw. */
  datatype ForegroundResult = ForegroundResult(runs: seq<int>, log: seq<Effect>, failed: bool)

  /**
   * A ready task's main callable runs in the daemon and then its stamp
   * becomes `now`; a ready task without a main callable throws and ends
   * the pass with its own stamp unchanged.
   */
  function ForegroundStep(task: TaskView, r: ForegroundResult, j: nat, now: int): (s: ForegroundResult)
    requires j < |r.runs|
    ensures |s.runs| == |r.runs|
    ensures forall i :: 0 <= i < |r.runs| && i != j ==> s.runs[i] == r.runs[i]
  {
    if r.failed || !Ready(task.interval, r.runs[j], now) then r
    else match task.main
      case None => r.(failed := true)
      case Some(f) => ForegroundResult(r.runs[j := now], r.log + [Invoke(f)], false)
  }

  /** A step does not look at the effects produced before it. */
  lemma ForegroundStepLog(task: TaskView, r: ForegroundResult, e: seq<Effect>, j: nat, now: int)
    requires j < |r.runs|
    ensures var s := ForegroundStep(task, r, j, now);
            ForegroundStep(task, r.(log := e + r.log), j, now) == s.(log := e + s.log)
  {
    assert forall f :: e + r.log + [Invoke(f)] == e + (r.log + [Invoke(f)]);
  }

  /** The pass over the first `k` slots. */
  function ForegroundUpTo(tasks: seq<TaskView>, runs: seq<int>, now: int, k: nat): (r: ForegroundResult)
    requires |tasks| == |runs| && k <= |tasks|
    ensures |r.runs| == |runs|
    ensures forall j :: k <= j < |runs| ==> r.runs[j] == runs[j]
    decreases k
  {
    if k == 0 then ForegroundResult(runs, [], false)
    else ForegroundStep(tasks[k - 1], ForegroundUpTo(tasks, runs, now, k - 1), k - 1, now)
  }

  /** After `k` slots, every stamp is either the one it had or `now`. */
  lemma {:induction false} ForegroundStampsOnlyMove(tasks: seq<TaskView>, runs: seq<int>, now: int, k: nat)
    requires |tasks| == |runs| && k <= |tasks|
    ensures forall j :: 0 <= j < |runs| ==>
      ForegroundUpTo(tasks, runs, now, k).runs[j] == runs[j] || ForegroundUpTo(tasks, runs, now, k).runs[j] == now
    decreases k
  {
    if k > 0 {
      ForegroundStampsOnlyMove(tasks, runs, now, k - 1);
    }
  }

  /**
   * The whole foreground pass: one stamp per task, and a stamp only ever
   * moves to the clock reading of this pass.
   */
  function ForegroundPass(tasks: seq<TaskView>, runs: seq<int>, now: int): (r: ForegroundResult)
    requires |tasks| == |runs|
    ensures |r.runs| == |runs|
    ensures forall j :: 0 <= j < |runs| ==> r.runs[j] == runs[j] || r.runs[j] == now
  {
    ForegroundStampsOnlyMove(tasks, runs, now, |tasks|);
    ForegroundUpTo(tasks, runs, now, |tasks|)
  }

  /** Reference: the main callables of the ready tasks, in slot order. */
  function Scheduled(tasks: seq<TaskView>, runs: seq<int>, now: int): seq<Effect>
    requires |tasks| == |runs|
  {
    if tasks == [] then []
    else
      (if Ready(tasks[0].interval, runs[0], now) && tasks[0].main.Some?
       then [Invoke(tasks[0].main.value)] else [])
      + Scheduled(tasks[1..], runs[1..], now)
  }

  /** Among the first `k` slots, some ready task has no main callable. */
  predicate MisconfiguredBefore(tasks: seq<TaskView>, runs: seq<int>, now: int, k: nat)
    requires |tasks| == |runs| && k <= |tasks|
  {
    exists j :: 0 <= j < k && Ready(tasks[j].interval, runs[j], now) && tasks[j].main.None?
  }

  lemma {:induction false} ScheduledAppend(a: seq<TaskView>, b: seq<TaskView>, ra: seq<int>, rb: seq<int>, now: int)
    requires |a| == |ra| && |b| == |rb|
    ensures Scheduled(a + b, ra + rb, now) == Scheduled(a, ra, now) + Scheduled(b, rb, now)
  {
    if a == [] {
      assert a + b == b && ra + rb == rb;
    } else {
      assert (a + b)[1..] == a[1..] + b && (ra + rb)[1..] == ra[1..] + rb;
      ScheduledAppend(a[1..], b, ra[1..], rb, now);
    }
  }

  /** Once a pass has thrown, the later slots change nothing. */
  lemma {:induction false} ForegroundFailedStays(tasks: seq<TaskView>, runs: seq<int>, now: int, k: nat, m: nat)
    requires |tasks| == |runs| && k <= m <= |tasks|
    requires ForegroundUpTo(tasks, runs, now, k).failed
    ensures ForegroundUpTo(tasks, runs, now, m) == ForegroundUpTo(tasks, runs, now, k)
    decreases m
  {
    if m > k {
      ForegroundFailedStays(tasks, runs, now, k, m - 1);
    }
  }

  /** After `k` slots the pass has thrown iff one of them was ready without a main callable. */
  lemma {:induction false} ForegroundFailsIff(tasks: seq<TaskView>, runs: seq<int>, now: int, k: nat)
    requires |tasks| == |runs| && k <= |tasks|
    ensures ForegroundUpTo(tasks, runs, now, k).failed <==> MisconfiguredBefore(tasks, runs, now, k)
  {
    if k > 0 {
      ForegroundFailsIff(tasks, runs, now, k - 1);
      if MisconfiguredBefore(tasks, runs, now, k) && !MisconfiguredBefore(tasks, runs, now, k - 1) {
        var j :| 0 <= j < k && Ready(tasks[j].interval, runs[j], now) && tasks[j].main.None?;
        assert j == k - 1;
      }
    }
  }

  /** After `k` slots without a throw, each of them holds `now` if it was ready and its old stamp if not. */
  lemma {:induction false} ForegroundStamps(tasks: seq<TaskView>, runs: seq<int>, now: int, k: nat)
    requires |tasks| == |runs| && k <= |tasks|
    requires !ForegroundUpTo(tasks, runs, now, k).failed
    ensures forall j :: 0 <= j < k ==> ForegroundUpTo(tasks, runs, now, k).runs[j]
                                       == if Ready(tasks[j].interval, runs[j], now) then now else runs[j]
  {
    if k > 0 {
      ForegroundStamps(tasks, runs, now, k - 1);
    }
  }

  /** After `k` slots without a throw, the callables run are exactly the ready ones, in order. */
  lemma {:induction false} ForegroundLog(tasks: seq<TaskView>, runs: seq<int>, now: int, k: nat)
    requires |tasks| == |runs| && k <= |tasks|
    requires !ForegroundUpTo(tasks, runs, now, k).failed
    ensures ForegroundUpTo(tasks, runs, now, k).log == Scheduled(tasks[..k], runs[..k], now)
  {
    if k == 0 {
      assert tasks[..0] == [] && runs[..0] == [];
    } else {
      ForegroundLog(tasks, runs, now, k - 1);
      PrefixSnoc(tasks, k);
      PrefixSnoc(runs, k);
      ScheduledAppend(tasks[..k - 1], [tasks[k - 1]], runs[..k - 1], [runs[k - 1]], now);
      assert [tasks[k - 1]][1..] == [] && [runs[k - 1]][1..] == [];
    }
  }

  /**
   * The whole pass: it throws iff a ready task has no main callable;
   * otherwise each stamp is `now` if its task was ready and unchanged if
   * not, and the callables run are exactly the ready ones, in slot order.
   */
  lemma ForegroundPassFacts(tasks: seq<TaskView>, runs: seq<int>, now: int)
    requires |tasks| == |runs|
    ensures var r := ForegroundPass(tasks, runs, now);
      && (r.failed <==> MisconfiguredBefore(tasks, runs, now, |tasks|))
      && (!r.failed ==> forall j :: 0 <= j < |tasks| ==>
            r.runs[j] == if Ready(tasks[j].interval, runs[j], now) then now else runs[j])
      && (!r.failed ==> r.log == Scheduled(tasks, runs, now))
  {
    ForegroundFailsIff(tasks, runs, now, |tasks|);
    if !ForegroundPass(tasks, runs, now).failed {
      ForegroundStamps(tasks, runs, now, |tasks|);
      ForegroundLog(tasks, runs, now, |tasks|);
      assert tasks[..|tasks|] == tasks && runs[..|runs|] == runs;
    }
  }

  /** Every configured task, with its interval within `now` seconds. */
  predicate DueSinceEpoch(tasks: seq<TaskView>, now: int)
  {
    forall j :: 0 <= j < |tasks| ==>
      tasks[j].main.Some? && (tasks[j].interval.Some? ==> tasks[j].interval.value <= now * 1000)
  }

  /** The main callables of all tasks, in slot order. */
  function AllMains(tasks: seq<TaskView>): (log: seq<Effect>)
    requires forall j :: 0 <= j < |tasks| ==> tasks[j].main.Some?
    ensures |log| == |tasks|
    ensures forall j :: 0 <= j < |tasks| ==> log[j] == Invoke(tasks[j].main.value)
  {
    if tasks == [] then [] else [Invoke(tasks[0].main.value)] + AllMains(tasks[1..])
  }

  lemma {:induction false} ScheduledAllDue(tasks: seq<TaskView>, now: int)
    requires DueSinceEpoch(tasks, now)
    ensures Scheduled(tasks, seq(|tasks|, _ => 0), now) == AllMains(tasks)
  {
    if tasks != [] {
      assert seq(|tasks|, _ => 0)[1..] == seq(|tasks| - 1, _ => 0);
      ScheduledAllDue(tasks[1..], now);
    }
  }

  /**
   * Stamps start at 0, so on the first pass at a clock reading of `now`
   * seconds every configured task whose interval is at most `now * 1000`
   * milliseconds runs, in slot order, and every stamp becomes `now`.
   */
  lemma FirstPassRunsEverything(tasks: seq<TaskView>, now: int)
    requires DueSinceEpoch(tasks, now)
    ensures var r := ForegroundPass(tasks, seq(|tasks|, _ => 0), now);
      && !r.failed
      && r.log == AllMains(tasks)
      && forall j :: 0 <= j < |tasks| ==> r.runs[j] == now
  {
    var zeros := seq(|tasks|, _ => 0);
    ForegroundPassFacts(tasks, zeros, now);
    ScheduledAllDue(tasks, now);
  }

  // ---------------------------------------------------------------------------
  // Background tasks

  /** What the operating system answers for one slot: the non-blocking wait and the fork. */
  datatype Probe = Probe(wait: int, fork: ForkResult)

  /** Stamps and PIDs after the pass, effects it produced, and whether it threw. */
  datatype BackgroundResult = BackgroundResult(runs: seq<int>, pids: seq<int>, log: seq<Effect>, failed: bool)

  /** The launch a ready slot performs. */
  function SlotLaunch(pid: int, probe: Probe): Launch
  {
    ExclusiveLaunch(pid, probe.wait, probe.fork)
  }

  /**
   * A ready slot's PID becomes whatever the exclusive launch returns (the
   * same PID when it was skipped) and its stamp becomes `now`; a failed
   * fork throws and ends the pass with that slot unchanged.
   */
  function BackgroundStep(task: TaskView, r: BackgroundResult, j: nat, now: int, probe: Probe): (s: BackgroundResult)
    requires j < |r.runs| && j < |r.pids|
    ensures |s.runs| == |r.runs| && |s.pids| == |r.pids|
    ensures forall i :: 0 <= i < |r.runs| && i < |r.pids| && i != j ==> s.runs[i] == r.runs[i] && s.pids[i] == r.pids[i]
  {
    if r.failed || !Ready(task.interval, r.runs[j], now) then r
    else
      var l := SlotLaunch(r.pids[j], probe);
      if l.ForkFailed? then r.(failed := true)
      else BackgroundResult(r.runs[j := now], r.pids[j := l.pid],
                            r.log + (if l.Forked? then [Fork(l.pid)] else []), false)
  }

  /** A step does not look at the effects produced before it. */
  lemma BackgroundStepLog(task: TaskView, r: BackgroundResult, e: seq<Effect>, j: nat, now: int, probe: Probe)
    requires j < |r.runs| && j < |r.pids|
    ensures var s := BackgroundStep(task, r, j, now, probe);
            BackgroundStep(task, r.(log := e + r.log), j, now, probe) == s.(log := e + s.log)
  {
    assert forall x: seq<Effect> :: e + r.log + x == e + (r.log + x);
  }

  /** The pass over the first `k` slots. */
  function BackgroundUpTo(tasks: seq<TaskView>, runs: seq<int>, pids: seq<int>, now: int,
                          probes: seq<Probe>, k: nat): (r: BackgroundResult)
    requires |tasks| == |runs| == |pids| == |probes| && k <= |tasks|
    ensures |r.runs| == |runs| && |r.pids| == |pids|
    ensures forall j :: k <= j < |runs| ==> r.runs[j] == runs[j] && r.pids[j] == pids[j]
    decreases k
  {
    if k == 0 then BackgroundResult(runs, pids, [], false)
    else BackgroundStep(tasks[k - 1], BackgroundUpTo(tasks, runs, pids, now, probes, k - 1), k - 1, now, probes[k - 1])
  }

  /** After `k` slots, a slot either kept its stamp and PID or was stamped `now`. */
  lemma {:induction false} BackgroundSlotsOnlyMove(tasks: seq<TaskView>, runs: seq<int>, pids: seq<int>, now: int,
                                                   probes: seq<Probe>, k: nat)
    requires |tasks| == |runs| == |pids| == |probes| && k <= |tasks|
    ensures forall j :: 0 <= j < |runs| ==>
      var r := BackgroundUpTo(tasks, runs, pids, now, probes, k);
      (r.runs[j] == runs[j] && r.pids[j] == pids[j]) || r.runs[j] == now
    decreases k
  {
    if k > 0 {
      BackgroundSlotsOnlyMove(tasks, runs, pids, now, probes, k - 1);
    }
  }

  /**
   * The whole background pass: one stamp and one PID per task, and a slot
   * whose stamp did not move to this pass's clock reading kept its PID.
   */
  function BackgroundPass(tasks: seq<TaskView>, runs: seq<int>, pids: seq<int>, now: int,
                          probes: seq<Probe>): (r: BackgroundResult)
    requires |tasks| == |runs| == |pids| == |probes|
    ensures |r.runs| == |runs| && |r.pids| == |pids|
    ensures forall j :: 0 <= j < |runs| ==> (r.runs[j] == runs[j] && r.pids[j] == pids[j]) || r.runs[j] == now
  {
    BackgroundSlotsOnlyMove(tasks, runs, pids, now, probes, |tasks|);
    BackgroundUpTo(tasks, runs, pids, now, probes, |tasks|)
  }

  /** Reference: the children forked for the ready slots, in slot order. */
  function Spawned(tasks: seq<TaskView>, runs: seq<int>, pids: seq<int>, now: int, probes: seq<Probe>): seq<Effect>
    requires |tasks| == |runs| == |pids| == |probes|
  {
    if tasks == [] then []
    else
      (if Ready(tasks[0].interval, runs[0], now) && SlotLaunch(pids[0], probes[0]).Forked?
       then [Fork(probes[0].fork)] else [])
      + Spawned(tasks[1..], runs[1..], pids[1..], now, probes[1..])
  }

  /** Among the first `k` slots, a ready one needed a fork, and the fork failed. */
  predicate ForkFailsBefore(tasks: seq<TaskView>, runs: seq<int>, pids: seq<int>, now: int, probes: seq<Probe>, k: nat)
    requires |tasks| == |runs| == |pids| == |probes| && k <= |tasks|
  {
    exists j :: 0 <= j < k && Ready(tasks[j].interval, runs[j], now)
                && SlotLaunch(pids[j], probes[j]).ForkFailed?
  }

  lemma {:induction false} SpawnedAppend(a: seq<TaskView>, b: seq<TaskView>, ra: seq<int>, rb: seq<int>,
                                         pa: seq<int>, pb: seq<int>, now: int, qa: seq<Probe>, qb: seq<Probe>)
    requires |a| == |ra| == |pa| == |qa| && |b| == |rb| == |pb| == |qb|
    ensures Spawned(a + b, ra + rb, pa + pb, now, qa + qb)
         == Spawned(a, ra, pa, now, qa) + Spawned(b, rb, pb, now, qb)
  {
    if a == [] {
      assert a + b == b && ra + rb == rb && pa + pb == pb && qa + qb == qb;
    } else {
      assert (a + b)[1..] == a[1..] + b && (ra + rb)[1..] == ra[1..] + rb;
      assert (pa + pb)[1..] == pa[1..] + pb && (qa + qb)[1..] == qa[1..] + qb;
      SpawnedAppend(a[1..], b, ra[1..], rb, pa[1..], pb, now, qa[1..], qb);
    }
  }

  /** Once a pass has thrown, the later slots change nothing. */
  lemma {:induction false} BackgroundFailedStays(tasks: seq<TaskView>, runs: seq<int>, pids: seq<int>, now: int,
                                                 probes: seq<Probe>, k: nat, m: nat)
    requires |tasks| == |runs| == |pids| == |probes| && k <= m <= |tasks|
    requires BackgroundUpTo(tasks, runs, pids, now, probes, k).failed
    ensures BackgroundUpTo(tasks, runs, pids, now, probes, m) == BackgroundUpTo(tasks, runs, pids, now, probes, k)
    decreases m
  {
    if m > k {
      BackgroundFailedStays(tasks, runs, pids, now, probes, k, m - 1);
    }
  }

  /** After `k` slots the pass has thrown iff a ready slot's fork failed. */
  lemma {:induction false} BackgroundFailsIff(tasks: seq<TaskView>, runs: seq<int>, pids: seq<int>, now: int,
                                              probes: seq<Probe>, k: nat)
    requires |tasks| == |runs| == |pids| == |probes| && k <= |tasks|
    ensures BackgroundUpTo(tasks, runs, pids, now, probes, k).failed
            <==> ForkFailsBefore(tasks, runs, pids, now, probes, k)
  {
    if k > 0 {
      BackgroundFailsIff(tasks, runs, pids, now, probes, k - 1);
      if ForkFailsBefore(tasks, runs, pids, now, probes, k) && !ForkFailsBefore(tasks, runs, pids, now, probes, k - 1) {
        var j :| 0 <= j < k && Ready(tasks[j].interval, runs[j], now) && SlotLaunch(pids[j], probes[j]).ForkFailed?;
        assert j == k - 1;
      }
    }
  }

  /**
   * After `k` slots without a throw, a ready slot holds the launch's PID and
   * the stamp `now` (also when the launch was skipped), and a slot that was
   * not ready keeps both.
   */
  lemma {:induction false} BackgroundSlots(tasks: seq<TaskView>, runs: seq<int>, pids: seq<int>, now: int,
                                           probes: seq<Probe>, k: nat)
    requires |tasks| == |runs| == |pids| == |probes| && k <= |tasks|
    requires !BackgroundUpTo(tasks, runs, pids, now, probes, k).failed
    ensures !ForkFailsBefore(tasks, runs, pids, now, probes, k)
    ensures var r := BackgroundUpTo(tasks, runs, pids, now, probes, k);
      forall j :: 0 <= j < k ==>
        if Ready(tasks[j].interval, runs[j], now)
        then r.pids[j] == SlotLaunch(pids[j], probes[j]).pid && r.runs[j] == now
        else r.pids[j] == pids[j] && r.runs[j] == runs[j]
  {
    BackgroundFailsIff(tasks, runs, pids, now, probes, k);
    if k > 0 {
      BackgroundSlots(tasks, runs, pids, now, probes, k - 1);
    }
  }

  /** After `k` slots without a throw, the children forked are exactly those of `Spawned`, in order. */
  lemma {:induction false} BackgroundLog(tasks: seq<TaskView>, runs: seq<int>, pids: seq<int>, now: int,
                                         probes: seq<Probe>, k: nat)
    requires |tasks| == |runs| == |pids| == |probes| && k <= |tasks|
    requires !BackgroundUpTo(tasks, runs, pids, now, probes, k).failed
    ensures BackgroundUpTo(tasks, runs, pids, now, probes, k).log
            == Spawned(tasks[..k], runs[..k], pids[..k], now, probes[..k])
  {
    if k == 0 {
      assert tasks[..0] == [] && runs[..0] == [] && pids[..0] == [] && probes[..0] == [];
    } else {
      BackgroundLog(tasks, runs, pids, now, probes, k - 1);
      PrefixSnoc(tasks, k);
      PrefixSnoc(runs, k);
      PrefixSnoc(pids, k);
      PrefixSnoc(probes, k);
      SpawnedAppend(tasks[..k - 1], [tasks[k - 1]], runs[..k - 1], [runs[k - 1]],
                    pids[..k - 1], [pids[k - 1]], now, probes[..k - 1], [probes[k - 1]]);
      SpawnedOne(tasks[k - 1], runs[k - 1], pids[k - 1], now, probes[k - 1]);
    }
  }

  /** The children one slot forks. */
  lemma SpawnedOne(task: TaskView, run: int, pid: int, now: int, probe: Probe)
    ensures Spawned([task], [run], [pid], now, [probe])
            == if Ready(task.interval, run, now) && SlotLaunch(pid, probe).Forked? then [Fork(probe.fork)] else []
  {
    assert [task][1..] == [] && [run][1..] == [] && [pid][1..] == [] && [probe][1..] == [];
  }

  /**
   * The whole pass: it throws iff a ready slot's fork failed; otherwise a
   * ready slot holds the launch's PID and the stamp `now`, a slot that was
   * not ready keeps both, and the children forked are those of `Spawned`.
   */
  lemma BackgroundPassFacts(tasks: seq<TaskView>, runs: seq<int>, pids: seq<int>, now: int, probes: seq<Probe>)
    requires |tasks| == |runs| == |pids| == |probes|
    ensures var r := BackgroundPass(tasks, runs, pids, now, probes);
      && (r.failed <==> ForkFailsBefore(tasks, runs, pids, now, probes, |tasks|))
      && (!r.failed ==> forall j :: 0 <= j < |tasks| ==>
            if Ready(tasks[j].interval, runs[j], now)
            then r.pids[j] == SlotLaunch(pids[j], probes[j]).pid && r.runs[j] == now
            else r.pids[j] == pids[j] && r.runs[j] == runs[j])
      && (!r.failed ==> r.log == Spawned(tasks, runs, pids, now, probes))
  {
    BackgroundFailsIff(tasks, runs, pids, now, probes, |tasks|);
    if !BackgroundPass(tasks, runs, pids, now, probes).failed {
      BackgroundSlots(tasks, runs, pids, now, probes, |tasks|);
      BackgroundLog(tasks, runs, pids, now, probes, |tasks|);
      assert tasks[..|tasks|] == tasks && runs[..|runs|] == runs;
      assert pids[..|pids|] == pids && probes[..|probes|] == probes;
    }
  }

  /**
   * Exclusivity: a slot whose child is still alive (PID > 0, the wait
   * reports nothing) keeps that PID through the pass, and no child is
   * forked for it.
   */
  lemma BackgroundKeepsLiveChild(tasks: seq<TaskView>, runs: seq<int>, pids: seq<int>, now: int,
                                 probes: seq<Probe>, j: nat)
    requires |tasks| == |runs| == |pids| == |probes| && j < |tasks|
    requires pids[j] > 0 && probes[j].wait <= 0
    requires !BackgroundPass(tasks, runs, pids, now, probes).failed
    ensures BackgroundPass(tasks, runs, pids, now, probes).pids[j] == pids[j]
    ensures !SlotLaunch(pids[j], probes[j]).Forked?
  {
    BackgroundPassFacts(tasks, runs, pids, now, probes);
  }

}
