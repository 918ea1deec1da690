/**
 * The daemon's view of the operating system. Nothing here runs a process:
 * the results of `pcntl_fork` and `pcntl_waitpid` are inputs, and every
 * outward action is an `Effect` appended to a log.
 */
module Process {

  import opened Signals
  import opened Tasks

  /** An outward action of the daemon process, in the order it happened. */
  datatype Effect =
    | Kill(pid: int, sig: Signal)  // a signal sent to a child (the source spells the call `postix_kill`)
    | Fork(pid: int)               // a child process was created with this PID
    | Invoke(f: Callable)          // a foreground task's main callable ran in the daemon
    | Sleep(micros: int)           // `usleep(micros)`
    | Unlock                       // the lock file was released
    | Exit(code: int)              // the daemon process ended with this status

  /**
   * What the parent sees from `pcntl_fork`: a negative value when no child
   * could be created, otherwise the child's PID. Zero is what the child sees,
   * and the child's side is not part of this model.
   */
  type ForkResult = r: int | r != 0 witness -1

  /** The outcome of a (possibly skipped) launch of a background task. */
  datatype Launch =
    | Kept(pid: int)    // the prior child is still alive; no fork
    | Forked(pid: int)  // a new child was created
    | ForkFailed        // `pcntl_fork` failed: "Failed to Fork" is thrown

  /** `executeInNewProcess`, seen from the parent. */
  function ExecuteInNewProcess(fork: ForkResult): (r: Launch)
    ensures !r.Kept?
    ensures r.ForkFailed? <==> fork < 0
    ensures r.Forked? ==> r.pid == fork && r.pid > 0
  {
    if fork < 0 then ForkFailed else Forked(fork)
  }

  /**
   * `exclusiveExecuteInNewProcess`: a prior child (PID > 0) that the
   * non-blocking wait does not report as finished (result <= 0) is left
   * running and its PID kept; in every other case one new child is forked.
   */
  function ExclusiveLaunch(prior: int, waitResult: int, fork: ForkResult): (r: Launch)
    ensures r.Kept? <==> prior > 0 && waitResult <= 0
    ensures r.Kept? ==> r.pid == prior
    ensures !r.Kept? ==> r == ExecuteInNewProcess(fork)
  {
    if prior > 0 && waitResult <= 0 then Kept(prior)
    else ExecuteInNewProcess(fork)
  }

  /** The kills `signalBackgroundTasks(sig)` sends: one per stored PID > 0, in slot order. */
  function KillsFor(pids: seq<int>, sig: Signal): (r: seq<Effect>)
    ensures |r| <= |pids|
    ensures forall i :: 0 <= i < |r| ==> r[i].Kill? && r[i].sig == sig && r[i].pid > 0
  {
    if pids == [] then []
    else (if pids[0] > 0 then [Kill(pids[0], sig)] else []) + KillsFor(pids[1..], sig)
  }

  /** Signalling the slots of `a` and then those of `b` is signalling `a + b`. */
  lemma {:induction false} KillsForAppend(a: seq<int>, b: seq<int>, sig: Signal)
    ensures KillsFor(a + b, sig) == KillsFor(a, sig) + KillsFor(b, sig)
  {
    if a == [] {
      assert a + b == b;
    } else {
      assert (a + b)[1..] == a[1..] + b;
      KillsForAppend(a[1..], b, sig);
    }
  }

  /**
   * Every kill carries `sig`, and a PID receives exactly as many kills as
   * slots hold it when it is positive, and none when it is not.
   */
  lemma {:induction false} KillsForExactlyLive(pids: seq<int>, sig: Signal)
    ensures forall e :: multiset(KillsFor(pids, sig))[e] ==
                        (if e.Kill? && e.sig == sig && e.pid > 0 then multiset(pids)[e.pid] else 0)
  {
    if pids != [] {
      KillsForExactlyLive(pids[1..], sig);
      assert pids == [pids[0]] + pids[1..];
      assert multiset(pids) == multiset{pids[0]} + multiset(pids[1..]);
    }
  }

  /** No PID <= 0 is ever signalled, and only `sig` is sent. */
  lemma KillsForOnlyLive(pids: seq<int>, sig: Signal)
    ensures forall e :: e in KillsFor(pids, sig) ==> e.Kill? && e.sig == sig && e.pid > 0 && e.pid in pids
  {
    KillsForExactlyLive(pids, sig);
    forall e | e in KillsFor(pids, sig)
      ensures e.Kill? && e.sig == sig && e.pid > 0 && e.pid in pids
    {
      assert multiset(KillsFor(pids, sig))[e] > 0;
    }
  }

}
