/**
 * Draining the queue of received signals (`processSignals` after the
 * delivery step): entries are taken in arrival order; each is first sent on
 * to every live background child, then handed to its handler. The `sigint`
 * handler shuts the daemon down and exits, which abandons the rest of the
 * queue.
 */
module SignalQueue {

  import opened Signals
  import opened Process
  import opened Sequences

  /** What the shutdown routine `last` does: terminate every live child, release the lock, exit 0. */
  function ShutdownEffects(pids: seq<int>): seq<Effect>
  {
    KillsFor(pids, SIGTERM) + [Unlock, Exit(0)]
  }

  /** Effects of the drain, whether it ended in exit, and the entries left queued. */
  datatype DrainResult = DrainResult(effects: seq<Effect>, exited: bool, remaining: seq<Signal>)

  /**
   * The drain of `queue`: a drain that does not exit empties the queue, and
   * one that exits has consumed at least the interrupt.
   */
  function Drain(queue: seq<Signal>, pids: seq<int>): (r: DrainResult)
    ensures !r.exited ==> r.remaining == []
    ensures r.exited ==> |r.remaining| < |queue|
  {
    if queue == [] then DrainResult([], false, [])
    else
      var propagated := KillsFor(pids, queue[0]);
      match HandlerFor(queue[0])
      case OnSigterm =>
        var rest := Drain(queue[1..], pids);
        rest.(effects := propagated + rest.effects)
      case OnSigint =>
        DrainResult(propagated + ShutdownEffects(pids), true, queue[1..])
  }

  /** One entry of the drain: an interrupt ends it, any other entry lets it go on. */
  lemma DrainStep(queue: seq<Signal>, pids: seq<int>)
    requires queue != []
    ensures queue[0] == SIGINT ==>
      Drain(queue, pids) == DrainResult(KillsFor(pids, SIGINT) + ShutdownEffects(pids), true, queue[1..])
    ensures queue[0] != SIGINT ==>
      Drain(queue, pids) == Drain(queue[1..], pids).(effects := KillsFor(pids, queue[0]) + Drain(queue[1..], pids).effects)
  {
  }

  /**
   * The drain exits iff an interrupt is queued; then exactly the entries
   * after the first interrupt stay queued. Otherwise the queue ends empty.
   */
  lemma {:induction false} DrainEmptiesUnlessInterrupted(queue: seq<Signal>, pids: seq<int>)
    ensures Drain(queue, pids).exited <==> SIGINT in queue
    ensures !Drain(queue, pids).exited ==> Drain(queue, pids).remaining == []
    ensures Drain(queue, pids).exited ==>
      exists i :: 0 <= i < |queue| && queue[i] == SIGINT && SIGINT !in queue[..i]
                  && Drain(queue, pids).remaining == queue[i + 1..]
  {
    if queue != [] {
      DrainEmptiesUnlessInterrupted(queue[1..], pids);
      DrainStep(queue, pids);
      assert SIGINT in queue <==> queue[0] == SIGINT || SIGINT in queue[1..];
      if queue[0] == SIGINT {
        assert queue[..0] == [];
      } else if Drain(queue, pids).exited {
        var i :| 0 <= i < |queue[1..]| && queue[1..][i] == SIGINT && SIGINT !in queue[1..][..i]
                 && Drain(queue[1..], pids).remaining == queue[1..][i + 1..];
        assert queue[..i + 1] == [queue[0]] + queue[1..][..i];
        assert queue[i + 2..] == queue[1..][i + 1..];
      }
    }
  }

  /**
   * Arrival order: when the earlier entries hold no interrupt, draining
   * them and then the later ones is draining the whole queue.
   */
  lemma {:induction false} DrainAppend(a: seq<Signal>, b: seq<Signal>, pids: seq<int>)
    requires SIGINT !in a
    ensures Drain(a + b, pids) == Drain(b, pids).(effects := Drain(a, pids).effects + Drain(b, pids).effects)
  {
    if a == [] {
      assert a + b == b;
    } else {
      assert (a + b)[0] == a[0] && (a + b)[1..] == a[1..] + b;
      DrainAppend(a[1..], b, pids);
      DrainStep(a + b, pids);
      DrainStep(a, pids);
      AppendAssoc(KillsFor(pids, a[0]), Drain(a[1..], pids).effects, Drain(b, pids).effects);
    }
  }

  /** `s` ends with `tail`. */
  predicate EndsWith<T(==)>(s: seq<T>, tail: seq<T>)
  {
    |s| >= |tail| && s[|s| - |tail|..] == tail
  }

  lemma EndsWithSelf<T>(prefix: seq<T>, tail: seq<T>)
    ensures EndsWith(prefix + tail, tail)
  {
    assert (prefix + tail)[|prefix + tail| - |tail|..] == tail;
  }

  lemma EndsWithExtend<T>(prefix: seq<T>, s: seq<T>, tail: seq<T>)
    requires EndsWith(s, tail)
    ensures EndsWith(prefix + s, tail)
  {
    assert (prefix + s)[|prefix + s| - |tail|..] == s[|s| - |tail|..];
  }

  lemma EndsWithShorter<T>(s: seq<T>, a: seq<T>, b: seq<T>)
    requires EndsWith(s, a + b)
    ensures EndsWith(s, b)
  {
    assert s[|s| - |b|..] == s[|s| - |a + b|..][|a|..];
  }

  /**
   * An interrupt entry is first propagated to the live children, then the
   * shutdown sends them terminate, releases the lock and exits: the drain
   * ends with exactly these effects.
   */
  lemma {:induction false} InterruptShutdownOrder(queue: seq<Signal>, pids: seq<int>)
    requires SIGINT in queue
    ensures EndsWith(Drain(queue, pids).effects, KillsFor(pids, SIGINT) + ShutdownEffects(pids))
  {
    var tail := KillsFor(pids, SIGINT) + ShutdownEffects(pids);
    if queue[0] == SIGINT {
      EndsWithSelf([], tail);
      assert [] + tail == tail;
    } else {
      assert SIGINT in queue[1..];
      InterruptShutdownOrder(queue[1..], pids);
      EndsWithExtend(KillsFor(pids, queue[0]), Drain(queue[1..], pids).effects, tail);
    }
  }

}
