/**
 * A schedulable unit of work (src/Task.php): up to three stored callables and
 * an interval in milliseconds, configured through chained setters. Properties
 * that were never assigned read as PHP null, modelled as `None`.
 */
module Tasks {

  import opened Wrappers

  /** A user-supplied callable, known to the model only by its identity. */
  datatype Callable = Callable(id: nat)

  /** What `call_user_func` did with a stored property. */
  datatype Invocation =
    | Invoked(f: Callable)  // the stored callable was called
    | Unconfigured          // the property was never set: nothing was called

  /** Calling a stored property: only a callable that was stored can run. */
  function Dispatch(stored: Option<Callable>): (r: Invocation)
    ensures r.Invoked? <==> stored.Some?
    ensures r.Invoked? ==> r.f == stored.value
  {
    match stored
    case None => Unconfigured
    case Some(f) => Invoked(f)
  }

  class Task {
    var start: Option<Callable>
    var main: Option<Callable>
    var stop: Option<Callable>
    var interval: Option<int>

    /** A task with nothing configured. */
    constructor ()
      ensures start == None && main == None && stop == None && interval == None
    {
      start, main, stop, interval := None, None, None, None;
    }

    /** Stores the start callable; returns the task itself for chaining. */
    method SetStart(f: Callable) returns (self: Task)
      modifies this
      ensures self == this
      ensures start == Some(f)
      ensures main == old(main) && stop == old(stop) && interval == old(interval)
    {
      start := Some(f);
      self := this;
    }

    /** Stores the main callable; returns the task itself for chaining. */
    method SetMain(f: Callable) returns (self: Task)
      modifies this
      ensures self == this
      ensures main == Some(f)
      ensures start == old(start) && stop == old(stop) && interval == old(interval)
    {
      main := Some(f);
      self := this;
    }

    /** Stores the stop callable; returns the task itself for chaining. */
    method SetStop(f: Callable) returns (self: Task)
      modifies this
      ensures self == this
      ensures stop == Some(f)
      ensures start == old(start) && main == old(main) && interval == old(interval)
    {
      stop := Some(f);
      self := this;
    }

    /** Stores the interval (milliseconds); returns the task itself for chaining. */
    method SetInterval(ms: int) returns (self: Task)
      modifies this
      ensures self == this
      ensures GetInterval() == Some(ms)
      ensures start == old(start) && main == old(main) && stop == old(stop)
    {
      interval := Some(ms);
      self := this;
    }

    /** The interval last stored by `SetInterval`, or `None` before any. */
    function GetInterval(): (r: Option<int>)
      reads this
      ensures r == interval
    {
      interval
    }

    /** Calls the stored start callable and no other. */
    method RunStart() returns (r: Invocation)
      ensures r == Dispatch(start)
      ensures r.Invoked? ==> r.f == start.value
    {
      r := Dispatch(start);
    }

    /** Calls the stored main callable and no other. */
    method RunMain() returns (r: Invocation)
      ensures r == Dispatch(main)
      ensures r.Invoked? ==> r.f == main.value
    {
      r := Dispatch(main);
    }

    /** Calls the stored stop callable and no other. */
    method RunStop() returns (r: Invocation)
      ensures r == Dispatch(stop)
      ensures r.Invoked? ==> r.f == stop.value
    {
      r := Dispatch(stop);
    }
  }

  /**
   * A chained configuration as a caller writes it: the object that comes back
   * from each setter is the task itself, and of two intervals the last wins.
   */
  method ConfigureChained(t: Task, f: Callable, first: int, last: int)
    modifies t
    ensures t.main == Some(f) && t.GetInterval() == Some(last)
    ensures t.start == old(t.start) && t.stop == old(t.stop)
  {
    var a := t.SetMain(f);
    var b := a.SetInterval(first);
    var c := b.SetInterval(last);
    assert c == t;
  }

}
