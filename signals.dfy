/**
 * The signals the daemon installs a handler for, and the table that maps each
 * of them to the daemon's own handler (src/Daemon.php, constructor).
 */
module Signals {

  /** Hang-up, interrupt and terminate: the only signals routed to `getSignals`. */
  datatype Signal = SIGHUP | SIGINT | SIGTERM

  /** The two private handler methods of the daemon. */
  datatype Handler =
    | OnSigterm  // `sigterm`: clears the run flag
    | OnSigint   // `sigint`: clears the run flag, then shuts down

  /**
   * The handler table built by the constructor: interrupt goes to `sigint`,
   * hang-up and terminate both go to `sigterm`.
   */
  function HandlerFor(s: Signal): (h: Handler)
    ensures h == OnSigint <==> s == SIGINT
    ensures h == OnSigterm <==> s in {SIGHUP, SIGTERM}
  {
    match s
    case SIGHUP => OnSigterm
    case SIGINT => OnSigint
    case SIGTERM => OnSigterm
  }

}
