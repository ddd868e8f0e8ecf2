/**
 * The part of Python's `logging` module that `suppress_logging` touches: loggers
 * looked up by name in the manager's registry, and their `disabled` flag.
 */
module Logging {

  /** How a block of code ends: it returns a value or raises an exception. */
  datatype Outcome<T> = Returned(value: T) | Raised(error: string)

  /** A `logging.Logger`; a fresh one is not disabled. */
  class Logger {
    const name: string
    var disabled: bool

    constructor (name: string)
      ensures this.name == name && !disabled
    {
      this.name := name;
      disabled := false;
    }
  }

  /** The manager's table of loggers, one object per name, as `logging.getLogger` keeps it. */
  class Registry {
    var loggers: map<string, Logger>

    ghost predicate Valid()
      reads this, loggers.Values
    {
      forall n :: n in loggers ==> loggers[n].name == n
    }

    constructor ()
      ensures Valid() && loggers == map[]
    {
      loggers := map[];
    }

    /** `logging.getLogger(name)`: the registered logger, or a new one registered under `name`. */
    method GetLogger(name: string) returns (l: Logger)
      requires Valid()
      modifies this
      ensures Valid()
      ensures name in loggers && l == loggers[name] && l.name == name
      ensures old(name in loggers) ==> loggers == old(loggers) && l.disabled == old(loggers[name].disabled)
      ensures old(name !in loggers) ==> fresh(l) && !l.disabled && loggers == old(loggers)[name := l]
    {
      if name in loggers {
        l := loggers[name];
      } else {
        l := new Logger(name);
        loggers := loggers[name := l];
      }
    }

    /** The `disabled` flag of the logger named `name`; an unregistered name reads as enabled. */
    ghost function DisabledOf(name: string): bool
      reads this, loggers.Values
    {
      name in loggers && loggers[name].disabled
    }

    /**
     * `with suppress_logging(namespace): body`. The body runs with the logger named
     * `namespace` disabled; it sees that flag, may change it, and returns or raises.
     * On either exit the flag is put back to what it was before the block, and the
     * block's outcome is the body's. No other logger is touched.
     */
    method SuppressLogging<T>(namespace: string, body: bool -> (bool, Outcome<T>)) returns (o: Outcome<T>)
      requires Valid()
      modifies this, loggers.Values
      ensures Valid()
      ensures o == body(true).1
      ensures namespace in loggers && loggers.Keys == old(loggers.Keys) + {namespace}
      ensures namespace !in old(loggers) ==> fresh(loggers[namespace])
      ensures forall n :: n in old(loggers) ==> n in loggers && loggers[n] == old(loggers[n])
      ensures forall n :: n in loggers ==> loggers[n].disabled == old(DisabledOf(n))
    {
      var logger := GetLogger(namespace);
      var saved := logger.disabled;
      logger.disabled := true;
      // try: the body runs with the flag set, and may leave it set to anything
      var (after, outcome) := body(logger.disabled);
      logger.disabled := after;
      // finally: restore, whether the body returned or raised
      logger.disabled := saved;
      o := outcome;
    }
  }
}
