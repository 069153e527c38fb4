/**
 * The newest generation of the log manager: a per-logger `level`, a stored
 * global default, `removeAppender`, `getLevel`, and level methods that are
 * no-ops until the first appender wires real dispatch onto the shared
 * logger prototype.
 */
module AureliaLogging {
  import opened Logging

  /** A logger: an immutable id and a mutable severity level. */
  class Logger {
    const id: string
    var level: int

    /** Raw allocation; registration is done by `LogManager.Construct`. */
    constructor (id: string, level: int)
      ensures this.id == id && this.level == level
    {
      this.id := id;
      this.level := level;
    }

    /** `Logger.setLevel`: changes this logger's level and nothing else. */
    method SetLevel(level: int)
      modifies this`level
      ensures this.level == level
    {
      this.level := level;
    }
  }

  /** The module state: registry, appender list, global default, prototype wiring. */
  class LogManager {
    var loggers: map<string, Logger>
    var appenders: seq<AppenderId>
    var globalDefaultLevel: int
    /** Whether `connectLoggers` has replaced the prototype's no-op level methods. */
    var wired: bool

    /** Every logger is registered under its own id; a non-empty appender list is wired. */
    ghost predicate Valid()
      reads this
    {
      && (forall id :: id in loggers ==> loggers[id].id == id)
      && (appenders != [] ==> wired)
    }

    /** Module initialisation: empty registry, no appenders, default level `none`. */
    constructor ()
      ensures Valid()
      ensures loggers == map[] && appenders == [] && !wired
      ensures globalDefaultLevel == LogLevel["none"]
    {
      loggers := map[];
      appenders := [];
      globalDefaultLevel := LogLevel["none"];
      wired := false;
    }

    /**
     * `new Logger(id)`: the cached instance when the id is registered, otherwise
     * a fresh logger at the current global default, registered under its id.
     */
    method Construct(id: string) returns (l: Logger)
      requires Valid()
      modifies this
      ensures Valid()
      ensures l.id == id
      ensures id in old(loggers) ==> l == old(loggers)[id] && loggers == old(loggers)
      ensures id !in old(loggers) ==> fresh(l) && l.level == globalDefaultLevel
                                      && loggers == old(loggers)[id := l]
      ensures appenders == old(appenders) && wired == old(wired)
      ensures globalDefaultLevel == old(globalDefaultLevel)
    {
      if id in loggers {
        return loggers[id];
      }
      l := new Logger(id, globalDefaultLevel);
      loggers := loggers[id := l];
    }

    /** `getLogger(id)`: `loggers[id] || new Logger(id)`. */
    method GetLogger(id: string) returns (l: Logger)
      requires Valid()
      modifies this
      ensures Valid()
      ensures l.id == id && id in loggers && loggers[id] == l
      ensures id in old(loggers) ==> l == old(loggers)[id] && loggers == old(loggers)
      ensures id !in old(loggers) ==> fresh(l) && l.level == globalDefaultLevel
                                      && loggers == old(loggers)[id := l]
      ensures appenders == old(appenders) && wired == old(wired)
      ensures globalDefaultLevel == old(globalDefaultLevel)
    {
      if id in loggers {
        l := loggers[id];
      } else {
        l := Construct(id);
      }
    }

    /** `connectLoggers`: installs the real level methods on the prototype. */
    method ConnectLoggers()
      modifies this`wired
      ensures wired
    {
      wired := true;
    }

    /** `addAppender`: appends, and wires dispatch when the list reaches length one. */
    method AddAppender(a: AppenderId)
      requires Valid()
      modifies this
      ensures Valid()
      ensures appenders == old(appenders) + [a]
      ensures wired
      ensures loggers == old(loggers) && globalDefaultLevel == old(globalDefaultLevel)
    {
      appenders := appenders + [a];
      if |appenders| == 1 {
        ConnectLoggers();
      }
    }

    /** `removeAppender`: drops every identical entry; wiring, levels and registry stay. */
    method RemoveAppender(a: AppenderId)
      requires Valid()
      modifies this
      ensures Valid()
      ensures appenders == Without(old(appenders), a)
      ensures wired == old(wired) && loggers == old(loggers)
      ensures globalDefaultLevel == old(globalDefaultLevel)
    {
      appenders := Without(appenders, a);
    }

    /**
     * Global `setLevel`: stores the new default and overwrites the level of every
     * registered logger, discarding per-logger overrides.
     */
    method SetLevel(level: int)
      requires Valid()
      modifies this, loggers.Values
      ensures Valid()
      ensures globalDefaultLevel == level && GetLevel() == level
      ensures forall id :: id in loggers ==> loggers[id].level == level
      ensures loggers == old(loggers) && appenders == old(appenders) && wired == old(wired)
    {
      globalDefaultLevel := level;
      var keys := loggers.Keys;
      while keys != {}
        invariant keys <= loggers.Keys
        invariant loggers == old(loggers) && appenders == old(appenders) && wired == old(wired)
        invariant globalDefaultLevel == level
        invariant forall id :: id in loggers.Keys - keys ==> loggers[id].level == level
        decreases |keys|
      {
        var k :| k in keys;
        loggers[k].SetLevel(level);
        keys := keys - {k};
      }
    }

    /** `getLevel`: the stored global default, whatever individual loggers were set to. */
    function GetLevel(): int
      reads this
    {
      globalDefaultLevel
    }

    /**
     * `logger.<level>(...args)`: a no-op on the unwired prototype and below the
     * threshold; otherwise one call per appender, last-registered first, each
     * with the logger prepended to the arguments.
     */
    method Emit(logger: Logger, level: Level, args: seq<Value>) returns (trace: seq<Call<Logger>>)
      ensures trace == if wired && Emits(logger.level, level)
                       then FanOut(appenders, level, AppendArgs(logger, args))
                       else []
      ensures trace != [] <==> wired && logger.level >= Threshold(level) && appenders != []
    {
      trace := [];
      if !wired {
        return;
      }
      var threshold := LogLevel[Name(level)];
      if logger.level < threshold {
        return;
      }
      trace := Dispatch(appenders, level, AppendArgs(logger, args));
    }
  }

  /**
   * While dispatch is unwired the appender list is empty, so the no-op
   * prototype methods return exactly what wired dispatch would: no call.
   */
  lemma UnwiredIsSilent(m: LogManager, logger: Logger, level: Level, args: seq<Value>)
    requires m.Valid() && !m.wired
    ensures m.appenders == []
    ensures FanOut(m.appenders, level, AppendArgs(logger, args)) == []
  {
  }

  /** Test scenario: two loggers gated by their own levels, whatever other loggers are set to. */
  method DifferentLevelsScenario() returns (a: Logger, b: Logger, ta: seq<Call<Logger>>, tb: seq<Call<Logger>>)
    ensures a.id == "test" && b.id == "test2" && a != b
    ensures ta == []
    ensures tb == [Call(0, Debug, [Source(b), Datum(Text("foo"))])]
  {
    var m := new LogManager();
    m.AddAppender(0);
    a := m.GetLogger("test");
    b := m.GetLogger("test2");
    a.SetLevel(LogLevel["error"]);
    b.SetLevel(LogLevel["debug"]);
    ta := m.Emit(a, Debug, [Text("foo")]);
    tb := m.Emit(b, Debug, [Text("foo")]);
    assert AppendArgs(b, [Text("foo")]) == [Source(b), Datum(Text("foo"))];
    assert [0][1..] == [];
  }

  /** Test scenario: a logger at `error` drops debug, info and warn and emits error. */
  method ErrorLevelScenario() returns (logger: Logger, silent: seq<Call<Logger>>, trace: seq<Call<Logger>>)
    ensures silent == []
    ensures trace == [Call(0, Error, [Source(logger), Datum(Text("foo"))])]
  {
    var m := new LogManager();
    m.AddAppender(0);
    logger := m.GetLogger("test");
    logger.SetLevel(LogLevel["error"]);
    var t1 := m.Emit(logger, Debug, [Text("foo")]);
    var t2 := m.Emit(logger, Info, [Text("foo")]);
    var t3 := m.Emit(logger, Warn, [Text("foo")]);
    silent := t1 + t2 + t3;
    trace := m.Emit(logger, Error, [Text("foo")]);
    assert AppendArgs(logger, [Text("foo")]) == [Source(logger), Datum(Text("foo"))];
    assert [0][1..] == [];
  }

  /** Test scenario: the same id twice yields the same logger, created at level `none`. */
  method SameLoggerScenario() returns (x: Logger, y: Logger)
    ensures x == y && x.id == "test"
    ensures x.level == LogLevel["none"]
  {
    var m := new LogManager();
    x := m.GetLogger("test");
    y := m.GetLogger("test");
  }

  /** Test scenario: a logger created after a global `setLevel` starts at that level. */
  method DefaultLevelScenario() returns (early: Logger, late: Logger, level: int)
    ensures early.level == LogLevel["debug"] && late.level == LogLevel["debug"]
    ensures level == LogLevel["debug"]
  {
    var m := new LogManager();
    early := m.GetLogger("test");
    m.SetLevel(LogLevel["debug"]);
    late := m.GetLogger("test2");
    level := m.GetLevel();
  }

  /** Test scenario: a global `setLevel` discards both loggers' own levels. */
  method GlobalResetScenario() returns (a: Logger, b: Logger)
    ensures a.level == LogLevel["error"] && b.level == LogLevel["error"]
  {
    var m := new LogManager();
    a := m.GetLogger("test");
    b := m.GetLogger("test2");
    a.SetLevel(LogLevel["warn"]);
    b.SetLevel(LogLevel["debug"]);
    assert m.loggers["test"] == a && m.loggers["test2"] == b;
    m.SetLevel(LogLevel["error"]);
  }

  /** Test scenario: after `removeAppender` the removed appender sees no call. */
  method RemovedAppenderScenario() returns (trace: seq<Call<Logger>>)
    ensures trace == []
  {
    var m := new LogManager();
    m.AddAppender(7);
    var logger := m.GetLogger("test");
    m.SetLevel(LogLevel["debug"]);
    m.RemoveAppender(7);
    trace := m.Emit(logger, Debug, [Text("foo")]);
  }

  /** Two appenders: the one added last is called first, both with the same arguments. */
  method ReverseOrderScenario() returns (logger: Logger, trace: seq<Call<Logger>>)
    ensures trace == [Call(2, Info, [Source(logger), Datum(Number(123))]),
                      Call(1, Info, [Source(logger), Datum(Number(123))])]
  {
    var m := new LogManager();
    m.AddAppender(1);
    m.AddAppender(2);
    logger := m.GetLogger("test");
    m.SetLevel(LogLevel["info"]);
    trace := m.Emit(logger, Info, [Number(123)]);
    assert AppendArgs(logger, [Number(123)]) == [Source(logger), Datum(Number(123))];
    assert [1, 2][1..] == [2];
    assert [2][1..] == [];
  }
}
