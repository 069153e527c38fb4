/**
 * The middle generation of the log manager (the AMD build): each logger has
 * its own `currentLevel`, always created at `none` because no global default
 * is stored; level methods are written onto each logger instance once an
 * appender exists; construction is guarded by a private key.
 */
module AmdLogging {
  import opened Logging

  /** The private `loggerConstructionKey`, or any other value a caller passes. */
  datatype Key = ConstructionKey | OtherKey(ref: nat)

  const ConstructionRefused := "Cannot instantiate \"Logger\". Use \"getLogger\" instead."

  /** A logger: its id, its own level, and whether its level methods are connected. */
  class Logger {
    const id: string
    var currentLevel: int
    /** Whether `connectLogger` has written the real level methods onto this instance. */
    var connected: bool

    /** Raw allocation at level `none`, with the prototype's no-op methods. */
    constructor (id: string)
      ensures this.id == id && currentLevel == LogLevel["none"] && !connected
    {
      this.id := id;
      currentLevel := LogLevel["none"];
      connected := false;
    }

    /** `new Logger(id, key)`: throws unless given the private construction key. */
    static method Construct(id: string, key: Key) returns (r: Result<Logger>)
      ensures r.Err? <==> key != ConstructionKey
      ensures r.Err? ==> r.message == ConstructionRefused
      ensures r.Ok? ==> fresh(r.value) && r.value.id == id
                        && r.value.currentLevel == LogLevel["none"] && !r.value.connected
    {
      var l := new Logger(id);
      if key != ConstructionKey {
        return Err(ConstructionRefused);
      }
      return Ok(l);
    }

    /** `connectLogger(logger)`. */
    method Connect()
      modifies this`connected
      ensures connected
    {
      connected := true;
    }

    /** `Logger.prototype.setLevel`. */
    method SetLevel(level: int)
      modifies this`currentLevel
      ensures currentLevel == level
    {
      currentLevel := level;
    }
  }

  /** The module state: registry and appender list (no stored default level). */
  class LogManager {
    var loggers: map<string, Logger>
    var appenders: seq<AppenderId>

    /**
     * Every logger is registered under its own id, and is connected exactly when
     * an appender exists (the list only grows in this generation).
     */
    ghost predicate Valid()
      reads this, loggers.Values
    {
      forall id :: id in loggers ==> loggers[id].id == id && loggers[id].connected == (appenders != [])
    }

    constructor ()
      ensures Valid() && loggers == map[] && appenders == []
    {
      loggers := map[];
      appenders := [];
    }

    /** `createLogger(id)`: a new keyed logger, connected iff an appender exists. */
    method CreateLogger(id: string) returns (l: Logger)
      ensures fresh(l) && l.id == id && l.currentLevel == LogLevel["none"]
      ensures l.connected == (appenders != [])
    {
      var r := Logger.Construct(id, ConstructionKey);
      l := r.value;
      if |appenders| > 0 {
        l.Connect();
      }
    }

    /** `getLogger(id)`: the cached logger, or a new one cached under `id`. */
    method GetLogger(id: string) returns (l: Logger)
      requires Valid()
      modifies this
      ensures Valid()
      ensures l.id == id && id in loggers && loggers[id] == l
      ensures id in old(loggers) ==> l == old(loggers)[id] && loggers == old(loggers)
      ensures id !in old(loggers) ==> fresh(l) && l.currentLevel == LogLevel["none"]
                                      && loggers == old(loggers)[id := l]
      ensures appenders == old(appenders)
    {
      if id in loggers {
        return loggers[id];
      }
      l := CreateLogger(id);
      loggers := loggers[id := l];
    }

    /** `addAppender`: appends, and on the first appender connects every registered logger. */
    method AddAppender(a: AppenderId)
      requires Valid()
      modifies this, loggers.Values
      ensures Valid()
      ensures appenders == old(appenders) + [a] && loggers == old(loggers)
      ensures forall id :: id in loggers ==> loggers[id].connected
      ensures forall id :: id in loggers ==> loggers[id].currentLevel == old(loggers[id].currentLevel)
    {
      appenders := appenders + [a];
      if |appenders| == 1 {
        var keys := loggers.Keys;
        while keys != {}
          invariant keys <= loggers.Keys
          invariant loggers == old(loggers) && appenders == old(appenders) + [a]
          invariant forall id :: id in loggers ==> loggers[id].id == id
          invariant forall id :: id in loggers ==> loggers[id].connected == (id !in keys)
          invariant forall id :: id in loggers ==> loggers[id].currentLevel == old(loggers[id].currentLevel)
          decreases |keys|
        {
          var k :| k in keys;
          loggers[k].Connect();
          keys := keys - {k};
        }
      }
    }

    /** Global `setLevel`: writes `currentLevel` of every registered logger and nothing else. */
    method SetLevel(level: int)
      requires Valid()
      modifies loggers.Values
      ensures Valid()
      ensures forall id :: id in loggers ==> loggers[id].currentLevel == level
      ensures forall id :: id in loggers ==> loggers[id].connected == old(loggers[id].connected)
    {
      var keys := loggers.Keys;
      while keys != {}
        invariant keys <= loggers.Keys
        invariant forall id :: id in loggers ==> loggers[id].connected == old(loggers[id].connected)
        invariant forall id :: id in loggers.Keys - keys ==> loggers[id].currentLevel == level
        decreases |keys|
      {
        var k :| k in keys;
        loggers[k].SetLevel(level);
        keys := keys - {k};
      }
    }

    /** `log(logger, level, args)`: every appender, last-added first, with the logger prepended. */
    method Log(logger: Logger, level: Level, args: seq<Value>) returns (trace: seq<Call<Logger>>)
      ensures trace == FanOut(appenders, level, AppendArgs(logger, args))
    {
      trace := Dispatch(appenders, level, AppendArgs(logger, args));
    }

    /**
     * `logger.debug/info/warn/error(...args)`: a no-op on an unconnected logger
     * and when `currentLevel` is below 4/3/2/1; otherwise `log`.
     */
    method Emit(logger: Logger, level: Level, args: seq<Value>) returns (trace: seq<Call<Logger>>)
      ensures trace == if logger.connected && logger.currentLevel >= Gate(level)
                       then FanOut(appenders, level, AppendArgs(logger, args))
                       else []
      ensures trace != [] <==> logger.connected && Emits(logger.currentLevel, level) && appenders != []
    {
      GateIsThreshold(level);
      if !logger.connected || logger.currentLevel < Gate(level) {
        return [];
      }
      trace := Log(logger, level, args);
    }
  }

  /** Test scenario: a global `setLevel` is not remembered for loggers created later. */
  method LateLoggerScenario() returns (early: Logger, late: Logger, trace: seq<Call<Logger>>)
    ensures early.currentLevel == LogLevel["debug"] && late.currentLevel == LogLevel["none"]
    ensures trace == []
  {
    var m := new LogManager();
    m.AddAppender(0);
    early := m.GetLogger("test");
    m.SetLevel(LogLevel["debug"]);
    late := m.GetLogger("test2");
    trace := m.Emit(late, Debug, [Text("foo")]);
  }

  /** Test scenario: a logger obtained before any appender is connected by the first one. */
  method ConnectOnFirstAppenderScenario() returns (logger: Logger, before: seq<Call<Logger>>, after: seq<Call<Logger>>)
    ensures before == []
    ensures after == [Call(5, Error, [Source(logger), Datum(Text("boom"))])]
  {
    var m := new LogManager();
    logger := m.GetLogger("test");
    m.SetLevel(LogLevel["error"]);
    before := m.Emit(logger, Error, [Text("boom")]);
    m.AddAppender(5);
    after := m.Emit(logger, Error, [Text("boom")]);
    assert AppendArgs(logger, [Text("boom")]) == [Source(logger), Datum(Text("boom"))];
    assert [5][1..] == [];
  }
}
