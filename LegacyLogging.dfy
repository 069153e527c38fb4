/**
 * The oldest generation of the log manager: one module-wide level gates every
 * logger, loggers carry no level of their own, level methods are written onto
 * each instance once an appender exists, and construction is guarded by a
 * private key. The oldest AMD build names the module-wide level `logLevel`
 * and exports a `levels` table instead of `logLevel`; its behaviour is the same.
 */
module LegacyLogging {
  import opened Logging

  /** The private `loggerConstructionKey`, or any other value a caller passes. */
  datatype Key = ConstructionKey | OtherKey(ref: nat)

  const ConstructionRefused := "You cannot instantiate \"Logger\". Use the \"getLogger\" API instead."

  /** A logger: its id and whether its level methods are connected. */
  class Logger {
    const id: string
    /** Whether `connectLogger` has written the real level methods onto this instance. */
    var connected: bool

    /** Raw allocation, with the prototype's no-op methods. */
    constructor (id: string)
      ensures this.id == id && !connected
    {
      this.id := id;
      connected := false;
    }

    /** `new Logger(id, key)`: throws unless given the private construction key. */
    static method Construct(id: string, key: Key) returns (r: Result<Logger>)
      ensures r.Err? <==> key != ConstructionKey
      ensures r.Err? ==> r.message == ConstructionRefused
      ensures r.Ok? ==> fresh(r.value) && r.value.id == id && !r.value.connected
    {
      if key != ConstructionKey {
        return Err(ConstructionRefused);
      }
      var l := new Logger(id);
      return Ok(l);
    }

    /** `connectLogger(logger)`. */
    method Connect()
      modifies this`connected
      ensures connected
    {
      connected := true;
    }
  }

  /** The module state: registry, appender list and the module-wide level. */
  class LogManager {
    var loggers: map<string, Logger>
    var appenders: seq<AppenderId>
    var currentLevel: int

    /**
     * Every logger is registered under its own id, and is connected exactly when
     * an appender exists (the list only grows in this generation).
     */
    ghost predicate Valid()
      reads this, loggers.Values
    {
      forall id :: id in loggers ==> loggers[id].id == id && loggers[id].connected == (appenders != [])
    }

    /** Module initialisation: the module-wide level starts at `none` (0). */
    constructor ()
      ensures Valid() && loggers == map[] && appenders == []
      ensures currentLevel == LogLevel["none"]
    {
      loggers := map[];
      appenders := [];
      currentLevel := LogLevel["none"];
    }

    /** `createLogger(id)`: a new keyed logger, connected iff an appender exists. */
    method CreateLogger(id: string) returns (l: Logger)
      ensures fresh(l) && l.id == id
      ensures l.connected == (appenders != [])
    {
      var r := Logger.Construct(id, ConstructionKey);
      l := r.value;
      if |appenders| > 0 {
        l.Connect();
      }
    }

    /** `getLogger(id)`: the cached logger, or a new one cached under `id`. */
    method GetLogger(id: string) returns (l: Logger)
      requires Valid()
      modifies this
      ensures Valid()
      ensures l.id == id && id in loggers && loggers[id] == l
      ensures id in old(loggers) ==> l == old(loggers)[id] && loggers == old(loggers)
      ensures id !in old(loggers) ==> fresh(l) && loggers == old(loggers)[id := l]
      ensures appenders == old(appenders) && currentLevel == old(currentLevel)
    {
      if id in loggers {
        return loggers[id];
      }
      l := CreateLogger(id);
      loggers := loggers[id := l];
    }

    /** `addAppender`: appends, and on the first appender connects every registered logger. */
    method AddAppender(a: AppenderId)
      requires Valid()
      modifies this, loggers.Values
      ensures Valid()
      ensures appenders == old(appenders) + [a]
      ensures loggers == old(loggers) && currentLevel == old(currentLevel)
      ensures forall id :: id in loggers ==> loggers[id].connected
    {
      appenders := appenders + [a];
      if |appenders| == 1 {
        var keys := loggers.Keys;
        while keys != {}
          invariant keys <= loggers.Keys
          invariant loggers == old(loggers) && appenders == old(appenders) + [a]
          invariant currentLevel == old(currentLevel)
          invariant forall id :: id in loggers ==> loggers[id].id == id
          invariant forall id :: id in loggers ==> loggers[id].connected == (id !in keys)
          decreases |keys|
        {
          var k :| k in keys;
          loggers[k].Connect();
          keys := keys - {k};
        }
      }
    }

    /** `setLevel`: writes the module-wide level only; no logger is touched. */
    method SetLevel(level: int)
      requires Valid()
      modifies this`currentLevel
      ensures Valid()
      ensures currentLevel == level
    {
      currentLevel := level;
    }

    /** `log(logger, level, args)`: every appender, last-added first, with the logger prepended. */
    method Log(logger: Logger, level: Level, args: seq<Value>) returns (trace: seq<Call<Logger>>)
      ensures trace == FanOut(appenders, level, AppendArgs(logger, args))
    {
      trace := Dispatch(appenders, level, AppendArgs(logger, args));
    }

    /**
     * `logger.debug/info/warn/error(...args)`: a no-op on an unconnected logger
     * and when the module-wide level is below 4/3/2/1; otherwise `log`.
     */
    method Emit(logger: Logger, level: Level, args: seq<Value>) returns (trace: seq<Call<Logger>>)
      ensures trace == if logger.connected && currentLevel >= Gate(level)
                       then FanOut(appenders, level, AppendArgs(logger, args))
                       else []
      ensures trace != [] <==> logger.connected && Emits(currentLevel, level) && appenders != []
    {
      GateIsThreshold(level);
      if !logger.connected || currentLevel < Gate(level) {
        return [];
      }
      trace := Log(logger, level, args);
    }
  }

  /**
   * Gating ignores the logger: what `Emit` returns for two registered loggers
   * is decided by the one module-wide level, so both are silent or both reach
   * every appender, call for call, differing only in the source argument.
   */
  lemma GatingIgnoresLogger(m: LogManager, a: Logger, b: Logger, level: Level, args: seq<Value>)
    requires m.Valid() && a in m.loggers.Values && b in m.loggers.Values
    ensures a.connected == b.connected
    ensures (a.connected && m.currentLevel >= Gate(level)) == (b.connected && m.currentLevel >= Gate(level))
    ensures var ta := if a.connected && m.currentLevel >= Gate(level)
                      then FanOut(m.appenders, level, AppendArgs(a, args)) else [];
            var tb := if b.connected && m.currentLevel >= Gate(level)
                      then FanOut(m.appenders, level, AppendArgs(b, args)) else [];
            && |ta| == |tb|
            && forall k :: 0 <= k < |ta| ==>
                 && ta[k].appender == tb[k].appender == m.appenders[|m.appenders| - 1 - k]
                 && ta[k].level == tb[k].level == level
                 && ta[k].args == AppendArgs(a, args)
                 && tb[k].args == AppendArgs(b, args)
  {
    if a.connected && m.currentLevel >= Gate(level) {
      forall k | 0 <= k < |m.appenders|
        ensures FanOut(m.appenders, level, AppendArgs(a, args))[k] == Call(m.appenders[|m.appenders| - 1 - k], level, AppendArgs(a, args))
        ensures FanOut(m.appenders, level, AppendArgs(b, args))[k] == Call(m.appenders[|m.appenders| - 1 - k], level, AppendArgs(b, args))
      {
        FanOutAt(m.appenders, level, AppendArgs(a, args), k);
        FanOutAt(m.appenders, level, AppendArgs(b, args), k);
      }
    }
  }

  /** Test scenario: a global level of `error` silences debug on every logger alike. */
  method SharedLevelScenario() returns (a: Logger, b: Logger, ta: seq<Call<Logger>>, tb: seq<Call<Logger>>)
    ensures a.id == "a" && b.id == "b"
    ensures ta == [] && tb == []
  {
    var m := new LogManager();
    m.AddAppender(0);
    a := m.GetLogger("a");
    b := m.GetLogger("b");
    m.SetLevel(LogLevel["error"]);
    ta := m.Emit(a, Debug, [Text("foo")]);
    tb := m.Emit(b, Debug, [Text("foo")]);
  }

  /** A caller without the private key cannot construct a logger. */
  method ForeignConstructionScenario() returns (r: Result<Logger>)
    ensures r == Err(ConstructionRefused)
  {
    r := Logger.Construct("test", OtherKey(1));
  }
}
