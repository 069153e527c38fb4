# Aurelia logging: a verified model of the log manager

The log manager of `aurelia-logging` is a small process-wide state machine:

- a registry of named loggers, one instance per id, created on first request;
- an ordered list of appenders (sinks supplied by the application);
- a level table `none 0 < error 1 < warn 2 < info 3 < debug 4`;
- level methods `debug`, `info`, `warn` and `error` on every logger. A call is
  silent while its gate is below the level's threshold. Otherwise it invokes
  that level's method on every appender, the most recently added first, with
  the logger prepended to the caller's arguments.

The repository ships three generations of this code. Each is modelled as its own
module of Dafny classes, with the module state held in a `LogManager` object:

| module | generation | files |
|---|---|---|
| `AureliaLogging` | newest. Each logger has its own `level`; there is a stored global default, `removeAppender` and `getLevel`. Dispatch is wired onto the shared prototype. | `dist/aurelia-logging.js`, plus its transpiled copies `dist/es2015/aurelia-logging.js`, `dist/commonjs/aurelia-logging.js` and `dist/system/aurelia-logging.js` |
| `AmdLogging` | middle. Each logger has its own `currentLevel`, is always created at `none`, and has methods written per instance. Construction needs a private key. | `dist/amd/aurelia-logging.js` |
| `LegacyLogging` | oldest. One module-wide level gates every logger. Methods are written per instance. Construction needs a private key. | `src/index.js`, `dist/es6/index.js`, `dist/amd/index.js` |
| `AggregateErrors` | `AggregateError` of the oldest generation | `src/index.js`, `dist/es6/index.js` |
| `Logging` | shared by all of them: the level table, argument values, the call trace, the reverse-order fan-out and the identity filter that `removeAppender` uses | all |

Invoking appenders is foreign code. Each level method therefore returns the
**trace** of the calls it would make: a `seq<Call>`, where every call records
the appender, the level and the argument list the appender receives. Fan-out in
every generation is the same `while (i--)` loop. It is written once, as the
method `Logging.Dispatch`, whose loop invariant says that the trace so far is
`FanOut(appenders[i..])`. The lemmas about `FanOut` then show the rest: one call per registered entry, in reverse
registration order (`Reversed` is an independent reference), each call with
`[logger] ++ args`, and no call to an appender that `removeAppender` filtered
out.

The state invariants are `LogManager.Valid()`:

- newest: every registered logger carries its own id, and a non-empty appender
  list implies dispatch is wired;
- middle and oldest: every registered logger is connected exactly when an
  appender exists. This holds because those generations have no way to remove
  an appender.

The copies in the newest generation match `dist/aurelia-logging.js` function by
function:

| function | dist/aurelia-logging.js | dist/es2015 | dist/commonjs | dist/system |
|---|---|---|---|---|
| `logLevel`, module state | 31-41 | 2-12 | 14-24 | 79-91 |
| `appendArgs` | 43-45 | 14-16 | 26-28 | 10-12 |
| `logFactory` | 47-63 | 18-31 | 30-45 | 14-29 |
| `connectLoggers` | 65-71 | 33-39 | 47-53 | 31-37 |
| `getLogger` | 79-81 | 41-43 | 55-57 | 39-41 |
| `addAppender` | 125-129 | 45-49 | 59-63 | 45-49 |
| `removeAppender` | 135-137 | 51-53 | 65-69 | 53-57 |
| `setLevel` | 144-149 | 55-60 | 71-76 | 61-66 |
| `getLevel` | 156-158 | 62-64 | 78-80 | 70-72 |
| `Logger` constructor | 177-186 | 67-76 | 83-94 | 94-105 |
| `Logger.setLevel` | 225-227 | 86-88 | 104-106 | 115-117 |

In the oldest generation, `dist/es6/index.js` repeats `src/index.js` line for
line (`AggregateError` 14-31, `log` 54-65, level methods 67-97, `createLogger`
106-114, `getLogger` 124-126, `addAppender` 135-143, `setLevel` 152-154,
`Logger` 170-177). `dist/amd/index.js` behaves the same way. It keeps the
module-wide level in a variable named `logLevel` (line 7). It exports a
`levels` table without `none` (70-75) instead of `logLevel`, and it has no
`AggregateError`.

## Model

| member | source | states |
|---|---|---|
| `Logging.Gate` | dist/amd/aurelia-logging.js:43-70 | the literal bound in each of the older generations' `debug`/`info`/`warn`/`error` methods (4/3/2/1) is that level's entry in the oldest `levels` table |
| `Logging.Emits` | dist/aurelia-logging.js:48-53 | a call is emitted iff the logger's level is not below `logLevel[level]`; nothing passes at `none` or below, everything at `debug` or above |
| `Logging.Threshold` | dist/aurelia-logging.js:31-37 | the threshold of a level is its entry in the `logLevel` table, strictly above `none` and at most `debug` |
| `Logging.NoneSilencesDebugEnables` | dist/es2015/aurelia-logging.js:2-8 | a logger at `none` emits no level; a logger at `debug` emits every level |
| `Logging.EmitsMonotone` | dist/aurelia-logging.js:48-53 | raising the logger's level, or lowering the call's threshold, never silences a call that was emitted |
| `Logging.LevelMatrix` | test/logging.spec.js:72-146 | stepping the level through debug, info, warn, error, none emits debug once, info twice, warn three times and error four times |
| `Logging.AppendArgs` | dist/commonjs/aurelia-logging.js:26-28 | the argument list an appender receives is the logger followed by the caller's arguments, in order |
| `Logging.Dispatch` | dist/amd/index.js:9-19 | the `while (i--)` loop records exactly `FanOut(appenders, level, args)` |
| `Logging.FanOut` | dist/aurelia-logging.js:57-61 | the fan-out makes exactly as many calls as there are registered entries |
| `Logging.FanOutAt` | dist/es2015/aurelia-logging.js:25-29 | call k goes to `appenders[n-1-k]`, at the called level, with the same argument list |
| `Logging.FanOutRecipients` | dist/system/aurelia-logging.js:21-27 | the recipients in call order are exactly the appender list reversed |
| `Logging.FanOutReaches` | src/index.js:44-55 | an appender receives a call iff it is in the appender list |
| `Logging.Without` | dist/aurelia-logging.js:135-137 | the filtered list holds no occurrence of the removed appender and holds every other registered appender |
| `Logging.WithoutConcat` | dist/system/aurelia-logging.js:53-57 | filtering distributes over concatenation, so the survivors keep their relative order |
| `Logging.WithoutAbsent` | dist/commonjs/aurelia-logging.js:65-69 | removing an appender that is not registered leaves the list unchanged |
| `Logging.WithoutMultiset` | dist/es2015/aurelia-logging.js:51-53 | every other appender keeps its multiplicity; the removed one drops to zero |
| `Logging.RemovedReceivesNothing` | test/logging.spec.js:61-66 | after removal, no fan-out makes a call to the removed appender |
| `Logging.GateIsThreshold` | dist/amd/aurelia-logging.js:43-73 | the literal bounds 4/3/2/1 of the older level methods equal the `logLevel` thresholds of debug/info/warn/error |
| `Logging.LegacyLevelsAgree` | dist/amd/index.js:70-75 | the oldest AMD `levels` table has no `none` entry, and maps error..debug to the same 1..4 |
| `Logging.ScaledWeight` | test/custom-levels.spec.js:5 | a table with every built-in weight multiplied by ten, in which 35 lies between info and debug |
| `Logging.CustomWeightUnreachable` | test/custom-levels.spec.js:115-121 | every value of the shipped table is below 35, so no built-in setting emits a level of weight 35 |
| `Logging.ScaledTableKeepsGating` | test/custom-levels.spec.js:115-129 | with scaled weights, 35 is emitted at debug and not at info, and every built-in gating decision matches the shipped table |
| `AureliaLogging.Logger.constructor` | dist/aurelia-logging.js:184-185 | a new logger has the given id and level |
| `AureliaLogging.Logger.SetLevel` | dist/aurelia-logging.js:225-227 | sets this logger's level; its frame lets it change nothing else, not other loggers nor the global default |
| `AureliaLogging.LogManager.constructor` | dist/aurelia-logging.js:39-41 | the registry and appender list start empty, the default level is `none`, and dispatch is unwired |
| `AureliaLogging.LogManager.Construct` | dist/aurelia-logging.js:177-186 | a registered id gives the cached instance and no change; a new id gives a fresh logger at the global default, registered under its id |
| `AureliaLogging.LogManager.GetLogger` | dist/aurelia-logging.js:79-81 | get-or-create: same instance for a known id; registry gains exactly one entry for a new id, at the global default level |
| `AureliaLogging.LogManager.ConnectLoggers` | dist/aurelia-logging.js:65-71 | dispatch is wired afterwards |
| `AureliaLogging.LogManager.AddAppender` | dist/aurelia-logging.js:125-129 | appends the appender at the end; dispatch is wired afterwards; registry and default level unchanged |
| `AureliaLogging.LogManager.RemoveAppender` | dist/aurelia-logging.js:135-137 | the list becomes `Without(old list, a)`; wiring, registry, logger levels and default unchanged |
| `AureliaLogging.LogManager.SetLevel` | dist/aurelia-logging.js:144-158 | the default becomes the level (so `GetLevel` returns it), and every registered logger's level is overwritten with it |
| `AureliaLogging.LogManager.Emit` | dist/aurelia-logging.js:47-62 | silent while unwired or when `logger.level < threshold`; otherwise exactly `FanOut(appenders, level, [logger] ++ args)`; non-empty iff wired, at or above threshold, and some appender exists |
| `AureliaLogging.UnwiredIsSilent` | dist/aurelia-logging.js:194-218 | while the no-op prototype methods are in place, the appender list is empty, so wired dispatch would also make no call: the no-ops are unobservable |
| `AureliaLogging.SameLoggerScenario` | test/logging.spec.js:4-11 | two requests for one id return the same instance, created at level `none` |
| `AureliaLogging.DefaultLevelScenario` | test/logging.spec.js:239-243 | after a global `setLevel(debug)`, a new logger starts at debug and `getLevel` returns debug |
| `AureliaLogging.GlobalResetScenario` | test/logging.spec.js:227-237 | a global `setLevel(error)` overwrites the loggers' own warn and debug levels |
| `AureliaLogging.RemovedAppenderScenario` | test/logging.spec.js:62-65 | after removing the only appender, a debug call at debug level produces no call |
| `AureliaLogging.DifferentLevelsScenario` | test/logging.spec.js:208-225 | with `test` at error and `test2` at debug, a debug call on `test` is silent and one on `test2` reaches the appender with `[test2, 'foo']` |
| `AureliaLogging.ErrorLevelScenario` | test/logging.spec.js:211-224 | a logger at error drops debug, info and warn, and its error call reaches the appender with `[test, 'foo']` |
| `AureliaLogging.ReverseOrderScenario` | dist/aurelia-logging.js:58-61 | with appenders 1 then 2, the call goes to 2 first and then 1, both with `[logger, 123]` |
| `AmdLogging.Logger.constructor` | dist/amd/aurelia-logging.js:116-122 | a new logger has the given id, `currentLevel` none, and no connected methods |
| `AmdLogging.Logger.Construct` | dist/amd/aurelia-logging.js:113-123 | construction fails, with the source's message, iff the key is not the private construction key |
| `AmdLogging.Logger.Connect` | dist/amd/aurelia-logging.js:75-80 | the logger's level methods are connected afterwards |
| `AmdLogging.Logger.SetLevel` | dist/amd/aurelia-logging.js:133-135 | sets this logger's `currentLevel` only |
| `AmdLogging.LogManager.constructor` | dist/amd/aurelia-logging.js:25-26 | empty registry, empty appender list |
| `AmdLogging.LogManager.CreateLogger` | dist/amd/aurelia-logging.js:82-90 | a fresh logger at `none`, connected iff an appender exists |
| `AmdLogging.LogManager.GetLogger` | dist/amd/aurelia-logging.js:92-94 | get-or-create; a new logger starts at `none` whatever was set globally before |
| `AmdLogging.LogManager.AddAppender` | dist/amd/aurelia-logging.js:96-104 | appends; every registered logger is connected afterwards and keeps its level |
| `AmdLogging.LogManager.SetLevel` | dist/amd/aurelia-logging.js:106-110 | every registered logger's `currentLevel` becomes the level; nothing else changes |
| `AmdLogging.LogManager.Log` | dist/amd/aurelia-logging.js:30-41 | the trace is `FanOut(appenders, level, [logger] ++ args)` |
| `AmdLogging.LogManager.Emit` | dist/amd/aurelia-logging.js:43-73 | silent when unconnected or `currentLevel` below 4/3/2/1; otherwise the full fan-out |
| `AmdLogging.LateLoggerScenario` | dist/amd/aurelia-logging.js:106-116 | a logger created after `setLevel(debug)` is at `none` and logs nothing at debug |
| `AmdLogging.ConnectOnFirstAppenderScenario` | dist/amd/aurelia-logging.js:99-103 | a logger obtained before any appender is silent, then reaches the first appender added |
| `LegacyLogging.Logger.constructor` | src/index.js:170 | a new logger has the given id and no connected methods |
| `LegacyLogging.Logger.Construct` | src/index.js:165-171 | construction fails, with the source's message, iff the key is not the private construction key |
| `LegacyLogging.Logger.Connect` | src/index.js:89-94 | the logger's level methods are connected afterwards |
| `LegacyLogging.LogManager.constructor` | dist/amd/index.js:7 | empty registry and appender list; the module-wide level starts at 0 |
| `LegacyLogging.LogManager.CreateLogger` | src/index.js:96-104 | a fresh logger, connected iff an appender exists |
| `LegacyLogging.LogManager.GetLogger` | src/index.js:113-115 | get-or-create; the module-wide level is untouched |
| `LegacyLogging.LogManager.AddAppender` | src/index.js:130-138 | appends; every registered logger is connected afterwards |
| `LegacyLogging.LogManager.SetLevel` | src/index.js:146-148 | writes the module-wide level only; no logger object is in its frame |
| `LegacyLogging.LogManager.Log` | src/index.js:44-55 | the trace is `FanOut(appenders, level, [logger] ++ args)` |
| `LegacyLogging.LogManager.Emit` | src/index.js:57-87 | silent when unconnected or the module-wide level is below 4/3/2/1; otherwise the full fan-out |
| `LegacyLogging.GatingIgnoresLogger` | dist/es6/index.js:67-97 | for two registered loggers the gate (connected and module-wide level at least 4/3/2/1) is the same; the calls they would emit agree one for one on appender (`appenders[n-1-k]`) and level, and differ only in the logger prepended to the arguments |
| `LegacyLogging.SharedLevelScenario` | dist/amd/index.js:21-51 | at module-wide level error, debug calls are silent on both loggers |
| `LegacyLogging.ForeignConstructionScenario` | dist/amd/index.js:96-99 | construction without the private key fails with the source's message |
| `AggregateErrors.AggregateError` | src/index.js:4-21 | returns the inner error itself when it is already aggregate and skip is set. Otherwise the message starts with the given one and is unchanged iff the inner error has no truthy stack. With a stack, the separator, `inner error: ` and the stack follow. `innerError` is the given inner error |
| `AggregateErrors.InnerErrorIffGiven` | src/index.js:15-18 | the result has an inner error iff one was given |
| `AggregateErrors.SkipIsIdempotent` | dist/es6/index.js:14-18 | wrapping an aggregate again with skip set returns it unchanged |
| `AggregateErrors.MessageSplits` | dist/es6/index.js:20-22 | the aggregate message splits back into the outer message, the separator line with `inner error: `, and the inner stack |

## Findings

| source | as written | input that shows it | evidently intended | confidence | as-written member | corrected member |
|---|---|---|---|---|---|---|
| test/custom-levels.spec.js:5 | the custom level `trace` has weight 35, called "between info and debug", and is expected to emit for a logger at `debug` (:115-121) | logger level `debug` = 4 and weight 35: `4 < 35`, so the call would be silent under the shipped table (dist/aurelia-logging.js:31-37) | built-in weights on a scale where 35 lies between info and debug, such as 0/10/20/30/40 | not executed | `Logging.CustomWeightUnreachable` | `Logging.ScaledTableKeepsGating` |

`ScaledTableKeepsGating` also proves that scaling by ten leaves every built-in
gating decision unchanged. So the rest of the model, which keeps the shipped
numbers, describes the same behaviour under either table.

Other mismatches between the tests and the shipped code, as written:

- `test/logging.spec.js:1` imports `src/index.js`, the oldest generation. The
  tests for per-logger levels (:190-243), `removeAppender` (:61-66) and
  `getLevel` (:172-177) match only the newest generation.
  Per-logger gating cannot hold in the oldest generation: the `ensures` of
  `LegacyLogging.LogManager.Emit` gate every call on the one module-wide
  level, and `LegacyLogging.GatingIgnoresLogger` shows that any two
  registered loggers are then emitted or silenced together.
- `test/logging.spec.js:167-170` uses `Logger` without importing it. The
  expected throw would be a `ReferenceError`, in every generation. In the
  newest generation the constructor does not throw; it returns the cached
  instance (`AureliaLogging.LogManager.Construct`).
- `test/custom-levels.spec.js:90` iterates `LogManager.logLevels`. The export is
  named `logLevel`, so the loop body never runs, and the tests that would refuse
  to remove a built-in level are never defined.
- The tests use `clearAppenders`, `getAppenders`, `isDebugEnabled`,
  `addCustomLevel` and `removeCustomLevel`. No generation shown here defines
  them.

## Left out

- Appender bodies: they are foreign calls. The model records a call trace
  instead of invoking anything. An appender that throws mid fan-out, and so
  stops the remaining calls, is not modelled.
- An appender that lacks the level method being dispatched is not modelled.
  The source calls the method without a check.
- JavaScript mechanics are not modelled:
  - prototype replacement versus per-instance assignment of the level methods,
    which is modelled as the `wired` and `connected` flags;
  - `this` binding, and `arguments`, `apply` and spread;
  - `_classCallCheck` in the AMD build.
- The `loggers[id] ||` truthiness test is a map membership test. The model does
  not cover ids that collide with inherited object properties, such as
  `__proto__`.
- Levels are JavaScript numbers but are modelled as `int`. `NaN`, fractions
  and non-numeric levels are not modelled.
- `for...in` visits integer-like keys first, in ascending numeric order, and
  then the other keys in insertion order; the model's loops visit them in an
  unspecified order. The final state is the same either way, since each
  step writes only its own logger.
- Caller arguments (`message, ...rest`) are one sequence of opaque `Value`s,
  forwarded verbatim.
- The stack that the runtime records for a new `Error` is the `freshStack`
  parameter of `AggregateErrors.AggregateError`. That function takes only
  error values as the inner error, not arbitrary thrown values.
- No generation shown here defines `clearAppenders`, `getAppenders`,
  `isDebugEnabled`, `addCustomLevel` or `removeCustomLevel`. They are described
  only by the tests, so they are not modelled.
- `dist/commonjs/index.js` is not part of this model: it is a re-export loop
  with no behaviour.
- The type declarations (`*.d.ts`) and `build/tasks/build.js`, a file pipeline,
  are not part of this model.
- `AureliaLogging.LogManager.GetLevel` is a plain reader of the stored default.
  Its meaning is stated through `SetLevel`'s and `DefaultLevelScenario`'s
  contracts.
