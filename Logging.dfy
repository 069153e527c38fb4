/**
 * Shared vocabulary of every generation of the log manager: the level table,
 * the values a log call carries, the call trace that stands for invoking the
 * appenders, the reverse-order fan-out and the reference-equality filter that
 * removes an appender.
 */
module Logging {

  /** A fallible result, used where the source throws. */
  datatype Result<T> = Ok(value: T) | Err(message: string)

  /** The levels that have a logger method (`none` has none). */
  datatype Level = Error | Warn | Info | Debug

  /** The name under which a level appears in the level table and on appenders. */
  function Name(l: Level): string
  {
    match l
    case Error => "error"
    case Warn => "warn"
    case Info => "info"
    case Debug => "debug"
  }

  /** The exported `logLevel` table. */
  const LogLevel: map<string, int> :=
    map["none" := 0, "error" := 1, "warn" := 2, "info" := 3, "debug" := 4]

  /** The `levels` table exported by the oldest AMD build: no `none` entry. */
  const LegacyLevels: map<string, int> :=
    map["error" := 1, "warn" := 2, "info" := 3, "debug" := 4]

  /** The threshold a level method looks up in the table (`logLevel[level]`). */
  function Threshold(l: Level): (w: int)
    ensures Name(l) in LogLevel && w == LogLevel[Name(l)]
    ensures LogLevel["none"] < w <= LogLevel["debug"]
  {
    LogLevel[Name(l)]
  }

  /** The literal bounds written into the older generations' level methods. */
  function Gate(l: Level): (g: int)
    ensures Name(l) in LegacyLevels && g == LegacyLevels[Name(l)]
  {
    match l
    case Debug => 4
    case Info => 3
    case Warn => 2
    case Error => 1
  }

  /** Gating rule shared by all generations: a call is emitted unless `level < threshold`. */
  predicate Emits(loggerLevel: int, l: Level): (r: bool)
    ensures r <==> Name(l) in LogLevel && !(loggerLevel < LogLevel[Name(l)])
    ensures r ==> loggerLevel > LogLevel["none"]
    ensures loggerLevel >= LogLevel["debug"] ==> r
  {
    !(loggerLevel < Threshold(l))
  }

  /** An argument value the caller passes; it is forwarded verbatim. */
  datatype Value = Text(text: string) | Number(n: int) | Object(ref: nat)

  /** An argument as an appender receives it: the source logger or a forwarded value. */
  datatype Arg<L> = Source(logger: L) | Datum(value: Value)

  /** Appenders are opaque objects compared by identity. */
  type AppenderId = nat

  /** One invocation `appender[level](...args)`. */
  datatype Call<L> = Call(appender: AppenderId, level: Level, args: seq<Arg<L>>)

  /** `appendArgs`: the logger followed by the caller's arguments. */
  function AppendArgs<L>(logger: L, args: seq<Value>): (r: seq<Arg<L>>)
    ensures |r| == |args| + 1 && r[0] == Source(logger)
    ensures forall i :: 0 <= i < |args| ==> r[i + 1] == Datum(args[i])
  {
    [Source(logger)] + seq(|args|, i requires 0 <= i < |args| => Datum(args[i]))
  }

  /**
   * The calls made by `while (i--) appenders[i][level](...args)`: the calls for
   * `apps[1..]` (made first, from the end) followed by the call for `apps[0]`.
   */
  function FanOut<L>(apps: seq<AppenderId>, level: Level, args: seq<Arg<L>>): (r: seq<Call<L>>)
    ensures |r| == |apps|
  {
    if apps == [] then [] else FanOut(apps[1..], level, args) + [Call(apps[0], level, args)]
  }

  /**
   * The `while (i--)` loop every generation runs: walks the appender list from
   * the end, recording one call per entry with the prepared argument list.
   */
  method Dispatch<L>(apps: seq<AppenderId>, level: Level, args: seq<Arg<L>>) returns (trace: seq<Call<L>>)
    ensures trace == FanOut(apps, level, args)
  {
    var i := |apps|;
    trace := [];
    while i > 0
      invariant 0 <= i <= |apps|
      invariant trace == FanOut(apps[i..], level, args)
      decreases i
    {
      i := i - 1;
      assert apps[i..][1..] == apps[i + 1..];
      trace := trace + [Call(apps[i], level, args)];
    }
    assert apps[0..] == apps;
  }

  /** Independent reference: the sequence read back to front. */
  function Reversed<T>(s: seq<T>): (r: seq<T>)
    ensures |r| == |s|
  {
    if s == [] then [] else [s[|s| - 1]] + Reversed(s[..|s| - 1])
  }

  lemma {:induction false} ReversedAt<T>(s: seq<T>, k: nat)
    requires k < |s|
    ensures Reversed(s)[k] == s[|s| - 1 - k]
  {
    if k > 0 {
      ReversedAt(s[..|s| - 1], k - 1);
    }
  }

  /**
   * Fan-out makes exactly one call per registered entry, last-registered first,
   * each at the given level and with the same argument list.
   */
  lemma {:induction false} FanOutAt<L>(apps: seq<AppenderId>, level: Level, args: seq<Arg<L>>, k: nat)
    requires k < |apps|
    ensures FanOut(apps, level, args)[k] == Call(apps[|apps| - 1 - k], level, args)
  {
    if k < |apps| - 1 {
      FanOutAt(apps[1..], level, args, k);
    }
  }

  /** The recipients of a fan-out, in call order, are the appenders reversed. */
  lemma FanOutRecipients<L>(apps: seq<AppenderId>, level: Level, args: seq<Arg<L>>)
    ensures Recipients(FanOut(apps, level, args)) == Reversed(apps)
  {
    var r := FanOut(apps, level, args);
    forall k | 0 <= k < |apps|
      ensures Recipients(r)[k] == Reversed(apps)[k]
    {
      FanOutAt(apps, level, args, k);
      ReversedAt(apps, k);
    }
  }

  /** The appenders that a trace invokes, in order. */
  function Recipients<L>(trace: seq<Call<L>>): (r: seq<AppenderId>)
    ensures |r| == |trace|
    ensures forall k :: 0 <= k < |trace| ==> r[k] == trace[k].appender
  {
    seq(|trace|, k requires 0 <= k < |trace| => trace[k].appender)
  }

  /** An appender is called by a fan-out iff it is registered. */
  lemma {:induction false} FanOutReaches<L>(apps: seq<AppenderId>, level: Level, args: seq<Arg<L>>, a: AppenderId)
    ensures a in Recipients(FanOut(apps, level, args)) <==> a in apps
  {
    if apps != [] {
      FanOutReaches(apps[1..], level, args, a);
      assert apps == [apps[0]] + apps[1..];
      assert Recipients(FanOut(apps, level, args))
          == Recipients(FanOut(apps[1..], level, args)) + [apps[0]];
    }
  }

  /** `appenders.filter(x => x !== a)`: every occurrence of `a` removed, the rest in order. */
  function Without(apps: seq<AppenderId>, a: AppenderId): (r: seq<AppenderId>)
    ensures a !in r
    ensures forall x :: x in r <==> x in apps && x != a
    ensures |r| <= |apps|
  {
    if apps == [] then []
    else (if apps[0] == a then [] else [apps[0]]) + Without(apps[1..], a)
  }

  /** Filtering distributes over concatenation, so relative order is kept. */
  lemma {:induction false} WithoutConcat(s: seq<AppenderId>, t: seq<AppenderId>, a: AppenderId)
    ensures Without(s + t, a) == Without(s, a) + Without(t, a)
  {
    if s == [] {
      assert s + t == t;
    } else {
      assert (s + t)[0] == s[0];
      assert (s + t)[1..] == s[1..] + t;
      WithoutConcat(s[1..], t, a);
    }
  }

  /** Removing an appender that is not registered changes nothing. */
  lemma {:induction false} WithoutAbsent(s: seq<AppenderId>, a: AppenderId)
    requires a !in s
    ensures Without(s, a) == s
  {
    if s != [] {
      WithoutAbsent(s[1..], a);
    }
  }

  /** Every other appender keeps its multiplicity; `a` drops to zero. */
  lemma {:induction false} WithoutMultiset(s: seq<AppenderId>, a: AppenderId)
    ensures multiset(Without(s, a)) == multiset(s)[a := 0]
  {
    if s != [] {
      WithoutMultiset(s[1..], a);
      assert s == [s[0]] + s[1..];
    }
  }

  /** After removal the appender receives no call from any fan-out. */
  lemma RemovedReceivesNothing<L>(apps: seq<AppenderId>, a: AppenderId, level: Level, args: seq<Arg<L>>)
    ensures a !in Recipients(FanOut(Without(apps, a), level, args))
  {
    FanOutReaches(Without(apps, a), level, args, a);
  }

  /** The older generations' literal bounds agree with the level table. */
  lemma GateIsThreshold(l: Level)
    ensures Gate(l) == Threshold(l)
  {
  }

  /** The oldest AMD `levels` table agrees with `logLevel` except that it lacks `none`. */
  lemma LegacyLevelsAgree()
    ensures "none" !in LegacyLevels
    ensures forall l: Level :: Name(l) in LegacyLevels && LegacyLevels[Name(l)] == Threshold(l)
  {
    forall l: Level ensures Name(l) in LegacyLevels && LegacyLevels[Name(l)] == Threshold(l) {
      match l
      case Error =>
      case Warn =>
      case Info =>
      case Debug =>
    }
  }

  /** A logger at `none` emits nothing; one at `debug` emits every level. */
  lemma NoneSilencesDebugEnables(l: Level)
    ensures !Emits(LogLevel["none"], l)
    ensures Emits(LogLevel["debug"], l)
  {
  }

  /** Raising a logger's level never silences a call that was emitted. */
  lemma EmitsMonotone(g: int, h: int, l: Level, m: Level)
    requires Emits(g, l) && g <= h && Threshold(m) <= Threshold(l)
    ensures Emits(h, m)
  {
  }

  /** The number of settings in `gs` at which a call at level `l` is emitted. */
  function CountEmitting(gs: seq<int>, l: Level): (n: nat)
    ensures n <= |gs|
  {
    if gs == [] then 0 else (if Emits(gs[0], l) then 1 else 0) + CountEmitting(gs[1..], l)
  }

  /**
   * Stepping the level through debug, info, warn, error and none emits debug
   * once, info twice, warn three times and error four times.
   */
  lemma LevelMatrix()
    ensures var gs := [LogLevel["debug"], LogLevel["info"], LogLevel["warn"], LogLevel["error"], LogLevel["none"]];
      CountEmitting(gs, Debug) == 1 && CountEmitting(gs, Info) == 2
      && CountEmitting(gs, Warn) == 3 && CountEmitting(gs, Error) == 4
  {
    var gs := [LogLevel["debug"], LogLevel["info"], LogLevel["warn"], LogLevel["error"], LogLevel["none"]];
    assert gs == [4, 3, 2, 1, 0];
    forall l: Level ensures CountEmitting(gs, l) == 5 - Threshold(l) {
      assert [0][1..] == [];
      assert [1, 0][1..] == [0];
      assert [2, 1, 0][1..] == [1, 0];
      assert [3, 2, 1, 0][1..] == [2, 1, 0];
      assert gs[1..] == [3, 2, 1, 0];
      assert CountEmitting([0], l) == 0;
      assert CountEmitting([1, 0], l) == (if Emits(1, l) then 1 else 0);
      assert CountEmitting([2, 1, 0], l) == (if Emits(2, l) then 1 else 0) + CountEmitting([1, 0], l);
      assert CountEmitting([3, 2, 1, 0], l) == (if Emits(3, l) then 1 else 0) + CountEmitting([2, 1, 0], l);
    }
  }

  /** Weights a custom level of 35 would need to fall between info and debug. */
  function ScaledWeight(l: Level): (w: int)
    ensures w == 10 * Threshold(l)
  {
    match l
    case Error => 10
    case Warn => 20
    case Info => 30
    case Debug => 40
  }

  /** With the shipped table a weight of 35 is emitted at no built-in setting. */
  lemma CustomWeightUnreachable(g: int)
    requires g in LogLevel.Values
    ensures g < 35
  {
  }

  /**
   * With every weight scaled by ten, 35 is emitted at debug and not at info,
   * and every built-in gating decision is the same as with the shipped table.
   */
  lemma ScaledTableKeepsGating(g: int, l: Level)
    ensures 35 <= ScaledWeight(Debug) && !(35 <= ScaledWeight(Info))
    ensures (10 * g >= ScaledWeight(l)) <==> Emits(g, l)
  {
  }
}
