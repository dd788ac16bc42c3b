/** The zap-backed logger factory: scoped loggers that emulate a trace level
    on the backend's debug level behind a flag, and a factory that remembers
    every logger it created so that all of them can be flushed at shutdown. */
module ZapLog {
  import opened ZapBackend

  /** A scoped logger. `sugared` is the embedded backend logger (it serves the
      formatted Debugf/Infof/Warnf/Errorf calls and `Sync`); `wrapped` is the
      same named logger with one extra caller-skip frame, through which the
      adapter's own methods emit. */
  class Logger {
    const sugared: ZapLogger
    const wrapped: ZapLogger
    const enableTrace: bool

    /** Both handles name the same logger and write to the same sink. */
    predicate Valid() {
      wrapped.sink == sugared.sink &&
      wrapped.name == sugared.name &&
      wrapped.callerSkip == sugared.callerSkip + 1
    }

    constructor (sugared: ZapLogger, wrapped: ZapLogger, enableTrace: bool)
      ensures this.sugared == sugared && this.wrapped == wrapped
      ensures this.enableTrace == enableTrace
    {
      this.sugared := sugared;
      this.wrapped := wrapped;
      this.enableTrace := enableTrace;
    }

    /** A debug-level record of `msg` when trace is enabled, nothing otherwise. */
    method Trace(msg: string)
      requires Valid()
      modifies sugared.sink
      ensures sugared.sink.records == old(sugared.sink.records) +
        (if enableTrace then [Record(DebugLevel, sugared.name, msg)] else [])
      ensures sugared.sink.flushes == old(sugared.sink.flushes)
    {
      if enableTrace {
        wrapped.Debug(msg);
      }
    }

    /** As `Trace`, with the message rendered from `format` and `args`. */
    method Tracef(format: string, args: seq<Arg>)
      requires Valid()
      modifies sugared.sink
      ensures sugared.sink.records == old(sugared.sink.records) +
        (if enableTrace then [Record(DebugLevel, sugared.name, sugared.sink.sprintf(format, args))] else [])
      ensures sugared.sink.flushes == old(sugared.sink.flushes)
    {
      if enableTrace {
        wrapped.Debugf(format, args);
      }
    }

    method Debug(msg: string)
      requires Valid()
      modifies sugared.sink
      ensures sugared.sink.records == old(sugared.sink.records) + [Record(DebugLevel, sugared.name, msg)]
      ensures sugared.sink.flushes == old(sugared.sink.flushes)
    {
      wrapped.Debug(msg);
    }

    method Info(msg: string)
      requires Valid()
      modifies sugared.sink
      ensures sugared.sink.records == old(sugared.sink.records) + [Record(InfoLevel, sugared.name, msg)]
      ensures sugared.sink.flushes == old(sugared.sink.flushes)
    {
      wrapped.Info(msg);
    }

    method Warn(msg: string)
      requires Valid()
      modifies sugared.sink
      ensures sugared.sink.records == old(sugared.sink.records) + [Record(WarnLevel, sugared.name, msg)]
      ensures sugared.sink.flushes == old(sugared.sink.flushes)
    {
      wrapped.Warn(msg);
    }

    method Error(msg: string)
      requires Valid()
      modifies sugared.sink
      ensures sugared.sink.records == old(sugared.sink.records) + [Record(ErrorLevel, sugared.name, msg)]
      ensures sugared.sink.flushes == old(sugared.sink.flushes)
    {
      wrapped.Error(msg);
    }

    // The formatted variants are those of the embedded logger, which has no
    // extra caller-skip frame.

    method Debugf(format: string, args: seq<Arg>)
      modifies sugared.sink
      ensures sugared.sink.records == old(sugared.sink.records) + [Record(DebugLevel, sugared.name, sugared.sink.sprintf(format, args))]
      ensures sugared.sink.flushes == old(sugared.sink.flushes)
    {
      sugared.Debugf(format, args);
    }

    method Infof(format: string, args: seq<Arg>)
      modifies sugared.sink
      ensures sugared.sink.records == old(sugared.sink.records) + [Record(InfoLevel, sugared.name, sugared.sink.sprintf(format, args))]
      ensures sugared.sink.flushes == old(sugared.sink.flushes)
    {
      sugared.Infof(format, args);
    }

    method Warnf(format: string, args: seq<Arg>)
      modifies sugared.sink
      ensures sugared.sink.records == old(sugared.sink.records) + [Record(WarnLevel, sugared.name, sugared.sink.sprintf(format, args))]
      ensures sugared.sink.flushes == old(sugared.sink.flushes)
    {
      sugared.Warnf(format, args);
    }

    method Errorf(format: string, args: seq<Arg>)
      modifies sugared.sink
      ensures sugared.sink.records == old(sugared.sink.records) + [Record(ErrorLevel, sugared.name, sugared.sink.sprintf(format, args))]
      ensures sugared.sink.flushes == old(sugared.sink.flushes)
    {
      sugared.Errorf(format, args);
    }
  }

  /** The flushes a sweep over `ls` requests, in registry order: one per
      entry, from that entry's embedded logger, failing exactly at the
      positions in `failing`. */
  function SweepFlushes(ls: seq<Logger>, failing: set<nat>): (r: seq<Flush>)
    ensures |r| == |ls|
    ensures forall i :: 0 <= i < |ls| ==> r[i] == Flush(ls[i].sugared, i !in failing)
  {
    if ls == [] then []
    else SweepFlushes(ls[..|ls| - 1], failing) + [Flush(ls[|ls| - 1].sugared, |ls| - 1 !in failing)]
  }

  /** How many of the flushes in `fs` were requested by `z`. */
  function SyncCount(fs: seq<Flush>, z: ZapLogger): nat {
    if fs == [] then 0
    else SyncCount(fs[..|fs| - 1], z) + (if fs[|fs| - 1].target == z then 1 else 0)
  }

  /** No two registry entries share their embedded logger. */
  predicate DistinctEntries(ls: seq<Logger>) {
    forall i, j :: 0 <= i < j < |ls| ==> ls[i].sugared != ls[j].sugared
  }

  lemma {:induction false} SyncCountAbsent(fs: seq<Flush>, z: ZapLogger)
    requires forall i :: 0 <= i < |fs| ==> fs[i].target != z
    ensures SyncCount(fs, z) == 0
  {
    if fs != [] {
      SyncCountAbsent(fs[..|fs| - 1], z);
    }
  }

  /** A sweep over distinct entries flushes each entry exactly once, whatever
      the failures. */
  lemma {:induction false} SweepSyncsEachOnce(ls: seq<Logger>, failing: set<nat>, k: nat)
    requires DistinctEntries(ls)
    requires k < |ls|
    ensures SyncCount(SweepFlushes(ls, failing), ls[k].sugared) == 1
  {
    var n := |ls| - 1;
    var fs := SweepFlushes(ls, failing);
    assert fs[..n] == SweepFlushes(ls[..n], failing);
    if k == n {
      SyncCountAbsent(fs[..n], ls[k].sugared);
    } else {
      SweepSyncsEachOnce(ls[..n], failing, k);
    }
  }

  /** Every entry of a sweep over distinct entries is flushed exactly once. */
  lemma SweepSyncsAllOnce(ls: seq<Logger>, failing: set<nat>)
    requires DistinctEntries(ls)
    ensures forall k :: 0 <= k < |ls| ==> SyncCount(SweepFlushes(ls, failing), ls[k].sugared) == 1
  {
    forall k | 0 <= k < |ls|
      ensures SyncCount(SweepFlushes(ls, failing), ls[k].sugared) == 1
    {
      SweepSyncsEachOnce(ls, failing, k);
    }
  }

  /** `ZapFactory`: creates scoped loggers over `baseLogger` and keeps every
      one of them, in creation order, in `loggers`. */
  class ZapFactory {
    const baseLogger: ZapLogger
    var enableTrace: bool
    var loggers: seq<Logger>

    /** Every entry is a well-formed logger on the base logger's sink, and no
        two entries share a backend logger. */
    ghost predicate Valid()
      reads this
    {
      DistinctEntries(loggers) &&
      forall i :: 0 <= i < |loggers| ==>
        loggers[i].Valid() && loggers[i].sugared.sink == baseLogger.sink
    }

    constructor (baseLogger: ZapLogger, enableTrace: bool)
      ensures Valid()
      ensures this.baseLogger == baseLogger && this.enableTrace == enableTrace
      ensures loggers == []
    {
      this.baseLogger := baseLogger;
      this.enableTrace := enableTrace;
      loggers := [];
    }

    /** A new logger named after `scope`, copying the current trace flag,
        appended to the registry. */
    method NewLogger(scope: string) returns (l: Logger)
      requires Valid()
      modifies this
      ensures Valid()
      ensures fresh(l) && fresh(l.sugared)
      ensures loggers == old(loggers) + [l]
      ensures enableTrace == old(enableTrace)
      ensures l.Valid() && l.enableTrace == enableTrace
      ensures l.sugared.name == JoinName(baseLogger.name, scope)
      ensures l.sugared.sink == baseLogger.sink
    {
      var named := baseLogger.Named(scope);
      var wrapped := named.WithCallerSkip(1);
      l := new Logger(named, wrapped, enableTrace);
      loggers := loggers + [l];
    }

    /** Flushes every registered logger once, in registry order. `failing`
        names the registry positions whose flush reports an error; each error
        is dropped and the sweep goes on. */
    method SyncAll(failing: set<nat>)
      requires Valid()
      modifies baseLogger.sink
      ensures unchanged(this)
      ensures baseLogger.sink.flushes == old(baseLogger.sink.flushes) + SweepFlushes(loggers, failing)
      ensures baseLogger.sink.records == old(baseLogger.sink.records)
      ensures forall k :: 0 <= k < |loggers| ==>
        SyncCount(baseLogger.sink.flushes[|old(baseLogger.sink.flushes)|..], loggers[k].sugared) == 1
    {
      var sink := baseLogger.sink;
      var i := 0;
      while i < |loggers|
        invariant 0 <= i <= |loggers|
        invariant sink.flushes == old(sink.flushes) + SweepFlushes(loggers[..i], failing)
        invariant sink.records == old(sink.records)
      {
        var l := loggers[i];
        var _ := l.sugared.Sync(i in failing);
        assert loggers[..i + 1][..i] == loggers[..i];
        i := i + 1;
      }
      assert loggers[..i] == loggers;
      assert sink.flushes[|old(sink.flushes)|..] == SweepFlushes(loggers, failing);
      SweepSyncsAllOnce(loggers, failing);
    }
  }

  /** The package example: an unnamed example root, a logger for "scope",
      then `Error("test")` and `Errorf("test printf %d", 1)`. Both records
      are at error level and carry the name "scope". */
  method ExampleLogger(sprintf: (string, seq<Arg>) -> string) returns (out: seq<Record>)
    ensures out == [Record(ErrorLevel, "scope", "test"),
                    Record(ErrorLevel, "scope", sprintf("test printf %d", [IntArg(1)]))]
  {
    var sink := new Sink(sprintf);
    var base := new ZapLogger.Root(sink);
    var zf := new ZapFactory(base, false);
    var l := zf.NewLogger("scope");
    l.Error("test");
    l.Errorf("test printf %d", [IntArg(1)]);
    out := sink.records;
  }

  /** Trace gating. A logger made while the factory flag is off stays silent
      on `Trace` even after the flag is turned on; a logger made while it is
      on emits one debug record under its scope even after the flag is turned
      off. */
  method TraceFlagScenario(sprintf: (string, seq<Arg>) -> string, scope: string, msg: string)
    returns (quiet: seq<Record>, loud: seq<Record>)
    ensures quiet == []
    ensures loud == [Record(DebugLevel, scope, msg)]
  {
    var sink := new Sink(sprintf);
    var base := new ZapLogger.Root(sink);
    var zf := new ZapFactory(base, false);
    var off := zf.NewLogger(scope);
    zf.enableTrace := true;
    off.Trace(msg);
    quiet := sink.records;
    var on := zf.NewLogger(scope);
    zf.enableTrace := false;
    on.Trace(msg);
    loud := sink.records;
  }

  /** Creates one logger per scope, then `SyncAll` with the given failures:
      every created logger is flushed, once and in creation order, failures
      included. */
  method SyncAllScenario(sprintf: (string, seq<Arg>) -> string, scopes: seq<string>, failing: set<nat>)
    returns (made: seq<Logger>, flushed: seq<Flush>)
    ensures |made| == |scopes| && |flushed| == |scopes|
    ensures forall i :: 0 <= i < |scopes| ==> made[i].sugared.name == scopes[i]
    ensures forall i :: 0 <= i < |scopes| ==> flushed[i] == Flush(made[i].sugared, i !in failing)
    ensures forall k :: 0 <= k < |made| ==> SyncCount(flushed, made[k].sugared) == 1
  {
    var sink := new Sink(sprintf);
    var base := new ZapLogger.Root(sink);
    var zf := new ZapFactory(base, false);
    var i := 0;
    while i < |scopes|
      invariant 0 <= i <= |scopes|
      invariant zf.Valid() && zf.baseLogger == base && base.name == "" && base.sink == sink
      invariant |zf.loggers| == i
      invariant forall j :: 0 <= j < i ==> zf.loggers[j].sugared.name == scopes[j]
      invariant sink.flushes == []
    {
      var l := zf.NewLogger(scopes[i]);
      assert JoinName("", scopes[i]) == scopes[i];
      assert zf.loggers[i] == l;
      i := i + 1;
    }
    made := zf.loggers;
    assert DistinctEntries(made);
    zf.SyncAll(failing);
    flushed := sink.flushes;
    assert flushed == SweepFlushes(made, failing);
    SweepSyncsAllOnce(made, failing);
  }
}
