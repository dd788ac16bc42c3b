/** An abstract structured-logging backend in the shape of zap's sugared
    logger: named loggers that all write into one shared sink, a flush
    operation whose success is decided outside the model, and message
    formatting as an opaque function of the format and its arguments. */
module ZapBackend {

  /** The backend's own severities used by the adapter. */
  datatype Level = DebugLevel | InfoLevel | WarnLevel | ErrorLevel

  /** An argument of a formatted call. */
  datatype Arg = IntArg(i: int) | StringArg(s: string) | BoolArg(b: bool)

  /** One emitted log record: severity, logger name and message text. */
  datatype Record = Record(level: Level, logger: string, msg: string)

  /** One call of `Sync`: which logger asked for it and whether it succeeded. */
  datatype Flush = Flush(target: ZapLogger, ok: bool)

  /** The name zap gives to the child `Named(scope)` of a logger called
      `parent`: an empty scope keeps the parent's name, an unnamed parent
      takes the scope as it is, otherwise the two are joined by a dot. */
  function JoinName(parent: string, scope: string): (r: string)
    ensures |parent| <= |r| && r[..|parent|] == parent
    ensures |scope| <= |r| && r[|r| - |scope|..] == scope
    ensures parent == "" ==> r == scope
    ensures scope == "" ==> r == parent
  {
    if scope == "" then parent
    else if parent == "" then scope
    else parent + "." + scope
  }

  /** The destination shared by a root logger and every logger derived from
      it: the records written so far and the flushes requested so far.
      `sprintf` renders a format string with its arguments. */
  class Sink {
    const sprintf: (string, seq<Arg>) -> string
    var records: seq<Record>
    var flushes: seq<Flush>

    constructor (sprintf: (string, seq<Arg>) -> string)
      ensures this.sprintf == sprintf
      ensures records == [] && flushes == []
    {
      this.sprintf := sprintf;
      records := [];
      flushes := [];
    }
  }

  /** A (sugared) zap logger: a name stamped on every record, the number of
      extra stack frames to skip for caller attribution, and its sink. */
  class ZapLogger {
    const name: string
    const callerSkip: nat
    const sink: Sink

    /** An unnamed root logger writing to `sink`. */
    constructor Root(sink: Sink)
      ensures name == "" && callerSkip == 0 && this.sink == sink
    {
      name := "";
      callerSkip := 0;
      this.sink := sink;
    }

    constructor Derived(name: string, callerSkip: nat, sink: Sink)
      ensures this.name == name && this.callerSkip == callerSkip && this.sink == sink
    {
      this.name := name;
      this.callerSkip := callerSkip;
      this.sink := sink;
    }

    /** A child logger whose records carry the joined name, on the same sink. */
    method Named(scope: string) returns (child: ZapLogger)
      ensures fresh(child)
      ensures child.name == JoinName(name, scope)
      ensures child.sink == sink && child.callerSkip == callerSkip
    {
      child := new ZapLogger.Derived(JoinName(name, scope), callerSkip, sink);
    }

    /** `WithOptions(AddCallerSkip(n))`: the same logger, attributing calls
      `n` frames further up the stack. */
    method WithCallerSkip(n: nat) returns (child: ZapLogger)
      ensures fresh(child)
      ensures child.name == name && child.sink == sink
      ensures child.callerSkip == callerSkip + n
    {
      child := new ZapLogger.Derived(name, callerSkip + n, sink);
    }

    /** Appends one record at `level` carrying this logger's name. */
    method Log(level: Level, msg: string)
      modifies sink
      ensures sink.records == old(sink.records) + [Record(level, name, msg)]
      ensures sink.flushes == old(sink.flushes)
    {
      sink.records := sink.records + [Record(level, name, msg)];
    }

    method Debug(msg: string)
      modifies sink
      ensures sink.records == old(sink.records) + [Record(DebugLevel, name, msg)]
      ensures sink.flushes == old(sink.flushes)
    {
      Log(DebugLevel, msg);
    }

    method Info(msg: string)
      modifies sink
      ensures sink.records == old(sink.records) + [Record(InfoLevel, name, msg)]
      ensures sink.flushes == old(sink.flushes)
    {
      Log(InfoLevel, msg);
    }

    method Warn(msg: string)
      modifies sink
      ensures sink.records == old(sink.records) + [Record(WarnLevel, name, msg)]
      ensures sink.flushes == old(sink.flushes)
    {
      Log(WarnLevel, msg);
    }

    method Error(msg: string)
      modifies sink
      ensures sink.records == old(sink.records) + [Record(ErrorLevel, name, msg)]
      ensures sink.flushes == old(sink.flushes)
    {
      Log(ErrorLevel, msg);
    }

    method Debugf(format: string, args: seq<Arg>)
      modifies sink
      ensures sink.records == old(sink.records) + [Record(DebugLevel, name, sink.sprintf(format, args))]
      ensures sink.flushes == old(sink.flushes)
    {
      Log(DebugLevel, sink.sprintf(format, args));
    }

    method Infof(format: string, args: seq<Arg>)
      modifies sink
      ensures sink.records == old(sink.records) + [Record(InfoLevel, name, sink.sprintf(format, args))]
      ensures sink.flushes == old(sink.flushes)
    {
      Log(InfoLevel, sink.sprintf(format, args));
    }

    method Warnf(format: string, args: seq<Arg>)
      modifies sink
      ensures sink.records == old(sink.records) + [Record(WarnLevel, name, sink.sprintf(format, args))]
      ensures sink.flushes == old(sink.flushes)
    {
      Log(WarnLevel, sink.sprintf(format, args));
    }

    method Errorf(format: string, args: seq<Arg>)
      modifies sink
      ensures sink.records == old(sink.records) + [Record(ErrorLevel, name, sink.sprintf(format, args))]
      ensures sink.flushes == old(sink.flushes)
    {
      Log(ErrorLevel, sink.sprintf(format, args));
    }

    /** Flushes the sink. Whether the flush fails is the oracle `fails`; the
        attempt is recorded either way and no record is added. */
    method Sync(fails: bool) returns (err: bool)
      modifies sink
      ensures err == fails
      ensures sink.flushes == old(sink.flushes) + [Flush(this, !fails)]
      ensures sink.records == old(sink.records)
    {
      sink.flushes := sink.flushes + [Flush(this, !fails)];
      err := fails;
    }
  }
}
