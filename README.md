# Leveled logging facade: levels and the zap-backed factory

This project models two parts of the `log` package of servicekit, a small
leveled-logging facade, and proves properties of the model in Dafny.

- `levels.dfy` (module `Levels`): the `LogLevel` type, a 32-bit signed
  integer with six named, consecutive constants Disabled(0) < Error(1) <
  Warn(2) < Info(3) < Debug(4) < Trace(5); its `String` rendering, which
  maps the six constants to their labels and every other value to
  "UNKNOWN"; and the mutable level cell that `Set` stores to and `Get`
  loads from (`LevelCell`).
- `zap_backend.dfy` (module `ZapBackend`): the zap backend, modelled
  abstractly. A `Sink` is the shared destination of a root logger and every
  logger derived from it. It holds the emitted records (severity, logger
  name, message) and the flush requests made so far. A `ZapLogger` is a
  named, sugared zap logger. `Named(scope)` derives a child whose name
  joins the parent's name and the scope as zap does. `Sync` flushes, and
  whether it fails is an input (an oracle). Formatted messages are rendered
  by an opaque function `sprintf` of the format and the arguments, fixed per
  sink.
- `zaplog.dfy` (module `ZapLog`): the adapter. `Logger` holds the embedded
  sugared logger, the same logger with one extra caller-skip frame
  (`wrapped`), and its own copy of the trace flag. `Trace`/`Tracef` emit at
  the backend's debug level only when that flag is set. `Debug`, `Info`,
  `Warn` and `Error` forward unchanged. The formatted variants come from the
  embedded logger. `ZapFactory` creates scoped loggers, appends each to its
  registry, and `SyncAll` flushes every registered logger in registry order,
  dropping each error and going on.

The factory's registry invariant (`ZapFactory.Valid`) says that every entry
writes to the base logger's sink and that no two entries share a backend
logger. From it, `SweepSyncsAllOnce` proves that `SyncAll` flushes each
created logger exactly once, whichever flushes fail.

## Model

| member | source | states |
|---|---|---|
| `Levels.ConstantsConsecutive` | log/scoped.go:54-68 | The six constants are consecutive from 0, so Disabled < Error < Warn < Info < Debug < Trace, and they index the six-entry label table |
| `Levels.String` | log/scoped.go:35-52 | A named level renders as its own entry of the label table ("Disabled", "Error", "Warn", "Info", "Debug", "Trace"); the result is "UNKNOWN" exactly when the value is outside 0..5, negatives included |
| `Levels.StringInjective` | log/scoped.go:36-48 | Two named levels with the same label are the same level |
| `Levels.LevelCell.Set` | log/scoped.go:25-28 | After `Set(v)` the cell holds `v`; only this cell may change, so every other cell keeps its value |
| `Levels.LevelCell.Get` | log/scoped.go:30-33 | Returns the value the cell currently holds, without changing it |
| `Levels.SetGetScenario` | log/scoped.go:26-33 | `Get` after `Set(v)` returns `v`; a second `Set(v)` leaves the same state as one; a second cell keeps its initial value |
| `ZapBackend.ZapLogger.Root` | log/log_test.go:130 | The unnamed root logger that `zap.NewExample()` gives: empty name, no caller skip, writing to the given sink |
| `ZapBackend.JoinName` | log/zaplog.go:72 | The child's name starts with the parent's name and ends with the scope; an unnamed parent gives exactly the scope, an empty scope keeps the parent's name |
| `ZapBackend.ZapLogger.Named` | log/zaplog.go:72 | A fresh logger with the joined name, on the same sink, with the same caller skip |
| `ZapBackend.ZapLogger.WithCallerSkip` | log/zaplog.go:75 | A fresh logger with the same name and sink and `n` more caller-skip frames |
| `ZapBackend.ZapLogger.Debug` | log/zaplog.go:32 | Appends exactly one debug record with this logger's name and the message; flushes unchanged |
| `ZapBackend.ZapLogger.Info` | log/zaplog.go:47 | Appends exactly one info record with this logger's name and the message |
| `ZapBackend.ZapLogger.Warn` | log/zaplog.go:51 | Appends exactly one warn record with this logger's name and the message |
| `ZapBackend.ZapLogger.Error` | log/zaplog.go:55 | Appends exactly one error record with this logger's name and the message |
| `ZapBackend.ZapLogger.Debugf` | log/zaplog.go:38 | Appends exactly one debug record whose message is the rendering of the format and arguments |
| `ZapBackend.ZapLogger.Infof` | log/zaplog.go:25 | Appends exactly one info record with the rendered message |
| `ZapBackend.ZapLogger.Warnf` | log/zaplog.go:25 | Appends exactly one warn record with the rendered message |
| `ZapBackend.ZapLogger.Errorf` | log/zaplog.go:25 | Appends exactly one error record with the rendered message |
| `ZapBackend.ZapLogger.Sync` | log/zaplog.go:90 | Reports an error exactly when the oracle says it fails; records one flush attempt by this logger with its outcome; adds no record |
| `ZapLog.Logger.Valid` | log/zaplog.go:72-77 | The embedded and wrapped handles are the same named logger on the same sink, the wrapped one skipping one more caller frame |
| `ZapLog.Logger.Trace` | log/zaplog.go:30-34 | With the trace flag set, appends one debug record with the logger's name and the message; without it, the sink is unchanged |
| `ZapLog.Logger.Tracef` | log/zaplog.go:36-40 | Same gate as `Trace`, with the rendered message |
| `ZapLog.Logger.Debug` | log/zaplog.go:42-44 | Forwards the message unchanged as one debug record, with no condition |
| `ZapLog.Logger.Info` | log/zaplog.go:46-48 | Forwards the message unchanged as one info record, with no condition |
| `ZapLog.Logger.Warn` | log/zaplog.go:50-52 | Forwards the message unchanged as one warn record, with no condition |
| `ZapLog.Logger.Error` | log/zaplog.go:54-56 | Forwards the message unchanged as one error record, with no condition |
| `ZapLog.Logger.Debugf` | log/zaplog.go:25 | The embedded logger's formatted debug call: one debug record with the rendered message, no trace gate |
| `ZapLog.Logger.Infof` | log/zaplog.go:25 | One info record with the rendered message |
| `ZapLog.Logger.Warnf` | log/zaplog.go:25 | One warn record with the rendered message |
| `ZapLog.Logger.Errorf` | log/zaplog.go:25 | One error record with the rendered message |
| `ZapLog.ZapFactory.constructor` | log/zaplog.go:59-65 | A factory over a base logger with a trace flag and an empty registry |
| `ZapLog.ZapFactory.Valid` | log/zaplog.go:59-80 | Registry invariant: every entry is a well-formed logger writing to the base logger's sink, and no two entries share a backend logger |
| `ZapLog.ZapFactory.NewLogger` | log/zaplog.go:67-80 | The registry grows by exactly one and the new logger is its last entry, earlier entries unchanged and in order; the logger is named `JoinName(base name, scope)`, writes to the base sink, and copies the factory's trace flag at creation; the registry invariant is kept |
| `ZapLog.SweepFlushes` | log/zaplog.go:89-91 | A sweep requests one flush per registry entry, in registry order, from the entry's embedded logger, failing exactly at the given positions |
| `ZapLog.ZapFactory.SyncAll` | log/zaplog.go:82-92 | The flushes appended to the sink are exactly `SweepFlushes` of the registry, so a failing flush never stops the rest; among the appended flushes each registered logger appears exactly once; no record is added and the factory (registry included) is unchanged |
| `ZapLog.SweepSyncsEachOnce` | log/zaplog.go:89-91 | Over distinct entries, the sweep flushes the k-th entry exactly once, whatever the failures |
| `ZapLog.SweepSyncsAllOnce` | log/zaplog.go:89-91 | Over distinct entries, every entry is flushed exactly once |
| `ZapLog.ExampleLogger` | log/log_test.go:129-139 | For an unnamed root, the logger for "scope" emits `Error("test")` and `Errorf("test printf %d", 1)` as two error records named "scope", in call order |
| `ZapLog.TraceFlagScenario` | log/zaplog.go:30-76 | A logger created with the flag off stays silent on `Trace` after the factory flag is turned on; one created with the flag on emits one debug record under its scope after the flag is turned off |
| `ZapLog.SyncAllScenario` | log/zaplog.go:67-92 | After creating one logger per scope, each logger is named by its scope, and `SyncAll` flushes all of them once each, in creation order, with the failing positions still flushed |

## Left out

- Atomicity of `Set`/`Get` and the factory's mutex: the model is sequential.
- `LeveledLogger` and `LoggerFactory` are not types in the model. Dafny traits are not used here, so there is no dynamic dispatch; the zap adapter's `Logger` and `ZapFactory` carry the ten-method and `NewLogger` surface directly.
- `DefaultLoggerFactory`, `DefaultLeveledLogger`, `NewDefaultLeveledLoggerForScope`, `WithOutput` and `SetLevel`: their source is not part of this model, so per-scope level overrides and threshold filtering are not modelled, and neither are the tests in log/log_test.go:27-127 that use them.
- `fmt`-style interpolation: a formatted message is `sprintf(format, args)` for an opaque function fixed per sink; the arguments are a small datatype standing in for Go's `interface{}` values.
- zap internals: JSON encoding, caller-location attribution (records carry no caller; only the skip count is kept on the logger), structured fields, the backend's level thresholds and sampling (the sink accepts every record), and what `Sync` actually flushes.
- Sync failure is an oracle input. `ZapFactory.SyncAll` takes `failing`, the set of registry positions whose flush reports an error; the Go method takes no argument, and its error is a Go `error` where the model has a bool.
- Reassigning the factory's exported `BaseLogger` field after construction: the model fixes it at construction. `EnableTrace` stays assignable.
- A nil `BaseLogger`: the model's base logger is never nil. Go's `NewLogger` panics on a nil `BaseLogger`, for example on a zero-value `&ZapFactory{}`, because `Named` and `Sugar` dereference it (log/zaplog.go:72, 74); that panic path is not modelled.
- zap's `Named("")` returns the same logger object; the model returns a fresh logger with the same name, sink and caller skip. Their fields are constant, so nothing observable differs.
- The embedded sugared logger's other promoted methods (`With`, `Panic`, `Fatal`, and so on) beyond the formatted level calls and `Sync`.
