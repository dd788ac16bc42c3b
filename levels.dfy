/** Severity levels of the leveled-logging facade: the `LogLevel` type, its six
    named constants, its label rendering and the mutable cell that `Set` and
    `Get` store to and load from. */
module Levels {

  /** `LogLevel` is a 32-bit signed integer. */
  type LogLevel = x: int | -0x8000_0000 <= x <= 0x7fff_ffff

  // The six named levels, consecutive from zero.
  const Disabled: LogLevel := 0
  const Error: LogLevel := 1
  const Warn: LogLevel := 2
  const Info: LogLevel := 3
  const Debug: LogLevel := 4
  const Trace: LogLevel := 5

  /** Reference table of labels, indexed by level value. */
  const Labels: seq<string> := ["Disabled", "Error", "Warn", "Info", "Debug", "Trace"]

  /** The label every value outside the six named levels renders as. */
  const Unknown: string := "UNKNOWN"

  /** Whether `l` is one of the six named levels. */
  predicate IsNamed(l: LogLevel) {
    Disabled <= l <= Trace
  }

  /** The constants are consecutive from zero, so they are strictly ordered
      Disabled < Error < Warn < Info < Debug < Trace, and they are exactly the
      positions of the label table. */
  lemma ConstantsConsecutive()
    ensures Disabled == 0 && Error == Disabled + 1 && Warn == Error + 1
    ensures Info == Warn + 1 && Debug == Info + 1 && Trace == Debug + 1
    ensures Disabled < Error < Warn < Info < Debug < Trace
    ensures |Labels| == Trace + 1
  {
  }

  /** `String`: the human-readable label of a level. Each named level gets its
      own entry of the label table; every other int32 value, negative ones
      included, renders as "UNKNOWN". */
  function String(l: LogLevel): (r: string)
    ensures IsNamed(l) ==> r == Labels[l]
    ensures !IsNamed(l) <==> r == Unknown
  {
    if l == Disabled then "Disabled"
    else if l == Error then "Error"
    else if l == Warn then "Warn"
    else if l == Info then "Info"
    else if l == Debug then "Debug"
    else if l == Trace then "Trace"
    else "UNKNOWN"
  }

  /** No two named levels share a label. */
  lemma StringInjective(a: LogLevel, b: LogLevel)
    requires IsNamed(a) && IsNamed(b)
    requires String(a) == String(b)
    ensures a == b
  {
  }

  /** The mutable storage behind a `*LogLevel`: one int32 cell. */
  class LevelCell {
    var value: LogLevel

    constructor (initial: LogLevel)
      ensures value == initial
    {
      value := initial;
    }

    /** Stores `newLevel` into this cell and touches no other cell. */
    method Set(newLevel: LogLevel)
      modifies this
      ensures value == newLevel
    {
      value := newLevel;
    }

    /** Loads the current level of this cell. */
    method Get() returns (l: LogLevel)
      ensures l == value
    {
      l := value;
    }
  }

  /** Two cells starting at `initial`: `Set(v)` twice on the first, then `Get`
      on both. The first reads back `v`, the same as after a single `Set`;
      the second still holds `initial`. */
  method SetGetScenario(initial: LogLevel, v: LogLevel) returns (once: LogLevel, twice: LogLevel, other: LogLevel)
    ensures once == v && twice == v
    ensures other == initial
  {
    var a := new LevelCell(initial);
    var b := new LevelCell(initial);
    a.Set(v);
    once := a.Get();
    a.Set(v);
    twice := a.Get();
    other := b.Get();
  }
}
