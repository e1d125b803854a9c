/** Log levels and the gate every logging entry point applies. */
module Levels {

  /** A `LogLevel` is an integer; larger is more severe. The named constants
      are declared in a file that is not part of this model: only their order
      is used here. */
  type LogLevel = int

  const Debug: LogLevel := 10
  const Info: LogLevel := 20
  const Warning: LogLevel := 40
  const Error: LogLevel := 50
  const Critical: LogLevel := 60

  /** `math.MinInt32`, the level the legacy setup gives its filter rule. */
  const MinInt32: LogLevel := -0x8000_0000

  /** A call at `level` passes the gate of a logger whose effective level is
      `effective` exactly when `effective <= level`. */
  predicate Enabled(effective: LogLevel, level: LogLevel) {
    effective <= level
  }

  /** Enabling is upward closed: a logger that lets a level through lets
      every more severe level through. */
  lemma EnabledMonotone(effective: LogLevel, a: LogLevel, b: LogLevel)
    requires a <= b && Enabled(effective, a)
    ensures Enabled(effective, b)
  {
  }
}
