/** The level selection of `configure_logging`: the count of `-v` flags
    indexes a four-entry table of logging levels, clamped at the last entry. */
module Logging {
  import opened Common

  datatype Level = Error | Warning | Info | Debug

  /** The numeric value Python's logging module gives each level; a logger
      emits records whose level is at least its own. */
  function Severity(level: Level): int
  {
    match level
    case Error => 40
    case Warning => 30
    case Info => 20
    case Debug => 10
  }

  /** The table of levels, least verbose first. */
  const Verbosities: seq<Level> := [Error, Warning, Info, Debug]

  /** The table index for a verbosity count: the count itself, clamped at
      the last entry, so it is never out of bounds. */
  function LevelIndex(verbosity: nat): (i: nat)
    ensures i < |Verbosities|
    ensures verbosity < |Verbosities| ==> i == verbosity
    ensures verbosity >= |Verbosities| ==> i == |Verbosities| - 1
  {
    Min(verbosity, |Verbosities| - 1)
  }

  /** The level the logger is set to for a verbosity count:
      none gives ERROR, one WARNING, two INFO, three or more DEBUG. */
  function ConfiguredLevel(verbosity: nat): (level: Level)
    ensures verbosity == 0 <==> level == Error
    ensures verbosity == 1 <==> level == Warning
    ensures verbosity == 2 <==> level == Info
    ensures verbosity >= 3 <==> level == Debug
  {
    Verbosities[LevelIndex(verbosity)]
  }

  /** Each extra `-v` never makes the logger stricter. */
  lemma MoreVerboseLogsMore(a: nat, b: nat)
    requires a <= b
    ensures Severity(ConfiguredLevel(b)) <= Severity(ConfiguredLevel(a))
  {
  }
}
