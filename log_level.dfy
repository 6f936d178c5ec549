/**
 * The logger level chosen from the optional `log_level` string: a
 * case-sensitive table with a permissive fallback to UNKNOWN.
 */
module LogLevel {
  import opened Wrappers

  /** Ruby Logger's severities, least to most severe. */
  datatype Severity = Debug | Info | Warn | Error | Fatal | Unknown

  /** Logger::DEBUG .. Logger::UNKNOWN are the integers 0 .. 5. */
  function Rank(s: Severity): nat {
    match s
    case Debug => 0
    case Info => 1
    case Warn => 2
    case Error => 3
    case Fatal => 4
    case Unknown => 5
  }

  /** A logger at `level` writes a message of severity `msg` iff msg is not below level. */
  predicate Emits(level: Severity, msg: Severity) {
    Rank(msg) >= Rank(level)
  }

  /** The `case` over `log_level || "INFO"`. */
  function LevelFor(name: Option<string>): (s: Severity)
    ensures var n := if name.Some? then name.value else "INFO";
      && (s == Unknown <==> n !in {"DEBUG", "INFO", "WARN", "ERROR", "FATAL"})
      && (s != Unknown ==> NameOf(s) == Some(n))
  {
    var n := if name.Some? then name.value else "INFO";
    if n == "DEBUG" then Debug
    else if n == "INFO" then Info
    else if n == "WARN" then Warn
    else if n == "ERROR" then Error
    else if n == "FATAL" then Fatal
    else Unknown
  }

  /** The configuration string that selects a severity; UNKNOWN has none. */
  function NameOf(s: Severity): Option<string> {
    match s
    case Debug => Some("DEBUG")
    case Info => Some("INFO")
    case Warn => Some("WARN")
    case Error => Some("ERROR")
    case Fatal => Some("FATAL")
    case Unknown => None
  }

  /** No `log_level` gives INFO. */
  lemma AbsentIsInfo()
    ensures LevelFor(None) == Info
  {
  }

  /** The five names select their own severity, and only their own. */
  lemma NamedLevelsRoundTrip(s: Severity, n: string)
    ensures s != Unknown <==> NameOf(s).Some?
    ensures NameOf(s).Some? ==> LevelFor(NameOf(s)) == s
    ensures LevelFor(Some(n)) != Unknown <==> NameOf(LevelFor(Some(n))) == Some(n)
  {
  }

  /** Every other string, lower case included, gives UNKNOWN; the mapping never fails. */
  lemma OtherNamesAreUnknown(n: string)
    requires n !in {"DEBUG", "INFO", "WARN", "ERROR", "FATAL"}
    ensures LevelFor(Some(n)) == Unknown
  {
  }

  /** Matching is exact and case-sensitive. */
  lemma CaseSensitive()
    ensures LevelFor(Some("warn")) == Unknown && LevelFor(Some("Debug")) == Unknown
    ensures LevelFor(Some("")) == Unknown && LevelFor(Some("INFO ")) == Unknown
  {
  }

  /** At WARN, DEBUG and INFO messages are suppressed and WARN, ERROR, FATAL are written. */
  lemma WarnThreshold(msg: Severity)
    ensures Emits(LevelFor(Some("WARN")), msg) <==> msg !in {Debug, Info}
  {
  }

  /** The fallback is the least verbose level: whatever it writes, every level writes. */
  lemma UnknownIsLeastVerbose(level: Severity, msg: Severity)
    ensures Emits(Unknown, msg) ==> Emits(level, msg)
    ensures Emits(Unknown, msg) <==> msg == Unknown
  {
  }
}
