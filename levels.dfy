/** The closed sets of the debug logger: its severities and its log categories,
    with the lower-case names the configuration uses and the upper-case tags
    written into every line. */
module Levels {

  datatype Option<T> = None | Some(value: T)

  /** A log severity. */
  datatype LogLevel = Debug | Info | Warn | Error

  /** A log category, switched on or off separately by the configuration. */
  datatype DebugModule = Client | Server | Ui

  /** The name of a level as the configuration and the level list spell it. */
  function LevelName(l: LogLevel): string
  {
    match l
    case Debug => "debug"
    case Info => "info"
    case Warn => "warn"
    case Error => "error"
  }

  /** The name of a category as the configuration's module map spells it. */
  function ModuleName(m: DebugModule): string
  {
    match m
    case Client => "client"
    case Server => "server"
    case Ui => "ui"
  }

  /** The upper-cased level written into the line prefix. */
  function LevelTag(l: LogLevel): string
  {
    match l
    case Debug => "DEBUG"
    case Info => "INFO"
    case Warn => "WARN"
    case Error => "ERROR"
  }

  /** The upper-cased category written into the line prefix. */
  function ModuleTag(m: DebugModule): string
  {
    match m
    case Client => "CLIENT"
    case Server => "SERVER"
    case Ui => "UI"
  }

  /** Upper-casing of one ASCII letter; every other character is kept. */
  function UpperChar(c: char): char
  {
    if 'a' <= c <= 'z' then (c as int - 'a' as int + 'A' as int) as char else c
  }

  /** ASCII upper-casing of a whole string, character by character. */
  function AsciiUpper(s: string): (u: string)
    ensures |u| == |s|
    ensures forall i :: 0 <= i < |s| ==> u[i] == UpperChar(s[i])
  {
    if s == [] then [] else [UpperChar(s[0])] + AsciiUpper(s[1..])
  }

  /** The tag table agrees with upper-casing the names, so the line prefix
      holds exactly what upper-casing the level and the category would give. */
  lemma TagsAreUpperCasedNames(l: LogLevel, m: DebugModule)
    ensures LevelTag(l) == AsciiUpper(LevelName(l))
    ensures ModuleTag(m) == AsciiUpper(ModuleName(m))
  {
    var lt, ln := LevelTag(l), LevelName(l);
    assert |lt| == |ln| && forall i :: 0 <= i < |lt| ==> lt[i] == UpperChar(ln[i]);
    var mt, mn := ModuleTag(m), ModuleName(m);
    assert |mt| == |mn| && forall i :: 0 <= i < |mt| ==> mt[i] == UpperChar(mn[i]);
  }

  /** Reads a configured level name; None for a string that names no level. */
  function ParseLevel(s: string): (r: Option<LogLevel>)
    ensures r.Some? ==> LevelName(r.value) == s
    ensures r.None? ==> forall l :: LevelName(l) != s
  {
    if s == "debug" then Some(Debug)
    else if s == "info" then Some(Info)
    else if s == "warn" then Some(Warn)
    else if s == "error" then Some(Error)
    else None
  }

  /** Reading back the name of a level gives that level. */
  lemma ParseLevelName(l: LogLevel)
    ensures ParseLevel(LevelName(l)) == Some(l)
  {
  }

  /** The severity order debug < info < warn < error, written as a table:
      AtLeast(l, min) holds when l is min or more severe than min. */
  predicate AtLeast(l: LogLevel, min: LogLevel)
  {
    match min
    case Debug => true
    case Info => l != Debug
    case Warn => l == Warn || l == Error
    case Error => l == Error
  }

  /** AtLeast is a total order on the four levels. */
  lemma AtLeastIsTotalOrder(a: LogLevel, b: LogLevel, c: LogLevel)
    ensures AtLeast(a, a)
    ensures AtLeast(a, b) && AtLeast(b, a) ==> a == b
    ensures AtLeast(a, b) && AtLeast(b, c) ==> AtLeast(a, c)
    ensures AtLeast(a, b) || AtLeast(b, a)
  {
  }
}
