/** Log levels: their one-letter rendering and the case-insensitive parser
    (log/level.go). */
module LogLevel {
  import opened Wrappers
  import opened Errors
  import GoStrings

  /** `type Level int`: any integer is a Level; the five named ones are 0..4. */
  type Level = int

  const DebugLevel: Level := 0
  const InfoLevel: Level := 1
  const WarningLevel: Level := 2
  const ErrorLevel: Level := 3
  const FatalLevel: Level := 4

  predicate IsNamed(l: Level) { DebugLevel <= l <= FatalLevel }

  /** Level.string: the five named levels as one letter, everything else "U". */
  function LevelString(l: Level): (lvl: string)
    ensures |lvl| == 1
    ensures lvl == "U" <==> !IsNamed(l)
  {
    if l == DebugLevel then "D"
    else if l == InfoLevel then "I"
    else if l == WarningLevel then "W"
    else if l == ErrorLevel then "E"
    else if l == FatalLevel then "F"
    else "U"
  }

  /** The spellings parseLevel accepts, after lower-casing, for each level. */
  predicate Spells(lower: string, l: Level) {
    (l == DebugLevel && (lower == "d" || lower == "debug"))
    || (l == InfoLevel && (lower == "i" || lower == "info"))
    || (l == WarningLevel && (lower == "w" || lower == "warning"))
    || (l == ErrorLevel && (lower == "e" || lower == "error"))
    || (l == FatalLevel && (lower == "f" || lower == "fatal"))
  }

  /** parseLevel: accepts a letter or a full name in any case, otherwise an error
      naming the input. */
  function ParseLevel(lvl: string): (r: Result<Level, Error>)
    ensures r.Success? ==> IsNamed(r.value) && Spells(GoStrings.ToLower(lvl), r.value)
    ensures r.Failure? ==> r.error == Text("Invalid log level: " + lvl)
  {
    var lower := GoStrings.ToLower(lvl);
    if lower == "d" || lower == "debug" then Success(DebugLevel)
    else if lower == "i" || lower == "info" then Success(InfoLevel)
    else if lower == "w" || lower == "warning" then Success(WarningLevel)
    else if lower == "e" || lower == "error" then Success(ErrorLevel)
    else if lower == "f" || lower == "fatal" then Success(FatalLevel)
    else Failure(Text("Invalid log level: " + lvl))
  }

  /** The parser accepts exactly the spellings: every spelling of l parses to l,
      and nothing else parses. */
  lemma ParseLevelExact(lvl: string, l: Level)
    ensures ParseLevel(lvl) == Success(l) <==> Spells(GoStrings.ToLower(lvl), l)
  {
  }

  /** Parsing what a named level prints gives the level back. */
  lemma StringRoundTrip(l: Level)
    requires IsNamed(l)
    ensures ParseLevel(LevelString(l)) == Success(l)
  {
    assert GoStrings.ToLower(LevelString(l)) == [GoStrings.LowerChar(LevelString(l)[0])];
  }

  /** Upper-case and mixed-case spellings are accepted too. */
  lemma CaseInsensitive()
    ensures ParseLevel("DEBUG") == Success(DebugLevel)
    ensures ParseLevel("Info") == Success(InfoLevel)
    ensures ParseLevel("eRRoR") == Success(ErrorLevel)
  {
    LowerLiteral("DEBUG", "debug");
    LowerLiteral("Info", "info");
    LowerLiteral("eRRoR", "error");
  }

  /** "warn" is not a spelling of WarningLevel. */
  lemma AbbreviationRejected()
    ensures ParseLevel("warn").Failure?
  {
    LowerLiteral("warn", "warn");
    assert |"warn"| == 4;
    assert "warn"[2] == 'r';
  }

  lemma LowerLiteral(s: string, t: string)
    requires |s| == |t| && forall i :: 0 <= i < |s| ==> GoStrings.LowerChar(s[i]) == t[i]
    ensures GoStrings.ToLower(s) == t
  {
  }
}
