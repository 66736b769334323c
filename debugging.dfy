/**
 * The console level gate of `DebugHelper`: a byte-sized flags enum, the
 * process-wide current level, and the validation and filtering done by
 * `ConsoleWriteLine` before a line is printed.
 */
module Debugging {

  // The `DebugLevels` flags (a `[Flags]` enum over `byte`).
  const None: bv8 := 0
  const Debug: bv8 := 1
  const Information: bv8 := 2
  const Warning: bv8 := 4
  const Error: bv8 := 8
  const Fatal: bv8 := 16

  /** The five single-bit levels. */
  const SingleFlags: set<bv8> := {Debug, Information, Warning, Error, Fatal}

  /**
   * `Enum.GetName` on `DebugLevels`: the declared name of a value, and the
   * empty string for a value that is not declared (a combination of flags),
   * which is what formatting the resulting null yields.
   */
  function LevelName(level: bv8): (name: string)
    ensures name != "" <==> level == None || level in SingleFlags
  {
    if level == None then "None"
    else if level == Debug then "Debug"
    else if level == Information then "Information"
    else if level == Warning then "Warning"
    else if level == Error then "Error"
    else if level == Fatal then "Fatal"
    else ""
  }

  /** What one call of `ConsoleWriteLine` does. */
  datatype WriteResult =
    | Silent                // returned without printing
    | Printed(line: string) // wrote this line to the console
    | FormatError           // threw FormatException

  /** The validation of `ConsoleWriteLine`: an odd level other than Debug is refused. */
  predicate Rejected(level: bv8) {
    level != Debug && level as int % 2 != 0
  }

  /** `HasFlag`: every bit of `level` is set in `current`. */
  predicate HasFlag(current: bv8, level: bv8) {
    current & level == level
  }

  /**
   * `ConsoleWriteLine(text, level)` under the current level `current`: the
   * None-check first, then the validation, then the filter.
   */
  function ConsoleLine(current: bv8, level: bv8, text: string): (r: WriteResult)
    ensures level == None ==> r == Silent
    ensures r == FormatError <==> level != None && Rejected(level)
    ensures r.Printed? <==> level != None && !Rejected(level) && HasFlag(current, level)
    ensures r.Printed? ==> r.line == "[" + LevelName(level) + "] " + text
  {
    if level == None then Silent
    else if Rejected(level) then FormatError
    else if HasFlag(current, level) then Printed("[" + LevelName(level) + "] " + text)
    else Silent
  }

  /** Every declared single level passes validation. */
  lemma SingleFlagsAccepted(current: bv8, level: bv8, text: string)
    requires level in SingleFlags
    ensures ConsoleLine(current, level, text) != FormatError
    ensures ConsoleLine(current, level, text).Printed? <==> current & level != 0
  {
  }

  /** A rejected level is rejected whatever the current level is: it never reaches the filter. */
  lemma RejectionIgnoresCurrent(c1: bv8, c2: bv8, level: bv8, text: string)
    requires ConsoleLine(c1, level, text) == FormatError
    ensures ConsoleLine(c2, level, text) == FormatError
  {
  }

  /** Odd combinations such as Debug|Information (3) are refused; even ones such as Information|Warning (6) are not. */
  lemma CombinationsExamples(current: bv8, text: string)
    ensures ConsoleLine(current, Debug | Information, text) == FormatError
    ensures ConsoleLine(current, Debug | Warning, text) == FormatError
    ensures ConsoleLine(current, Information | Warning, text) != FormatError
    ensures ConsoleLine(Information | Warning, Information | Warning, text) == Printed("[] " + text)
  {
  }

  /** With the default level None nothing is ever printed. */
  lemma DefaultPrintsNothing(level: bv8, text: string)
    ensures !ConsoleLine(None, level, text).Printed?
  {
  }

  /** Raising the current level (setting more bits) never hides a line that was printed. */
  lemma FilterMonotone(current: bv8, wider: bv8, level: bv8, text: string)
    requires current & wider == current
    requires ConsoleLine(current, level, text).Printed?
    ensures ConsoleLine(wider, level, text) == ConsoleLine(current, level, text)
  {
  }

  /** The static property `DebugLevel` and the method that reads it. */
  class DebugHelper {
    var debugLevel: bv8

    /** The static field starts at None. */
    constructor ()
      ensures debugLevel == None
    {
      debugLevel := None;
    }

    /** The `DebugLevel` setter stores any byte value, unchecked. */
    method SetDebugLevel(level: bv8)
      modifies this
      ensures debugLevel == level
    {
      debugLevel := level;
    }

    /** `ConsoleWriteLine(text, level)` against the stored level. */
    method ConsoleWriteLine(text: string, level: bv8) returns (r: WriteResult)
      ensures r == ConsoleLine(debugLevel, level, text)
    {
      if level == None {
        return Silent;
      }
      var lvl := level as int;
      if lvl != 1 && lvl % 2 != 0 {
        return FormatError;
      }
      if debugLevel & level == level {
        r := Printed("[" + LevelName(level) + "] " + text);
      } else {
        r := Silent;
      }
    }
  }
}
