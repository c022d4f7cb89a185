/** The levelled logger of logger/logger.go: the five levels, their names, the process-wide
    current level, and which messages each level lets through. */
module Logger {
  import opened Text

  /** A log level; the type is an integer, so values outside the five named ones exist. */
  type LogLevel = int

  const Silent: LogLevel := 0
  const Error: LogLevel := 1
  const Warn: LogLevel := 2
  const Info: LogLevel := 3
  const Debug: LogLevel := 4

  predicate Named(l: LogLevel) { Silent <= l <= Debug }

  /** ParseLogLevel: the name, in any case, of a level; WARNING also names WARN; anything else
      is INFO. */
  function ParseLogLevel(s: string): (r: LogLevel)
    ensures Named(r)
  {
    var u := ToUpper(s);
    if u == "SILENT" then Silent
    else if u == "ERROR" then Error
    else if u == "WARN" || u == "WARNING" then Warn
    else if u == "INFO" then Info
    else if u == "DEBUG" then Debug
    else Info
  }

  /** LogLevelString: the name of a level; a value outside the five reads as INFO. */
  function LogLevelString(l: LogLevel): (r: string)
    ensures !Named(l) ==> r == "INFO"
  {
    if l == Silent then "SILENT"
    else if l == Error then "ERROR"
    else if l == Warn then "WARN"
    else if l == Info then "INFO"
    else if l == Debug then "DEBUG"
    else "INFO"
  }

  /** Upper-case names are their own upper case. */
  lemma UpperNames()
    ensures ToUpper("SILENT") == "SILENT" && ToUpper("ERROR") == "ERROR" && ToUpper("WARN") == "WARN"
    ensures ToUpper("INFO") == "INFO" && ToUpper("DEBUG") == "DEBUG"
  {
    assert ToUpper("SILENT") == "SILENT" by { assert forall i :: 0 <= i < 6 ==> ToUpper("SILENT")[i] == "SILENT"[i]; }
    assert ToUpper("ERROR") == "ERROR" by { assert forall i :: 0 <= i < 5 ==> ToUpper("ERROR")[i] == "ERROR"[i]; }
    assert ToUpper("WARN") == "WARN" by { assert forall i :: 0 <= i < 4 ==> ToUpper("WARN")[i] == "WARN"[i]; }
    assert ToUpper("INFO") == "INFO" by { assert forall i :: 0 <= i < 4 ==> ToUpper("INFO")[i] == "INFO"[i]; }
    assert ToUpper("DEBUG") == "DEBUG" by { assert forall i :: 0 <= i < 5 ==> ToUpper("DEBUG")[i] == "DEBUG"[i]; }
  }

  /** Every level reads back from its name, and the name of a parsed level is the text given,
      in upper case, whenever that text names a level itself. */
  lemma NamesRoundTrip(l: LogLevel, s: string)
    ensures Named(l) ==> ParseLogLevel(LogLevelString(l)) == l
    ensures ToUpper(s) in {"SILENT", "ERROR", "WARN", "INFO", "DEBUG"} ==> LogLevelString(ParseLogLevel(s)) == ToUpper(s)
    ensures ToUpper(s) == "WARNING" ==> LogLevelString(ParseLogLevel(s)) == "WARN"
  {
    UpperNames();
  }

  /** Parsing ignores case. */
  lemma ParseIgnoresCase(s: string)
    ensures ParseLogLevel(ToLower(s)) == ParseLogLevel(s)
  {
    assert ToUpper(ToLower(s)) == ToUpper(s) by {
      forall i | 0 <= i < |s| ensures ToUpper(ToLower(s))[i] == ToUpper(s)[i] {
        assert ToLower(s)[i] == LowerChar(s[i]);
      }
    }
  }

  /** A message of kind `kind` is written when the current level is at least that kind. */
  predicate Emits(current: LogLevel, kind: LogLevel) { current >= kind }

  /** SILENT writes nothing, DEBUG writes everything, and raising the level never silences a
      message that was written. */
  lemma Gating(current: LogLevel, higher: LogLevel, kind: LogLevel)
    requires Error <= kind <= Debug
    ensures !Emits(Silent, kind) && Emits(Debug, kind)
    ensures Emits(current, kind) && current <= higher ==> Emits(higher, kind)
  {
  }

  const ErrorPrefix: string := "ERROR: "
  const WarnPrefix: string := "警告: "
  const DebugPrefix: string := "DEBUG: "

  /** The process-wide logger: the current level and what was written to the error stream and
      to the log stream, one formatted message per line. */
  class LogState {
    var currentLevel: LogLevel
    var logOutput: seq<string>
    var errorOutput: seq<string>

    /** The initial state: level INFO, nothing written. */
    constructor ()
      ensures currentLevel == Info && logOutput == [] && errorOutput == []
    {
      currentLevel := Info;
      logOutput := [];
      errorOutput := [];
    }

    method SetLogLevel(level: LogLevel)
      modifies this
      ensures currentLevel == level
      ensures logOutput == old(logOutput) && errorOutput == old(errorOutput)
    {
      currentLevel := level;
    }

    /** GetCurrentLevel */
    function GetCurrentLevel(): (r: LogLevel)
      reads this
      ensures r == currentLevel
    {
      currentLevel
    }

    /** Error: to the error stream, unless the level is SILENT (or below). */
    method LogError(msg: string)
      modifies this
      ensures errorOutput == old(errorOutput) + (if Emits(currentLevel, Error) then [ErrorPrefix + msg] else [])
      ensures logOutput == old(logOutput) && currentLevel == old(currentLevel)
    {
      if currentLevel >= Error {
        errorOutput := errorOutput + [ErrorPrefix + msg];
      }
    }

    method LogWarn(msg: string)
      modifies this
      ensures logOutput == old(logOutput) + (if Emits(currentLevel, Warn) then [WarnPrefix + msg] else [])
      ensures errorOutput == old(errorOutput) && currentLevel == old(currentLevel)
    {
      if currentLevel >= Warn {
        logOutput := logOutput + [WarnPrefix + msg];
      }
    }

    method LogInfo(msg: string)
      modifies this
      ensures logOutput == old(logOutput) + (if Emits(currentLevel, Info) then [msg] else [])
      ensures errorOutput == old(errorOutput) && currentLevel == old(currentLevel)
    {
      if currentLevel >= Info {
        logOutput := logOutput + [msg];
      }
    }

    method LogDebug(msg: string)
      modifies this
      ensures logOutput == old(logOutput) + (if Emits(currentLevel, Debug) then [DebugPrefix + msg] else [])
      ensures errorOutput == old(errorOutput) && currentLevel == old(currentLevel)
    {
      if currentLevel >= Debug {
        logOutput := logOutput + [DebugPrefix + msg];
      }
    }
  }
}
