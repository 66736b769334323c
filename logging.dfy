/**
 * `Log`: a text-file or in-memory log. The model keeps the object's
 * fields, the in-memory buffer, the sequence of `ExceptionThrownEvent`
 * notifications and the sequence of file-system writes. What the file
 * system answers (does the append work, how long is the file, ...) and the
 * current time's text are inputs, bundled as a `FileEnv`.
 */
module Logging {
  import Wrappers
  import DotNet

  datatype LogType = Text | Memory

  datatype MessageType = None | Information | Warning | Error | Debug

  const MinLogSize: int := 1024
  const DefaultMaxLogSize: int := 1024 * 500
  const EmptyString: string := ""

  /** The exceptions the model distinguishes. */
  datatype LogError =
    | InvalidOperation // wrong log type, or DateFormat used while InsertDate is false
    | ArgumentNull     // no log path
    | NullReference    // no in-memory buffer
    | Format           // the date format string was refused
    | FileError        // a file-system call threw

  /** A file-system write the log performed. */
  datatype FileOp =
    | Append(path: string, text: string)     // File.AppendAllText
    | Compress(path: string, gzName: string) // Log.Compress: gzip `path` into `gzName`
    | DeleteFile(path: string)               // File.Delete

  /** How the environment answers the calls one operation may make. */
  datatype FileEnv = FileEnv(
    stamp: Wrappers.Option<string>, // DateTime.Now.ToString(dateFormat); None if the format is refused
    appendOk: bool,                 // File.AppendAllText succeeds
    length: Wrappers.Option<int>,   // LogLength: 0 for a missing file; None if the probe throws
    archiveStamp: string,           // DateTime.Now.ToString("dd_MM_yyyy_HH_mm_ss")
    compressOk: bool,               // Compress succeeds
    fileExists: bool,                  // File.Exists(logPath) in Delete
    deleteOk: bool)                 // File.Delete succeeds

  /** `Enum.GetName` on `MessageType`. */
  function MessageTypeName(t: MessageType): string {
    match t
    case None => "None"
    case Information => "Information"
    case Warning => "Warning"
    case Error => "Error"
    case Debug => "Debug"
  }

  /** `_StringFromMessageType`: nothing for None, otherwise the bracketed name in upper case. */
  function MessageTag(t: MessageType): (tag: string)
    ensures tag == "" <==> t == None
  {
    var raw := if t == None then "" else "[" + MessageTypeName(t) + "]";
    DotNet.ToUpperAscii(raw)
  }

  /** A tag is the type name, upper-cased, between brackets, and holds no lower-case letter. */
  lemma TagShape(t: MessageType)
    requires t != None
    ensures var tag := MessageTag(t);
      && |tag| == |MessageTypeName(t)| + 2 && tag[0] == '[' && tag[|tag| - 1] == ']'
      && tag[1..|tag| - 1] == DotNet.ToUpperAscii(MessageTypeName(t))
      && forall i :: 0 <= i < |tag| ==> !('a' <= tag[i] <= 'z')
  {
    var name := MessageTypeName(t);
    BracketUpper(name);
    var u := DotNet.ToUpperAscii(name);
    assert MessageTag(t) == "[" + u + "]";
    assert MessageTag(t)[1..|MessageTag(t)| - 1] == u;
  }

  /** Upper-casing leaves the brackets around a name in place. */
  lemma BracketUpper(name: string)
    ensures DotNet.ToUpperAscii("[" + name + "]") == "[" + DotNet.ToUpperAscii(name) + "]"
  {
    DotNet.UpperConcat("[" + name, "]");
    DotNet.UpperConcat("[", name);
    assert DotNet.ToUpperAscii("[") == "[" && DotNet.ToUpperAscii("]") == "]";
  }

  /** The first eight characters of the Information tag, in upper case. */
  lemma UpperInforma()
    ensures DotNet.ToUpperAscii("[Informa") == "[INFORMA"
  {
    assert DotNet.ToUpperAscii("[Inf")[0] == DotNet.UpperChar('[') == '[' && DotNet.ToUpperAscii("[Inf")[1] == DotNet.UpperChar('I') == 'I' && DotNet.ToUpperAscii("[Inf")[2] == DotNet.UpperChar('n') == 'N' && DotNet.ToUpperAscii("[Inf")[3] == DotNet.UpperChar('f') == 'F';
    assert DotNet.ToUpperAscii("[Inf") == "[INF";
    assert DotNet.ToUpperAscii("orma")[0] == DotNet.UpperChar('o') == 'O' && DotNet.ToUpperAscii("orma")[1] == DotNet.UpperChar('r') == 'R' && DotNet.ToUpperAscii("orma")[2] == DotNet.UpperChar('m') == 'M' && DotNet.ToUpperAscii("orma")[3] == DotNet.UpperChar('a') == 'A';
    assert DotNet.ToUpperAscii("orma") == "ORMA";
    DotNet.UpperConcat("[Inf", "orma");
    assert "[Inf" + "orma" == "[Informa" && "[INF" + "ORMA" == "[INFORMA";
  }

  lemma TagInformation()
    ensures MessageTag(Information) == "[INFORMATION]"
  {
    assert "[" + MessageTypeName(Information) + "]" == "[Information]";
    assert DotNet.ToUpperAscii("tion]")[0] == DotNet.UpperChar('t') == 'T' && DotNet.ToUpperAscii("tion]")[1] == DotNet.UpperChar('i') == 'I' && DotNet.ToUpperAscii("tion]")[2] == DotNet.UpperChar('o') == 'O' && DotNet.ToUpperAscii("tion]")[3] == DotNet.UpperChar('n') == 'N' && DotNet.ToUpperAscii("tion]")[4] == DotNet.UpperChar(']') == ']';
    assert DotNet.ToUpperAscii("tion]") == "TION]";
    UpperInforma();
    DotNet.UpperConcat("[Informa", "tion]");
    assert "[Informa" + "tion]" == "[Information]" && "[INFORMA" + "TION]" == "[INFORMATION]";
  }

  /** The Warning tag without its closing bracket, in upper case. */
  lemma UpperWarning()
    ensures DotNet.ToUpperAscii("[Warning") == "[WARNING"
  {
    assert DotNet.ToUpperAscii("[War")[0] == DotNet.UpperChar('[') == '[' && DotNet.ToUpperAscii("[War")[1] == DotNet.UpperChar('W') == 'W' && DotNet.ToUpperAscii("[War")[2] == DotNet.UpperChar('a') == 'A' && DotNet.ToUpperAscii("[War")[3] == DotNet.UpperChar('r') == 'R';
    assert DotNet.ToUpperAscii("[War") == "[WAR";
    assert DotNet.ToUpperAscii("ning")[0] == DotNet.UpperChar('n') == 'N' && DotNet.ToUpperAscii("ning")[1] == DotNet.UpperChar('i') == 'I' && DotNet.ToUpperAscii("ning")[2] == DotNet.UpperChar('n') == 'N' && DotNet.ToUpperAscii("ning")[3] == DotNet.UpperChar('g') == 'G';
    assert DotNet.ToUpperAscii("ning") == "NING";
    DotNet.UpperConcat("[War", "ning");
    assert "[War" + "ning" == "[Warning" && "[WAR" + "NING" == "[WARNING";
  }

  lemma TagWarning()
    ensures MessageTag(Warning) == "[WARNING]"
  {
    assert "[" + MessageTypeName(Warning) + "]" == "[Warning]";
    assert DotNet.ToUpperAscii("]")[0] == DotNet.UpperChar(']') == ']';
    assert DotNet.ToUpperAscii("]") == "]";
    UpperWarning();
    DotNet.UpperConcat("[Warning", "]");
    assert "[Warning" + "]" == "[Warning]" && "[WARNING" + "]" == "[WARNING]";
  }

  lemma TagError()
    ensures MessageTag(MessageType.Error) == "[ERROR]"
  {
    assert "[" + MessageTypeName(Error) + "]" == "[Error]";
    assert DotNet.ToUpperAscii("[Err")[0] == DotNet.UpperChar('[') == '[' && DotNet.ToUpperAscii("[Err")[1] == DotNet.UpperChar('E') == 'E' && DotNet.ToUpperAscii("[Err")[2] == DotNet.UpperChar('r') == 'R' && DotNet.ToUpperAscii("[Err")[3] == DotNet.UpperChar('r') == 'R';
    assert DotNet.ToUpperAscii("[Err") == "[ERR";
    assert DotNet.ToUpperAscii("or]")[0] == DotNet.UpperChar('o') == 'O' && DotNet.ToUpperAscii("or]")[1] == DotNet.UpperChar('r') == 'R' && DotNet.ToUpperAscii("or]")[2] == DotNet.UpperChar(']') == ']';
    assert DotNet.ToUpperAscii("or]") == "OR]";
    DotNet.UpperConcat("[Err", "or]");
    assert "[Err" + "or]" == "[Error]" && "[ERR" + "OR]" == "[ERROR]";
  }

  lemma TagDebug()
    ensures MessageTag(Debug) == "[DEBUG]"
  {
    assert "[" + MessageTypeName(Debug) + "]" == "[Debug]";
    assert DotNet.ToUpperAscii("[Deb")[0] == DotNet.UpperChar('[') == '[' && DotNet.ToUpperAscii("[Deb")[1] == DotNet.UpperChar('D') == 'D' && DotNet.ToUpperAscii("[Deb")[2] == DotNet.UpperChar('e') == 'E' && DotNet.ToUpperAscii("[Deb")[3] == DotNet.UpperChar('b') == 'B';
    assert DotNet.ToUpperAscii("[Deb") == "[DEB";
    assert DotNet.ToUpperAscii("ug]")[0] == DotNet.UpperChar('u') == 'U' && DotNet.ToUpperAscii("ug]")[1] == DotNet.UpperChar('g') == 'G' && DotNet.ToUpperAscii("ug]")[2] == DotNet.UpperChar(']') == ']';
    assert DotNet.ToUpperAscii("ug]") == "UG]";
    DotNet.UpperConcat("[Deb", "ug]");
    assert "[Deb" + "ug]" == "[Debug]" && "[DEB" + "UG]" == "[DEBUG]";
  }

  lemma MessageTags(t: MessageType)
    ensures MessageTag(t) == match t
      case None => ""
      case Information => "[INFORMATION]"
      case Warning => "[WARNING]"
      case Error => "[ERROR]"
      case Debug => "[DEBUG]"
  {
    match t
    case None =>
    case Information => TagInformation();
    case Warning => TagWarning();
    case Error => TagError();
    case Debug => TagDebug();
  }

  /** The date part of a line: the bracketed time stamp, or nothing when dates are off. */
  function DatePart(insertDate: bool, stamp: string): (date: string)
    ensures !insertDate ==> date == ""
    ensures insertDate ==> |date| == |stamp| + 2 && date[0] == '[' && date[|date| - 1] == ']'
    ensures insertDate ==> date[1..|date| - 1] == stamp
  {
    if insertDate then "[" + stamp + "]" else ""
  }

  /** `String.Format("{0} {1} {2}{3}", date, tag, text, "\r\n")`. */
  function Line(date: string, tag: string, text: string): (line: string)
    ensures |line| == |date| + |tag| + |text| + 4
    ensures line[..|date|] == date && line[|line| - 2..] == "\r\n"
  {
    date + " " + tag + " " + text + "\r\n"
  }

  /** The line `Write` produces for a message of type `t`: the text follows the tag and a space. */
  function FormatLine(date: string, t: MessageType, text: string): (line: string)
    ensures var at := |date| + |MessageTag(t)| + 2;
      && |line| == at + |text| + 2
      && line[|date| + 1..at - 1] == MessageTag(t)
      && line[at..at + |text|] == text
  {
    LineLayout(date, MessageTag(t), text);
    Line(date, MessageTag(t), text)
  }

  /** A line is its date, a space, its tag, a space, the text and CRLF. */
  lemma LineLayout(date: string, tag: string, text: string)
    ensures var line := Line(date, tag, text);
      var at := |date| + |tag| + 2;
      && |line| == at + |text| + 2
      && line[..|date|] == date
      && line[|date|] == ' '
      && line[|date| + 1..at - 1] == tag
      && line[at - 1] == ' '
      && line[at..at + |text|] == text
      && line[|line| - 2..] == "\r\n"
  {
    var line := Line(date, tag, text);
    var at := |date| + |tag| + 2;
    assert line[..|date|] == date;
    assert line[|date| + 1..at - 1] == tag;
    assert line[at..at + |text|] == text;
  }

  /** A line holds no line feed before its final CRLF when neither the date nor the text does. */
  lemma SingleLine(date: string, t: MessageType, text: string)
    requires '\n' !in date && '\n' !in text
    ensures var line := FormatLine(date, t, text);
      |line| >= 2 && line[|line| - 2..] == "\r\n" && '\n' !in line[..|line| - 2]
  {
    var tag := MessageTag(t);
    TagNoLineFeed(t);
    var body := date + " " + tag + " " + text;
    assert Line(date, tag, text) == body + "\r\n";
    assert (body + "\r\n")[..|body|] == body;
  }

  lemma TagNoLineFeed(t: MessageType)
    ensures '\n' !in MessageTag(t)
  {
    MessageTags(t);
  }

  /** The `MaxLogLength` setter: `Math.Max(_minLogSize, value)`. */
  function ClampMaxLogLength(value: int): (stored: int)
    ensures stored >= MinLogSize && stored >= value
    ensures stored == value || stored == MinLogSize
  {
    if value < MinLogSize then MinLogSize else value
  }

  /** Clamping a clamped value changes nothing; clamping keeps the order of values. */
  lemma ClampProperties(u: int, v: int)
    ensures ClampMaxLogLength(ClampMaxLogLength(u)) == ClampMaxLogLength(u)
    ensures u <= v ==> ClampMaxLogLength(u) <= ClampMaxLogLength(v)
    ensures ClampMaxLogLength(DefaultMaxLogSize) == DefaultMaxLogSize
  {
  }

  /** The name `_CheckAutoCompress` gives the archive: the log path, '_', the stamp and ".gz". */
  function ArchiveName(logPath: string, archiveStamp: string): (name: string)
    ensures |name| == |logPath| + |archiveStamp| + 4
    ensures name[..|logPath|] == logPath && name[|logPath|] == '_' && name[|name| - 3..] == ".gz"
    ensures name[|logPath| + 1..|name| - 3] == archiveStamp
  {
    logPath + "_" + archiveStamp + ".gz"
  }

  /**
   * The visible result of one operation: the file writes and the event
   * notifications it adds, the buffer it leaves, and the exception it
   * lets escape (None when it returns normally).
   */
  datatype Effect = Effect(
    ops: seq<FileOp>,
    errors: seq<LogError>,
    memory: Wrappers.Option<string>,
    thrown: Wrappers.Option<LogError>)

  class Log {
    var logPath: string
    var memory: Wrappers.Option<string>
    var insertDate: bool
    var dateFormat: string
    var logType: LogType
    var autoCompress: bool
    var maxLogSize: int
    var enableThrows: bool
    /** The exceptions passed to `ExceptionThrownEvent`, oldest first. */
    var raised: seq<LogError>
    /** The file-system writes performed, oldest first. */
    var fileOps: seq<FileOp>

    /** Every constructor allocates the buffer and stores a clamped maximum. */
    ghost predicate Valid()
      reads this
    {
      maxLogSize >= MinLogSize && memory.Some?
    }

    /** `Log()`. Its `_CheckAutoCompress()` reads nothing, since AutoCompress is still false. */
    constructor ()
      ensures logPath == "" && dateFormat == "" && logType == Text && memory == Wrappers.Some("")
      ensures !insertDate && !autoCompress && !enableThrows && maxLogSize == DefaultMaxLogSize
      ensures raised == [] && fileOps == []
      ensures Valid()
    {
      logPath, dateFormat, logType, memory := "", "", Text, Wrappers.Some("");
      insertDate, autoCompress, enableThrows, maxLogSize := false, false, false, DefaultMaxLogSize;
      raised, fileOps := [], [];
    }

    /** `Log(logPath)`. */
    constructor WithPath(logPath: string)
      ensures this.logPath == logPath && dateFormat == "" && logType == Text && memory == Wrappers.Some("")
      ensures !insertDate && !autoCompress && !enableThrows && maxLogSize == DefaultMaxLogSize
      ensures raised == [] && fileOps == []
      ensures Valid()
    {
      this.logPath, dateFormat, logType, memory := logPath, "", Text, Wrappers.Some("");
      insertDate, autoCompress, enableThrows, maxLogSize := false, false, false, DefaultMaxLogSize;
      raised, fileOps := [], [];
    }

    /** `Log(logPath, logType)`: the buffer is already there, so `_CheckType` keeps it. */
    constructor WithPathAndType(logPath: string, logType: LogType)
      ensures this.logPath == logPath && dateFormat == "" && this.logType == logType
      ensures memory == Wrappers.Some("")
      ensures !insertDate && !autoCompress && !enableThrows && maxLogSize == DefaultMaxLogSize
      ensures raised == [] && fileOps == []
      ensures Valid()
    {
      this.logPath, dateFormat, this.logType, memory := logPath, "", logType, Wrappers.Some("");
      insertDate, autoCompress, enableThrows, maxLogSize := false, false, false, DefaultMaxLogSize;
      raised, fileOps := [], [];
    }

    /** `_CheckType`: a Memory log without a buffer gets an empty one. */
    method CheckType()
      modifies this`memory
      ensures memory == if logType == Memory && old(memory).None? then Wrappers.Some("") else old(memory)
      ensures logType == Memory ==> memory.Some?
    {
      if logType == Memory {
        if memory.None? {
          memory := Wrappers.Some("");
        }
      }
    }

    /** The `LogPath` setter. */
    method SetLogPath(value: string)
      modifies this`logPath, this`memory
      ensures logPath == value
      ensures memory == if logType == Memory && old(memory).None? then Wrappers.Some("") else old(memory)
    {
      logPath := value;
      CheckType();
    }

    method SetInsertDate(value: bool)
      modifies this`insertDate
      ensures insertDate == value
    {
      insertDate := value;
    }

    method SetAutoCompress(value: bool)
      modifies this`autoCompress
      ensures autoCompress == value
    {
      autoCompress := value;
    }

    method SetEnableThrows(value: bool)
      modifies this`enableThrows
      ensures enableThrows == value
    {
      enableThrows := value;
    }

    lemma TagNoLineFeed(t: MessageType)
    ensures '\n' !in MessageTag(t)
  {
    MessageTags(t);
  }

  /** The `MaxLogLength` setter. */
    method SetMaxLogLength(value: int)
      modifies this`maxLogSize
      ensures maxLogSize == ClampMaxLogLength(value)
      ensures old(memory).Some? ==> Valid()
    {
      maxLogSize := if MinLogSize > value then MinLogSize else value;
    }

    /**
     * The catch block every operation shares: raise `ExceptionThrownEvent`
     * with the exception, then rethrow it only if `EnableThrows` is set.
     */
    method Report(e: LogError) returns (thrown: Wrappers.Option<LogError>)
      modifies this`raised
      ensures raised == old(raised) + [e]
      ensures thrown == Caught(e)
    {
      raised := raised + [e];
      if enableThrows {
        thrown := Wrappers.Some(e);
      } else {
        thrown := Wrappers.None;
      }
    }

    /** The exception a catch block lets escape. */
    function Caught(e: LogError): (thrown: Wrappers.Option<LogError>)
      reads this`enableThrows
      ensures thrown.Some? <==> enableThrows
      ensures thrown.Some? ==> thrown.value == e
    {
      if enableThrows then Wrappers.Some(e) else Wrappers.None
    }

    /** The `DateFormat` getter: refused (reported) while InsertDate is false. */
    method GetDateFormat() returns (value: string, thrown: Wrappers.Option<LogError>)
      modifies this`raised
      ensures raised == old(raised) + (if insertDate then [] else [InvalidOperation])
      ensures thrown == if insertDate then Wrappers.None else Caught(InvalidOperation)
      ensures thrown.None? ==> value == dateFormat
    {
      value := "";
      thrown := Wrappers.None;
      if !insertDate {
        thrown := Report(InvalidOperation);
        if thrown.Some? {
          return;
        }
      }
      value := dateFormat;
    }

    /** The `DateFormat` setter: reported while InsertDate is false, stored unless rethrown. */
    method SetDateFormat(value: string) returns (thrown: Wrappers.Option<LogError>)
      modifies this`raised, this`dateFormat
      ensures raised == old(raised) + (if insertDate then [] else [InvalidOperation])
      ensures thrown == if insertDate then Wrappers.None else Caught(InvalidOperation)
      ensures dateFormat == if thrown.None? then value else old(dateFormat)
    {
      thrown := Wrappers.None;
      if !insertDate {
        thrown := Report(InvalidOperation);
        if thrown.Some? {
          return;
        }
      }
      dateFormat := value;
    }

    /** The `LogLength` getter: the probed length, or 0 after a reported failure. */
    method ReadLogLength(probe: Wrappers.Option<int>) returns (length: int, thrown: Wrappers.Option<LogError>)
      modifies this`raised
      ensures raised == old(raised) + (if probe.Some? then [] else [FileError])
      ensures thrown == if probe.Some? then Wrappers.None else Caught(FileError)
      ensures thrown.None? ==> length == if probe.Some? then probe.value else 0
    {
      if probe.Some? {
        return probe.value, Wrappers.None;
      }
      thrown := Report(FileError);
      length := 0;
    }

    // -------------------------------------------------------------------
    // What each operation does, as a function of the fields it reads.

    /** A call whose try block threw `e` before doing anything. */
    function Fails(e: LogError): Effect
      reads this`memory, this`enableThrows
    {
      Effect([], [e], memory, Caught(e))
    }

    /** A call that performs `ops`, then runs `inner` inside its own try block. */
    function Then(ops: seq<FileOp>, inner: Effect): (e: Effect)
      reads this`enableThrows
      ensures e.ops == ops + inner.ops && e.memory == inner.memory
      ensures e.thrown == if inner.thrown.Some? then Caught(inner.thrown.value) else Wrappers.None
      ensures e.errors == inner.errors + (if inner.thrown.Some? then [inner.thrown.value] else [])
    {
      if inner.thrown.Some? then
        Effect(ops + inner.ops, inner.errors + [inner.thrown.value], inner.memory, Caught(inner.thrown.value))
      else Effect(ops + inner.ops, inner.errors, inner.memory, Wrappers.None)
    }

    /** `Delete()`: the file in Text mode, the buffer otherwise. */
    function DeleteEffect(env: FileEnv): Effect
      reads this`logType, this`logPath, this`memory, this`enableThrows
    {
      if logType == Text then
        if logPath == "" then Fails(ArgumentNull)
        else if !env.fileExists then Effect([], [], memory, Wrappers.None)
        else if env.deleteOk then Effect([DeleteFile(logPath)], [], memory, Wrappers.None)
        else Fails(FileError)
      else if memory.None? then Fails(NullReference)
      else Effect([], [], Wrappers.Some(""), Wrappers.None)
    }

    /** `_CheckAutoCompress()`: archive and delete once the file reaches the maximum. */
    function AutoCompressEffect(env: FileEnv): Effect
      reads this`autoCompress, this`maxLogSize, this`logType, this`logPath, this`memory, this`enableThrows
    {
      if !autoCompress then Effect([], [], memory, Wrappers.None)
      else
        // LogLength reports a failed probe itself, then returns 0 or rethrows.
        var probeErrors := if env.length.None? then [FileError] else [];
        var length := if env.length.Some? then env.length.value else 0;
        if env.length.None? && enableThrows then
          Effect([], probeErrors + [FileError], memory, Caught(FileError))
        else if length < maxLogSize then Effect([], probeErrors, memory, Wrappers.None)
        else
          var d := ArchiveEffect(env);
          Effect(d.ops, probeErrors + d.errors, d.memory, d.thrown)
    }

    /** The body of `_CheckAutoCompress()` once the size is reached: compress, then `Delete()`. */
    function ArchiveEffect(env: FileEnv): Effect
      reads this`logType, this`logPath, this`memory, this`enableThrows
    {
      if !env.compressOk then Fails(FileError)
      else Then([Compress(logPath, ArchiveName(logPath, env.archiveStamp))], DeleteEffect(env))
    }

    /** `Write(text, msgType)`. */
    function WriteEffect(text: string, msgType: MessageType, env: FileEnv): Effect
      reads this`insertDate, this`logType, this`logPath, this`memory, this`enableThrows
      reads this`autoCompress, this`maxLogSize
    {
      if insertDate && env.stamp.None? then Fails(Format)
      else AppendLineEffect(FormatLine(DatePart(insertDate, if insertDate then env.stamp.value else ""), msgType, text), env)
    }

    /** The rest of `Write`'s try block once the line is formatted: to the file, or to the buffer. */
    function AppendLineEffect(line: string, env: FileEnv): Effect
      reads this`logType, this`logPath, this`memory, this`enableThrows, this`autoCompress, this`maxLogSize
    {
      if logType == Text then
        if !env.appendOk then Fails(FileError)
        else Then([Append(logPath, line)], AutoCompressEffect(env))
      else if memory.None? then Fails(NullReference)
      else Effect([], [], Wrappers.Some(memory.value + line), Wrappers.None)
    }

    /** `SaveFromMemory()`. */
    function SaveEffect(env: FileEnv): Effect
      reads this`logType, this`logPath, this`memory, this`enableThrows, this`autoCompress, this`maxLogSize
    {
      if logType != Memory then Fails(InvalidOperation)
      else if logPath == "" then Fails(ArgumentNull)
      else if memory.None? then Fails(NullReference)
      else if !env.appendOk then Fails(FileError)
      else Then([Append(logPath, memory.value)], AutoCompressEffect(env))
    }

    /** The new state is the old one with effect `e` applied. */
    twostate predicate Applied(e: Effect)
      reads this
    {
      && fileOps == old(fileOps) + e.ops
      && raised == old(raised) + e.errors
      && memory == e.memory
    }

    // -------------------------------------------------------------------
    // The operations.

    /** `Delete()`. */
    method Delete(env: FileEnv) returns (thrown: Wrappers.Option<LogError>)
      modifies this`raised, this`fileOps, this`memory
      ensures Applied(old(DeleteEffect(env))) && thrown == old(DeleteEffect(env)).thrown
    {
      if logType == Text {
        if logPath == "" {
          thrown := Report(ArgumentNull);
          return;
        }
        if env.fileExists {
          if env.deleteOk {
            fileOps := fileOps + [DeleteFile(logPath)];
          } else {
            thrown := Report(FileError);
            return;
          }
        }
        thrown := Wrappers.None;
      } else {
        if memory.None? {
          thrown := Report(NullReference);
          return;
        }
        memory := Wrappers.Some("");
        thrown := Wrappers.None;
      }
    }

    /** `_CheckAutoCompress()`. */
    method CheckAutoCompress(env: FileEnv) returns (thrown: Wrappers.Option<LogError>)
      modifies this`raised, this`fileOps, this`memory
      ensures Applied(old(AutoCompressEffect(env))) && thrown == old(AutoCompressEffect(env)).thrown
    {
      if !autoCompress {
        return Wrappers.None;
      }
      ghost var probeErrors := if env.length.None? then [FileError] else [];
      var length, t := ReadLogLength(env.length);
      assert raised == old(raised) + probeErrors;
      if t.Some? {
        thrown := Report(t.value);
        return;
      }
      if length < maxLogSize {
        return Wrappers.None;
      }
      ghost var d := ArchiveEffect(env);
      thrown := Archive(env);
      assert raised == old(raised) + (probeErrors + d.errors);
    }

    /** The compress-and-delete half of `_CheckAutoCompress()`, sharing its catch block. */
    method Archive(env: FileEnv) returns (thrown: Wrappers.Option<LogError>)
      modifies this`raised, this`fileOps, this`memory
      ensures Applied(old(ArchiveEffect(env))) && thrown == old(ArchiveEffect(env)).thrown
    {
      if !env.compressOk {
        thrown := Report(FileError);
        return;
      }
      fileOps := fileOps + [Compress(logPath, ArchiveName(logPath, env.archiveStamp))];
      var t := Delete(env);
      if t.Some? {
        thrown := Report(t.value);
        return;
      }
      thrown := Wrappers.None;
    }

    /** `Write(text, msgType)`. */
    method Write(text: string, msgType: MessageType, env: FileEnv) returns (thrown: Wrappers.Option<LogError>)
      modifies this`raised, this`fileOps, this`memory
      ensures Applied(old(WriteEffect(text, msgType, env))) && thrown == old(WriteEffect(text, msgType, env)).thrown
    {
      var date := "";
      if insertDate {
        if env.stamp.None? {
          thrown := Report(Format);
          return;
        }
        date := "[" + env.stamp.value + "]";
      }
      assert date == DatePart(insertDate, if insertDate then env.stamp.value else "");
      thrown := AppendLine(FormatLine(date, msgType, text), env);
    }

    /** The file or buffer half of `Write`, sharing its catch block. */
    method AppendLine(line: string, env: FileEnv) returns (thrown: Wrappers.Option<LogError>)
      modifies this`raised, this`fileOps, this`memory
      ensures Applied(old(AppendLineEffect(line, env))) && thrown == old(AppendLineEffect(line, env)).thrown
    {
      if logType == Text {
        if !env.appendOk {
          thrown := Report(FileError);
          return;
        }
        fileOps := fileOps + [Append(logPath, line)];
        var t := CheckAutoCompress(env);
        if t.Some? {
          thrown := Report(t.value);
          return;
        }
        thrown := Wrappers.None;
      } else {
        if memory.None? {
          thrown := Report(NullReference);
          return;
        }
        memory := Wrappers.Some(memory.value + line);
        thrown := Wrappers.None;
      }
    }

    /** `SaveFromMemory()`. */
    method SaveFromMemory(env: FileEnv) returns (thrown: Wrappers.Option<LogError>)
      modifies this`raised, this`fileOps, this`memory
      ensures Applied(old(SaveEffect(env))) && thrown == old(SaveEffect(env)).thrown
    {
      if logType != Memory {
        thrown := Report(InvalidOperation);
        return;
      }
      if logPath == "" {
        thrown := Report(ArgumentNull);
        return;
      }
      if memory.None? {
        thrown := Report(NullReference);
        return;
      }
      if !env.appendOk {
        thrown := Report(FileError);
        return;
      }
      fileOps := fileOps + [Append(logPath, memory.value)];
      var t := CheckAutoCompress(env);
      if t.Some? {
        thrown := Report(t.value);
        return;
      }
      thrown := Wrappers.None;
    }
  
    // -------------------------------------------------------------------
    // What the operations promise.

    /**
     * The exception handling of the class: an operation lets an exception
     * escape exactly when EnableThrows is set and something was reported,
     * and the exception is the one reported last.
     */
    ghost predicate Escapes(e: Effect)
      reads this`enableThrows
    {
      && (e.thrown.Some? <==> enableThrows && e.errors != [])
      && (e.thrown.Some? ==> e.thrown.value == e.errors[|e.errors| - 1])
    }

    lemma ExceptionsEscapeOnlyWhenEnabled(text: string, msgType: MessageType, env: FileEnv)
      ensures Escapes(DeleteEffect(env)) && Escapes(AutoCompressEffect(env))
      ensures Escapes(WriteEffect(text, msgType, env)) && Escapes(SaveEffect(env))
    {
      DeleteEscapes(env);
      AutoCompressEscapes(env);
      WriteEscapes(text, msgType, env);
      SaveEscapes(env);
    }

    /** A call that reports what escapes its inner call lets it escape only as `Caught` says. */
    lemma ThenEscapes(ops: seq<FileOp>, inner: Effect)
      requires Escapes(inner)
      ensures Escapes(Then(ops, inner))
    {
    }

    lemma DeleteEscapes(env: FileEnv)
      ensures Escapes(DeleteEffect(env))
    {
    }

    lemma AutoCompressEscapes(env: FileEnv)
      ensures Escapes(AutoCompressEffect(env))
    {
      DeleteEscapes(env);
      if env.compressOk {
        ThenEscapes([Compress(logPath, ArchiveName(logPath, env.archiveStamp))], DeleteEffect(env));
      }
      assert Escapes(ArchiveEffect(env));
    }

    lemma WriteEscapes(text: string, msgType: MessageType, env: FileEnv)
      ensures Escapes(WriteEffect(text, msgType, env))
    {
      if !(insertDate && env.stamp.None?) {
        var date := DatePart(insertDate, if insertDate then env.stamp.value else "");
        AppendLineEscapes(FormatLine(date, msgType, text), env);
      }
    }

    lemma SaveEscapes(env: FileEnv)
      ensures Escapes(SaveEffect(env))
    {
      if logType == Memory && logPath != "" && memory.Some? && env.appendOk {
        AutoCompressEscapes(env);
        ThenEscapes([Append(logPath, memory.value)], AutoCompressEffect(env));
      }
    }

    lemma AppendLineEscapes(line: string, env: FileEnv)
      ensures Escapes(AppendLineEffect(line, env))
    {
      if logType == Text && env.appendOk {
        AutoCompressEscapes(env);
        ThenEscapes([Append(logPath, line)], AutoCompressEffect(env));
      }
    }

    /** No operation loses the in-memory buffer. */
    lemma BufferKept(text: string, msgType: MessageType, env: FileEnv)
      requires Valid()
      ensures DeleteEffect(env).memory.Some? && AutoCompressEffect(env).memory.Some?
      ensures WriteEffect(text, msgType, env).memory.Some? && SaveEffect(env).memory.Some?
    {
    }

    /** The archive is due: AutoCompress is on and the file has reached the maximum size. */
    ghost predicate CompressDue(env: FileEnv)
      reads this`autoCompress, this`maxLogSize
    {
      autoCompress && env.length.Some? && env.length.value >= maxLogSize
    }

    /**
     * A Text-mode `Write` appends its line and then, exactly when the
     * archive is due and can be written, archives the file under its
     * time-stamped name and deletes it.
     */
    lemma TextWriteCompressesWhenDue(text: string, msgType: MessageType, env: FileEnv)
      requires Valid() && logType == Text && env.appendOk
      requires insertDate ==> env.stamp.Some?
      ensures var line := FormatLine(DatePart(insertDate, if insertDate then env.stamp.value else ""), msgType, text);
        WriteEffect(text, msgType, env).ops ==
          [Append(logPath, line)] +
          (if CompressDue(env) && env.compressOk then
             [Compress(logPath, ArchiveName(logPath, env.archiveStamp))] +
             (if logPath != "" && env.fileExists && env.deleteOk then [DeleteFile(logPath)] else [])
           else [])
      ensures WriteEffect(text, msgType, env).errors == [] <==>
        !autoCompress || (env.length.Some? && (env.length.value < maxLogSize ||
          (env.compressOk && logPath != "" && (!env.fileExists || env.deleteOk))))
    {
    }

    /**
     * A failed length probe inside `Write` is reported three times when
     * exceptions are rethrown (by `LogLength`, by `_CheckAutoCompress` and by
     * `Write`), and once otherwise, when the probe counts as an empty file.
     */
    lemma LengthFailureReports(text: string, msgType: MessageType, env: FileEnv)
      requires Valid() && logType == Text && env.appendOk && autoCompress && env.length.None?
      requires insertDate ==> env.stamp.Some?
      ensures var e := WriteEffect(text, msgType, env);
        && |e.ops| == 1
        && e.errors == (if enableThrows then [FileError, FileError, FileError] else [FileError])
        && e.thrown == (if enableThrows then Wrappers.Some(FileError) else Wrappers.None)
    {
    }

    /** In Memory mode `Write` only appends the formatted line to the buffer. */
    lemma MemoryWriteAppends(text: string, msgType: MessageType, env: FileEnv)
      requires logType == Memory && memory.Some?
      requires insertDate ==> env.stamp.Some?
      ensures WriteEffect(text, msgType, env) == Effect([], [],
        Wrappers.Some(memory.value + FormatLine(DatePart(insertDate, if insertDate then env.stamp.value else ""), msgType, text)),
        Wrappers.None)
    {
    }

    /**
     * Saving a Memory log when the archive is due writes the buffer to the
     * file and archives the file, and then `Delete` clears the buffer
     * instead of deleting the file, which stays in place.
     */
    lemma MemorySaveClearsBuffer(env: FileEnv)
      requires logType == Memory && logPath != "" && memory.Some?
      requires env.appendOk && CompressDue(env) && env.compressOk
      ensures SaveEffect(env) == Effect(
        [Append(logPath, memory.value), Compress(logPath, ArchiveName(logPath, env.archiveStamp))],
        [], Wrappers.Some(""), Wrappers.None)
    {
    }

    /** `SaveFromMemory` refuses a Text log and a log without a path, and writes nothing then. */
    lemma SaveRefusals(env: FileEnv)
      ensures logType == Text ==> SaveEffect(env).ops == [] && SaveEffect(env).errors == [InvalidOperation]
      ensures logType == Memory && logPath == "" ==> SaveEffect(env).ops == [] && SaveEffect(env).errors == [ArgumentNull]
    {
    }

    /** A Text-mode `Delete` deletes the file exactly when there is a path and the file exists and can be deleted. */
    lemma TextDelete(env: FileEnv)
      requires logType == Text
      ensures DeleteEffect(env).ops == if logPath != "" && env.fileExists && env.deleteOk then [DeleteFile(logPath)] else []
      ensures DeleteEffect(env).errors == [] <==> logPath != "" && (!env.fileExists || env.deleteOk)
      ensures DeleteEffect(env).memory == memory
    {
    }
  }
}
