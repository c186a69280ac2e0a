/**
 * `spotify.util.SpotifyLogger`: console logging through slf4j, an optional
 * external `log.txt`, message truncation, and reading the tail of the log.
 *
 * The file system is a `LogFile` value: whether the file exists and what
 * `createNewFile`, `canRead`, `canWrite` and `delete` would report, its
 * lines, and whether decoding them fails. The console is the sequence of
 * messages handed to slf4j. The time stamp is a parameter.
 */
module SpotifyLog {
  import opened Lang

  datatype Level = DEBUG | INFO | WARNING | ERROR

  /** One message handed to slf4j. */
  datatype Entry = Entry(level: Level, message: string)

  const DEFAULT_LOG_READ_LINES: int := 50
  const MAX_LINE_LENGTH: nat := 160
  const ELLIPSIS: string := "..."
  const LINE_SYMBOL: char := '-'

  const COULD_NOT_CREATE: string := "Couldn't create log file"
  const LOCKED: string := "Log file is currently locked, likely because it is being written to. Try again."
  const NOT_FOUND_PREFIX: string := "Couldn't find log file under expected location "
  const MALFORMED_PREFIX: string := "Failed to read log file (malformed encoding?): "

  /** The log file as the program can observe it. */
  datatype LogFile = LogFile(
    present: bool,
    creatable: bool,
    readable: bool,
    writable: bool,
    deletable: bool,
    lines: seq<string>,
    readFailure: Option<string>)

  /** The file after `writeToExternalLog`, and the `IOException` it threw, if any. */
  datatype Written = Written(file: LogFile, thrown: Option<Exception>)

  // ---------------------------------------------------------------------------
  // Pure parts

  /** `truncateToEllipsis`: at most 160 characters are kept, then `"..."`. */
  function TruncateToEllipsis(message: string): (r: string)
    ensures |message| <= MAX_LINE_LENGTH ==> r == message
    ensures |message| > MAX_LINE_LENGTH ==> |r| == MAX_LINE_LENGTH + 3 && EndsWith(r, ELLIPSIS)
    ensures |r| <= MAX_LINE_LENGTH + 3
    ensures var k := if |message| <= MAX_LINE_LENGTH then |message| else MAX_LINE_LENGTH;
      r[..k] == message[..k]
  {
    if |message| <= MAX_LINE_LENGTH then message
    else message[..MAX_LINE_LENGTH] + ELLIPSIS
  }

  /** Truncating twice is truncating once: the kept prefix survives. */
  lemma TruncateIdempotent(message: string)
    ensures TruncateToEllipsis(TruncateToEllipsis(message)) == TruncateToEllipsis(message)
  {
    if |message| > MAX_LINE_LENGTH {
      var r := TruncateToEllipsis(message);
      assert r[..MAX_LINE_LENGTH] == message[..MAX_LINE_LENGTH];
    }
  }

  /**
   * On text within the Basic Multilingual Plane the truncation is Java's,
   * whose length test counts UTF-16 units.
   */
  lemma TruncationTestOnBmpText(message: string)
    requires forall i :: 0 <= i < |message| ==> message[i] as int <= 0xFFFF
    ensures Utf16Length(message) == |message|
    ensures TruncateToEllipsis(message) ==
      if Utf16Length(message) <= MAX_LINE_LENGTH then message else message[..MAX_LINE_LENGTH] + ELLIPSIS
  {
    Utf16LengthOfBmp(message);
  }

  /** The line `printLine` logs: 160 - 3 hyphens. */
  const LINE: string := Copies(LINE_SYMBOL, MAX_LINE_LENGTH - |ELLIPSIS|)

  /** The line is 157 hyphens, short enough to pass truncation unchanged. */
  lemma LineIsNotTruncated()
    ensures |LINE| == 157 && forall i :: 0 <= i < |LINE| ==> LINE[i] == '-'
    ensures TruncateToEllipsis(LINE) == LINE
  {
  }

  /** The line `writeToExternalLog` appends: `[<time>] <message>`. */
  function Stamped(now: string, message: string): string
  {
    "[" + now + "] " + message
  }

  /**
   * The lines `Files.readAllLines` reads back for a message written as
   * `message + '\n'` behind complete lines: `current` followed by the
   * message, cut at every "\n", "\r" or "\r\n". A message ending in "\r"
   * forms one "\r\n" terminator with the written '\n'.
   */
  function LinesFrom(message: string, current: string): (r: seq<string>)
    ensures |r| >= 1
    decreases |message|
  {
    if |message| == 0 then [current]
    else if message[0] == '\n' then [current] + LinesFrom(message[1..], "")
    else if message[0] == '\r' then
      if |message| == 1 then [current]
      else if message[1] == '\n' then [current] + LinesFrom(message[2..], "")
      else [current] + LinesFrom(message[1..], "")
    else LinesFrom(message[1..], current + [message[0]])
  }

  /** The lines one written message occupies in the file. */
  function ReadBackLines(message: string): seq<string>
  {
    LinesFrom(message, "")
  }

  /** A message without line terminators is read back as exactly one line. */
  lemma {:induction false} LinesFromOneLine(message: string, current: string)
    requires '\n' !in message && '\r' !in message
    ensures LinesFrom(message, current) == [current + message]
    decreases |message|
  {
    if |message| > 0 {
      assert message[0] != '\n' && message[0] != '\r';
      assert '\n' !in message[1..] && '\r' !in message[1..];
      LinesFromOneLine(message[1..], current + [message[0]]);
      assert current + [message[0]] + message[1..] == current + message;
    } else {
      assert current + message == current;
    }
  }

  /** A '\n' inside a message ends one line of the file and starts the next. */
  lemma {:induction false} LinesFromSplitsAtNewline(first: string, rest: string, current: string)
    requires '\n' !in first && '\r' !in first
    ensures LinesFrom(first + "\n" + rest, current) == [current + first] + LinesFrom(rest, "")
    decreases |first|
  {
    if |first| == 0 {
      var m := first + "\n" + rest;
      assert m[0] == '\n' && m[1..] == rest;
      assert current + first == current;
    } else {
      var m := first + "\n" + rest;
      assert m[0] == first[0] && m[1..] == first[1..] + "\n" + rest;
      assert '\n' !in first[1..] && '\r' !in first[1..];
      LinesFromSplitsAtNewline(first[1..], rest, current + [first[0]]);
      assert current + [first[0]] + first[1..] == current + first;
    }
  }

  /**
   * `writeToExternalLog` on an enabled logger: `logMessage + '\n'` is
   * appended, which adds the lines `readAllLines` will see in it.
   */
  function WriteExternal(f: LogFile, logMessage: string): (w: Written)
    ensures w.thrown.None? <==> (f.present || f.creatable) && f.writable
    ensures w.thrown.None? ==> w.file.lines == (if f.present then f.lines else []) + ReadBackLines(logMessage)
    ensures w.thrown.Some? ==> w.file == f || (!f.present && w.file == f.(present := true, lines := []))
    ensures !f.present && !f.creatable ==> w == Written(f, Some(IOError(COULD_NOT_CREATE)))
    ensures (f.present || f.creatable) ==> w.file.present
  {
    if !f.present && !f.creatable then Written(f, Some(IOError(COULD_NOT_CREATE)))
    else
      var created := if f.present then f else f.(present := true, lines := []);
      if created.writable then Written(created.(lines := created.lines + ReadBackLines(logMessage)), None)
      else Written(created, Some(IOError(LOCKED)))
  }

  /** The limit `readLog` works with: 50 for null, unlimited for a negative one. */
  function NormalizedLimit(limit: Option<int>): (k: int)
    ensures k >= 0
    ensures limit.None? ==> k == 50
    ensures limit.Some? && limit.value < 0 ==> k == INT_MAX
    ensures limit.Some? && limit.value >= 0 ==> k == limit.value
  {
    if limit.None? then DEFAULT_LOG_READ_LINES
    else if limit.value < 0 then INT_MAX
    else limit.value
  }

  /** `lines.subList(Math.max(0, lines.size() - limit), lines.size())`. */
  function Tail<T>(lines: seq<T>, limit: nat): (r: seq<T>)
    ensures |r| == if limit < |lines| then limit else |lines|
    ensures r == lines[|lines| - |r|..]
  {
    lines[if |lines| - limit > 0 then |lines| - limit else 0..]
  }

  /** The tail of a log no longer than the limit is the whole log. */
  lemma TailOfShortLog<T>(lines: seq<T>, limit: nat)
    requires |lines| <= limit
    ensures Tail(lines, limit) == lines
  {
  }

  /** Tails of tails: the shorter limit wins. */
  lemma TailOfTail<T>(lines: seq<T>, a: nat, b: nat)
    ensures Tail(Tail(lines, a), b) == Tail(lines, if a < b then a else b)
  {
  }

  /** A log that gains a line keeps its older tail, shifted by one. */
  lemma TailAfterAppend<T>(lines: seq<T>, line: T, limit: nat)
    requires limit > 0
    ensures Tail(lines + [line], limit) == Tail(lines, limit - 1) + [line]
  {
    var r := Tail(lines + [line], limit);
    assert r[..|r| - 1] == Tail(lines, limit - 1);
  }

  // ---------------------------------------------------------------------------
  // The logger

  class SpotifyLogger {
    /** `logFile != null`; fixed by the constructor. */
    const externalLogging: bool
    /** `logFile.getAbsolutePath()`. */
    const absolutePath: string
    var file: LogFile
    var console: seq<Entry>

    /** `new SpotifyLogger(settings)`: the file is used only when external logging is enabled. */
    constructor (enableExternalLogging: bool, absolutePath: string, file: LogFile)
      ensures externalLogging == enableExternalLogging && this.absolutePath == absolutePath
      ensures this.file == file && console == []
    {
      externalLogging := enableExternalLogging;
      this.absolutePath := absolutePath;
      this.file := file;
      console := [];
    }

    /** `isExternalLoggingEnabled()`. */
    predicate IsExternalLoggingEnabled()
    {
      externalLogging
    }

    /**
     * `logAtLevel(msg, level, truncate, writeToExternalLog)`: the message is
     * truncated only when asked; it always reaches the console; it reaches
     * the file only when asked and enabled; a failed write is swallowed.
     */
    method LogAtLevel(msg: string, level: Level, truncate: bool, writeToExternalLog: bool, now: string)
      modifies this
      ensures var m := if truncate then TruncateToEllipsis(msg) else msg;
        && console == old(console) + [Entry(level, m)]
        && file == if writeToExternalLog && externalLogging then WriteExternal(old(file), Stamped(now, m)).file else old(file)
    {
      var m := msg;
      if truncate {
        m := TruncateToEllipsis(m);
      }
      console := console + [Entry(level, m)];
      if writeToExternalLog && externalLogging {
        var w := WriteExternal(file, Stamped(now, m));
        file := w.file;
      }
    }

    /** `info(message)`: truncated, and written to the file when enabled. */
    method Info(message: string, now: string)
      modifies this
      ensures console == old(console) + [Entry(INFO, TruncateToEllipsis(message))]
      ensures file == if externalLogging then WriteExternal(old(file), Stamped(now, TruncateToEllipsis(message))).file else old(file)
    {
      LogAtLevel(message, INFO, true, true, now);
    }

    /** `printLine()`: 157 hyphens at INFO level. */
    method PrintLine(now: string)
      modifies this
      ensures console == old(console) + [Entry(INFO, LINE)]
      ensures file == if externalLogging then WriteExternal(old(file), Stamped(now, LINE)).file else old(file)
    {
      LineIsNotTruncated();
      Info(LINE, now);
    }

    /** `clearLog()`: false when disabled; otherwise what `delete()` reports. */
    method ClearLog() returns (deleted: bool)
      modifies this
      ensures deleted <==> externalLogging && old(file).present && old(file).deletable
      ensures file == if deleted then old(file).(present := false, lines := []) else old(file)
      ensures console == old(console)
    {
      if !externalLogging {
        return false;
      }
      deleted := file.present && file.deletable;
      if deleted {
        file := file.(present := false, lines := []);
      }
    }

    /**
     * `readLog(limit)`: nothing when disabled; otherwise the last lines of
     * the file up to the normalised limit, in file order, or the
     * `IOException` for a missing, locked or undecodable file.
     */
    method ReadLog(limit: Option<int>) returns (r: Result<seq<string>, Exception>)
      ensures !externalLogging ==> r == Success([])
      ensures externalLogging && !file.present ==> r == Failure(IOError(NOT_FOUND_PREFIX + absolutePath))
      ensures externalLogging && file.present && !file.readable ==> r == Failure(IOError(LOCKED))
      ensures externalLogging && file.present && file.readable && file.readFailure.Some? ==>
        r == Failure(IOError(MALFORMED_PREFIX + file.readFailure.value))
      ensures externalLogging && file.present && file.readable && file.readFailure.None? ==>
        r.Success? && |r.value| == (if NormalizedLimit(limit) < |file.lines| then NormalizedLimit(limit) else |file.lines|)
        && r.value == file.lines[|file.lines| - |r.value|..]
    {
      if externalLogging {
        if file.present {
          if file.readable {
            var lim: int;
            if limit.None? {
              lim := DEFAULT_LOG_READ_LINES;
            } else if limit.value < 0 {
              lim := INT_MAX;
            } else {
              lim := limit.value;
            }
            if file.readFailure.Some? {
              return Failure(IOError(MALFORMED_PREFIX + file.readFailure.value));
            }
            var logFileLines := file.lines;
            var from := if |logFileLines| - lim > 0 then |logFileLines| - lim else 0;
            return Success(logFileLines[from..]);
          } else {
            return Failure(IOError(LOCKED));
          }
        } else {
          return Failure(IOError(NOT_FOUND_PREFIX + absolutePath));
        }
      }
      return Success([]);
    }
  }

  /**
   * A message without line terminators, written to the log, is the newest
   * line `readLog` returns, behind the older lines that still fit the limit.
   */
  lemma WrittenLineIsReadBack(f: LogFile, now: string, message: string, limit: Option<int>)
    requires WriteExternal(f, Stamped(now, message)).thrown.None?
    requires limit.None? || limit.value != 0
    requires '\n' !in Stamped(now, message) && '\r' !in Stamped(now, message)
    ensures var lines := WriteExternal(f, Stamped(now, message)).file.lines;
      Tail(lines, NormalizedLimit(limit)) ==
        Tail(if f.present then f.lines else [], NormalizedLimit(limit) - 1) + [Stamped(now, message)]
  {
    var old_lines := if f.present then f.lines else [];
    LinesFromOneLine(Stamped(now, message), "");
    assert "" + Stamped(now, message) == Stamped(now, message);
    TailAfterAppend(old_lines, Stamped(now, message), NormalizedLimit(limit));
  }

  /** A message holding a '\n' comes back from the file as two lines, not one. */
  lemma MultiLineMessageIsSplit(f: LogFile, logMessage: string, first: string, second: string)
    requires WriteExternal(f, logMessage).thrown.None?
    requires logMessage == first + "\n" + second
    requires '\n' !in first && '\r' !in first && '\n' !in second && '\r' !in second
    ensures WriteExternal(f, logMessage).file.lines == (if f.present then f.lines else []) + [first, second]
  {
    LinesFromSplitsAtNewline(first, second, "");
    LinesFromOneLine(second, "");
    assert "" + first == first && "" + second == second;
  }
}
