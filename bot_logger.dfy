/**
 * `spotify.util.BotLogger`, the older logger: it always writes to
 * `./log.txt`, and its truncation keeps the message length.
 *
 * The log file and the console are modelled as in `SpotifyLog`, whose pure
 * parts (the file write, the limit, the tail) have the same bodies here.
 */
module BotLog {
  import opened Lang
  import opened SpotifyLog

  const BOT_LINE_BUDGET: nat := MAX_LINE_LENGTH - |ELLIPSIS|

  /**
   * `truncateToEllipsis`: a message over 157 characters has its last three
   * replaced by `"..."`; the result is never shorter than the input.
   */
  function TruncateKeepingLength(message: string): (r: string)
    ensures |r| == |message|
    ensures |message| <= BOT_LINE_BUDGET ==> r == message
    ensures |message| > BOT_LINE_BUDGET ==>
      r[..|message| - 3] == message[..|message| - 3] && EndsWith(r, ELLIPSIS)
  {
    if |message| <= BOT_LINE_BUDGET then message
    else message[..|message| - |ELLIPSIS|] + ELLIPSIS
  }

  /** Truncating twice is truncating once. */
  lemma TruncateKeepingLengthIdempotent(message: string)
    ensures TruncateKeepingLength(TruncateKeepingLength(message)) == TruncateKeepingLength(message)
  {
    if |message| > BOT_LINE_BUDGET {
      var r := TruncateKeepingLength(message);
      assert r[..|r| - 3] == message[..|message| - 3];
    }
  }

  /**
   * Unlike `SpotifyLogger`'s, this truncation does not bound the length:
   * every message over 160 characters comes out longer than that logger's
   * would, and the two agree up to 157 characters.
   */
  lemma TruncationsCompared(message: string)
    ensures |message| <= BOT_LINE_BUDGET ==> TruncateKeepingLength(message) == TruncateToEllipsis(message)
    ensures |message| > MAX_LINE_LENGTH + 3 ==> |TruncateKeepingLength(message)| > |TruncateToEllipsis(message)|
  {
  }

  /** The line is 157 hyphens, which this truncation too leaves alone. */
  lemma LineIsNotShortened()
    ensures TruncateKeepingLength(LINE) == LINE
  {
    LineIsNotTruncated();
  }

  class BotLogger {
    /** `new File("./log.txt").getAbsolutePath()`. */
    const absolutePath: string
    var file: LogFile
    var console: seq<Entry>

    constructor (absolutePath: string, file: LogFile)
      ensures this.absolutePath == absolutePath && this.file == file && console == []
    {
      this.absolutePath := absolutePath;
      this.file := file;
      console := [];
    }

    /**
     * `logAtLevel(msg, level, truncate)`: truncated only when asked; always
     * to the console and to the file; a failed write is swallowed.
     */
    method LogAtLevel(msg: string, level: Level, truncate: bool, now: string)
      modifies this
      ensures var m := if truncate then TruncateKeepingLength(msg) else msg;
        && console == old(console) + [Entry(level, m)]
        && file == WriteExternal(old(file), Stamped(now, m)).file
    {
      var m := msg;
      if truncate {
        m := TruncateKeepingLength(m);
      }
      console := console + [Entry(level, m)];
      var w := WriteExternal(file, Stamped(now, m));
      file := w.file;
    }

    /** `info(message)`. */
    method Info(message: string, now: string)
      modifies this
      ensures console == old(console) + [Entry(INFO, TruncateKeepingLength(message))]
      ensures file == WriteExternal(old(file), Stamped(now, TruncateKeepingLength(message))).file
    {
      LogAtLevel(message, INFO, true, now);
    }

    /** `printLine()`: 157 hyphens at INFO level. */
    method PrintLine(now: string)
      modifies this
      ensures console == old(console) + [Entry(INFO, LINE)]
      ensures file == WriteExternal(old(file), Stamped(now, LINE)).file
    {
      LineIsNotShortened();
      Info(LINE, now);
    }

    /** `clearLog()`: what `delete()` reports. */
    method ClearLog() returns (deleted: bool)
      modifies this
      ensures deleted <==> old(file).present && old(file).deletable
      ensures file == if deleted then old(file).(present := false, lines := []) else old(file)
      ensures console == old(console)
    {
      deleted := file.present && file.deletable;
      if deleted {
        file := file.(present := false, lines := []);
      }
    }

    /**
     * `readLog(limit)`: the last lines of the file up to the normalised
     * limit, or the `IOException` for a missing, locked or undecodable file.
     */
    method ReadLog(limit: Option<int>) returns (r: Result<seq<string>, Exception>)
      ensures !file.present ==> r == Failure(IOError(NOT_FOUND_PREFIX + absolutePath))
      ensures file.present && !file.readable ==> r == Failure(IOError(LOCKED))
      ensures file.present && file.readable && file.readFailure.Some? ==>
        r == Failure(IOError(MALFORMED_PREFIX + file.readFailure.value))
      ensures file.present && file.readable && file.readFailure.None? ==>
        r.Success? && |r.value| == (if NormalizedLimit(limit) < |file.lines| then NormalizedLimit(limit) else |file.lines|)
        && r.value == file.lines[|file.lines| - |r.value|..]
    {
      if file.present {
        if file.readable {
          var lim: int;
          if limit.None? {
            lim := DEFAULT_LOG_READ_LINES;
          } else if limit.value < 0 {
            lim := INT_MAX;
          } else {
            lim := limit.value;
          }
          if file.readFailure.Some? {
            return Failure(IOError(MALFORMED_PREFIX + file.readFailure.value));
          }
          var logFileLines := file.lines;
          var from := if |logFileLines| - lim > 0 then |logFileLines| - lim else 0;
          return Success(logFileLines[from..]);
        } else {
          return Failure(IOError(LOCKED));
        }
      } else {
        return Failure(IOError(NOT_FOUND_PREFIX + absolutePath));
      }
    }
  }
}
