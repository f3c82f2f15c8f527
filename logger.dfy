/**
 * The logging service: level parsing, the level gate, the daily log file and which file each
 * logger writes to. A message is written when its level is at most the configured one
 * (ERROR = 1 < WARN = 2 < INFO = 3); FATAL messages ignore the level and end the process. The
 * log file of a day is "<year>-<month>-<day>.log" under the log directory; on the first message
 * of a new day (by day of the month only) the open file is closed and the new day's file
 * opened.
 *
 * The clock is a parameter `now`. The file system is a list of the files opened, of which only
 * the last is open, and a record of the lines that reached an open file. The console echo and
 * the time stamp the log package writes before each line are not modelled.
 */
module Logger {
  import opened Wrappers
  import opened Text
  import opened Rfc3339

  const ERROR: int := 1
  const WARN: int := 2
  const INFO: int := 3

  /** Where logs go when the configuration names no directory. */
  const DefaultLogPath: string := "file_renamer_logs"

  // ---------------------------------------------------------------------------
  // Levels

  /**
   * ParseLogLevel: a level name in any letter case, or else the decimal number itself,
   * unclamped; anything that is neither is INFO.
   */
  function ParseLogLevel(logLevel: string): (level: int)
    ensures ToUpper(logLevel) == "INFO" ==> level == INFO
    ensures ToUpper(logLevel) == "WARN" || ToUpper(logLevel) == "WARNING" ==> level == WARN
    ensures ToUpper(logLevel) == "ERROR" ==> level == ERROR
    ensures MinInt64 <= level <= MaxInt64
  {
    var name := ToUpper(logLevel);
    if name == "INFO" then INFO
    else if name == "WARN" || name == "WARNING" then WARN
    else if name == "ERROR" then ERROR
    else
      match Atoi(logLevel)
      case Some(n) => n
      case None => INFO
  }

  /** The level names; every other text goes through strconv.Atoi. */
  predicate IsLevelName(s: string) {
    s == "INFO" || s == "WARN" || s == "WARNING" || s == "ERROR"
  }

  /** Texts that spell the same level name in different letter cases parse alike. */
  lemma ParseLogLevelIgnoresCase(a: string, b: string)
    requires ToUpper(a) == ToUpper(b) && IsLevelName(ToUpper(a))
    ensures ParseLogLevel(a) == ParseLogLevel(b)
  {
  }

  /** ToUpper leaves a text that starts with a digit or a sign starting with it, so such a
      text is never a level name. */
  lemma NumericIsNoName(s: string)
    requires |s| > 0 && (IsDigit(s[0]) || s[0] == '-' || s[0] == '+')
    ensures !IsLevelName(ToUpper(s))
  {
    assert ToUpper(s)[0] == s[0];
  }

  /** Every 64-bit number is read back as itself: numeric levels are not clamped to 1..3. */
  lemma ParseLogLevelOfNumber(n: int)
    requires MinInt64 <= n <= MaxInt64
    ensures ParseLogLevel(Itoa(n)) == n
  {
    AtoiOfItoa(n);
    NumericIsNoName(Itoa(n));
  }

  /** Every text strconv.Atoi accepts, signs and leading zeros included, is read as its own
      value, unclamped. */
  lemma ParseLogLevelOfNumeral(s: string)
    requires Atoi(s).Some?
    ensures ParseLogLevel(s) == Atoi(s).value
  {
    var digits := Unsigned(s);
    if |s| > 0 && (s[0] == '+' || s[0] == '-') {
    } else {
      assert digits == s && IsDigit(digits[0]);
    }
    NumericIsNoName(s);
  }

  /** A numeral whose digits have a small value parses to it, with its sign. */
  lemma ParseLogLevelOfDigits(s: string, v: nat)
    requires Unsigned(s) != [] && AllDigits(Unsigned(s)) && DigitsValue(Unsigned(s)) == v < 1000
    ensures ParseLogLevel(s) == Signed(s, v)
  {
    ParseLogLevelOfNumeral(s);
  }

  /** "+7", "007" and "-0": a plus sign and leading zeros are accepted, "-0" is 0. */
  lemma ParseLogLevelNumeralExamples()
    ensures ParseLogLevel("+7") == 7
    ensures ParseLogLevel("007") == 7
    ensures ParseLogLevel("-0") == 0
  {
    PlusSevenDigits("+7");
    ZeroZeroSevenDigits("007");
    MinusZeroDigits("-0");
  }

  lemma PlusSevenDigits(s: string)
    requires s == "+7"
    ensures ParseLogLevel(s) == 7
  {
    assert Unsigned(s) == "7" && DigitsValue("7") == 7;
    ParseLogLevelOfDigits(s, 7);
  }

  lemma ZeroZeroSevenDigits(s: string)
    requires s == "007"
    ensures ParseLogLevel(s) == 7
  {
    assert Unsigned(s) == s;
    assert s[..2] == "00" && "00"[..1] == "0" && "0"[..0] == "";
    assert DigitsValue("0") == 0;
    assert DigitsValue("00") == 0;
    assert DigitsValue(s) == 7;
    ParseLogLevelOfDigits(s, 7);
  }

  lemma MinusZeroDigits(s: string)
    requires s == "-0"
    ensures ParseLogLevel(s) == 0
  {
    assert Unsigned(s) == "0" && DigitsValue("0") == 0;
    ParseLogLevelOfDigits(s, 0);
  }

  /** A text that is neither a level name nor a number falls back to INFO. */
  lemma ParseLogLevelFallback(s: string)
    requires !IsLevelName(ToUpper(s)) && Atoi(s).None?
    ensures ParseLogLevel(s) == INFO
  {
  }

  /** A text without digits is only ever a level name or INFO. */
  lemma ParseLogLevelWithoutDigits(s: string)
    requires forall i :: 0 <= i < |s| ==> !IsDigit(s[i])
    ensures ERROR <= ParseLogLevel(s) <= INFO
  {
    if Atoi(s).Some? {
      assert false;
    }
  }

  lemma ParseLogLevelExamples()
    ensures ParseLogLevel("info") == INFO
    ensures ParseLogLevel("Warning") == WARN
    ensures ParseLogLevel("error") == ERROR
    ensures ParseLogLevel("verbose") == INFO
  {
    assert ToUpper("info") == "INFO";
    assert ToUpper("Warning") == "WARNING";
    assert ToUpper("error") == "ERROR";
    ParseLogLevelWithoutDigits("verbose");
    assert ToUpper("verbose") == "VERBOSE";
    assert Atoi("verbose").None? by {
      assert !IsDigit("verbose"[0]);
    }
  }

  /** isLoggable: a message of level `msgLevel` passes a service at `level`. */
  predicate IsLoggable(level: int, msgLevel: int) {
    msgLevel <= level
  }

  // ---------------------------------------------------------------------------
  // File names

  /** NewLogService's choice of directory: the configured one, or the default when empty. */
  function LogDirectory(logPath: string): (dir: string)
    ensures dir != []
    ensures logPath != [] ==> dir == logPath
  {
    if logPath == "" then DefaultLogPath else logPath
  }

  /** fmt.Sprintf("%d-%d-%d.log", year, month, day): no zero padding. */
  function LogFileName(d: Date): string {
    NatToString(d.year) + "-" + NatToString(d.month) + "-" + NatToString(d.day) + ".log"
  }

  /** filepath.Join(dir, name) for a directory without a trailing separator. */
  function LogFilePath(dir: string, d: Date): string {
    dir + "/" + LogFileName(d)
  }

  /** The log of 31 August 2020 under the default directory: no zero padding. */
  lemma LogFilePathExample()
    ensures LogFilePath(LogDirectory(""), Date(2020, 8, 31)) == "file_renamer_logs/2020-8-31.log"
  {
    RenderedExample();
    assert LogFileName(Date(2020, 8, 31)) == "2020" + "-" + "8" + "-" + "31" + ".log";
  }

  lemma RenderedExample()
    ensures NatToString(2020) == "2020" && NatToString(8) == "8" && NatToString(31) == "31"
  {
    assert NatToString(20) == "20";
    assert NatToString(202) == "202";
  }

  /** Two texts cut at the first occurrence of a separator that neither prefix contains. */
  lemma SplitAtSeparator(x: string, y: string, x': string, y': string, c: char)
    requires c !in x && c !in x'
    requires x + [c] + y == x' + [c] + y'
    ensures x == x' && y == y'
  {
    var s := x + [c] + y;
    var s' := x' + [c] + y';
    assert s[|x|] == c && s'[|x'|] == c;
    assert forall i :: 0 <= i < |x| ==> s[i] == x[i];
    assert forall i :: 0 <= i < |x'| ==> s'[i] == x'[i];
    assert x == s[..|x|] == x';
    assert y == s[|x| + 1..] == y';
  }

  lemma NoDash(n: nat)
    ensures '-' !in NatToString(n)
  {
  }

  /** The name as three dash-separated parts, each free of dashes but the last. */
  lemma LogFileNameParts(d: Date)
    ensures LogFileName(d)
         == NatToString(d.year) + ['-'] + (NatToString(d.month) + ['-'] + (NatToString(d.day) + ".log"))
    ensures '-' !in NatToString(d.year) && '-' !in NatToString(d.month)
  {
    NoDash(d.year);
    NoDash(d.month);
  }

  /** Different days get different log files. */
  lemma LogFileNameInjective(a: Date, b: Date)
    requires LogFileName(a) == LogFileName(b)
    ensures a == b
  {
    LogFileNameParts(a);
    LogFileNameParts(b);
    var ta, tb := NatToString(a.day) + ".log", NatToString(b.day) + ".log";
    SplitAtSeparator(NatToString(a.year), NatToString(a.month) + ['-'] + ta,
                     NatToString(b.year), NatToString(b.month) + ['-'] + tb, '-');
    SplitAtSeparator(NatToString(a.month), ta, NatToString(b.month), tb, '-');
    assert NatToString(a.day) == ta[..|ta| - 4];
    assert NatToString(b.day) == tb[..|tb| - 4];
    NatToStringInjective(a.year, b.year);
    NatToStringInjective(a.month, b.month);
    NatToStringInjective(a.day, b.day);
  }

  // ---------------------------------------------------------------------------
  // The service

  /** A written log line: the logger's prefix and the message. */
  datatype Line = Line(prefix: string, message: string)

  /** A line that reached a log file, with that file's path. */
  datatype Record = Record(file: string, line: Line)

  /** isNewLogDay: only the day of the month is compared, not the month or the year. */
  predicate IsNewLogDay(fileDate: Date, now: Date) {
    fileDate.day != now.day
  }

  class Service {
    var level: int
    const logToConsole: bool
    const path: string
    /** The creation date of the open log file. */
    var fileDate: Date
    /** The paths of the log files opened so far, in order; only the last one is still open. */
    var files: seq<string>
    /** The file the error, warning and info loggers write to, as an index into `files`. */
    var levelOutput: nat
    /** The file the fatal logger writes to, as an index into `files`. */
    var fatalOutput: nat
    /** Every line that reached an open log file, in order. */
    var written: seq<Record>
    /** Set once a fatal message has ended the process. */
    var exited: bool

    /** The open file is named for its creation date, and the three level loggers write to it. */
    ghost predicate Valid()
      reads this
    {
      && files != []
      && files[|files| - 1] == LogFilePath(path, fileDate)
      && levelOutput == |files| - 1
      && fatalOutput < |files|
    }

    /** NewLogService: the file of `now` under LogDirectory, with all four loggers on it. */
    constructor (level: int, logPath: string, logToConsole: bool, now: Date)
      ensures Valid()
      ensures this.level == level && this.logToConsole == logToConsole
      ensures path == LogDirectory(logPath)
      ensures fileDate == now && files == [LogFilePath(path, now)]
      ensures levelOutput == 0 && fatalOutput == 0
      ensures written == [] && !exited
    {
      this.level := level;
      this.logToConsole := logToConsole;
      path := LogDirectory(logPath);
      fileDate := now;
      files := [LogFilePath(LogDirectory(logPath), now)];
      levelOutput := 0;
      fatalOutput := 0;
      written := [];
      exited := false;
    }

    /** refresh: close the open file, open the one of `now` and point the error, warning and
        info loggers at it. The fatal logger is not redirected. */
    method Refresh(now: Date)
      requires Valid()
      modifies this
      ensures Valid()
      ensures files == old(files) + [LogFilePath(path, now)] && fileDate == now
      ensures fatalOutput == old(fatalOutput)
      ensures written == old(written) && level == old(level) && exited == old(exited)
    {
      files := files + [LogFilePath(path, now)];
      fileDate := now;
      levelOutput := |files| - 1;
    }

    /** A logger's write reaches the log only through the open file: writing to a closed file
        fails, and the log package drops the error. */
    method Write(output: nat, line: Line)
      requires Valid() && output < |files|
      modifies this`written
      ensures written == old(written) + (if output == |files| - 1 then [Record(files[output], line)] else [])
    {
      if output == |files| - 1 {
        written := written + [Record(files[output], line)];
      }
    }

    /** Error, Warn and Info: nothing below the level; otherwise a new day rolls the file over
        first, and the line lands in the file of the current date. */
    method Gate(msgLevel: int, line: Line, now: Date)
      requires Valid() && !exited
      modifies this
      ensures Valid() && level == old(level) && !exited && fatalOutput == old(fatalOutput)
      ensures !IsLoggable(level, msgLevel) ==>
        files == old(files) && fileDate == old(fileDate) && written == old(written)
      ensures IsLoggable(level, msgLevel) ==>
        && fileDate == (if IsNewLogDay(old(fileDate), now) then now else old(fileDate))
        && files == old(files) + (if IsNewLogDay(old(fileDate), now) then [LogFilePath(path, now)] else [])
        && written == old(written) + [Record(LogFilePath(path, fileDate), line)]
    {
      if !IsLoggable(level, msgLevel) {
        return;
      }
      if IsNewLogDay(fileDate, now) {
        Refresh(now);
      }
      Write(levelOutput, line);
    }

    method Error(msg: string, now: Date)
      requires Valid() && !exited
      modifies this
      ensures Valid() && level == old(level) && !exited && fatalOutput == old(fatalOutput)
      ensures !IsLoggable(level, ERROR) ==>
        files == old(files) && fileDate == old(fileDate) && written == old(written)
      ensures IsLoggable(level, ERROR) ==>
        && fileDate == (if IsNewLogDay(old(fileDate), now) then now else old(fileDate))
        && files == old(files) + (if IsNewLogDay(old(fileDate), now) then [LogFilePath(path, now)] else [])
        && written == old(written) + [Record(LogFilePath(path, fileDate), Line("ERROR: ", msg))]
    {
      Gate(ERROR, Line("ERROR: ", msg), now);
    }

    method Warn(msg: string, now: Date)
      requires Valid() && !exited
      modifies this
      ensures Valid() && level == old(level) && !exited && fatalOutput == old(fatalOutput)
      ensures !IsLoggable(level, WARN) ==>
        files == old(files) && fileDate == old(fileDate) && written == old(written)
      ensures IsLoggable(level, WARN) ==>
        && fileDate == (if IsNewLogDay(old(fileDate), now) then now else old(fileDate))
        && files == old(files) + (if IsNewLogDay(old(fileDate), now) then [LogFilePath(path, now)] else [])
        && written == old(written) + [Record(LogFilePath(path, fileDate), Line("WARNING: ", msg))]
    {
      Gate(WARN, Line("WARNING: ", msg), now);
    }

    method Info(msg: string, now: Date)
      requires Valid() && !exited
      modifies this
      ensures Valid() && level == old(level) && !exited && fatalOutput == old(fatalOutput)
      ensures !IsLoggable(level, INFO) ==>
        files == old(files) && fileDate == old(fileDate) && written == old(written)
      ensures IsLoggable(level, INFO) ==>
        && fileDate == (if IsNewLogDay(old(fileDate), now) then now else old(fileDate))
        && files == old(files) + (if IsNewLogDay(old(fileDate), now) then [LogFilePath(path, now)] else [])
        && written == old(written) + [Record(LogFilePath(path, fileDate), Line("INFO: ", msg))]
    {
      Gate(INFO, Line("INFO: ", msg), now);
    }

    /** Fatal ignores the level: a new day rolls the file over, then the fatal logger writes
        and the process exits. The line lands only if the fatal logger is still on the open
        file, which after any rollover it is not. */
    method Fatal(msg: string, now: Date)
      requires Valid() && !exited
      modifies this
      ensures Valid() && level == old(level) && exited && fatalOutput == old(fatalOutput)
      ensures files == old(files) + (if IsNewLogDay(old(fileDate), now) then [LogFilePath(path, now)] else [])
      ensures written == old(written)
        + (if fatalOutput == |files| - 1 then [Record(LogFilePath(path, fileDate), Line("FATAL: ", msg))] else [])
    {
      if IsNewLogDay(fileDate, now) {
        Refresh(now);
      }
      Write(fatalOutput, Line("FATAL: ", msg));
      exited := true;
    }

    /** Fatal with the fatal logger pointed at the open file before it writes, as refresh does
        for the other three: the line always lands in the file of the current date. */
    method FatalCorrected(msg: string, now: Date)
      requires Valid() && !exited
      modifies this
      ensures Valid() && level == old(level) && exited && fatalOutput == |files| - 1
      ensures files == old(files) + (if IsNewLogDay(old(fileDate), now) then [LogFilePath(path, now)] else [])
      ensures fileDate == (if IsNewLogDay(old(fileDate), now) then now else old(fileDate))
      ensures written == old(written) + [Record(LogFilePath(path, fileDate), Line("FATAL: ", msg))]
    {
      if IsNewLogDay(fileDate, now) {
        Refresh(now);
      }
      fatalOutput := |files| - 1;
      Write(fatalOutput, Line("FATAL: ", msg));
      exited := true;
    }
  }

  // ---------------------------------------------------------------------------
  // Rollover scenarios

  /** A service created on 30 August logs INFO on 31 August, which rolls the file over; a FATAL
      message later that day reaches no log file. */
  method FatalLostAfterRollover(msg: string) returns (s: Service)
    ensures s.exited
    ensures s.written == [Record(LogFilePath(DefaultLogPath, Date(2020, 8, 31)), Line("INFO: ", "rolled over"))]
  {
    s := new Service(INFO, "", false, Date(2020, 8, 30));
    s.Info("rolled over", Date(2020, 8, 31));
    s.Fatal(msg, Date(2020, 8, 31));
  }

  /** The same calls with the corrected Fatal: the FATAL line follows the INFO line into the
      file of 31 August. */
  method FatalKeptAfterRollover(msg: string) returns (s: Service)
    ensures s.exited
    ensures s.written == [Record(LogFilePath(DefaultLogPath, Date(2020, 8, 31)), Line("INFO: ", "rolled over")),
                          Record(LogFilePath(DefaultLogPath, Date(2020, 8, 31)), Line("FATAL: ", msg))]
  {
    s := new Service(INFO, "", false, Date(2020, 8, 30));
    s.Info("rolled over", Date(2020, 8, 31));
    s.FatalCorrected(msg, Date(2020, 8, 31));
  }

  /** Without a rollover the fatal logger is still on the open file, and the line lands. */
  method FatalWrittenSameDay(msg: string) returns (s: Service)
    ensures s.exited
    ensures s.written == [Record(LogFilePath(DefaultLogPath, Date(2020, 8, 31)), Line("FATAL: ", msg))]
  {
    s := new Service(ERROR, "", false, Date(2020, 8, 31));
    s.Info("below the level", Date(2020, 9, 1));
    s.Fatal(msg, Date(2020, 8, 31));
  }

  /** Only the day of the month is compared: a service whose file dates from 31 July writes the
      messages of 31 August into that same file. */
  method SameDayNextMonth() returns (s: Service)
    ensures s.written == [Record(LogFilePath(DefaultLogPath, Date(2020, 7, 31)), Line("INFO: ", "a month later"))]
  {
    s := new Service(INFO, "", false, Date(2020, 7, 31));
    s.Info("a month later", Date(2020, 8, 31));
  }
}
