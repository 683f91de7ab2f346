/**
 * LinePrettyFormatter: Monolog's line formatter variant that writes a record
 * as a header line and the message on a line of its own. Date formatting is
 * PHP's DateTime::format, passed in as `formatDate`.
 */
module LinePrettyFormatting {
  import opened Results
  import opened PhpValues

  /** PHP_EOL (the model assumes a POSIX system). */
  const Eol: char := '\n'

  /** The pattern format() always hands to DateTime::format. */
  const TimestampFormat: string := "Y-m-d H:i:s"

  /** The fields of a Monolog record. */
  datatype LogRecord = LogRecord(
    datetime: int,
    channel: string,
    levelName: string,
    message: string,
    context: seq<Entry>,
    extra: seq<Entry>)

  /** The formatter, with the date format it was constructed with (null by default). */
  datatype LinePrettyFormatter = LinePrettyFormatter(dateFormat: Option<string>)

  /** The first line of the output, without its line break. */
  function Header(formatDate: (int, string) -> string, record: LogRecord): string {
    "[" + formatDate(record.datetime, TimestampFormat) + "] " + record.channel + "." + record.levelName + ":"
  }

  /** format($record). */
  function Format(f: LinePrettyFormatter, formatDate: (int, string) -> string, record: LogRecord): (out: string)
    ensures |out| >= 6 && out[0] == '[' && out[|out| - 1] == Eol
  {
    var line := Header(formatDate, record) + [Eol];
    line + record.message + [Eol]
  }

  /**
   * Splits an output at its first line break and drops the final one: the
   * header and the message back. None when the text is not of that shape.
   */
  function Split(out: string): Option<(string, string)> {
    match IndexOf(out, Eol)
    case None => None
    case Some(i) =>
      if |out| < i + 2 || out[|out| - 1] != Eol then None
      else Some((out[..i], out[i + 1..|out| - 1]))
  }

  /**
   * The output is the header line followed by the message line: when the
   * date, channel and level name hold no line break, splitting the output
   * gives back the header and the message exactly, whatever the message holds.
   */
  lemma FormatSplits(f: LinePrettyFormatter, formatDate: (int, string) -> string, record: LogRecord)
    requires Eol !in formatDate(record.datetime, TimestampFormat)
    requires Eol !in record.channel && Eol !in record.levelName
    ensures Split(Format(f, formatDate, record)) == Some((Header(formatDate, record), record.message))
  {
    var h := Header(formatDate, record);
    var out := Format(f, formatDate, record);
    assert Eol !in h;
    assert out == h + ([Eol] + record.message + [Eol]);
    IndexOfAfter(h, [Eol] + record.message + [Eol], Eol);
    assert out[..|h|] == h;
    assert out[|h| + 1..|out| - 1] == record.message;
  }

  /** The header is the bracketed timestamp, the channel and the level name. */
  lemma HeaderLayout(formatDate: (int, string) -> string, record: LogRecord)
    ensures var h := Header(formatDate, record);
            var ts := formatDate(record.datetime, TimestampFormat);
            && h[..|ts| + 3] == "[" + ts + "] "
            && h[|ts| + 3..] == record.channel + "." + record.levelName + ":"
  {
  }

  /**
   * Only the timestamp, channel, level name and message reach the output:
   * the constructor's date format, the context and the extra data never do,
   * and the date is always formatted with the fixed pattern.
   */
  lemma FormatIgnores(f1: LinePrettyFormatter, f2: LinePrettyFormatter,
                      fd1: (int, string) -> string, fd2: (int, string) -> string,
                      r1: LogRecord, r2: LogRecord)
    requires fd1(r1.datetime, TimestampFormat) == fd2(r2.datetime, TimestampFormat)
    requires r1.channel == r2.channel && r1.levelName == r2.levelName && r1.message == r2.message
    ensures Format(f1, fd1, r1) == Format(f2, fd2, r2)
  {
  }
}
