/**
 * The GoldenGate lag reporter: asks ggsci for `info all`, keeps the EXTRACT
 * and REPLICAT lines and prints one line-protocol line per process, with its
 * lag and its time since the last checkpoint converted from `h:m:s` to
 * seconds.
 */
module OggLag {
  import opened Py
  import opened Strings

  /** The two shell commands the script runs. */
  datatype Command =
    | ProcessCheck  // looks for a ggsci already running
    | InfoAll       // the EXTRACT and REPLICAT lines of ggsci's `info all`

  /** The text handed to the shell for each command. */
  function CommandLine(c: Command): string {
    match c
    case ProcessCheck => "ps -ef | grep -v grep | grep /acfsvol1/ogg/current/ggsci"
    case InfoAll => "echo \"info all\" | /acfsvol1/ogg/current/ggsci | egrep \"EXTRACT|REPLICAT\""
  }

  /** The ValueError text of Python 2's unpacking of `count` values into three names. */
  function UnpackError(count: nat): string {
    if count < 3 then "need more than " + NatToString(count) + (if count == 1 then " value" else " values") + " to unpack"
    else "too many values to unpack"
  }

  /**
   * `int()` of each field in turn, left to right as Python evaluates
   * `int(h) * 3600 + int(m) * 60 + int(s)`: the values, or the error of the
   * first field that is not an integer.
   */
  function ParseFields(fields: seq<string>): (r: Result<seq<int>>)
    ensures r.Ok? ==> |r.value| == |fields|
  {
    if |fields| == 0 then Ok([])
    else
      match ParseInt(fields[0])
      case Err(e) => Err(e)
      case Ok(x) =>
        match ParseFields(fields[1..])
        case Err(e) => Err(e)
        case Ok(rest) => Ok([x] + rest)
  }

  /**
   * ParseFields succeeds exactly when every field is an integer literal, and
   * then holds each field's value in its place.
   */
  lemma {:induction false} ParseFieldsValues(fields: seq<string>)
    ensures ParseFields(fields).Ok? <==> forall k :: 0 <= k < |fields| ==> IsIntLiteral(fields[k])
    ensures ParseFields(fields).Ok? ==>
            forall k :: 0 <= k < |fields| ==> ParseInt(fields[k]) == Ok(ParseFields(fields).value[k])
  {
    if |fields| > 0 {
      var tail := fields[1..];
      ParseFieldsValues(tail);
      assert forall k :: 1 <= k < |fields| ==> fields[k] == tail[k - 1];
    }
  }

  /** A failing ParseFields reports the error of the leftmost field that is not an integer literal. */
  lemma {:induction false} ParseFieldsError(fields: seq<string>)
    requires ParseFields(fields).Err?
    ensures exists j :: 0 <= j < |fields| && (forall k :: 0 <= k < j ==> IsIntLiteral(fields[k])) &&
                        ParseInt(fields[j]) == Err(ParseFields(fields).error)
  {
    var tail := fields[1..];
    if ParseInt(fields[0]).Ok? {
      ParseFieldsError(tail);
      var j :| 0 <= j < |tail| && (forall k :: 0 <= k < j ==> IsIntLiteral(tail[k])) &&
               ParseInt(tail[j]) == Err(ParseFields(tail).error);
      assert forall k :: 1 <= k < j + 1 ==> fields[k] == tail[k - 1];
      assert ParseInt(fields[j + 1]) == Err(ParseFields(fields).error);
    } else {
      assert ParseInt(fields[0]) == Err(ParseFields(fields).error);
    }
  }

  /** `convert_to_seconds`: `h:m:s` as a number of seconds. */
  function ConvertToSeconds(time: string): Result<int> {
    var parts := Split(time, ":");
    if |parts| != 3 then Err(ValueError(UnpackError(|parts|)))
    else
      match ParseFields(parts)
      case Err(e) => Err(e)
      case Ok(v) => Ok(v[0] * 3600 + v[1] * 60 + v[2])
  }

  /**
   * `convert_to_seconds` succeeds exactly on three colon-separated integer
   * fields; any other number of fields is an unpacking error.
   */
  lemma ConvertAccepts(time: string)
    ensures ConvertToSeconds(time).Ok? <==>
            |Split(time, ":")| == 3 && forall k :: 0 <= k < 3 ==> IsIntLiteral(Split(time, ":")[k])
    ensures |Split(time, ":")| != 3 ==>
            ConvertToSeconds(time) == Err(ValueError(UnpackError(|Split(time, ":")|)))
  {
    ParseFieldsValues(Split(time, ":"));
  }

  /** Three fields without a colon, joined by colons, split back into those fields. */
  lemma SplitClock(h: string, m: string, s: string)
    requires ':' !in h && ':' !in m && ':' !in s
    ensures Split(Join([h, m, s], ":"), ":") == [h, m, s]
  {
    ContainsChar(h, ':');
    ContainsChar(m, ':');
    ContainsChar(s, ':');
    JoinSplit([h, m, s], ":");
  }

  /** One more integer field in front parses in front of the others. */
  lemma ParseFieldsCons(f: string, rest: seq<string>, x: int, xs: seq<int>)
    requires ParseInt(f) == Ok(x) && ParseFields(rest) == Ok(xs)
    ensures ParseFields([f] + rest) == Ok([x] + xs)
  {
    assert ([f] + rest)[0] == f && ([f] + rest)[1..] == rest;
  }

  /** Three integer fields without a colon, joined by colons, convert field by field. */
  lemma ConvertFields(h: string, m: string, s: string, hours: int, minutes: int, seconds: int)
    requires ParseInt(h) == Ok(hours) && ParseInt(m) == Ok(minutes) && ParseInt(s) == Ok(seconds)
    requires ':' !in h && ':' !in m && ':' !in s
    ensures ConvertToSeconds(Join([h, m, s], ":")) == Ok(hours * 3600 + minutes * 60 + seconds)
  {
    SplitClock(h, m, s);
    assert ParseFields([]) == Ok([]);
    ParseFieldsCons(s, [], seconds, []);
    assert [s] + [] == [s] && [seconds] + [] == [seconds];
    ParseFieldsCons(m, [s], minutes, [seconds]);
    assert [m] + [s] == [m, s] && [minutes] + [seconds] == [minutes, seconds];
    ParseFieldsCons(h, [m, s], hours, [minutes, seconds]);
    assert [h] + [m, s] == [h, m, s] && [hours] + [minutes, seconds] == [hours, minutes, seconds];
  }

  /** `h:m:s` written with Python's `str` of each number. */
  function Clock(h: int, m: int, s: int): string {
    Join([IntToString(h), IntToString(m), IntToString(s)], ":")
  }

  lemma IntToStringField(i: int)
    ensures ParseInt(IntToString(i)) == Ok(i) && ':' !in IntToString(i)
  {
    ParseIntToString(i);
  }

  /** Converting a clock reading written out from three integers gives its number of seconds. */
  lemma ConvertClock(h: int, m: int, s: int)
    ensures ConvertToSeconds(Clock(h, m, s)) == Ok(h * 3600 + m * 60 + s)
  {
    IntToStringField(h);
    IntToStringField(m);
    IntToStringField(s);
    ConvertFields(IntToString(h), IntToString(m), IntToString(s), h, m, s);
  }

  /** `h, rest = divmod(n, 3600); m, s = divmod(rest, 60)` puts `n` back together. */
  lemma DivModClock(n: nat)
    ensures n == n / 3600 * 3600 + n % 3600 / 60 * 60 + n % 3600 % 60
  {
  }

  /** Every number of seconds is the conversion of its own hours, minutes and seconds. */
  lemma ConvertSecondsBack(n: nat)
    ensures ConvertToSeconds(Clock(n / 3600, n % 3600 / 60, n % 3600 % 60)) == Ok(n)
  {
    DivModClock(n);
    ConvertClock(n / 3600, n % 3600 / 60, n % 3600 % 60);
  }

  /** ggsci's zero-padded `00:01:30` is ninety seconds. */
  lemma ConvertPadded()
    ensures ConvertToSeconds(Join(["00", "01", "30"], ":")) == Ok(90)
  {
    PaddedFields();
    ConvertFields("00", "01", "30", 0, 1, 30);
  }

  /** Leading zeros are read as decimal digits. */
  lemma PaddedFields()
    ensures ParseInt("00") == Ok(0) && ParseInt("01") == Ok(1) && ParseInt("30") == Ok(30)
  {
    assert DigitsValue("00") == 0 && DigitsValue("01") == 1 && DigitsValue("30") == 30;
    ParseIntOfDigits("00", "00", false);
    ParseIntOfDigits("01", "01", false);
    ParseIntOfDigits("30", "30", false);
  }

  /** The line-protocol line printed for one process. */
  function Format(program: string, status: string, group: string, lag: int, stopped: int): string {
    "ogg_lag,name=" + group + ",type=" + program + " status=\"" + status + "\",lag_time_seconds=" +
    IntToString(lag) + ",stopped_time=" + IntToString(stopped)
  }

  /**
   * The line printed for one line of `info all` output, or the exception that
   * ends the loop. The arguments of `format` are evaluated left to right, so
   * a missing fourth column, then a bad lag, then a missing fifth column, then
   * a bad checkpoint time is what is reported.
   */
  function OggLine(line: string): Result<string> {
    var stream := Tokens(line);
    if |stream| < 4 then Err(IndexError)
    else
      var lag :- ConvertToSeconds(stream[3]);
      if |stream| < 5 then Err(IndexError)
      else
        var stopped :- ConvertToSeconds(stream[4]);
        Ok(Format(stream[0], stream[1], stream[2], lag, stopped))
  }

  /**
   * A line prints exactly when it has at least five columns and both times
   * convert; a missing fourth column is an IndexError and a bad lag is
   * reported before anything about the fifth column.
   */
  lemma OggLineFails(line: string)
    ensures var stream := Tokens(line);
      OggLine(line).Ok? <==> |stream| >= 5 && ConvertToSeconds(stream[3]).Ok? && ConvertToSeconds(stream[4]).Ok?
    ensures |Tokens(line)| < 4 ==> OggLine(line) == Err(IndexError)
    ensures var stream := Tokens(line);
      |stream| >= 4 && ConvertToSeconds(stream[3]).Err? ==> OggLine(line) == Err(ConvertToSeconds(stream[3]).error)
    ensures var stream := Tokens(line);
      |stream| == 4 && ConvertToSeconds(stream[3]).Ok? ==> OggLine(line) == Err(IndexError)
  {
  }

  /** A line whose fourth and fifth columns convert prints its first three columns and both times. */
  lemma OggLineOfStream(line: string, lag: int, stopped: int)
    requires |Tokens(line)| >= 5
    requires ConvertToSeconds(Tokens(line)[3]) == Ok(lag) && ConvertToSeconds(Tokens(line)[4]) == Ok(stopped)
    ensures OggLine(line) == Ok(Format(Tokens(line)[0], Tokens(line)[1], Tokens(line)[2], lag, stopped))
  {
  }

  /**
   * Columns joined by single spaces, as ggsci lays them out, print the
   * program, status and group as they are and both times in seconds; columns
   * after the fifth are ignored.
   */
  lemma OggLineOfColumns(columns: seq<string>, lag: int, stopped: int)
    requires |columns| >= 5 && forall k :: 0 <= k < |columns| ==> |columns[k]| > 0 && NoSpace(columns[k])
    requires ConvertToSeconds(columns[3]) == Ok(lag) && ConvertToSeconds(columns[4]) == Ok(stopped)
    ensures OggLine(Join(columns, " ")) == Ok(Format(columns[0], columns[1], columns[2], lag, stopped))
  {
    TokensOfJoin(columns);
    OggLineOfStream(Join(columns, " "), lag, stopped);
  }

  /**
   * `for line in lines: print render(line)`: the rendered lines in order,
   * until the first line whose rendering raises.
   */
  method PrintLines(lines: seq<string>, render: string -> Result<string>) returns (printed: seq<string>, error: Option<Exc>)
    ensures |printed| <= |lines|
    ensures forall i :: 0 <= i < |printed| ==> render(lines[i]) == Ok(printed[i])
    ensures error.None? <==> |printed| == |lines|
    ensures error.Some? ==> render(lines[|printed|]) == Err(error.value)
  {
    printed := [];
    var i := 0;
    while i < |lines|
      invariant i == |printed| <= |lines|
      invariant forall k :: 0 <= k < i ==> render(lines[k]) == Ok(printed[k])
    {
      var r := render(lines[i]);
      if r.Err? {
        return printed, Some(r.error);
      }
      printed := printed + [r.value];
      i := i + 1;
    }
    error := None;
  }

  /** How the script ends: after the last line, at `exit()`, or with an uncaught exception. */
  datatype Ending = Finished | Exited | Raised(error: Exc)

  /**
   * The script: exit at once when a ggsci is already running, otherwise print
   * the `info all` lines. `run(c)` stands for the output lines of command `c`.
   */
  method ReportLag(run: Command -> seq<string>) returns (printed: seq<string>, ending: Ending)
    ensures |run(ProcessCheck)| > 0 ==> printed == [] && ending == Exited
    ensures |run(ProcessCheck)| == 0 ==>
      var lines := run(InfoAll);
      && |printed| <= |lines|
      && (forall i :: 0 <= i < |printed| ==> OggLine(lines[i]) == Ok(printed[i]))
      && (ending == Finished <==> |printed| == |lines|)
      && (ending != Finished ==> ending.Raised? && OggLine(lines[|printed|]) == Err(ending.error))
  {
    if |run(ProcessCheck)| > 0 {
      return [], Exited;
    }
    var error;
    printed, error := PrintLines(run(InfoAll), OggLine);
    ending := if error.Some? then Raised(error.value) else Finished;
  }
}
