/**
 * The development log endpoint `view_logs` (backend/src/core/utils/logs.py).
 *
 * The log file is an abstract input: missing, read as its lines (each with its line
 * terminator, as `readlines` returns them), or failing to read with an error text. The
 * response is a status and a JSON body.
 */
module LogView {
  import opened Wrappers
  import opened Strings
  import opened Assoc
  import opened JsonValue

  datatype LogFile = Missing | Lines(lines: seq<string>) | ReadError(message: string)

  datatype Response = Response(status: int, body: Fields)

  const DevOnlyText := "Logs are only available in development mode."
  const NotFoundText := "Log file not found."
  const MaxLines := 100

  /** `lines[-100:] if len(lines) > 100 else lines`. */
  function Tail(lines: seq<string>): (r: seq<string>)
    ensures |r| == if |lines| > MaxLines then MaxLines else |lines|
    ensures r == lines[|lines| - |r|..]
  {
    if |lines| > MaxLines then lines[|lines| - MaxLines..] else lines
  }

  /** `[line.rstrip('\n') for line in last_lines]`. */
  function Shown(lines: seq<string>): (r: seq<Json>)
    ensures |r| == |lines|
    ensures forall i | 0 <= i < |lines| :: r[i] == JStr(RStripChar(lines[i], '\n'))
  {
    seq(|lines|, i requires 0 <= i < |lines| => JStr(RStripChar(lines[i], '\n')))
  }

  function ViewLogs(debug: bool, file: LogFile): Response
  {
    if !debug then Response(403, [("error", JStr(DevOnlyText))])
    else match file
      case Missing => Response(404, [("logs", JArr([])), ("total_lines", JNum(0)), ("message", JStr(NotFoundText))])
      case Lines(lines) =>
        var last := Tail(lines);
        Response(200, [("logs", JArr(Shown(last))), ("total_lines", JNum(|lines|)), ("showing", JNum(|last|))])
      case ReadError(message) => Response(500, [("error", JStr("Error reading log file: " + message))])
  }

  /** Outside development mode the answer is 403, whatever the state of the file. */
  lemma DeniedFirst(file: LogFile)
    ensures ViewLogs(false, file) == Response(403, [("error", JStr(DevOnlyText))])
    ensures forall other: LogFile :: ViewLogs(false, other) == ViewLogs(false, file)
  {
  }

  lemma LookupThree(a: (string, Json), b: (string, Json), c: (string, Json), k: string)
    ensures Lookup([a, b, c], k) ==
      if a.0 == k then Some(a.1) else if b.0 == k then Some(b.1) else if c.0 == k then Some(c.1) else None
  {
    assert [a, b, c] == [a] + ([b] + ([c] + []));
    LookupCons(a, [b] + ([c] + []), k);
    LookupCons(b, [c] + [], k);
    LookupCons(c, [], k);
  }

  /** A missing file gives 404 with no lines, a count of zero and the not-found text. */
  lemma MissingFile()
    ensures ViewLogs(true, Missing).status == 404
    ensures Lookup(ViewLogs(true, Missing).body, "logs") == Some(JArr([]))
    ensures Lookup(ViewLogs(true, Missing).body, "total_lines") == Some(JNum(0))
    ensures Lookup(ViewLogs(true, Missing).body, "message") == Some(JStr(NotFoundText))
  {
    var b := ViewLogs(true, Missing).body;
    LookupThree(b[0], b[1], b[2], "logs");
    LookupThree(b[0], b[1], b[2], "total_lines");
    LookupThree(b[0], b[1], b[2], "message");
  }

  /**
   * A readable file gives 200 with the total line count, `showing = min(100, total)`, and
   * the last `showing` lines in their order, each without its trailing newlines.
   */
  lemma ReadableFile(lines: seq<string>)
    ensures var r := ViewLogs(true, Lines(lines));
      var showing := if |lines| > 100 then 100 else |lines|;
      r.status == 200 &&
      Lookup(r.body, "total_lines") == Some(JNum(|lines|)) &&
      Lookup(r.body, "showing") == Some(JNum(showing)) &&
      Lookup(r.body, "logs").Some? && Lookup(r.body, "logs").value.JArr? &&
      |Lookup(r.body, "logs").value.items| == showing &&
      forall i | 0 <= i < showing ::
        Lookup(r.body, "logs").value.items[i] == JStr(RStripChar(lines[|lines| - showing + i], '\n'))
  {
    var b := ViewLogs(true, Lines(lines)).body;
    LookupThree(b[0], b[1], b[2], "logs");
    LookupThree(b[0], b[1], b[2], "total_lines");
    LookupThree(b[0], b[1], b[2], "showing");
  }

  /** A stripped line is the line without its trailing newlines: a prefix, followed only by newlines. */
  lemma StrippedLine(line: string)
    ensures var s := RStripChar(line, '\n');
      line[..|s|] == s && (forall k | |s| <= k < |line| :: line[k] == '\n') && (|s| > 0 ==> s[|s| - 1] != '\n')
  {
  }

  /** A read failure gives 500 and only an `error` field carrying the failure text. */
  lemma UnreadableFile(message: string)
    ensures ViewLogs(true, ReadError(message)) == Response(500, [("error", JStr("Error reading log file: " + message))])
    ensures Keys(ViewLogs(true, ReadError(message)).body) == ["error"]
  {
  }
}
