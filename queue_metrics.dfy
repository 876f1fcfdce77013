/**
 * The IBM MQ queue-status scraper: runs `display qstatus` through runmqsc for
 * every queue manager and queue-name prefix, cuts the output into one chunk
 * per queue, extracts QUEUE, CURDEPTH, LPUTTIME, MONQ and MSGAGE, applies the
 * monitoring sentinels and prints four line-protocol lines per queue.
 */
module QueueMetrics {
  import opened Py
  import opened Strings

  const QueueManagers: seq<string> := ["SS_QM_01", "SS_QM_02"]
  const QueuePrefixes: seq<string> := ["SS", "RXH"]

  /** Sentinel for LPUTTIME/MSGAGE when queue monitoring (MONQ) is OFF. */
  const MonitoringOff := "-2"
  /** Sentinel for a blank LPUTTIME/MSGAGE while monitoring is on. */
  const ValueAbsent := "-1"

  /** The shell command run for one queue manager and one queue-name prefix. */
  function QstatusCommand(mgr: string, prefix: string): string {
    "echo 'display qstatus (" + prefix + "*) curdepth, msgage, lputtime, monq' | sudo -u mqm /app/mqm/bin/runmqsc " + mgr
  }

  /** The text between the first `key(` of the chunk and the `)` that closes it. */
  function Field(chunk: string, key: string): (r: Option<string>)
    ensures r.Some? ==> !Contains(r.value, ")")
    ensures r.Some? ==> OccursAt(chunk, key + "(" + r.value + ")", Find(chunk, key + "("))
    ensures !Contains(chunk, key + "(") ==> r.None?
    ensures Contains(chunk, key + "(") ==>
              (r.Some? <==> Contains(chunk[Find(chunk, key + "(") + |key| + 1..], ")"))
  {
    var open := key + "(";
    var i := Find(chunk, open);
    if i < 0 then None
    else
      var rest := chunk[i + |open|..];
      var j := Find(rest, ")");
      if j < 0 then None
      else
        BeforeFirstOccurrence(rest, ")", j);
        assert OccursAt(chunk, rest[..j], i + |open|) by {
          assert chunk[i + |open|..i + |open| + j] == rest[..j];
        }
        assert OccursAt(chunk, ")", i + |open| + j) by {
          assert rest[j] == chunk[i + |open| + j];
          assert chunk[i + |open| + j..i + |open| + j + 1] == [rest[j]] == rest[j..j + 1];
        }
        OccursAtConcat(chunk, open, rest[..j], i);
        OccursAtConcat(chunk, open + rest[..j], ")", i);
        Some(rest[..j])
  }

  /** One queue's entry in the metrics dict: `[depth, lputtime, monq, msgage]`. */
  datatype QueueStatus = QueueStatus(depth: string, lputtime: string, monq: string, msgage: string)

  /**
   * The sentinel rule: with MONQ(OFF) the tool reports no put time or message
   * age, and both become "-2"; with monitoring on, a blank value becomes "-1"
   * and any other value is kept.
   */
  function ApplySentinels(lputtime: string, monq: string, msgage: string): (r: (string, string))
    ensures monq == "OFF" ==> r == (MonitoringOff, MonitoringOff)
    ensures monq != "OFF" ==> r.0 == (if Blank(lputtime) then ValueAbsent else lputtime)
    ensures monq != "OFF" ==> r.1 == (if Blank(msgage) then ValueAbsent else msgage)
  {
    if monq == "OFF" then (MonitoringOff, MonitoringOff)
    else
      (if Blank(lputtime) then ValueAbsent else lputtime,
       if Blank(msgage) then ValueAbsent else msgage)
  }

  /**
   * The two sentinels never blur: with monitoring off nothing is "absent";
   * with monitoring on, "-2" comes out only when the tool itself printed it,
   * and the stored value is never blank.
   */
  lemma SentinelsDistinguishable(lputtime: string, monq: string, msgage: string)
    ensures var r := ApplySentinels(lputtime, monq, msgage);
      && (monq == "OFF" ==> r.0 != ValueAbsent && r.1 != ValueAbsent)
      && (monq != "OFF" ==> !Blank(r.0) && !Blank(r.1))
      && (monq != "OFF" && r.0 == MonitoringOff ==> lputtime == MonitoringOff)
      && (monq != "OFF" && r.1 == MonitoringOff ==> msgage == MonitoringOff)
  {
    var r := ApplySentinels(lputtime, monq, msgage);
    if monq != "OFF" {
      assert !IsSpace(ValueAbsent[0]);
    }
  }

  const NoMatch := AttributeError("'NoneType' object has no attribute 'group'")

  /**
   * One chunk of runmqsc output: None when it has no QUEUE(...) anchor (the
   * chunk is skipped); an error when the anchor is there but another field
   * is missing; otherwise the queue name and its stored status.
   */
  function ParseChunk(chunk: string): (r: Option<Result<(string, QueueStatus)>>)
    ensures r.None? <==> Field(chunk, "QUEUE").None?
    ensures r.Some? && r.value.Ok? ==> r.value.value.0 == Field(chunk, "QUEUE").value
    ensures r.Some? && r.value.Ok? ==>
      var st := r.value.value.1;
      Field(chunk, "CURDEPTH") == Some(st.depth) && Field(chunk, "MONQ") == Some(st.monq)
    ensures r.Some? && r.value.Err? ==>
      r.value.error == NoMatch &&
      (Field(chunk, "CURDEPTH").None? || Field(chunk, "LPUTTIME").None? ||
       Field(chunk, "MONQ").None? || Field(chunk, "MSGAGE").None?)
  {
    match Field(chunk, "QUEUE")
    case None => None
    case Some(name) =>
      var depth := Field(chunk, "CURDEPTH");
      var lputtime := Field(chunk, "LPUTTIME");
      var monq := Field(chunk, "MONQ");
      var msgage := Field(chunk, "MSGAGE");
      if depth.None? || lputtime.None? || monq.None? || msgage.None? then Some(Err(NoMatch))
      else
        var (l, a) := ApplySentinels(lputtime.value, monq.value, msgage.value);
        Some(Ok((name, QueueStatus(depth.value, l, monq.value, a))))
  }

  /** The metrics dict after the loop has seen `chunks`, or the error that stopped it. */
  function Scraped(chunks: seq<string>): Result<map<string, QueueStatus>>
    decreases |chunks|
  {
    if |chunks| == 0 then Ok(map[])
    else
      var m :- Scraped(chunks[..|chunks| - 1]);
      match ParseChunk(chunks[|chunks| - 1])
      case None => Ok(m)
      case Some(Err(e)) => Err(e)
      case Some(Ok((name, st))) => Ok(m[name := st])
  }

  /** `get_queue_depth`: split the runmqsc output on "AMQ" and fill the metrics dict chunk by chunk. */
  method GetQueueDepth(response: string) returns (r: Result<map<string, QueueStatus>>)
    ensures r == Scraped(Split(response, "AMQ"))
  {
    var chunks := Split(response, "AMQ");
    var metrics: map<string, QueueStatus> := map[];
    var i := 0;
    while i < |chunks|
      invariant 0 <= i <= |chunks|
      invariant Scraped(chunks[..i]) == Ok(metrics)
    {
      assert chunks[..i + 1][..i] == chunks[..i];
      var parsed := ParseChunk(chunks[i]);
      if parsed.Some? {
        if parsed.value.Err? {
          ScrapedErrorPersists(chunks, i + 1);
          return Err(parsed.value.error);
        }
        var (name, st) := parsed.value.value;
        metrics := metrics[name := st];
      }
      i := i + 1;
    }
    assert chunks[..i] == chunks;
    r := Ok(metrics);
  }

  /** An error in the first n chunks is the error of the whole scrape. */
  lemma {:induction false} ScrapedErrorPersists(chunks: seq<string>, n: nat)
    requires n <= |chunks| && Scraped(chunks[..n]).Err?
    ensures Scraped(chunks) == Scraped(chunks[..n])
    decreases |chunks| - n
  {
    if n < |chunks| {
      assert chunks[..n + 1][..n] == chunks[..n];
      ScrapedErrorPersists(chunks, n + 1);
    } else {
      assert chunks[..n] == chunks;
    }
  }

  /** Output without any anchored chunk is an empty dict, not an error. */
  lemma {:induction false} ScrapedWithoutQueues(chunks: seq<string>)
    requires forall i :: 0 <= i < |chunks| ==> Field(chunks[i], "QUEUE").None?
    ensures Scraped(chunks) == Ok(map[])
  {
    if |chunks| > 0 {
      ScrapedWithoutQueues(chunks[..|chunks| - 1]);
    }
  }

  /** The QUEUE(...) anchor of every chunk, in order (None where a chunk has none). */
  function Anchors(chunks: seq<string>): (r: seq<Option<string>>)
    ensures |r| == |chunks| && forall i :: 0 <= i < |chunks| ==> r[i] == Field(chunks[i], "QUEUE")
    decreases |chunks|
  {
    if |chunks| == 0 then []
    else Anchors(chunks[..|chunks| - 1]) + [Field(chunks[|chunks| - 1], "QUEUE")]
  }

  /** The dict's keys are exactly the names of the anchored chunks. */
  lemma {:induction false} ScrapedKeys(chunks: seq<string>, name: string)
    requires Scraped(chunks).Ok?
    ensures name in Scraped(chunks).value <==> Some(name) in Anchors(chunks)
  {
    if |chunks| > 0 {
      var init := chunks[..|chunks| - 1];
      var c := chunks[|chunks| - 1];
      assert Scraped(init).Ok?;
      ScrapedKeys(init, name);
      var inInit := name in Scraped(init).value;
      assert Anchors(chunks) == Anchors(init) + [Field(c, "QUEUE")];
      match ParseChunk(c)
      case None =>
        assert Scraped(chunks) == Scraped(init);
      case Some(p) =>
        assert p.Ok?;
        assert Scraped(chunks).value == Scraped(init).value[p.value.0 := p.value.1];
    }
  }

  /**
   * A later chunk for the same queue overwrites an earlier one: the stored
   * status is the one parsed from the last chunk with that name.
   */
  lemma {:induction false} ScrapedLastWins(chunks: seq<string>, i: nat)
    requires Scraped(chunks).Ok? && i < |chunks|
    requires Field(chunks[i], "QUEUE").Some?
    requires forall j :: i < j < |chunks| ==> Field(chunks[j], "QUEUE") != Field(chunks[i], "QUEUE")
    ensures var name := Field(chunks[i], "QUEUE").value;
      name in Scraped(chunks).value &&
      ParseChunk(chunks[i]) == Some(Ok((name, Scraped(chunks).value[name])))
  {
    var init := chunks[..|chunks| - 1];
    var name := Field(chunks[i], "QUEUE").value;
    if i < |chunks| - 1 {
      assert init[i] == chunks[i];
      assert forall j :: i < j < |init| ==> init[j] == chunks[j];
      ScrapedLastWins(init, i);
    }
  }

  /** Every stored entry obeys the sentinel rule. */
  predicate SentinelRuleHolds(st: QueueStatus) {
    && (st.monq == "OFF" ==> st.lputtime == MonitoringOff && st.msgage == MonitoringOff)
    && (st.monq != "OFF" ==> !Blank(st.lputtime) && !Blank(st.msgage))
  }

  lemma {:induction false} ScrapedSentinels(chunks: seq<string>)
    requires Scraped(chunks).Ok?
    ensures forall name :: name in Scraped(chunks).value ==> SentinelRuleHolds(Scraped(chunks).value[name])
  {
    if |chunks| > 0 {
      var init := chunks[..|chunks| - 1];
      assert Scraped(init).Ok?;
      ScrapedSentinels(init);
      match ParseChunk(chunks[|chunks| - 1])
      case None =>
        assert Scraped(chunks) == Scraped(init);
      case Some(r) =>
        assert r.Ok?;
        ParseChunkSentinels(chunks[|chunks| - 1]);
        assert Scraped(chunks).value == Scraped(init).value[r.value.0 := r.value.1];
    }
  }

  lemma ParseChunkSentinels(chunk: string)
    requires ParseChunk(chunk).Some? && ParseChunk(chunk).value.Ok?
    ensures SentinelRuleHolds(ParseChunk(chunk).value.value.1)
  {
    SentinelsDistinguishable(Field(chunk, "LPUTTIME").value, Field(chunk, "MONQ").value, Field(chunk, "MSGAGE").value);
  }

  /** One line-protocol line of a queue: its tags, a space, and one field. */
  function Line(mgr: string, name: string, field: string, value: string): string {
    "mq_queue,queue_mgr=" + mgr + ",queues=" + name + " " + field + "=" + value
  }

  /** A string field value: the text between double quotes, unescaped. */
  function Quote(s: string): string {
    "\"" + s + "\""
  }

  /**
   * The lines printed for one queue: depth and msgage go through `int()` and
   * are printed unquoted, lputtime and monq are printed as quoted strings.
   * A depth that is not an integer stops before any line; a msgage that is
   * not an integer stops after the first three.
   */
  function QueueLines(mgr: string, name: string, st: QueueStatus): (seq<string>, Option<Exc>) {
    match ParseInt(st.depth)
    case Err(e) => ([], Some(e))
    case Ok(depth) =>
      var first := [Line(mgr, name, "depth", IntToString(depth)),
                    Line(mgr, name, "lputtime", Quote(st.lputtime)),
                    Line(mgr, name, "monq", Quote(st.monq))];
      match ParseInt(st.msgage)
      case Err(e) => (first, Some(e))
      case Ok(age) => (first + [Line(mgr, name, "msgage", IntToString(age))], None)
  }

  /**
   * The four lines of one queue: in the order depth, lputtime, monq, msgage,
   * all for the same manager and queue; the two numeric fields print integers
   * equal to the stored text's value and the two string fields print it
   * verbatim between quotes.
   */
  lemma QueueLinesFields(mgr: string, name: string, st: QueueStatus)
    requires QueueLines(mgr, name, st).1.None?
    ensures var lines := QueueLines(mgr, name, st).0;
      && |lines| == 4
      && lines[1] == Line(mgr, name, "lputtime", Quote(st.lputtime))
      && lines[2] == Line(mgr, name, "monq", Quote(st.monq))
      && (exists d :: lines[0] == Line(mgr, name, "depth", d) && ParseInt(d) == ParseInt(st.depth))
      && (exists a :: lines[3] == Line(mgr, name, "msgage", a) && ParseInt(a) == ParseInt(st.msgage))
  {
    var depth := ParseInt(st.depth).value;
    var age := ParseInt(st.msgage).value;
    QueueLinesOk(mgr, name, st, depth, age);
    ParseIntToString(depth);
    ParseIntToString(age);
    var lines := QueueLines(mgr, name, st).0;
    assert lines[0] == Line(mgr, name, "depth", IntToString(depth));
    assert lines[3] == Line(mgr, name, "msgage", IntToString(age));
  }

  /** With both numbers well formed, the four lines print them back as integers. */
  lemma QueueLinesOk(mgr: string, name: string, st: QueueStatus, depth: int, age: int)
    requires ParseInt(st.depth) == Ok(depth) && ParseInt(st.msgage) == Ok(age)
    ensures QueueLines(mgr, name, st) ==
      ([Line(mgr, name, "depth", IntToString(depth)),
        Line(mgr, name, "lputtime", Quote(st.lputtime)),
        Line(mgr, name, "monq", Quote(st.monq)),
        Line(mgr, name, "msgage", IntToString(age))], None)
  {
    var first := [Line(mgr, name, "depth", IntToString(depth)),
                  Line(mgr, name, "lputtime", Quote(st.lputtime)),
                  Line(mgr, name, "monq", Quote(st.monq))];
    assert first + [Line(mgr, name, "msgage", IntToString(age))] ==
      [first[0], first[1], first[2], Line(mgr, name, "msgage", IntToString(age))];
  }

  /**
   * A queue with depth 5 and monitoring off (lputtime "-1" as stored, msgage
   * "-2") prints these four lines under any manager and queue name, for
   * instance manager QM1 and queue TEST.Q.
   */
  lemma ExampleMonitoringOff(mgr: string, name: string)
    ensures QueueLines(mgr, name, QueueStatus("5", ValueAbsent, "OFF", MonitoringOff)) ==
      ([Line(mgr, name, "depth", "5"),
        Line(mgr, name, "lputtime", "\"-1\""),
        Line(mgr, name, "monq", "\"OFF\""),
        Line(mgr, name, "msgage", "-2")], None)
  {
    var st := QueueStatus("5", ValueAbsent, "OFF", MonitoringOff);
    SmallNumbers();
    QueueLinesOk(mgr, name, st, 5, -2);
    assert Quote(ValueAbsent) == "\"-1\"" && Quote("OFF") == "\"OFF\"";
  }

  lemma SmallNumbers()
    ensures ParseInt("5") == Ok(5) && ParseInt("-2") == Ok(-2)
    ensures IntToString(5) == "5" && IntToString(-2) == "-2"
  {
    ParseIntOfDigits("5", "5", false);
    assert DigitsValue("5") == 5;
    ParseIntOfDigits("-2", "2", true);
    assert DigitsValue("2") == 2;
  }

  /** What printing one queue, or several, produces: the lines, then the error that stopped it if any. */
  type Printout = (seq<string>, Option<Exc>)

  /** Printing the first n outputs one after another: each one's lines, up to and including the first that fails. */
  function Concat(outs: seq<Printout>, n: nat): Printout
    requires n <= |outs|
  {
    if n == 0 then ([], None)
    else
      var done := Concat(outs, n - 1);
      if done.1.Some? then done
      else (done.0 + outs[n - 1].0, outs[n - 1].1)
  }

  /** The printout of every queue in `order`, one per queue. */
  function Outputs(mgr: string, order: seq<string>, m: map<string, QueueStatus>): (r: seq<Printout>)
    requires forall i :: 0 <= i < |order| ==> order[i] in m
    ensures |r| == |order| && forall i :: 0 <= i < |order| ==> r[i] == QueueLines(mgr, order[i], m[order[i]])
  {
    seq(|order|, i requires 0 <= i < |order| => QueueLines(mgr, order[i], m[order[i]]))
  }

  /** The lines printed for the queues in `order`, up to the first conversion error. */
  function LinesFor(mgr: string, order: seq<string>, m: map<string, QueueStatus>): Printout
    requires forall i :: 0 <= i < |order| ==> order[i] in m
  {
    var outs := Outputs(mgr, order, m);
    Concat(outs, |outs|)
  }

  lemma QueueLinesLength(mgr: string, name: string, st: QueueStatus)
    requires QueueLines(mgr, name, st).1.None?
    ensures |QueueLines(mgr, name, st).0| == 4
  {
  }

  /** Every printout of a queue that did not fail has four lines. */
  lemma OutputsShape(mgr: string, order: seq<string>, m: map<string, QueueStatus>)
    requires forall i :: 0 <= i < |order| ==> order[i] in m
    ensures forall i :: 0 <= i < |order| && Outputs(mgr, order, m)[i].1.None? ==> |Outputs(mgr, order, m)[i].0| == 4
  {
    forall i | 0 <= i < |order| && Outputs(mgr, order, m)[i].1.None? {
      QueueLinesLength(mgr, order[i], m[order[i]]);
    }
  }

  /** Printouts that did not fail and have four lines each. */
  predicate FourEach(outs: seq<Printout>) {
    forall i :: 0 <= i < |outs| && outs[i].1.None? ==> |outs[i].0| == 4
  }

  /** Without an error, each of the first n printouts ran to its end and contributed four lines. */
  lemma {:induction false} ConcatLength(outs: seq<Printout>, n: nat)
    requires n <= |outs| && FourEach(outs) && Concat(outs, n).1.None?
    ensures |Concat(outs, n).0| == 4 * n
    ensures forall i :: 0 <= i < n ==> outs[i].1.None?
  {
    if n > 0 {
      ConcatLength(outs, n - 1);
    }
  }

  /** Without an error, the k-th printout is the k-th block of four lines. */
  lemma {:induction false} ConcatBlock(outs: seq<Printout>, n: nat, k: nat)
    requires n <= |outs| && FourEach(outs) && Concat(outs, n).1.None? && k < n
    ensures 4 * k + 4 <= |Concat(outs, n).0|
    ensures outs[k] == (Concat(outs, n).0[4 * k..4 * k + 4], None)
  {
    ConcatLength(outs, n);
    ConcatLength(outs, n - 1);
    BlockOfConcat(Concat(outs, n - 1).0, outs[n - 1].0, n - 1, k);
    if k < n - 1 {
      ConcatBlock(outs, n - 1, k);
    }
  }

  lemma BlockOfConcat(lines: seq<string>, more: seq<string>, n: nat, k: nat)
    requires |lines| == 4 * n && |more| == 4 && k <= n
    ensures 4 * k + 4 <= |lines + more|
    ensures (lines + more)[4 * k..4 * k + 4] == if k < n then lines[4 * k..4 * k + 4] else more
  {
    if k < n {
      assert (lines + more)[4 * k..4 * k + 4] == lines[4 * k..4 * k + 4];
    } else {
      assert (lines + more)[4 * k..4 * k + 4] == more;
    }
  }

  /** Once a printout has failed, the ones after it add nothing. */
  lemma {:induction false} ConcatAfterError(outs: seq<Printout>, n: nat, total: nat)
    requires n <= total <= |outs| && Concat(outs, n).1.Some?
    ensures Concat(outs, total) == Concat(outs, n)
    decreases total
  {
    if n < total {
      ConcatAfterError(outs, n, total - 1);
    }
  }

  /** Without a conversion error every queue contributes exactly four lines, in the order of the keys. */
  lemma LinesForLength(mgr: string, order: seq<string>, m: map<string, QueueStatus>)
    requires forall i :: 0 <= i < |order| ==> order[i] in m
    requires LinesFor(mgr, order, m).1.None?
    ensures |LinesFor(mgr, order, m).0| == 4 * |order|
  {
    OutputsShape(mgr, order, m);
    ConcatLength(Outputs(mgr, order, m), |order|);
  }

  /** ... and the lines of the k-th queue of the order are the k-th block of four. */
  lemma LinesForBlock(mgr: string, order: seq<string>, m: map<string, QueueStatus>, k: nat)
    requires forall i :: 0 <= i < |order| ==> order[i] in m
    requires LinesFor(mgr, order, m).1.None? && k < |order|
    ensures 4 * k + 4 <= |LinesFor(mgr, order, m).0|
    ensures QueueLines(mgr, order[k], m[order[k]]) == (LinesFor(mgr, order, m).0[4 * k..4 * k + 4], None)
  {
    OutputsShape(mgr, order, m);
    ConcatBlock(Outputs(mgr, order, m), |order|, k);
  }

  /** Print the four lines of every queue in the dict of one queue manager. */
  method EmitQueueMetrics(mgr: string, metrics: map<string, QueueStatus>)
    returns (lines: seq<string>, err: Option<Exc>, ghost order: seq<string>)
    ensures IsEnumeration(order, metrics.Keys)
    ensures (lines, err) == LinesFor(mgr, order, metrics)
  {
    var keys := DictKeys(metrics);
    order := keys;
    lines, err := EmitQueues(mgr, keys, metrics);
  }

  /** The loop of `EmitQueueMetrics` over the keys in iteration order. */
  method EmitQueues(mgr: string, keys: seq<string>, metrics: map<string, QueueStatus>)
    returns (lines: seq<string>, err: Option<Exc>)
    requires forall i :: 0 <= i < |keys| ==> keys[i] in metrics
    ensures (lines, err) == LinesFor(mgr, keys, metrics)
  {
    ghost var outs := Outputs(mgr, keys, metrics);
    lines, err := [], None;
    var i := 0;
    while i < |keys|
      invariant 0 <= i <= |keys|
      invariant Concat(outs, i) == (lines, None)
    {
      var out := QueueLines(mgr, keys[i], metrics[keys[i]]);
      lines := lines + out.0;
      if out.1.Some? {
        err := out.1;
        ConcatAfterError(outs, i + 1, |outs|);
        return;
      }
      i := i + 1;
    }
  }

  /** The (manager, prefix) pairs in the order the two nested loops visit them. */
  function Pairs(managers: seq<string>, prefixes: seq<string>): seq<(string, string)>
    decreases |managers|
  {
    if |managers| == 0 then []
    else Pairs(managers[..|managers| - 1], prefixes) + Row(managers[|managers| - 1], prefixes)
  }

  function Row(mgr: string, prefixes: seq<string>): (r: seq<(string, string)>)
    ensures |r| == |prefixes| && forall j :: 0 <= j < |prefixes| ==> r[j] == (mgr, prefixes[j])
  {
    seq(|prefixes|, j requires 0 <= j < |prefixes| => (mgr, prefixes[j]))
  }

  lemma RowSnoc(mgr: string, prefixes: seq<string>, n: nat)
    requires n < |prefixes|
    ensures Row(mgr, prefixes[..n + 1]) == Row(mgr, prefixes[..n]) + [(mgr, prefixes[n])]
  {
    var a, b := Row(mgr, prefixes[..n + 1]), Row(mgr, prefixes[..n]) + [(mgr, prefixes[n])];
    assert forall j :: 0 <= j < n + 1 ==> a[j] == b[j];
  }

  /** With the script's lists: managers in the outer loop, prefixes in the inner loop. */
  lemma ScrapedPairs()
    ensures Pairs(QueueManagers, QueuePrefixes) ==
      [("SS_QM_01", "SS"), ("SS_QM_01", "RXH"), ("SS_QM_02", "SS"), ("SS_QM_02", "RXH")]
  {
    assert QueueManagers[..1][..0] == [];
    assert QueueManagers[..1] == ["SS_QM_01"];
  }

  /** How the script stops early: an exception escapes, or `exit()` after the process check. */
  datatype Stop = Raised(error: Exc) | Exited

  /** One pass of the nested loops: its manager and prefix, what it printed and how it ended. */
  datatype Pass = Pass(mgr: string, prefix: string, block: seq<string>, stop: Option<Stop>)

  /** The command that looks for a runmqsc already running. */
  const ProcessCheck := "ps -ef | grep -v grep | grep /app/mqm/bin/runmqsc | grep -v qstatus"

  /**
   * What one pass prints: nothing and an exit when another runmqsc is
   * running, nothing and the scrape's error when the output could not be
   * parsed, otherwise the lines of the scraped dict in one of its iteration
   * orders, ending with the first conversion error if there is one.
   */
  ghost predicate IsPassOutput(p: Pass, run: string -> string) {
    if |run(ProcessCheck)| > 0 then p.block == [] && p.stop == Some(Exited)
    else
      var scraped := Scraped(Split(run(QstatusCommand(p.mgr, p.prefix)), "AMQ"));
      || (scraped.Err? && p.block == [] && p.stop == Some(Raised(scraped.error)))
      || (scraped.Ok? && exists order ::
            && IsEnumeration(order, scraped.value.Keys)
            && LinesFor(p.mgr, order, scraped.value).0 == p.block
            && p.stop == (match LinesFor(p.mgr, order, scraped.value).1 case None => None case Some(e) => Some(Raised(e))))
  }

  /** Every recorded pass printed what its scrape gives. */
  ghost predicate AllPrinted(passes: seq<Pass>, run: string -> string) {
    forall p :: p in passes ==> IsPassOutput(p, run)
  }

  /** Every pass but the last ran to its end. */
  predicate OnlyLastStops(passes: seq<Pass>) {
    forall k :: 0 <= k < |passes| - 1 ==> passes[k].stop.None?
  }

  lemma AllPrintedAppend(p1: seq<Pass>, p2: seq<Pass>, run: string -> string)
    requires AllPrinted(p1, run) && AllPrinted(p2, run)
    ensures AllPrinted(p1 + p2, run)
  {
    forall p | p in p1 + p2
      ensures IsPassOutput(p, run)
    {
      if p in p1 {
      } else {
        assert p in p2;
      }
    }
  }

  /** The (manager, prefix) pair of every pass. */
  function Visited(passes: seq<Pass>): (r: seq<(string, string)>)
    ensures |r| == |passes| && forall k :: 0 <= k < |passes| ==> r[k] == (passes[k].mgr, passes[k].prefix)
  {
    seq(|passes|, k requires 0 <= k < |passes| => (passes[k].mgr, passes[k].prefix))
  }

  /** Everything the passes printed, in order. */
  function Output(passes: seq<Pass>): seq<string> {
    if |passes| == 0 then [] else Output(passes[..|passes| - 1]) + passes[|passes| - 1].block
  }

  /** How the last pass ended: the script's own ending. */
  function LastStop(passes: seq<Pass>): Option<Stop> {
    if |passes| == 0 then None else passes[|passes| - 1].stop
  }

  lemma OutputSnoc(passes: seq<Pass>, p: Pass)
    ensures Output(passes + [p]) == Output(passes) + p.block
  {
    assert (passes + [p])[..|passes|] == passes;
  }

  lemma {:induction false} OutputAppend(p1: seq<Pass>, p2: seq<Pass>)
    ensures Output(p1 + p2) == Output(p1) + Output(p2)
    decreases |p2|
  {
    if |p2| == 0 {
      assert p1 + p2 == p1;
    } else {
      var n := |p2| - 1;
      var p := p1 + p2;
      OutputAppend(p1, p2[..n]);
      assert p[..|p| - 1] == p1 + p2[..n];
      assert p[|p| - 1] == p2[n];
      calc {
        Output(p);
        Output(p1 + p2[..n]) + p2[n].block;
        Output(p1) + Output(p2[..n]) + p2[n].block;
        Output(p1) + (Output(p2[..n]) + p2[n].block);
      }
    }
  }

  lemma VisitedAppend(p1: seq<Pass>, p2: seq<Pass>)
    ensures Visited(p1 + p2) == Visited(p1) + Visited(p2)
  {
    assert forall k :: 0 <= k < |p1| + |p2| ==> Visited(p1 + p2)[k] == (Visited(p1) + Visited(p2))[k];
  }

  /**
   * The script's top level: for every queue manager and then every prefix,
   * scrape the queue status and print its lines; the first error or exit
   * ends the script. `run` gives the output of a shell command line.
   */
  method ScrapeAll(managers: seq<string>, prefixes: seq<string>, run: string -> string)
    returns (lines: seq<string>, stop: Option<Stop>, ghost passes: seq<Pass>)
    ensures Progress(passes, lines, run) && stop == LastStop(passes)
    ensures |passes| <= |Pairs(managers, prefixes)| && Visited(passes) == Pairs(managers, prefixes)[..|passes|]
    ensures stop.None? ==> Visited(passes) == Pairs(managers, prefixes)
  {
    lines, stop, passes := [], None, [];
    var i := 0;
    while i < |managers|
      invariant 0 <= i <= |managers|
      invariant Visited(passes) == Pairs(managers[..i], prefixes)
      invariant Progress(passes, lines, run) && LastStop(passes).None?
    {
      var more, s, row := ScrapeManager(managers[i], prefixes, run);
      ProgressAppend(passes, lines, row, more, run);
      VisitedAppend(passes, row);
      PairsPrefix(managers, prefixes, i, |row|);
      passes := passes + row;
      lines := lines + more;
      if s.Some? {
        stop := s;
        return;
      }
      PairsNext(managers, prefixes, i);
      i := i + 1;
    }
    assert managers[..i] == managers;
  }

  /**
   * What the passes so far printed: each pass printed what its scrape gives,
   * every pass but the last ran to its end, and `lines` is all of it in order.
   */
  ghost predicate Progress(passes: seq<Pass>, lines: seq<string>, run: string -> string) {
    AllPrinted(passes, run) && OnlyLastStops(passes) && lines == Output(passes)
  }

  lemma ProgressAppend(p1: seq<Pass>, l1: seq<string>, p2: seq<Pass>, l2: seq<string>, run: string -> string)
    requires Progress(p1, l1, run) && LastStop(p1).None? && Progress(p2, l2, run)
    ensures Progress(p1 + p2, l1 + l2, run)
    ensures LastStop(p1 + p2) == if |p2| == 0 then None else LastStop(p2)
  {
    AllPrintedAppend(p1, p2, run);
    StopsAppend(p1, p2);
    OutputAppend(p1, p2);
  }

  lemma StopsAppend(p1: seq<Pass>, p2: seq<Pass>)
    requires OnlyLastStops(p1) && OnlyLastStops(p2) && LastStop(p1).None?
    ensures OnlyLastStops(p1 + p2)
    ensures LastStop(p1 + p2) == if |p2| == 0 then None else LastStop(p2)
  {
    var p := p1 + p2;
    forall k | 0 <= k < |p| - 1
      ensures p[k].stop.None?
    {
      if k < |p1| {
        assert p[k] == p1[k];
      } else {
        assert p[k] == p2[k - |p1|];
      }
    }
    if |p2| == 0 {
      assert p == p1;
    }
  }

  /** The inner loop: the passes of one queue manager over the prefixes, up to the first stop. */
  method ScrapeManager(mgr: string, prefixes: seq<string>, run: string -> string)
    returns (lines: seq<string>, stop: Option<Stop>, ghost passes: seq<Pass>)
    ensures Progress(passes, lines, run) && stop == LastStop(passes)
    ensures |passes| <= |prefixes| && Visited(passes) == Row(mgr, prefixes[..|passes|])
    ensures stop.None? ==> |passes| == |prefixes|
  {
    lines, stop, passes := [], None, [];
    var n := 0;
    while n < |prefixes|
      invariant n == |passes| <= |prefixes| && Visited(passes) == Row(mgr, prefixes[..n])
      invariant Progress(passes, lines, run) && LastStop(passes).None?
    {
      var pass := ScrapePass(mgr, prefixes[n], run);
      ManagerStep(mgr, prefixes, passes, lines, pass, run);
      passes := passes + [pass];
      lines := lines + pass.block;
      n := n + 1;
      if pass.stop.Some? {
        stop := pass.stop;
        return;
      }
    }
  }

  /** One more pass of the inner loop keeps its invariant. */
  lemma ManagerStep(mgr: string, prefixes: seq<string>, passes: seq<Pass>, lines: seq<string>, pass: Pass, run: string -> string)
    requires |passes| < |prefixes| && Visited(passes) == Row(mgr, prefixes[..|passes|])
    requires Progress(passes, lines, run) && LastStop(passes).None?
    requires pass.mgr == mgr && pass.prefix == prefixes[|passes|] && Progress([pass], pass.block, run)
    ensures Visited(passes + [pass]) == Row(mgr, prefixes[..|passes| + 1])
    ensures Progress(passes + [pass], lines + pass.block, run) && LastStop(passes + [pass]) == pass.stop
  {
    RowSnoc(mgr, prefixes, |passes|);
    ProgressAppend(passes, lines, [pass], pass.block, run);
    VisitedAppend(passes, [pass]);
  }

  /** `get_queue_depth` and the print loop after it, for one manager and one prefix. */
  method ScrapePass(mgr: string, prefix: string, run: string -> string) returns (p: Pass)
    ensures p.mgr == mgr && p.prefix == prefix && Progress([p], p.block, run)
  {
    if |run(ProcessCheck)| > 0 {
      p := Pass(mgr, prefix, [], Some(Exited));
    } else {
      var scraped := GetQueueDepth(run(QstatusCommand(mgr, prefix)));
      if scraped.Err? {
        p := Pass(mgr, prefix, [], Some(Raised(scraped.error)));
      } else {
        var block, err, order := EmitQueueMetrics(mgr, scraped.value);
        p := Pass(mgr, prefix, block, if err.Some? then Some(Raised(err.value)) else None);
      }
    }
    assert Output([p]) == p.block by {
      assert [p][..0] == [];
    }
  }

  /** The pairs visited so far are a prefix of all the pairs. */
  lemma PairsPrefix(managers: seq<string>, prefixes: seq<string>, i: nat, j: nat)
    requires i < |managers| && j <= |prefixes|
    ensures var done := Pairs(managers[..i], prefixes) + Row(managers[i], prefixes[..j]);
      |done| <= |Pairs(managers, prefixes)| && done == Pairs(managers, prefixes)[..|done|]
  {
    PairsExtend(managers, prefixes, i + 1);
    assert managers[..i + 1][..i] == managers[..i];
    var full := Pairs(managers[..i + 1], prefixes);
    assert full == Pairs(managers[..i], prefixes) + Row(managers[i], prefixes);
    assert Row(managers[i], prefixes[..j]) == Row(managers[i], prefixes)[..j];
  }

  /** After a manager ran through every prefix, the pairs of the next managers follow. */
  lemma PairsNext(managers: seq<string>, prefixes: seq<string>, i: nat)
    requires i < |managers|
    ensures Pairs(managers[..i + 1], prefixes) == Pairs(managers[..i], prefixes) + Row(managers[i], prefixes[..|prefixes|])
  {
    assert managers[..i + 1][..i] == managers[..i];
    assert prefixes[..|prefixes|] == prefixes;
  }

  /** The pairs of the first n managers are a prefix of all the pairs. */
  lemma {:induction false} PairsExtend(managers: seq<string>, prefixes: seq<string>, n: nat)
    requires n <= |managers|
    ensures var p := Pairs(managers[..n], prefixes);
      |p| <= |Pairs(managers, prefixes)| && p == Pairs(managers, prefixes)[..|p|]
    decreases |managers| - n
  {
    if n < |managers| {
      PairsExtend(managers, prefixes, n + 1);
      assert managers[..n + 1][..n] == managers[..n];
    } else {
      assert managers[..n] == managers;
    }
  }
}
