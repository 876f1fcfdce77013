/**
 * The Burrow lag reporter: asks a local Burrow for its Kafka clusters, the
 * consumer groups of each cluster and the lag of each group, and prints one
 * `kafka_consumers` line per group followed by one `kafka_burrow` line per
 * partition. Along the way it keeps a running total of the partitions' end
 * lag and an average over the current group's partitions.
 */
module BurrowMetrics {
  import opened Py
  import opened Strings

  const Url := "http://localhost:9000"

  /** `get_clusters`' address. */
  const ClustersUrl := Url + "/v2/kafka"

  /** `get_consumers`' address for one cluster. */
  function ConsumersUrl(cluster: Value): string {
    Url + "/v2/kafka/" + Show(cluster) + "/consumer/"
  }

  /** `get_lag`'s address for one consumer group of one cluster. */
  function LagUrl(cluster: Value, consumer: Value): string {
    Url + "/v2/kafka/" + Show(cluster) + "/consumer/" + Show(consumer) + "/lag"
  }

  /**
   * `json.load(urllib2.urlopen(url))`: the decoded reply Burrow gives for an
   * address, or the exception opening or decoding it raises.
   */
  type Fetch = string -> Result<Value>

  /** The script's four module-level variables. */
  datatype Globals = Globals(message: string, lag: int, partitionCount: int, averageLag: int)

  /** Their values when the script starts. */
  const Start := Globals("", 0, 0, 0)

  /** The line of one consumer group. */
  function ConsumerLine(cluster: Value, consumer: Value, status: Value): string {
    "kafka_consumers,cluster=\"" + Show(cluster) + "\" consumer_group=\"" + Show(consumer) +
    "\",status=\"" + Show(status) + "\"\n"
  }

  /** The line of one partition of a consumer group. */
  function PartitionLine(cluster: Value, consumer: Value, partition: Value, endLag: Value, status: Value): string {
    "kafka_burrow,cluster=\"" + Show(cluster) + "\" consumer_group=\"" + Show(consumer) +
    "\",partition=\"" + Show(partition) + "\",end_lag=\"" + Show(endLag) + "\",status=\"" + Show(status) + "\"\n"
  }

  /** `lag += v` for an integer `lag`: what it adds, where True counts as 1. */
  function LagAmount(v: Value): Result<int> {
    match v
    case Int(i) => Ok(i)
    case Bool(b) => Ok(if b then 1 else 0)
    case _ => Err(TypeError("unsupported operand type(s) for +="))
  }

  /** What one partition contributes: its line and the lag it adds. */
  datatype Entry = Entry(line: string, amount: int)

  /**
   * One partition: the line, read from `partition`, `end.lag` and `status`
   * in that order, then the amount `lag += partition['end']['lag']` adds.
   */
  function PartitionEntry(cluster: Value, consumer: Value, p: Value): Result<Entry> {
    var partition :- Get(p, "partition");
    var end :- Get(p, "end");
    var endLag :- Get(end, "lag");
    var status :- Get(p, "status");
    var amount :- LagAmount(endLag);
    Ok(Entry(PartitionLine(cluster, consumer, partition, endLag, status), amount))
  }

  /**
   * What reading each partition of a group gives. Reading a partition
   * changes nothing, so the loop below may take these as given.
   */
  function EntryResults(cluster: Value, consumer: Value, ps: seq<Value>): (rs: seq<Result<Entry>>)
    ensures |rs| == |ps|
  {
    seq(|ps|, k requires 0 <= k < |ps| => PartitionEntry(cluster, consumer, ps[k]))
  }

  /** The k-th result is the outcome of the k-th partition. */
  lemma EntryResultsAt(cluster: Value, consumer: Value, ps: seq<Value>, k: nat)
    requires k < |ps|
    ensures EntryResults(cluster, consumer, ps)[k] == PartitionEntry(cluster, consumer, ps[k])
  {
  }

  /** The body of the loop over one group's partitions: the line is appended and the lag added. */
  function PartitionStep(st: Globals, r: Result<Entry>): Result<Globals> {
    match r
    case Err(e) => Err(e)
    case Ok(e) => Ok(st.(message := st.message + e.line, lag := st.lag + e.amount))
  }

  /** The loop over a group's partitions, given what reading each one gives: the variables after it, or the first exception. */
  function Partitions(st: Globals, rs: seq<Result<Entry>>): Result<Globals>
    decreases |rs|
  {
    if |rs| == 0 then Ok(st)
    else
      match PartitionStep(st, rs[0])
      case Err(e) => Err(e)
      case Ok(next) => Partitions(next, rs[1..])
  }

  /** `if lag > 0: average_lag = lag / partition_count`, with Python 2's integer division. */
  function Average(st: Globals): Result<Globals> {
    if st.lag <= 0 then Ok(st)
    else if st.partitionCount == 0 then Err(ZeroDivisionError)
    else Ok(st.(averageLag := st.lag / st.partitionCount))
  }

  /** A consumer group's state as Burrow reports it: its status and its partitions. */
  datatype Group = Group(status: Value, partitions: seq<Value>)

  /** `get_lag`, then `data['status']['status']` and the list `data['status']['partitions']`. */
  function LagReport(fetch: Fetch, cluster: Value, consumer: Value): Result<Group> {
    var data :- fetch(LagUrl(cluster, consumer));
    var status :- Get(data, "status");
    var s :- Get(status, "status");
    var partitions :- Get(status, "partitions");
    var ps :- Items(partitions);
    Ok(Group(s, ps))
  }

  /**
   * The body of the loop over one cluster's consumer groups: the group's
   * line, its partition count, its partitions, then the average when the
   * running total is positive.
   */
  function ConsumerStep(fetch: Fetch, st: Globals, cluster: Value, consumer: Value): Result<Globals> {
    var group :- LagReport(fetch, cluster, consumer);
    var st1 := st.(message := st.message + ConsumerLine(cluster, consumer, group.status), partitionCount := |group.partitions|);
    var st2 :- Partitions(st1, EntryResults(cluster, consumer, group.partitions));
    Average(st2)
  }

  /** The loop over a cluster's consumer groups. */
  function Consumers(fetch: Fetch, st: Globals, cluster: Value, cs: seq<Value>): Result<Globals>
    decreases |cs|
  {
    if |cs| == 0 then Ok(st)
    else
      match ConsumerStep(fetch, st, cluster, cs[0])
      case Err(e) => Err(e)
      case Ok(next) => Consumers(fetch, next, cluster, cs[1..])
  }

  /** One turn of the loop over the consumer groups, from the i-th group on. */
  lemma ConsumersFrom(fetch: Fetch, st: Globals, cluster: Value, cs: seq<Value>, i: nat)
    requires i < |cs|
    ensures Consumers(fetch, st, cluster, cs[i..]) ==
              match ConsumerStep(fetch, st, cluster, cs[i])
              case Err(e) => Err(e)
              case Ok(next) => Consumers(fetch, next, cluster, cs[i + 1..])
  {
    assert cs[i..][1..] == cs[i + 1..];
  }

  /** `get_consumers`, then the list `data['consumers']`. */
  function ConsumerList(fetch: Fetch, cluster: Value): Result<seq<Value>> {
    var data :- fetch(ConsumersUrl(cluster));
    var consumers :- Get(data, "consumers");
    Items(consumers)
  }

  /** The body of the loop over the clusters: the cluster's consumer groups, one after another. */
  function ClusterStep(fetch: Fetch, st: Globals, cluster: Value): Result<Globals> {
    var cs :- ConsumerList(fetch, cluster);
    Consumers(fetch, st, cluster, cs)
  }

  /** The loop over the clusters. */
  function Clusters(fetch: Fetch, st: Globals, cls: seq<Value>): Result<Globals>
    decreases |cls|
  {
    if |cls| == 0 then Ok(st)
    else
      match ClusterStep(fetch, st, cls[0])
      case Err(e) => Err(e)
      case Ok(next) => Clusters(fetch, next, cls[1..])
  }

  /** `get_clusters`, then iterating over the list it returns. */
  function ClusterList(fetch: Fetch): Result<seq<Value>> {
    var data :- fetch(ClustersUrl);
    var clusters :- Get(data, "clusters");
    Items(clusters)
  }

  /** The variables once every cluster is done, or the exception that ended the script. */
  function Report(fetch: Fetch): Result<Globals> {
    var cls :- ClusterList(fetch);
    Clusters(fetch, Start, cls)
  }

  /** How the script ends: printing the message, or with an uncaught exception and nothing printed. */
  datatype Ending = Printed(output: string) | Raised(error: Exc)

  /** What the script prints: `print message` adds one newline. */
  function Output(fetch: Fetch): Ending {
    match Report(fetch)
    case Err(e) => Raised(e)
    case Ok(st) => Printed(st.message + "\n")
  }

  /** The lines of some entries, concatenated. */
  function Text(es: seq<Entry>): string {
    if |es| == 0 then "" else es[0].line + Text(es[1..])
  }

  /** The amounts of some entries, summed. */
  function Total(es: seq<Entry>): int {
    if |es| == 0 then 0 else es[0].amount + Total(es[1..])
  }

  /** The entry of every partition, or the exception of the first partition that has none. */
  function Entries(rs: seq<Result<Entry>>): Result<seq<Entry>>
    decreases |rs|
  {
    if |rs| == 0 then Ok([])
    else
      match rs[0]
      case Err(e) => Err(e)
      case Ok(e) =>
        match Entries(rs[1..])
        case Err(x) => Err(x)
        case Ok(rest) => Ok([e] + rest)
  }

  /**
   * Entries succeeds exactly when every partition has an entry, and then
   * holds each partition's entry in its place; otherwise it reports the
   * exception of the first partition without one.
   */
  lemma {:induction false} EntriesOfEach(rs: seq<Result<Entry>>)
    ensures var r := Entries(rs);
            && (r.Ok? <==> forall k :: 0 <= k < |rs| ==> rs[k].Ok?)
            && (r.Ok? ==> |r.value| == |rs| && forall k :: 0 <= k < |rs| ==> rs[k] == Ok(r.value[k]))
            && (r.Err? ==> exists j :: 0 <= j < |rs| && rs[j] == Err(r.error) && forall k :: 0 <= k < j ==> rs[k].Ok?)
    decreases |rs|
  {
    if |rs| > 0 {
      var tail := rs[1..];
      EntriesOfEach(tail);
      assert forall k :: 1 <= k < |rs| ==> rs[k] == tail[k - 1];
      if rs[0].Ok? && Entries(tail).Err? {
        var j :| 0 <= j < |tail| && tail[j] == Err(Entries(tail).error) && forall k :: 0 <= k < j ==> tail[k].Ok?;
        assert rs[j + 1] == tail[j];
      }
    }
  }

  lemma AppendAssociates(a: string, b: string, c: string)
    ensures a + b + c == a + (b + c)
  {
  }

  /**
   * The loop over a group's partitions, when every partition has its
   * fields: every partition's line is appended, in order, and every
   * partition's lag added to the running total; the partition count and the
   * average are left alone.
   */
  lemma {:induction false} PartitionsAppend(st: Globals, rs: seq<Result<Entry>>, es: seq<Entry>)
    requires Entries(rs) == Ok(es)
    ensures Partitions(st, rs) == Ok(st.(message := st.message + Text(es), lag := st.lag + Total(es)))
    decreases |rs|
  {
    if |rs| == 0 {
      assert st.message + Text(es) == st.message;
    } else {
      var e := es[0];
      var next := st.(message := st.message + e.line, lag := st.lag + e.amount);
      assert rs[0] == Ok(e) && Entries(rs[1..]) == Ok(es[1..]);
      PartitionsAppend(next, rs[1..], es[1..]);
      AppendAssociates(st.message, e.line, Text(es[1..]));
    }
  }

  /** The loop over a group's partitions stops with the exception of the first partition that lacks a field or a numeric lag. */
  lemma {:induction false} PartitionsRaise(st: Globals, rs: seq<Result<Entry>>)
    requires Entries(rs).Err?
    ensures Partitions(st, rs) == Err(Entries(rs).error)
    decreases |rs|
  {
    if rs[0].Ok? {
      PartitionsRaise(PartitionStep(st, rs[0]).value, rs[1..]);
    }
  }

  /**
   * One consumer group, once its reply and every partition are well formed:
   * its line comes first, then its partitions' lines in order; the lag keeps
   * the total of every earlier group and adds this group's partitions; the
   * partition count is this group's alone; and the average is recomputed,
   * by integer division, only when the running total is positive, which
   * raises ZeroDivisionError for a group without partitions.
   */
  lemma ConsumerReport(fetch: Fetch, st: Globals, cluster: Value, consumer: Value, s: Value, ps: seq<Value>, es: seq<Entry>)
    requires LagReport(fetch, cluster, consumer) == Ok(Group(s, ps))
    requires Entries(EntryResults(cluster, consumer, ps)) == Ok(es)
    ensures var lag := st.lag + Total(es);
            ConsumerStep(fetch, st, cluster, consumer) ==
              if lag > 0 && |ps| == 0 then Err(ZeroDivisionError)
              else Ok(Globals(st.message + ConsumerLine(cluster, consumer, s) + Text(es), lag, |ps|,
                              if lag > 0 then lag / |ps| else st.averageLag))
  {
    var st1 := st.(message := st.message + ConsumerLine(cluster, consumer, s), partitionCount := |ps|);
    PartitionsAppend(st1, EntryResults(cluster, consumer, ps), es);
  }

  /**
   * A group's reply is read as `data['status']['status']`, then
   * `data['status']['partitions']`, which must be a list; the first lookup
   * that fails is the exception the group raises.
   */
  lemma LagReportReads(fetch: Fetch, cluster: Value, consumer: Value, data: Value)
    requires fetch(LagUrl(cluster, consumer)) == Ok(data)
    ensures Get(data, "status").Err? ==> LagReport(fetch, cluster, consumer) == Err(Get(data, "status").error)
    ensures Get(data, "status").Ok? ==>
            var status := Get(data, "status").value;
            && (Get(status, "status").Err? ==> LagReport(fetch, cluster, consumer) == Err(Get(status, "status").error))
            && (Get(status, "status").Ok? && Get(status, "partitions").Err? ==>
                  LagReport(fetch, cluster, consumer) == Err(Get(status, "partitions").error))
            && (Get(status, "status").Ok? && Get(status, "partitions").Ok? ==>
                  (LagReport(fetch, cluster, consumer).Ok? <==> Get(status, "partitions").value.List?) &&
                  (LagReport(fetch, cluster, consumer).Ok? ==>
                     LagReport(fetch, cluster, consumer).value ==
                       Group(Get(status, "status").value, Get(status, "partitions").value.items)))
  {
  }

  /** The running total is never reset: after a lagging group, a group without partitions divides by zero. */
  lemma EmptyGroupAfterLag(fetch: Fetch, st: Globals, cluster: Value, consumer: Value, s: Value)
    requires st.lag > 0
    requires LagReport(fetch, cluster, consumer) == Ok(Group(s, []))
    ensures ConsumerStep(fetch, st, cluster, consumer) == Err(ZeroDivisionError)
  {
    ConsumerReport(fetch, st, cluster, consumer, s, [], []);
  }

  /** Text that is empty or ends in a newline: a whole number of lines. */
  predicate WholeLines(s: string) {
    |s| == 0 || s[|s| - 1] == '\n'
  }

  /** Appending a line that ends in a newline. */
  lemma AppendLine(a: string, b: string, line: string)
    requires line == b + "\n"
    ensures WholeLines(a + line)
  {
    assert (a + line)[|a + line| - 1] == line[|line| - 1];
  }

  /** Every line a partition gives ends in a newline. */
  lemma PartitionEntryLine(cluster: Value, consumer: Value, p: Value)
    requires PartitionEntry(cluster, consumer, p).Ok?
    ensures var line := PartitionEntry(cluster, consumer, p).value.line;
            |line| > 0 && line[|line| - 1] == '\n'
  {
  }

  lemma {:induction false} PartitionsWholeLines(st: Globals, cluster: Value, consumer: Value, ps: seq<Value>)
    requires WholeLines(st.message) && Partitions(st, EntryResults(cluster, consumer, ps)).Ok?
    ensures WholeLines(Partitions(st, EntryResults(cluster, consumer, ps)).value.message)
    decreases |ps|
  {
    if |ps| > 0 {
      var rs := EntryResults(cluster, consumer, ps);
      var line := rs[0].value.line;
      PartitionEntryLine(cluster, consumer, ps[0]);
      AppendLine(st.message, line[..|line| - 1], line);
      var next := PartitionStep(st, rs[0]).value;
      assert EntryResults(cluster, consumer, ps[1..]) == rs[1..];
      PartitionsWholeLines(next, cluster, consumer, ps[1..]);
    }
  }

  /** A group appends whole lines to a message of whole lines. */
  lemma ConsumerWholeLines(fetch: Fetch, st: Globals, cluster: Value, consumer: Value)
    requires WholeLines(st.message) && ConsumerStep(fetch, st, cluster, consumer).Ok?
    ensures WholeLines(ConsumerStep(fetch, st, cluster, consumer).value.message)
  {
    var group := LagReport(fetch, cluster, consumer).value;
    var line := ConsumerLine(cluster, consumer, group.status);
    AppendLine(st.message, line[..|line| - 1], line);
    var st1 := st.(message := st.message + line, partitionCount := |group.partitions|);
    PartitionsWholeLines(st1, cluster, consumer, group.partitions);
  }

  lemma {:induction false} ConsumersWholeLines(fetch: Fetch, st: Globals, cluster: Value, cs: seq<Value>)
    requires WholeLines(st.message) && Consumers(fetch, st, cluster, cs).Ok?
    ensures WholeLines(Consumers(fetch, st, cluster, cs).value.message)
    decreases |cs|
  {
    if |cs| > 0 {
      ConsumerWholeLines(fetch, st, cluster, cs[0]);
      ConsumersWholeLines(fetch, ConsumerStep(fetch, st, cluster, cs[0]).value, cluster, cs[1..]);
    }
  }

  lemma {:induction false} ClustersWholeLines(fetch: Fetch, st: Globals, cls: seq<Value>)
    requires WholeLines(st.message) && Clusters(fetch, st, cls).Ok?
    ensures WholeLines(Clusters(fetch, st, cls).value.message)
    decreases |cls|
  {
    if |cls| > 0 {
      ConsumersWholeLines(fetch, st, cls[0], ConsumerList(fetch, cls[0]).value);
      ClustersWholeLines(fetch, ClusterStep(fetch, st, cls[0]).value, cls[1..]);
    }
  }

  /** Every line of the printed message ends in a newline, and `print` adds one more. */
  lemma OutputWholeLines(fetch: Fetch)
    requires Output(fetch).Printed?
    ensures var out := Output(fetch).output;
            |out| > 0 && out[|out| - 1] == '\n' && WholeLines(out[..|out| - 1])
  {
    ClustersWholeLines(fetch, Start, ClusterList(fetch).value);
    var out := Output(fetch).output;
    assert out[..|out| - 1] == Report(fetch).value.message;
  }

  /** The script's variables, updated in place by the nested loops. */
  class Script {
    const fetch: Fetch
    var message: string
    var lag: int
    var partitionCount: int
    var averageLag: int

    function State(): Globals
      reads this
    {
      Globals(message, lag, partitionCount, averageLag)
    }

    /** Where a loop body leaves the script: its variables, or the exception it raised. */
    function After(error: Option<Exc>): Result<Globals>
      reads this
    {
      if error.Some? then Err(error.value) else Ok(State())
    }

    constructor (fetch: Fetch)
      ensures this.fetch == fetch && State() == Start
    {
      this.fetch := fetch;
      message := "";
      lag := 0;
      partitionCount := 0;
      averageLag := 0;
    }

    /** The body of the loop over one cluster's consumer groups. */
    method ReportConsumer(cluster: Value, consumer: Value) returns (error: Option<Exc>)
      modifies this
      ensures After(error) == ConsumerStep(fetch, old(State()), cluster, consumer)
    {
      var group := LagReport(fetch, cluster, consumer);
      if group.Err? { return Some(group.error); }
      message := message + ConsumerLine(cluster, consumer, group.value.status);
      partitionCount := |group.value.partitions|;
      error := ReportPartitions(cluster, consumer, group.value.partitions);
      if error.Some? { return; }
      error := UpdateAverage();
    }

    /** The average after a group's partitions. */
    method UpdateAverage() returns (error: Option<Exc>)
      modifies this
      ensures After(error) == Average(old(State()))
    {
      if lag > 0 {
        if partitionCount == 0 { return Some(ZeroDivisionError); }
        averageLag := lag / partitionCount;
      }
      error := None;
    }

    /** The body of the loop over one group's partitions. */
    method AddPartition(cluster: Value, consumer: Value, p: Value) returns (error: Option<Exc>)
      modifies this
      ensures After(error) == PartitionStep(old(State()), PartitionEntry(cluster, consumer, p))
    {
      var e := PartitionEntry(cluster, consumer, p);
      if e.Err? { return Some(e.error); }
      message := message + e.value.line;
      lag := lag + e.value.amount;
      error := None;
    }

    /** The loop over one group's partitions. */
    method ReportPartitions(cluster: Value, consumer: Value, ps: seq<Value>) returns (error: Option<Exc>)
      modifies this
      ensures After(error) == Partitions(old(State()), EntryResults(cluster, consumer, ps))
    {
      ghost var rs := EntryResults(cluster, consumer, ps);
      ghost var st0 := State();
      var i := 0;
      while i < |ps|
        invariant 0 <= i <= |ps|
        invariant Partitions(st0, rs) == Partitions(State(), rs[i..])
      {
        assert rs[i..][1..] == rs[i + 1..];
        EntryResultsAt(cluster, consumer, ps, i);
        error := AddPartition(cluster, consumer, ps[i]);
        if error.Some? { return; }
        i := i + 1;
      }
      error := None;
    }

    /** The body of the loop over the clusters. */
    method ReportCluster(cluster: Value) returns (error: Option<Exc>)
      modifies this
      ensures After(error) == ClusterStep(fetch, old(State()), cluster)
    {
      var cs := ConsumerList(fetch, cluster);
      if cs.Err? { return Some(cs.error); }
      error := ReportConsumers(cluster, cs.value);
    }

    /** The loop over the consumer groups of one cluster. */
    method ReportConsumers(cluster: Value, cs: seq<Value>) returns (error: Option<Exc>)
      modifies this
      ensures After(error) == Consumers(fetch, old(State()), cluster, cs)
    {
      ghost var st0 := State();
      var i := 0;
      while i < |cs|
        invariant 0 <= i <= |cs|
        invariant Consumers(fetch, st0, cluster, cs) == Consumers(fetch, State(), cluster, cs[i..])
      {
        ghost var st := State();
        error := ReportConsumer(cluster, cs[i]);
        ConsumersFrom(fetch, st, cluster, cs, i);
        if error.Some? { return; }
        i := i + 1;
      }
      error := None;
    }
  }

  /** The script from start to end: every cluster, then `print message`. */
  method RunScript(fetch: Fetch) returns (ending: Ending)
    ensures ending == Output(fetch)
  {
    var z := new Script(fetch);
    var cls := ClusterList(fetch);
    if cls.Err? { return Raised(cls.error); }
    var i := 0;
    while i < |cls.value|
      invariant 0 <= i <= |cls.value| && z.fetch == fetch
      invariant Clusters(fetch, Start, cls.value) == Clusters(fetch, z.State(), cls.value[i..])
    {
      assert cls.value[i..][1..] == cls.value[i + 1..];
      var error := z.ReportCluster(cls.value[i]);
      if error.Some? { return Raised(error.value); }
      i := i + 1;
    }
    ending := Printed(z.message + "\n");
  }
}
