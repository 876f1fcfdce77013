/**
 * The `bigip_gtm_pool` Ansible module: makes a GTM pool on an F5 BIG-IP
 * present, absent, enabled or disabled, reporting whether anything changed
 * and, in check mode, changing nothing. The device is an abstract registry of
 * pools; the iControl calls the module makes read and update it.
 */
module GtmPool {
  import opened Py
  import opened Strings

  /** `set_pool_state`: the enabled-state constant sent for a state name. */
  function EncodeState(state: string): string {
    "STATE_" + Upper(Strip(state))
  }

  /** `get_pool_state`: the lower-cased text after the first `STATE_`; IndexError when there is none. */
  function DecodeState(reply: string): Result<string> {
    var parts := Split(reply, "STATE_");
    if |parts| < 2 then Err(IndexError) else Ok(Lower(parts[1]))
  }

  /** Lower-case ASCII letters only, as the state names `enabled` and `disabled` are. */
  predicate IsLetters(s: string) {
    forall i :: 0 <= i < |s| ==> 'a' <= s[i] <= 'z'
  }

  /** Decoding the encoding of a lower-case state name gives the name back. */
  lemma StateRoundTrip(state: string)
    requires IsLetters(state)
    ensures DecodeState(EncodeState(state)) == Ok(state)
  {
    StripNoSpace(state);
    var u := Upper(state);
    MissingChar(u, "STATE_", 5);
    SplitLeadingSeparator("STATE_", u);
    SplitNoSeparator(u, "STATE_");
    LowerUpper(state);
  }

  /** Decoding fails, with IndexError, exactly when the reply holds no `STATE_`. */
  lemma DecodeStateFails(reply: string)
    ensures DecodeState(reply).Err? <==> !Contains(reply, "STATE_")
    ensures DecodeState(reply).Err? ==> DecodeState(reply).error == IndexError
  {
    if !Contains(reply, "STATE_") {
      SplitNoSeparator(reply, "STATE_");
    }
  }

  /** `add_pool`: the load-balancing constant sent on creation; an empty method means round robin. */
  function EncodeLbMethod(lbMethod: string): string {
    "LB_METHOD_" + Upper(Strip(if lbMethod == "" then "round_robin" else lbMethod))
  }

  /** An empty method is sent as round robin; any other is sent as its own upper-cased name. */
  lemma LbMethodDefault(lbMethod: string)
    ensures EncodeLbMethod("") == EncodeLbMethod("round_robin")
    ensures lbMethod != "" ==> EncodeLbMethod(lbMethod) == "LB_METHOD_" + Upper(Strip(lbMethod))
  {
  }

  /** The full path of a pool: `/partition/pool`. */
  function PoolPath(partition: string, pool: string): string {
    "/" + partition + "/" + pool
  }

  /** A partition name without `/` is recovered from the path, and so is the pool name. */
  lemma PoolPathInjective(partition: string, pool: string, partition2: string, pool2: string)
    requires '/' !in partition && '/' !in partition2
    ensures PoolPath(partition, pool) == PoolPath(partition2, pool2) <==> partition == partition2 && pool == pool2
  {
    var s, s2 := PoolPath(partition, pool), PoolPath(partition2, pool2);
    if s == s2 {
      ContainsChar(partition, '/');
      ContainsChar(partition2, '/');
      assert s[1..] == partition + "/" + pool && s2[1..] == partition2 + "/" + pool2;
      FindAfterFreePrefix(partition, "/", pool);
      FindAfterFreePrefix(partition2, "/", pool2);
      assert partition == s[1..][..|partition|];
      assert partition2 == s2[1..][..|partition2|];
      assert pool == s[|partition| + 2..];
      assert pool2 == s2[|partition2| + 2..];
    }
  }

  /** The OperationFailed that iControl raises for a pool or member the device does not have. */
  function NotFound(what: string): Exc {
    OperationFailed("The requested " + what + " " + NotFoundPhrase + ".")
  }

  const NotFoundPhrase := "was not found"

  /** The OperationFailed that iControl raises when asked to create a pool that is already there. */
  function AlreadyExists(what: string): Exc {
    OperationFailed("The requested " + what + " already exists.")
  }

  /**
   * `pool_exists` / `member_exists`: a probe that returns means the object
   * exists; an OperationFailed whose text contains "was not found" means it
   * does not; anything else is raised again.
   */
  function Exists(raised: Option<Exc>): Result<bool> {
    match raised
    case None => Ok(true)
    case Some(e) => if e.OperationFailed? && Contains(Text(e), NotFoundPhrase) then Ok(false) else Err(e)
  }

  /** The classification: true only when the probe returned, false only for "was not found", else the same error. */
  lemma ExistsRule(raised: Option<Exc>)
    ensures Exists(raised) == Ok(true) <==> raised.None?
    ensures Exists(raised) == Ok(false) <==> raised.Some? && raised.value.OperationFailed? && Contains(raised.value.message, NotFoundPhrase)
    ensures Exists(raised).Err? <==> raised.Some? && Exists(raised) == Err(raised.value)
  {
  }

  /** The device's own not-found error is read as "does not exist". */
  lemma NotFoundMeansAbsent(what: string)
    ensures Exists(Some(NotFound(what))) == Ok(false)
  {
    ContainsMiddle("The requested " + what + " ", NotFoundPhrase, ".");
  }

  /** `"already exists" in str(e)` for an OperationFailed raised by create. */
  predicate IsAlreadyExists(e: Exc) {
    e.OperationFailed? && Contains(Text(e), "already exists")
  }

  /** A pool member: a virtual server by name and the server it belongs to. */
  datatype Member = Member(name: string, server: string)

  /** What the device records for a pool: its enabled-state constant, its method and its members. */
  datatype Pool = Pool(state: string, lbMethod: string, members: set<Member>)

  /** The iControl calls the module makes, each about one pool path. */
  datatype Call =
    | ObjectStatus(path: string)
    | MemberObjectStatus(path: string, member: Member)
    | GetEnabledState(path: string)
    | SetEnabledState(path: string)
    | CreatePool(path: string)
    | DeletePool(path: string)
    | RemoveMember(path: string, member: Member)

  /** The `state` option. */
  datatype Desired = Present | Absent | Enabled | Disabled

  /** The module's options that decide what it does (the credentials only open the connection). */
  datatype Params = Params(
    partition: string,
    pool: string,
    state: Desired,
    lbMethod: string,
    virtualServerName: Option<string>,
    virtualServerServer: Option<string>)

  /** How the module ends: `exit_json(changed=...)` or `fail_json(msg=...)`. */
  datatype Outcome = Exit(changed: bool) | Fail(msg: string)

  /** A Python truth test on an optional text option. */
  predicate Truthy(o: Option<string>) {
    o.Some? && o.value != ""
  }

  /** The state name the module compares and sends for `enabled` and `disabled`. */
  function StateName(d: Desired): string
    requires d == Enabled || d == Disabled
  {
    if d == Enabled then "enabled" else "disabled"
  }

  lemma StateNameIsLetters(d: Desired)
    requires d == Enabled || d == Disabled
    ensures IsLetters(StateName(d))
  {
    if d == Enabled {
      assert StateName(d) == ['e', 'n', 'a', 'b', 'l', 'e', 'd'];
    } else {
      assert StateName(d) == ['d', 'i', 's', 'a', 'b', 'l', 'e', 'd'];
    }
  }

  /** `fail_json(msg="received exception: %s" % e)` in the module's catch-all handler. */
  function Received(e: Exc): string {
    "received exception: " + Text(e)
  }

  /** A pool as `create_v2` makes it: enabled, with the given method and no members. */
  function NewPool(lbMethod: string): Pool {
    Pool("STATE_ENABLED", EncodeLbMethod(lbMethod), {})
  }

  /**
   * What the module does against a device that answers every call normally:
   * the outcome it reports and the pools the device holds afterwards.
   */
  function Expected(pools: map<string, Pool>, p: Params, checkMode: bool): (Outcome, map<string, Pool>) {
    var path := PoolPath(p.partition, p.pool);
    match p.state
    case Absent =>
      var doomed :=
        if Truthy(p.virtualServerName) && Truthy(p.virtualServerServer)
        then path in pools && Member(p.virtualServerName.value, p.virtualServerServer.value) in pools[path].members
        else path in pools;
      (Exit(doomed), if doomed && !checkMode then pools - {path} else pools)
    case Present =>
      (Exit(path !in pools), if path !in pools && !checkMode then pools[path := NewPool(p.lbMethod)] else pools)
    case _ =>
      if path !in pools then (Fail("pool " + path + " does not exist"), pools)
      else match DecodeState(pools[path].state)
        case Err(e) => (Fail(Received(e)), pools)
        case Ok(current) =>
          var differs := current != StateName(p.state);
          (Exit(differs),
           if differs && !checkMode then pools[path := pools[path].(state := EncodeState(StateName(p.state)))] else pools)
  }

  /** Check mode leaves the device as it was and reports what a real run would. */
  lemma CheckModeReportsSame(pools: map<string, Pool>, p: Params)
    ensures Expected(pools, p, true).1 == pools
    ensures Expected(pools, p, true).0 == Expected(pools, p, false).0
  {
  }

  /** A real run reports a change exactly when the device's pools change. */
  lemma ChangedIffModified(pools: map<string, Pool>, p: Params)
    ensures Expected(pools, p, false).0 == Exit(true) <==> Expected(pools, p, false).1 != pools
  {
    var path := PoolPath(p.partition, p.pool);
    var (outcome, after) := Expected(pools, p, false);
    match p.state
    case Absent =>
      if outcome == Exit(true) {
        assert path !in after;
      }
    case Present =>
      if outcome == Exit(true) {
        assert path in after;
      }
    case _ =>
      if path in pools && DecodeState(pools[path].state).Ok? {
        var name := StateName(p.state);
        if outcome == Exit(true) {
          StateNameIsLetters(p.state);
          StateRoundTrip(name);
          assert after[path].state == EncodeState(name);
        }
      }
  }

  /** Running the module again with the same options, after a run that did not fail, changes nothing. */
  lemma Idempotent(pools: map<string, Pool>, p: Params)
    ensures var (outcome, after) := Expected(pools, p, false);
            outcome.Exit? ==> Expected(after, p, false) == (Exit(false), after)
  {
    var path := PoolPath(p.partition, p.pool);
    var (outcome, after) := Expected(pools, p, false);
    if outcome.Exit? && (p.state == Enabled || p.state == Disabled) {
      var name := StateName(p.state);
      StateNameIsLetters(p.state);
      StateRoundTrip(name);
    }
  }

  /**
   * How a device holding `pools` answers one call: the exception it raises,
   * if any. A call listed in `faults` raises that exception (a connection
   * fault, a race with another client); otherwise the device raises its own
   * not-found error for a missing pool or member, and its already-exists
   * error for creating a pool it has.
   */
  function Answer(pools: map<string, Pool>, faults: map<Call, Exc>, c: Call): Option<Exc> {
    if c in faults then Some(faults[c])
    else match c
      case MemberObjectStatus(path, m) =>
        if path in pools && m in pools[path].members then None else Some(NotFound("member " + m.name))
      case CreatePool(path) =>
        if path in pools then Some(AlreadyExists("pool " + path)) else None
      case _ =>
        if c.path in pools then None else Some(NotFound("pool " + c.path))
  }

  /** No call about the pool at `path` is answered with an injected fault. */
  predicate NoFaultOn(faults: map<Call, Exc>, path: string) {
    forall c :: c in faults ==> c.path != path
  }

  /** The pools after `remove_pool_member` took `m` out of the pool at `path`. */
  function WithoutMember(pools: map<string, Pool>, path: string, m: Member): map<string, Pool>
    requires path in pools
  {
    pools[path := pools[path].(members := pools[path].members - {m})]
  }

  /**
   * What `main` does against any device, faults included: the outcome it
   * reports and the pools the device holds afterwards. Every exception a
   * call raises is caught by the catch-all handler and ends the run.
   */
  function Run(pools: map<string, Pool>, faults: map<Call, Exc>, p: Params, checkMode: bool): (Outcome, map<string, Pool>) {
    var path := PoolPath(p.partition, p.pool);
    var probe := Exists(Answer(pools, faults, ObjectStatus(path)));
    if probe.Err? then (Fail(Received(probe.error)), pools)
    else match p.state {
      case Absent => RunAbsent(pools, faults, p, path, probe.value, checkMode)
      case Present => RunPresent(pools, faults, p, path, probe.value, checkMode)
      case _ => RunSetState(pools, faults, p, path, probe.value, checkMode)
    }
  }

  /** The `absent` branch of `main` once the pool probe answered `poolExists`. */
  function RunAbsent(pools: map<string, Pool>, faults: map<Call, Exc>, p: Params, path: string, poolExists: bool, checkMode: bool): (Outcome, map<string, Pool>) {
    if Truthy(p.virtualServerName) && Truthy(p.virtualServerServer) then
      var m := Member(p.virtualServerName.value, p.virtualServerServer.value);
      var member := if poolExists then Exists(Answer(pools, faults, MemberObjectStatus(path, m))) else Ok(false);
      if member.Err? then (Fail(Received(member.error)), pools)
      else if !member.value then (Exit(false), pools)
      else if checkMode then (Exit(true), pools)
      else match Answer(pools, faults, RemoveMember(path, m)) {
        case Some(e) => (Fail(Received(e)), pools)
        case None =>
          var without := WithoutMember(pools, path, m);
          match Answer(without, faults, DeletePool(path)) {
            case Some(e) => (Fail(Received(e)), without)
            case None => (Exit(true), without - {path})
          }
      }
    else if !poolExists then (Exit(false), pools)
    else if checkMode then (Exit(true), pools)
    else match Answer(pools, faults, DeletePool(path)) {
      case Some(e) => (Fail(Received(e)), pools)
      case None => (Exit(true), pools - {path})
    }
  }

  /** The `present` branch of `main` once the pool probe answered `poolExists`. */
  function RunPresent(pools: map<string, Pool>, faults: map<Call, Exc>, p: Params, path: string, poolExists: bool, checkMode: bool): (Outcome, map<string, Pool>) {
    if poolExists then (Exit(false), pools)
    else if checkMode then (Exit(true), pools)
    else match Answer(pools, faults, CreatePool(path)) {
      case None => (Exit(true), pools[path := NewPool(p.lbMethod)])
      case Some(e) => (if IsAlreadyExists(e) then Exit(false) else Fail(Received(e)), pools)
    }
  }

  /** The `enabled` and `disabled` branches of `main` once the pool probe answered `poolExists`. */
  function RunSetState(pools: map<string, Pool>, faults: map<Call, Exc>, p: Params, path: string, poolExists: bool, checkMode: bool): (Outcome, map<string, Pool>)
    requires p.state == Enabled || p.state == Disabled
  {
    if !poolExists then (Fail("pool " + path + " does not exist"), pools)
    else match Answer(pools, faults, GetEnabledState(path)) {
      case Some(e) => (Fail(Received(e)), pools)
      case None =>
        match DecodeState(pools[path].state) {
          case Err(e) => (Fail(Received(e)), pools)
          case Ok(current) =>
            var name := StateName(p.state);
            if current == name then (Exit(false), pools)
            else if checkMode then (Exit(true), pools)
            else match Answer(pools, faults, SetEnabledState(path)) {
              case Some(e) => (Fail(Received(e)), pools)
              case None => (Exit(true), pools[path := pools[path].(state := EncodeState(name))])
            }
        }
    }
  }

  /**
   * A device that answers every call about the pool normally (faults on
   * other pools do not matter) makes the module do what `Expected` says.
   */
  lemma RunHealthy(pools: map<string, Pool>, faults: map<Call, Exc>, p: Params, checkMode: bool)
    requires NoFaultOn(faults, PoolPath(p.partition, p.pool))
    ensures Run(pools, faults, p, checkMode) == Expected(pools, p, checkMode)
  {
    var path := PoolPath(p.partition, p.pool);
    assert ObjectStatus(path) !in faults;
    if path !in pools {
      NotFoundMeansAbsent("pool " + path);
    }
    assert Exists(Answer(pools, faults, ObjectStatus(path))) == Ok(path in pools);
    match p.state
    case Absent => AbsentHealthy(pools, faults, p, path, checkMode);
    case Present => PresentHealthy(pools, faults, p, path, checkMode);
    case _ => SetStateHealthy(pools, faults, p, path, checkMode);
  }

  lemma AbsentHealthy(pools: map<string, Pool>, faults: map<Call, Exc>, p: Params, path: string, checkMode: bool)
    requires p.state == Absent && path == PoolPath(p.partition, p.pool) && NoFaultOn(faults, path)
    ensures RunAbsent(pools, faults, p, path, path in pools, checkMode) == Expected(pools, p, checkMode)
  {
    assert DeletePool(path) !in faults;
    if path in pools && Truthy(p.virtualServerName) && Truthy(p.virtualServerServer) {
      var m := Member(p.virtualServerName.value, p.virtualServerServer.value);
      assert MemberObjectStatus(path, m) !in faults && RemoveMember(path, m) !in faults;
      if m !in pools[path].members {
        NotFoundMeansAbsent("member " + m.name);
      } else {
        assert WithoutMember(pools, path, m) - {path} == pools - {path};
      }
    }
  }

  lemma PresentHealthy(pools: map<string, Pool>, faults: map<Call, Exc>, p: Params, path: string, checkMode: bool)
    requires p.state == Present && path == PoolPath(p.partition, p.pool) && NoFaultOn(faults, path)
    ensures RunPresent(pools, faults, p, path, path in pools, checkMode) == Expected(pools, p, checkMode)
  {
    assert CreatePool(path) !in faults;
  }

  lemma SetStateHealthy(pools: map<string, Pool>, faults: map<Call, Exc>, p: Params, path: string, checkMode: bool)
    requires (p.state == Enabled || p.state == Disabled) && path == PoolPath(p.partition, p.pool) && NoFaultOn(faults, path)
    ensures RunSetState(pools, faults, p, path, path in pools, checkMode) == Expected(pools, p, checkMode)
  {
    assert GetEnabledState(path) !in faults && SetEnabledState(path) !in faults;
  }

  /** In check mode the module leaves the device as it was, whatever the device answers. */
  lemma RunCheckMode(pools: map<string, Pool>, faults: map<Call, Exc>, p: Params)
    ensures Run(pools, faults, p, true).1 == pools
  {
  }

  /** Against any device, a real run that exits reports a change exactly when the pools changed. */
  lemma RunReportsChange(pools: map<string, Pool>, faults: map<Call, Exc>, p: Params)
    ensures var (outcome, after) := Run(pools, faults, p, false);
            outcome.Exit? ==> (outcome.changed <==> after != pools)
  {
    var path := PoolPath(p.partition, p.pool);
    var probe := Exists(Answer(pools, faults, ObjectStatus(path)));
    if probe.Ok? {
      match p.state
      case Absent => AbsentReportsChange(pools, faults, p, path, probe.value);
      case Present => PresentReportsChange(pools, faults, p, path, probe.value);
      case _ => SetStateReportsChange(pools, faults, p, path, probe.value);
    }
  }

  lemma AbsentReportsChange(pools: map<string, Pool>, faults: map<Call, Exc>, p: Params, path: string, poolExists: bool)
    ensures var (outcome, after) := RunAbsent(pools, faults, p, path, poolExists, false);
            outcome.Exit? ==> (outcome.changed <==> after != pools)
  {
    var (outcome, after) := RunAbsent(pools, faults, p, path, poolExists, false);
    if outcome == Exit(true) {
      assert path in pools && path !in after;
    }
  }

  lemma PresentReportsChange(pools: map<string, Pool>, faults: map<Call, Exc>, p: Params, path: string, poolExists: bool)
    ensures var (outcome, after) := RunPresent(pools, faults, p, path, poolExists, false);
            outcome.Exit? ==> (outcome.changed <==> after != pools)
  {
    var (outcome, after) := RunPresent(pools, faults, p, path, poolExists, false);
    if outcome == Exit(true) {
      assert path !in pools && path in after;
    }
  }

  lemma SetStateReportsChange(pools: map<string, Pool>, faults: map<Call, Exc>, p: Params, path: string, poolExists: bool)
    requires p.state == Enabled || p.state == Disabled
    ensures var (outcome, after) := RunSetState(pools, faults, p, path, poolExists, false);
            outcome.Exit? ==> (outcome.changed <==> after != pools)
  {
    var (outcome, after) := RunSetState(pools, faults, p, path, poolExists, false);
    if outcome == Exit(true) {
      var name := StateName(p.state);
      assert DecodeState(pools[path].state) != Ok(name);
      StateNameIsLetters(p.state);
      StateRoundTrip(name);
      assert after[path].state == EncodeState(name) != pools[path].state;
    }
  }

  /**
   * Against any device, a run that fails leaves the pools as they were, with
   * one exception: when `remove_pool` raises after `remove_pool_member`
   * succeeded, the member stays removed and the pool stays.
   */
  lemma RunFailure(pools: map<string, Pool>, faults: map<Call, Exc>, p: Params, checkMode: bool)
    ensures var (outcome, after) := Run(pools, faults, p, checkMode);
            var path := PoolPath(p.partition, p.pool);
            outcome.Fail? && after != pools ==>
              && p.state == Absent && !checkMode
              && Truthy(p.virtualServerName) && Truthy(p.virtualServerServer)
              && path in pools && DeletePool(path) in faults
              && after == WithoutMember(pools, path, Member(p.virtualServerName.value, p.virtualServerServer.value))
              && outcome == Fail(Received(faults[DeletePool(path)]))
  {
    var path := PoolPath(p.partition, p.pool);
    var probe := Exists(Answer(pools, faults, ObjectStatus(path)));
    if probe.Ok? && p.state == Absent {
      AbsentFailure(pools, faults, p, path, probe.value, checkMode);
    }
  }

  lemma AbsentFailure(pools: map<string, Pool>, faults: map<Call, Exc>, p: Params, path: string, poolExists: bool, checkMode: bool)
    ensures var (outcome, after) := RunAbsent(pools, faults, p, path, poolExists, checkMode);
            outcome.Fail? && after != pools ==>
              && !checkMode
              && Truthy(p.virtualServerName) && Truthy(p.virtualServerServer)
              && path in pools && DeletePool(path) in faults
              && after == WithoutMember(pools, path, Member(p.virtualServerName.value, p.virtualServerServer.value))
              && outcome == Fail(Received(faults[DeletePool(path)]))
  {
  }

  /** The device of the pool module: the pools it holds and the calls it answers with a fault. */
  class Gtm {
    var pools: map<string, Pool>
    const faults: map<Call, Exc>

    constructor(pools: map<string, Pool>, faults: map<Call, Exc>)
      ensures this.pools == pools && this.faults == faults
    {
      this.pools := pools;
      this.faults := faults;
    }

    /** The exception a call raises on the current pools, if any. */
    function Raised(c: Call): Option<Exc>
      reads this
    {
      Answer(pools, faults, c)
    }

    /** `pool_exists(api, pool)` */
    function PoolExists(path: string): Result<bool>
      reads this
    {
      Exists(Raised(ObjectStatus(path)))
    }

    /** A device without faults on the pool answers the existence probe truthfully. */
    lemma PoolExistsHealthy(path: string)
      requires NoFaultOn(faults, path)
      ensures PoolExists(path) == Ok(path in pools)
    {
      assert ObjectStatus(path) !in faults;
      if path !in pools {
        NotFoundMeansAbsent("pool " + path);
      }
    }

    /** `member_exists(api, pool, name, server)` */
    function MemberExists(path: string, m: Member): Result<bool>
      reads this
    {
      Exists(Raised(MemberObjectStatus(path, m)))
    }

    /** A device without faults on the pool answers the member probe truthfully. */
    lemma MemberExistsHealthy(path: string, m: Member)
      requires NoFaultOn(faults, path)
      ensures MemberExists(path, m) == Ok(path in pools && m in pools[path].members)
    {
      assert MemberObjectStatus(path, m) !in faults;
      if !(path in pools && m in pools[path].members) {
        NotFoundMeansAbsent("member " + m.name);
      }
    }

    /** `get_pool_state(api, pool)` */
    function GetPoolState(path: string): Result<string>
      reads this
    {
      match Raised(GetEnabledState(path))
      case Some(e) => Err(e)
      case None => DecodeState(pools[path].state)
    }

    /** `set_pool_state(api, pool, state)` */
    method SetPoolState(path: string, state: string) returns (raised: Option<Exc>)
      modifies this
      ensures raised == old(Raised(SetEnabledState(path)))
      ensures pools == if raised.None? then old(pools[path := pools[path].(state := EncodeState(state))]) else old(pools)
    {
      raised := Raised(SetEnabledState(path));
      if raised.None? {
        pools := pools[path := pools[path].(state := EncodeState(state))];
      }
    }

    /** `add_pool(api, pool, lb_method)` */
    method AddPool(path: string, lbMethod: string) returns (raised: Option<Exc>)
      modifies this
      ensures raised == old(Raised(CreatePool(path)))
      ensures pools == if raised.None? then old(pools[path := NewPool(lbMethod)]) else old(pools)
    {
      raised := Raised(CreatePool(path));
      if raised.None? {
        pools := pools[path := NewPool(lbMethod)];
      }
    }

    /** `remove_pool(api, pool)` */
    method RemovePool(path: string) returns (raised: Option<Exc>)
      modifies this
      ensures raised == old(Raised(DeletePool(path)))
      ensures pools == if raised.None? then old(pools) - {path} else old(pools)
    {
      raised := Raised(DeletePool(path));
      if raised.None? {
        pools := pools - {path};
      }
    }

    /** `remove_pool_member(api, pool, name, server)` */
    method RemovePoolMember(path: string, m: Member) returns (raised: Option<Exc>)
      modifies this
      ensures raised == old(Raised(RemoveMember(path, m)))
      ensures pools == if raised.None? then old(WithoutMember(pools, path, m)) else old(pools)
    {
      raised := Raised(RemoveMember(path, m));
      if raised.None? {
        pools := WithoutMember(pools, path, m);
      }
    }

    /** The `absent` branch of `main`. */
    method Remove(path: string, p: Params, checkMode: bool) returns (outcome: Outcome)
      requires p.state == Absent && path == PoolPath(p.partition, p.pool)
      modifies this
      ensures (outcome, pools) == Run(old(pools), faults, p, checkMode)
    {
      var changed := false;
      var poolExists := PoolExists(path);
      if poolExists.Err? {
        return Fail(Received(poolExists.error));
      }
      if Truthy(p.virtualServerName) && Truthy(p.virtualServerServer) {
        var m := Member(p.virtualServerName.value, p.virtualServerServer.value);
        if poolExists.value {
          var memberExists := MemberExists(path, m);
          if memberExists.Err? {
            return Fail(Received(memberExists.error));
          }
          if memberExists.value {
            if !checkMode {
              var raised := RemovePoolMember(path, m);
              if raised.Some? {
                return Fail(Received(raised.value));
              }
              raised := RemovePool(path);
              if raised.Some? {
                return Fail(Received(raised.value));
              }
            }
            changed := true;
          }
        }
      } else if poolExists.value {
        if !checkMode {
          var raised := RemovePool(path);
          if raised.Some? {
            return Fail(Received(raised.value));
          }
        }
        changed := true;
      }
      outcome := Exit(changed);
    }

    /**
     * The `present` branch of `main`: creates a missing pool; a create that
     * fails with "already exists" is not an error and changes nothing.
     */
    method Create(path: string, p: Params, checkMode: bool) returns (outcome: Outcome)
      requires p.state == Present && path == PoolPath(p.partition, p.pool)
      modifies this
      ensures (outcome, pools) == Run(old(pools), faults, p, checkMode)
    {
      var changed := false;
      var poolExists := PoolExists(path);
      if poolExists.Err? {
        return Fail(Received(poolExists.error));
      }
      if !poolExists.value {
        if !checkMode {
          var raised := AddPool(path, p.lbMethod);
          match raised {
            case None =>
              changed := true;
            case Some(e) =>
              if !IsAlreadyExists(e) {
                return Fail(Received(e));
              }
          }
        } else {
          changed := true;
        }
      }
      outcome := Exit(changed);
    }

    /** The `enabled` and `disabled` branches of `main`. */
    method SetState(path: string, p: Params, checkMode: bool) returns (outcome: Outcome)
      requires (p.state == Enabled || p.state == Disabled) && path == PoolPath(p.partition, p.pool)
      modifies this
      ensures (outcome, pools) == Run(old(pools), faults, p, checkMode)
    {
      var name := StateName(p.state);
      var poolExists := PoolExists(path);
      if poolExists.Err? {
        return Fail(Received(poolExists.error));
      }
      if !poolExists.value {
        return Fail("pool " + path + " does not exist");
      }
      var current := GetPoolState(path);
      if current.Err? {
        return Fail(Received(current.error));
      }
      var changed := false;
      if name != current.value {
        if !checkMode {
          var raised := SetPoolState(path, name);
          if raised.Some? {
            return Fail(Received(raised.value));
          }
        }
        changed := true;
      }
      outcome := Exit(changed);
    }

    /**
     * `main`: the pool path, then the branch for the requested state. It does
     * what `Run` says for the device's pools and faults: in check mode it
     * changes nothing; against a device that answers every call about the
     * pool normally it does what `Expected` says; a failed existence probe
     * ends the run with nothing changed.
     */
    method RunPoolModule(p: Params, checkMode: bool) returns (outcome: Outcome)
      modifies this
      ensures (outcome, pools) == Run(old(pools), faults, p, checkMode)
      ensures checkMode ==> pools == old(pools)
      ensures NoFaultOn(faults, PoolPath(p.partition, p.pool)) ==> (outcome, pools) == Expected(old(pools), p, checkMode)
      ensures var probe := old(PoolExists(PoolPath(p.partition, p.pool)));
              probe.Err? ==> outcome == Fail(Received(probe.error)) && pools == old(pools)
    {
      var path := PoolPath(p.partition, p.pool);
      if NoFaultOn(faults, path) {
        RunHealthy(pools, faults, p, checkMode);
      }
      match p.state {
        case Absent =>
          outcome := Remove(path, p, checkMode);
        case Present =>
          outcome := Create(path, p, checkMode);
        case _ =>
          outcome := SetState(path, p, checkMode);
      }
    }
  }
}
