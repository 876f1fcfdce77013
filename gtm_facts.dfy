/**
 * The `bigip_gtm_facts` Ansible module: validates the `include` list, checks
 * that a named pool and wide IP exist, then gathers the facts of each
 * included category into one dict, later categories overwriting keys that
 * earlier ones set. The device is read only, through the calls below.
 */
module GtmFacts {
  import opened Py
  import opened Strings
  import GtmPool

  /** The iControl calls the module makes. */
  datatype Query =
    | PoolList
    | PoolObjectStatus(pool: string)
    | PoolEnabledState(pool: string)
    | PoolStatistics(pool: string)
    | PoolMembers(pool: string)
    | WideIpList
    | WideIpObjectStatus(wideIp: string)
    | WideIpLbMethod(wideIp: string)
    | WideIpPools(wideIp: string)
    | VirtualServerList
    | VirtualServerStatus(name: string, server: string)

  /** The device: what each call returns, or the exception it raises. */
  type Device = Query -> Result<Value>

  /** The module's options that decide what it does (the credentials only open the connection). */
  datatype FactsParams = FactsParams(
    includes: seq<string>,
    pool: Option<string>,
    wideIp: Option<string>,
    virtualServerName: Option<string>,
    virtualServerServer: Option<string>)

  /**
   * How the module ends: `exit_json(**facts)`, `fail_json(msg=...)`, or an
   * exception outside its handler that ends the process with a traceback.
   */
  datatype FactsOutcome = Exit(facts: map<Key, Value>) | Fail(msg: string) | Crash(error: Exc)

  const ValidIncludes: seq<string> := ["pool", "wide_ip", "virtual_server"]

  /** `map(lambda x: x.lower(), includes)` */
  function Lowered(includes: seq<string>): (r: seq<string>)
    ensures |r| == |includes| && forall i :: 0 <= i < |includes| ==> r[i] == Lower(includes[i])
  {
    seq(|includes|, i requires 0 <= i < |includes| => Lower(includes[i]))
  }

  /** `all(map(lambda x: x in valid_includes, includes))` */
  predicate AllValid(includes: seq<string>) {
    forall i :: 0 <= i < |includes| ==> includes[i] in ValidIncludes
  }

  /** The message the module fails with when an include value is not recognised. */
  function IncludeError(includes: seq<string>): string {
    "value of include must be one or more of: " + Join(ValidIncludes, ",") + ", got: " + Join(includes, ",")
  }

  /** `s` is `word` with any of its letters upper-cased. */
  predicate SpelledAs(s: string, word: string) {
    |s| == |word| && forall k :: 0 <= k < |s| ==> s[k] == word[k] || s[k] == UpperChar(word[k])
  }

  /** A string lower-cases to a lower-case word exactly when it spells that word in some case. */
  lemma LowerIsSpelling(s: string, word: string)
    requires IsLowerWord(word)
    ensures Lower(s) == word <==> SpelledAs(s, word)
  {
    if SpelledAs(s, word) {
      forall k | 0 <= k < |s|
        ensures Lower(s)[k] == word[k]
      {
        assert 'a' <= word[k] <= 'z' || word[k] == '_';
      }
      assert Lower(s) == word;
    }
    if Lower(s) == word {
      forall k | 0 <= k < |s|
        ensures s[k] == word[k] || s[k] == UpperChar(word[k])
      {
        assert LowerChar(s[k]) == word[k];
      }
    }
  }

  /** `s` spells one of the valid include values, in any case. */
  predicate SpellsValid(s: string) {
    exists v :: v in ValidIncludes && SpelledAs(s, v)
  }

  /**
   * Include values are recognised whatever their case: the list is accepted
   * exactly when every value spells one of the valid words, any of its
   * letters upper-cased.
   */
  lemma IncludeCaseInsensitive(includes: seq<string>)
    ensures AllValid(Lowered(includes)) <==>
            forall i :: 0 <= i < |includes| ==> SpellsValid(includes[i])
  {
    forall i | 0 <= i < |includes|
      ensures Lowered(includes)[i] in ValidIncludes <==> SpellsValid(includes[i])
    {
      assert IsLowerWord("pool") && IsLowerWord("wide_ip") && IsLowerWord("virtual_server");
      LowerIsSpelling(includes[i], "pool");
      LowerIsSpelling(includes[i], "wide_ip");
      LowerIsSpelling(includes[i], "virtual_server");
      assert Lowered(includes)[i] == Lower(includes[i]);
    }
  }

  /** The text after the first `STATE_`, case kept; IndexError when there is none. */
  function RawState(reply: string): Result<string> {
    var parts := Split(reply, "STATE_");
    if |parts| < 2 then Err(IndexError) else Ok(parts[1])
  }

  /** The pool module's state is this module's state lower-cased: the facts keep the device's case. */
  lemma RawStateKeepsCase(reply: string)
    ensures GtmPool.DecodeState(reply) == match RawState(reply) case Ok(t) => Ok(Lower(t)) case Err(e) => Err(e)
  {
  }

  /** The pool module's encoding of `enabled` reads back here as `ENABLED`. */
  lemma RawStateOfEncoding(state: string)
    requires GtmPool.IsLetters(state)
    ensures RawState(GtmPool.EncodeState(state)) == Ok(Upper(state))
  {
    StripNoSpace(state);
    var u := Upper(state);
    MissingChar(u, "STATE_", 5);
    SplitLeadingSeparator("STATE_", u);
    SplitNoSeparator(u, "STATE_");
  }

  /** `get_wide_ip_lb_method`'s normalisation: strip, drop every `LB_METHOD_`, lower-case. */
  function DecodeLbMethod(reply: string): string {
    Lower(Replace(Strip(reply), "LB_METHOD_", ""))
  }

  /** Replacing `LB_METHOD_` in the prefixed text removes the prefix and nothing else. */
  lemma ReplaceLbPrefix(u: string)
    requires !Contains(u, "LB_METHOD_")
    ensures Replace("LB_METHOD_" + u, "LB_METHOD_", "") == u
  {
    SplitLeadingSeparator("LB_METHOD_", u);
    SplitNoSeparator(u, "LB_METHOD_");
    assert Join(["", u], "") == u;
  }

  lemma PrefixedNoSpace(u: string)
    requires NoSpace(u)
    ensures NoSpace("LB_METHOD_" + u)
  {
    var sent := "LB_METHOD_" + u;
    assert forall i :: 0 <= i < |sent| ==> sent[i] == if i < 10 then "LB_METHOD_"[i] else u[i - 10];
  }

  /** A method name sent by the pool module reads back as itself. */
  lemma LbMethodRoundTrip(lbMethod: string)
    requires lbMethod != "" && IsLowerWord(lbMethod) && !Contains(Upper(lbMethod), "LB_METHOD_")
    ensures DecodeLbMethod(GtmPool.EncodeLbMethod(lbMethod)) == lbMethod
  {
    StripNoSpace(lbMethod);
    var u := Upper(lbMethod);
    assert GtmPool.EncodeLbMethod(lbMethod) == "LB_METHOD_" + u;
    PrefixedNoSpace(u);
    StripNoSpace("LB_METHOD_" + u);
    ReplaceLbPrefix(u);
    LowerUpper(lbMethod);
  }

  /**
   * The first element of a list reply, as `reply[0]`, on which the caller
   * then calls the string method `attribute`.
   */
  function FirstText(reply: Value, attribute: string): Result<string> {
    var first :- At(reply, 0);
    if first.Str? then Ok(first.s) else Err(AttributeError("object has no attribute '" + attribute + "'"))
  }

  /** `get_pool_member_state(api, pool)` */
  function PoolMemberState(ask: Device, pool: string): Result<Value> {
    var reply :- ask(PoolEnabledState(pool));
    var text :- FirstText(reply, "split");
    var state :- RawState(text);
    Ok(Str(state))
  }

  /** `get_wide_ip_lb_method(api, wide_ip)` */
  function WideIpLbMethodFact(ask: Device, wideIp: string): Result<Value> {
    var reply :- ask(WideIpLbMethod(wideIp));
    var text :- FirstText(reply, "strip");
    Ok(Str(DecodeLbMethod(text)))
  }

  /** The getters that catch every exception, print it and return None. */
  function Swallowed(r: Result<Value>): Value {
    if r.Ok? then r.value else Null
  }

  /** The members of all inner lists, in order; TypeError at the first element that is not a list. */
  function Flatten(xs: seq<Value>): Result<seq<Value>>
    decreases |xs|
  {
    if |xs| == 0 then Ok([])
    else
      match Flatten(xs[..|xs| - 1])
      case Err(e) => Err(e)
      case Ok(f) =>
        var last := xs[|xs| - 1];
        if last.List? then Ok(f + last.items) else Err(TypeError("object is not iterable"))
  }

  function LastOf(s: seq<Value>): Option<Value> {
    if |s| == 0 then None else Some(s[|s| - 1])
  }

  /** What `get_virtual_server` returns for the pool's member reply. */
  function LastVirtualServer(reply: Value): Result<Value> {
    var xs :- Items(reply);
    var flat :- Flatten(xs);
    if |flat| == 0 then Err(UnboundLocalError("virtual_server")) else Ok(flat[|flat| - 1])
  }

  /** Once an element is not a list, flattening any longer prefix fails with the same error. */
  lemma {:induction false} FlattenFailsFrom(xs: seq<Value>, i: nat, n: nat)
    requires i < n <= |xs| && Flatten(xs[..i]).Ok? && !xs[i].List?
    ensures Flatten(xs[..n]) == Err(TypeError("object is not iterable"))
    decreases n
  {
    if n == i + 1 {
      assert xs[..n][..|xs[..n]| - 1] == xs[..i];
    } else {
      FlattenFailsFrom(xs, i, n - 1);
      assert xs[..n][..|xs[..n]| - 1] == xs[..n - 1];
    }
  }

  /**
   * The last member of a well-formed reply is the last element of the last
   * non-empty inner list; the inner lists after it are empty.
   */
  lemma {:induction false} LastOfLastNonEmpty(xs: seq<Value>, j: nat)
    requires Flatten(xs).Ok? && j < |xs| && xs[j].List? && |xs[j].items| > 0
    requires forall k :: j < k < |xs| ==> xs[k] == List([])
    ensures LastOf(Flatten(xs).value) == Some(xs[j].items[|xs[j].items| - 1])
    decreases |xs|
  {
    var init := xs[..|xs| - 1];
    assert Flatten(init).Ok?;
    if j < |xs| - 1 {
      LastOfLastNonEmpty(init, j);
      assert Flatten(xs).value == Flatten(init).value + [];
    }
  }

  /**
   * The walk raises UnboundLocalError exactly when the reply is a list whose
   * elements are all empty lists; any other failure comes from a reply, or an
   * element of it, that is not a list.
   */
  lemma NoMemberIsUnbound(reply: Value)
    ensures LastVirtualServer(reply) == Err(UnboundLocalError("virtual_server")) <==>
            reply.List? && forall k :: 0 <= k < |reply.items| ==> reply.items[k] == List([])
    ensures LastVirtualServer(reply).Err? ==>
            || !reply.List?
            || (exists k :: 0 <= k < |reply.items| && !reply.items[k].List?)
            || (forall k :: 0 <= k < |reply.items| ==> reply.items[k] == List([]))
  {
    if reply.List? {
      if forall k :: 0 <= k < |reply.items| ==> reply.items[k].List? {
        FlattenAllLists(reply.items);
      } else {
        FlattenNotAllLists(reply.items);
      }
    }
  }

  /** A reply whose elements are all lists flattens, to nothing exactly when they are all empty. */
  lemma {:induction false} FlattenAllLists(xs: seq<Value>)
    requires forall k :: 0 <= k < |xs| ==> xs[k].List?
    ensures Flatten(xs).Ok?
    ensures Flatten(xs).value == [] <==> forall k :: 0 <= k < |xs| ==> xs[k] == List([])
    decreases |xs|
  {
    if |xs| > 0 {
      var init := xs[..|xs| - 1];
      var last := xs[|xs| - 1];
      FlattenAllLists(init);
      assert Flatten(xs) == Ok(Flatten(init).value + last.items);
      if forall k :: 0 <= k < |xs| ==> xs[k] == List([]) {
        assert forall k :: 0 <= k < |init| ==> init[k] == List([]);
        assert last.items == [];
      }
      if Flatten(xs).value == [] {
        assert Flatten(init).value == [] && last.items == [];
        forall k | 0 <= k < |xs|
          ensures xs[k] == List([])
        {
          if k < |init| {
            assert init[k] == xs[k];
          }
        }
      }
    }
  }

  /** A reply with an element that is not a list fails to flatten with TypeError. */
  lemma {:induction false} FlattenNotAllLists(xs: seq<Value>)
    requires exists k :: 0 <= k < |xs| && !xs[k].List?
    ensures Flatten(xs) == Err(TypeError("object is not iterable"))
    decreases |xs|
  {
    var init := xs[..|xs| - 1];
    if exists k :: 0 <= k < |init| && !init[k].List? {
      FlattenNotAllLists(init);
    } else {
      forall k | 0 <= k < |init|
        ensures init[k].List?
      {
      }
      FlattenAllLists(init);
    }
  }

  /**
   * `get_virtual_server`: walks every inner list of the reply and keeps the
   * last element it visits; nothing visited leaves the variable unbound.
   */
  method GetVirtualServer(reply: Value) returns (r: Result<Value>)
    ensures r == LastVirtualServer(reply)
  {
    var xs :- Items(reply);
    var found: Option<Value> := None;
    var i := 0;
    while i < |xs|
      invariant i <= |xs| && Flatten(xs[..i]).Ok? && found == LastOf(Flatten(xs[..i]).value)
    {
      var x := xs[i];
      if !x.List? {
        FlattenFailsFrom(xs, i, |xs|);
        assert xs[..|xs|] == xs;
        return Err(TypeError("object is not iterable"));
      }
      ghost var before := Flatten(xs[..i]).value;
      var j := 0;
      while j < |x.items|
        invariant j <= |x.items| && found == LastOf(before + x.items[..j])
      {
        found := Some(x.items[j]);
        j := j + 1;
      }
      assert xs[..i + 1][..i] == xs[..i];
      assert x.items[..j] == x.items;
      i := i + 1;
    }
    assert xs[..i] == xs;
    if found.None? {
      return Err(UnboundLocalError("virtual_server"));
    }
    r := Ok(found.value);
  }

  /** The exception an existence probe raised, if any. */
  function Probe(r: Result<Value>): Option<Exc> {
    if r.Ok? then None else Some(r.error)
  }

  /** Both virtual-server options are given. */
  predicate NamedServer(p: FactsParams) {
    p.virtualServerName.Some? && p.virtualServerServer.Some?
  }

  /** The keys of the facts dict the module returns. */
  datatype Key = State | Statistics | Status | Pools | LbMethod | WideIps | VirtualServer | VirtualServers

  /** The key's text in the returned dict. */
  function Name(k: Key): string {
    match k
    case State => "state"
    case Statistics => "statistics"
    case Status => "status"
    case Pools => "pools"
    case LbMethod => "lb_method"
    case WideIps => "wide_ips"
    case VirtualServer => "virtual_server"
    case VirtualServers => "virtual_servers"
  }

  /** Which categories the include list names: `pool`, `wide_ip` and `virtual_server`. */
  datatype Selection = Selection(pools: bool, wideIps: bool, servers: bool)

  function Selected(includes: seq<string>): Selection {
    Selection("pool" in includes, "wide_ip" in includes, "virtual_server" in includes)
  }

  /** The value of `get_virtual_server(api, pool)`, or what it raised. */
  function VirtualServerOf(ask: Device, pool: string): Result<Value> {
    match ask(PoolMembers(pool))
    case Err(e) => Err(e)
    case Ok(reply) => LastVirtualServer(reply)
  }

  /**
   * What each getter the module may call returns for the given options, the
   * swallowing getters already turned into values. A getter about a pool,
   * wide IP or server that was not named is never called; its entry is then
   * the getter's answer for the empty name and is not used.
   */
  datatype Answers = Answers(
    state: Result<Value>,
    statistics: Result<Value>,
    poolStatus: Value,
    poolList: Value,
    lbMethod: Result<Value>,
    wideIpPools: Value,
    wideIpList: Value,
    virtualServer: Result<Value>,
    serverStatus: Result<Value>,
    serverList: Result<Value>)

  function Ask(p: FactsParams, ask: Device): Answers {
    var pool := if p.pool.Some? then p.pool.value else "";
    var wideIp := if p.wideIp.Some? then p.wideIp.value else "";
    var name := if p.virtualServerName.Some? then p.virtualServerName.value else "";
    var server := if p.virtualServerServer.Some? then p.virtualServerServer.value else "";
    Answers(
      PoolMemberState(ask, pool),
      ask(PoolStatistics(pool)),
      Swallowed(ask(PoolObjectStatus(pool))),
      Swallowed(ask(PoolList)),
      WideIpLbMethodFact(ask, wideIp),
      Swallowed(ask(WideIpPools(wideIp))),
      Swallowed(ask(WideIpList)),
      VirtualServerOf(ask, pool),
      ask(VirtualServerStatus(name, server)),
      ask(VirtualServerList))
  }

  /**
   * The value a fact key holds when the module exits, or the exception its
   * getter raised; None when no included category sets the key. Where two
   * categories write `pools`, the wide IP, which comes later, wins.
   */
  function Final(key: Key, sel: Selection, p: FactsParams, a: Answers): Option<Result<Value>> {
    match key
    case State => if sel.pools && p.pool.Some? then Some(a.state) else None
    case Statistics => if sel.pools && p.pool.Some? then Some(a.statistics) else None
    case Status =>
      if sel.pools && p.pool.Some? then Some(Ok(a.poolStatus))
      else if sel.servers && p.pool.None? && NamedServer(p) then Some(a.serverStatus)
      else None
    case Pools =>
      if sel.wideIps && p.wideIp.Some? then Some(Ok(a.wideIpPools))
      else if sel.pools && p.pool.None? then Some(Ok(a.poolList))
      else None
    case LbMethod => if sel.wideIps && p.wideIp.Some? then Some(a.lbMethod) else None
    case WideIps => if sel.wideIps && p.wideIp.None? then Some(Ok(a.wideIpList)) else None
    case VirtualServer => if sel.servers && p.pool.Some? then Some(a.virtualServer) else None
    case VirtualServers => if sel.servers && p.pool.None? && !NamedServer(p) then Some(a.serverList) else None
  }

  /** The exception a getter raised, else the one `rest` names. */
  function OrElse(fact: Option<Result<Value>>, rest: Option<Exc>): Option<Exc> {
    match fact
    case Some(Err(e)) => Some(e)
    case _ => rest
  }

  /**
   * The exception of the first getter, in calling order, that raised; the
   * getters of `pools`, `wide_ips` and the pool's `status` never raise.
   */
  function FirstError(sel: Selection, p: FactsParams, a: Answers): Option<Exc> {
    OrElse(Final(State, sel, p, a),
    OrElse(Final(Statistics, sel, p, a),
    OrElse(Final(LbMethod, sel, p, a),
    OrElse(Final(VirtualServer, sel, p, a),
    OrElse(Final(Status, sel, p, a),
    OrElse(Final(VirtualServers, sel, p, a), None))))))
  }

  /** With no getter raising, every key set holds a value. */
  lemma NoErrorAllOk(sel: Selection, p: FactsParams, a: Answers)
    requires FirstError(sel, p, a).None?
    ensures forall k :: Final(k, sel, p, a).Some? ==> Final(k, sel, p, a).value.Ok?
  {
    forall k | Final(k, sel, p, a).Some?
      ensures Final(k, sel, p, a).value.Ok?
    {
    }
  }

  /** The facts of the included categories, key by key, once no getter has raised. */
  function FinalFacts(sel: Selection, p: FactsParams, a: Answers): map<Key, Value>
    requires FirstError(sel, p, a).None?
  {
    NoErrorAllOk(sel, p, a);
    map k: Key | Final(k, sel, p, a).Some? :: Final(k, sel, p, a).value.value
  }

  /**
   * What the module does, stated key by key: the include check, the
   * existence checks, the crash on an empty include list, and the final
   * value of each fact or the first exception a getter raised.
   */
  function ExpectedFacts(p: FactsParams, ask: Device): FactsOutcome {
    var includes := Lowered(p.includes);
    if !AllValid(includes) then Fail(IncludeError(includes))
    else
      var poolProbe := if p.pool.Some? then GtmPool.Exists(Probe(ask(PoolObjectStatus(p.pool.value)))) else Ok(true);
      var wideIpProbe := if p.wideIp.Some? then GtmPool.Exists(Probe(ask(WideIpObjectStatus(p.wideIp.value)))) else Ok(true);
      if poolProbe.Err? then Fail(GtmPool.Received(poolProbe.error))
      else if !poolProbe.value then Fail("pool " + p.pool.value + " does not exist")
      else if wideIpProbe.Err? then Fail(GtmPool.Received(wideIpProbe.error))
      else if !wideIpProbe.value then Fail("wide ip " + p.wideIp.value + " does not exist")
      else if |includes| == 0 then Crash(UnboundLocalError("result"))
      else
        var (sel, a) := (Selected(includes), Ask(p, ask));
        match FirstError(sel, p, a)
        case Some(e) => Fail(GtmPool.Received(e))
        case None => Exit(FinalFacts(sel, p, a))
  }

  /** The keys the pool category writes: one pool's state, statistics and status, or the list of pools. */
  function PoolFacts(sel: Selection, p: FactsParams, a: Answers): Result<map<Key, Value>> {
    if !sel.pools then Ok(map[])
    else if p.pool.Some? then
      if a.state.Err? then Err(a.state.error)
      else if a.statistics.Err? then Err(a.statistics.error)
      else Ok(map[State := a.state.value, Statistics := a.statistics.value, Status := a.poolStatus])
    else Ok(map[Pools := a.poolList])
  }

  /** The keys the wide IP category writes: one wide IP's method and pools, or the list of wide IPs. */
  function WideIpFacts(sel: Selection, p: FactsParams, a: Answers): Result<map<Key, Value>> {
    if !sel.wideIps then Ok(map[])
    else if p.wideIp.Some? then
      if a.lbMethod.Err? then Err(a.lbMethod.error)
      else Ok(map[LbMethod := a.lbMethod.value, Pools := a.wideIpPools])
    else Ok(map[WideIps := a.wideIpList])
  }

  /** The keys the virtual server category writes: the pool's server, a named server's status, or the list. */
  function ServerFacts(sel: Selection, p: FactsParams, a: Answers): Result<map<Key, Value>> {
    if !sel.servers then Ok(map[])
    else if p.pool.Some? then
      if a.virtualServer.Err? then Err(a.virtualServer.error) else Ok(map[VirtualServer := a.virtualServer.value])
    else if NamedServer(p) then
      if a.serverStatus.Err? then Err(a.serverStatus.error) else Ok(map[Status := a.serverStatus.value])
    else
      if a.serverList.Err? then Err(a.serverList.error) else Ok(map[VirtualServers := a.serverList.value])
  }

  /** The first category that raises carries the first exception in calling order. */
  lemma CategoriesRaiseInOrder(sel: Selection, p: FactsParams, a: Answers)
    ensures var (pf, wf, sf) := (PoolFacts(sel, p, a), WideIpFacts(sel, p, a), ServerFacts(sel, p, a));
            match FirstError(sel, p, a)
            case Some(e) => (if pf.Err? then pf else if wf.Err? then wf else sf) == Err(e)
            case None => pf.Ok? && wf.Ok? && sf.Ok?
  {
  }

  /**
   * Writing the three categories in order, each over the last, gives the
   * key-by-key facts: a later category's value wins on a shared key.
   */
  lemma CategoriesMerge(sel: Selection, p: FactsParams, a: Answers)
    requires FirstError(sel, p, a).None?
    ensures PoolFacts(sel, p, a).Ok? && WideIpFacts(sel, p, a).Ok? && ServerFacts(sel, p, a).Ok?
    ensures PoolFacts(sel, p, a).value + WideIpFacts(sel, p, a).value + ServerFacts(sel, p, a).value == FinalFacts(sel, p, a)
  {
    CategoriesRaiseInOrder(sel, p, a);
    var merged := PoolFacts(sel, p, a).value + WideIpFacts(sel, p, a).value + ServerFacts(sel, p, a).value;
    var final := FinalFacts(sel, p, a);
    forall k: Key
      ensures (k in merged <==> k in final) && (k in merged ==> merged[k] == final[k])
    {
      MergeAt(sel, p, a, k);
    }
    assert merged == final;
  }

  /** One key of the merged categories. */
  lemma MergeAt(sel: Selection, p: FactsParams, a: Answers, k: Key)
    requires PoolFacts(sel, p, a).Ok? && WideIpFacts(sel, p, a).Ok? && ServerFacts(sel, p, a).Ok?
    ensures var merged := PoolFacts(sel, p, a).value + WideIpFacts(sel, p, a).value + ServerFacts(sel, p, a).value;
            (k in merged <==> Final(k, sel, p, a).Some?) && (k in merged ==> Final(k, sel, p, a) == Some(Ok(merged[k])))
  {
    match k {
      case State =>
      case Statistics =>
      case Status =>
      case Pools =>
      case LbMethod =>
      case WideIps =>
      case VirtualServer =>
      case VirtualServers =>
    }
  }

  /** The three branches of `main` in order, the first exception ending the run. */
  method Dispatch(sel: Selection, p: FactsParams, ask: Device) returns (r: Result<map<Key, Value>>)
    ensures r == match FirstError(sel, p, Ask(p, ask)) case Some(e) => Err(e) case None => Ok(FinalFacts(sel, p, Ask(p, ask)))
  {
    CategoriesRaiseInOrder(sel, p, Ask(p, ask));
    var facts: map<Key, Value> := map[];
    r := AddPoolFacts(facts, sel, p, ask);
    if r.Err? {
      return;
    }
    facts := r.value;
    r := AddWideIpFacts(facts, sel, p, ask);
    if r.Err? {
      return;
    }
    facts := r.value;
    r := AddServerFacts(facts, sel, p, ask);
    if r.Err? {
      return;
    }
    CategoriesMerge(sel, p, Ask(p, ask));
    assert map[] + PoolFacts(sel, p, Ask(p, ask)).value == PoolFacts(sel, p, Ask(p, ask)).value;
  }

  /** The pool branch of `main`, writing into `facts`. */
  method AddPoolFacts(facts: map<Key, Value>, sel: Selection, p: FactsParams, ask: Device)
    returns (r: Result<map<Key, Value>>)
    ensures r == match PoolFacts(sel, p, Ask(p, ask)) case Err(e) => Err(e) case Ok(m) => Ok(facts + m)
  {
    r := Ok(facts);
    assert facts + map[] == facts;
    if sel.pools {
      if p.pool.Some? {
        var state := PoolMemberState(ask, p.pool.value);
        if state.Err? {
          return Err(state.error);
        }
        var statistics := ask(PoolStatistics(p.pool.value));
        if statistics.Err? {
          return Err(statistics.error);
        }
        var status := Swallowed(ask(PoolObjectStatus(p.pool.value)));
        r := Ok(facts[State := state.value][Statistics := statistics.value][Status := status]);
        assert r.value == facts + map[State := state.value, Statistics := statistics.value, Status := status];
      } else {
        r := Ok(facts[Pools := Swallowed(ask(PoolList))]);
        assert r.value == facts + map[Pools := Swallowed(ask(PoolList))];
      }
    }
  }

  /** The wide IP branch of `main`, writing into `facts`. */
  method AddWideIpFacts(facts: map<Key, Value>, sel: Selection, p: FactsParams, ask: Device)
    returns (r: Result<map<Key, Value>>)
    ensures r == match WideIpFacts(sel, p, Ask(p, ask)) case Err(e) => Err(e) case Ok(m) => Ok(facts + m)
  {
    r := Ok(facts);
    assert facts + map[] == facts;
    if sel.wideIps {
      if p.wideIp.Some? {
        var lbMethod := WideIpLbMethodFact(ask, p.wideIp.value);
        if lbMethod.Err? {
          return Err(lbMethod.error);
        }
        var pools := Swallowed(ask(WideIpPools(p.wideIp.value)));
        r := Ok(facts[LbMethod := lbMethod.value][Pools := pools]);
        assert r.value == facts + map[LbMethod := lbMethod.value, Pools := pools];
      } else {
        r := Ok(facts[WideIps := Swallowed(ask(WideIpList))]);
        assert r.value == facts + map[WideIps := Swallowed(ask(WideIpList))];
      }
    }
  }

  /** The virtual server branch of `main`, writing into `facts`. */
  method AddServerFacts(facts: map<Key, Value>, sel: Selection, p: FactsParams, ask: Device)
    returns (r: Result<map<Key, Value>>)
    ensures r == match ServerFacts(sel, p, Ask(p, ask)) case Err(e) => Err(e) case Ok(m) => Ok(facts + m)
  {
    r := Ok(facts);
    assert facts + map[] == facts;
    if sel.servers {
      if p.pool.Some? {
        var reply := ask(PoolMembers(p.pool.value));
        if reply.Err? {
          return Err(reply.error);
        }
        var server := GetVirtualServer(reply.value);
        if server.Err? {
          return Err(server.error);
        }
        r := Ok(facts[VirtualServer := server.value]);
        assert r.value == facts + map[VirtualServer := server.value];
      } else if NamedServer(p) {
        var status := ask(VirtualServerStatus(p.virtualServerName.value, p.virtualServerServer.value));
        if status.Err? {
          return Err(status.error);
        }
        r := Ok(facts[Status := status.value]);
        assert r.value == facts + map[Status := status.value];
      } else {
        var servers := ask(VirtualServerList);
        if servers.Err? {
          return Err(servers.error);
        }
        r := Ok(facts[VirtualServers := servers.value]);
        assert r.value == facts + map[VirtualServers := servers.value];
      }
    }
  }

  /**
   * `main`: the include check and the existence checks, then the pool, wide
   * IP and virtual server categories in that order, each writing its keys
   * into `facts` over whatever an earlier category wrote there.
   */
  method GatherFacts(p: FactsParams, ask: Device) returns (outcome: FactsOutcome)
    ensures outcome == ExpectedFacts(p, ask)
  {
    var includes := Lowered(p.includes);
    if !AllValid(includes) {
      return Fail(IncludeError(includes));
    }
    if p.pool.Some? {
      var found := GtmPool.Exists(Probe(ask(PoolObjectStatus(p.pool.value))));
      if found.Err? {
        return Fail(GtmPool.Received(found.error));
      }
      if !found.value {
        return Fail("pool " + p.pool.value + " does not exist");
      }
    }
    if p.wideIp.Some? {
      var found := GtmPool.Exists(Probe(ask(WideIpObjectStatus(p.wideIp.value))));
      if found.Err? {
        return Fail(GtmPool.Received(found.error));
      }
      if !found.value {
        return Fail("wide ip " + p.wideIp.value + " does not exist");
      }
    }
    if |includes| == 0 {
      return Crash(UnboundLocalError("result"));
    }
    var facts := Dispatch(Selected(includes), p, ask);
    if facts.Err? {
      return Fail(GtmPool.Received(facts.error));
    }
    outcome := Exit(facts.value);
  }
}
