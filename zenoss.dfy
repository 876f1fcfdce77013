/**
 * The `zenoss` Ansible module and the JSON-RPC client it carries: every call
 * is posted to a router of the Zenoss server under a transaction id that the
 * client counts up, and `main` reads or sets a device's production state or a
 * component's monitoring flag. The server is an abstract function from the
 * posted request to its reply, so a reply may depend on everything posted so
 * far through the transaction id.
 */
module Zenoss {
  import opened Py
  import opened Strings

  /** `ROUTERS`: the routers the client accepts, each with the path segment it is served under. */
  const Routers: map<string, string> := map[
    "MessagingRouter" := "messaging",
    "EventsRouter" := "evconsole",
    "ProcessRouter" := "process",
    "ServiceRouter" := "service",
    "NetworkRouter" := "network",
    "TemplateRouter" := "template",
    "DetailNavRouter" := "detailnav",
    "ReportRouter" := "report",
    "MibRouter" := "mib",
    "ZenPackRouter" := "zenpack",
    "DeviceRouter" := "device"]

  /** The router every device and component call goes through. */
  const DeviceRouter := "DeviceRouter"

  lemma DeviceRouterKnown()
    ensures DeviceRouter in Routers && Routers[DeviceRouter] == "device"
  {
  }

  /** The address a router's requests are posted to. */
  function RouterUri(host: string, router: string): string
    requires router in Routers
  {
    host + "/zport/dmd/" + Routers[router] + "_router"
  }

  /** On one host, two routers share an address only if they share a path segment. */
  lemma RouterUriSegment(host: string, router: string, router2: string)
    requires router in Routers && router2 in Routers
    ensures RouterUri(host, router) == RouterUri(host, router2) <==> Routers[router] == Routers[router2]
  {
    var prefix := host + "/zport/dmd/";
    var u, u2 := RouterUri(host, router), RouterUri(host, router2);
    if u == u2 {
      assert |Routers[router]| == |Routers[router2]|;
      assert u[|prefix|..|prefix| + |Routers[router]|] == Routers[router];
      assert u2[|prefix|..|prefix| + |Routers[router2]|] == Routers[router2];
    }
  }

  /** The fields of one framed call `[{action, method, data, type: 'rpc', tid}]`. */
  datatype Request = Request(action: string, call: string, data: Value, tid: nat)

  /** One post: the address, the session's credentials and the framed call. */
  datatype Post = Post(uri: string, auth: (string, string), request: Request)

  /** What the server sent back: the decoded body, and what `json.loads` makes of it. */
  datatype Reply = Reply(content: string, json: Result<Value>)

  /** The remote side: the reply to a post, or the exception the HTTP session raised. */
  type Server = Post -> Result<Reply>

  /** A connection: the host, the credentials sent with every post, and the server. */
  datatype Link = Link(host: string, auth: (string, string), server: Server)

  /** A sequence of client calls: what it returns or raises, and the posts it completed. */
  datatype Step<T> = Step(result: Result<T>, posts: seq<Post>)

  /** The k-th post carries transaction id `n + k`. */
  predicate Numbered(posts: seq<Post>, n: nat) {
    forall k :: 0 <= k < |posts| ==> posts[k].request.tid == n + k
  }

  lemma NumberedConcat(a: seq<Post>, b: seq<Post>, n: nat)
    requires Numbered(a, n) && Numbered(b, n + |a|)
    ensures Numbered(a + b, n)
  {
    forall k | 0 <= k < |a + b|
      ensures (a + b)[k].request.tid == n + k
    {
      if k >= |a| {
        assert (a + b)[k] == b[k - |a|];
      }
    }
  }

  /** `sub in s`, scanned from the front: the form the login check is stated in. */
  predicate Mentions(s: string, sub: string)
    decreases |s|
  {
    |sub| <= |s| && (s[..|sub|] == sub || Mentions(s[1..], sub))
  }

  /** The front scan agrees with the position-based definition of `in`. */
  lemma {:induction false} MentionsContains(s: string, sub: string)
    ensures Mentions(s, sub) <==> Contains(s, sub)
    decreases |s|
  {
    if |sub| <= |s| && s[..|sub|] != sub {
      MentionsContains(s[1..], sub);
    }
  }

  /** The login form's user-name field, which the server shows instead of a result when the credentials are bad. */
  const LoginField := "name=\"__ac_name\""

  const BadLogin := "Request failed. Bad username/password."

  /** The result a reply carries: none when it shows the login form, else the `result` entry of its JSON body. */
  function Answer(reply: Reply): Result<Value> {
    if Mentions(reply.content, LoginField) then Err(ZenossException(BadLogin))
    else if reply.json.Err? then Err(reply.json.error)
    else Get(reply.json.value, "result")
  }

  /** A login page is refused whatever its body parses to; any other reply is its JSON body's `result`. */
  lemma AnswerRule(reply: Reply, json: Result<Value>)
    ensures Contains(reply.content, LoginField) ==>
              Answer(reply) == Answer(Reply(reply.content, json)) == Err(ZenossException(BadLogin))
    ensures !Contains(reply.content, LoginField) && reply.json.Ok? ==>
              (Answer(reply).Ok? <==> reply.json.value.Dict? && "result" in reply.json.value.fields)
  {
    MentionsContains(reply.content, LoginField);
  }

  /** The message of the exception an unknown router name raises. */
  function UnknownRouter(router: string): string {
    "Router \"" + router + "\" not available."
  }

  /**
   * `__router_request`: an unknown router raises before anything is posted;
   * otherwise the call is posted under transaction id `tid`, and once the
   * post completes it counts, whether or not the reply is then refused.
   */
  function RouterCall(link: Link, tid: nat, router: string, call: string, data: Value): (s: Step<Value>)
    ensures router !in Routers ==> s == Step(Err(Exception(UnknownRouter(router))), [])
    ensures Numbered(s.posts, tid)
    ensures s.posts != [] <==> router in Routers && link.server(Post(RouterUri(link.host, router), link.auth, Request(router, call, data, tid))).Ok?
    ensures s.posts != [] ==> s.posts[0].uri == RouterUri(link.host, router) && s.posts[0].request.action == router
  {
    if router !in Routers then Step(Err(Exception(UnknownRouter(router))), [])
    else
      var post := Post(RouterUri(link.host, router), link.auth, Request(router, call, data, tid));
      match link.server(post)
      case Err(e) => Step(Err(e), [])
      case Ok(reply) => Step(Answer(reply), [post])
  }

  /** The device class `get_devices` lists by default. */
  const DevicesClass := "/zport/dmd/Devices"

  /** The production state that keeps a device from alerting, and the one that puts it back. */
  const Maintenance := 300
  const Production := 1000

  /** `get_devices(**params)`: one `getDevices` call over the whole device tree, with no limit. */
  function GetDevicesCall(link: Link, n: nat, params: map<string, Value>): (s: Step<Value>)
    ensures Numbered(s.posts, n)
  {
    RouterCall(link, n, DeviceRouter, "getDevices",
      List([Dict(map["uid" := Str(DevicesClass), "params" := Dict(params), "limit" := Null])]))
  }

  /** `d['name'] == name`, when `d` has a name. */
  predicate NamedAs(d: Value, name: string) {
    Get(d, "name").Ok? && Equal(Get(d, "name").value, Str(name))
  }

  /** `[d for d in devices if d['name'] == name]`: every device's name is read, so a nameless one raises wherever it sits. */
  function Matching(devices: seq<Value>, name: string): Result<seq<Value>>
  {
    if devices == [] then Ok([])
    else
      var d := devices[0];
      match Get(d, "name")
      case Err(e) => Err(e)
      case Ok(dn) =>
        match Matching(devices[1..], name)
        case Err(e) => Err(e)
        case Ok(rest) => Ok(if Equal(dn, Str(name)) then [d] + rest else rest)
  }

  function NotLocated(name: string): string {
    "Cannot locate device " + name
  }

  /**
   * What `find_device` makes of the device list: the first device of that
   * name, with the list's `hash` attached; "Cannot locate device" when none
   * has the name.
   */
  function PickDevice(all: Value, name: string): Result<Value>
  {
    match Get(all, "devices")
    case Err(e) => Err(e)
    case Ok(devices) =>
      match Items(devices)
      case Err(e) => Err(e)
      case Ok(xs) =>
        match Matching(xs, name)
        case Err(e) => Err(e)
        case Ok(found) =>
          if found == [] then Err(Exception(NotLocated(name)))
          else
            match Get(all, "hash")
            case Err(e) => Err(e)
            case Ok(hash) =>
              match found[0]
              case Dict(fields) => Ok(Dict(fields["hash" := hash]))
              case _ => Err(TypeError("object does not support item assignment"))
  }

  /**
   * The loop of `set_component_monitor`: the first item of that name, the
   * loop stopping there; an item before it without a name raises.
   */
  function FirstNamed(xs: seq<Value>, name: string): Result<Option<Value>> {
    if xs == [] then Ok(None)
    else
      match Get(xs[0], "name")
      case Err(e) => Err(e)
      case Ok(n) => if Equal(n, Str(name)) then Ok(Some(xs[0])) else FirstNamed(xs[1..], name)
  }

  /**
   * The loop of `get_component`: the last item of that name, the loop
   * running to the end; any item without a name raises.
   */
  function LastNamed(xs: seq<Value>, name: string): Result<Option<Value>> {
    if xs == [] then Ok(None)
    else
      match LastNamed(xs[..|xs| - 1], name)
      case Err(e) => Err(e)
      case Ok(before) =>
        match Get(xs[|xs| - 1], "name")
        case Err(e) => Err(e)
        case Ok(n) => Ok(if Equal(n, Str(name)) then Some(xs[|xs| - 1]) else before)
  }

  /** The first-match loop finds the first item of that name, after items that all have other names. */
  lemma {:induction false} FirstNamedIsFirst(xs: seq<Value>, name: string)
    requires FirstNamed(xs, name).Ok? && FirstNamed(xs, name).value.Some?
    ensures exists i :: 0 <= i < |xs| && xs[i] == FirstNamed(xs, name).value.value && NamedAs(xs[i], name) &&
              forall j :: 0 <= j < i ==> Get(xs[j], "name").Ok? && !NamedAs(xs[j], name)
  {
    if !NamedAs(xs[0], name) {
      var tail := xs[1..];
      FirstNamedIsFirst(tail, name);
      var i :| 0 <= i < |tail| && tail[i] == FirstNamed(tail, name).value.value && NamedAs(tail[i], name) &&
               forall j :: 0 <= j < i ==> Get(tail[j], "name").Ok? && !NamedAs(tail[j], name);
      assert xs[i + 1] == tail[i];
      assert forall j :: 1 <= j < i + 1 ==> xs[j] == tail[j - 1];
    } else {
      assert xs[0] == FirstNamed(xs, name).value.value;
    }
  }

  /** The first-match loop finds nothing exactly when every item has a name and none has that one. */
  lemma {:induction false} FirstNamedNone(xs: seq<Value>, name: string)
    ensures FirstNamed(xs, name) == Ok(None) <==> forall j :: 0 <= j < |xs| ==> Get(xs[j], "name").Ok? && !NamedAs(xs[j], name)
  {
    if xs != [] {
      var tail := xs[1..];
      FirstNamedNone(tail, name);
      assert forall j :: 0 <= j < |tail| ==> tail[j] == xs[j + 1];
      assert forall j :: 1 <= j < |xs| ==> xs[j] == tail[j - 1];
    }
  }

  /** The last-match loop raises exactly when some item has no name. */
  lemma {:induction false} LastNamedOk(xs: seq<Value>, name: string)
    ensures LastNamed(xs, name).Ok? <==> forall j :: 0 <= j < |xs| ==> Get(xs[j], "name").Ok?
  {
    if xs != [] {
      var init := xs[..|xs| - 1];
      LastNamedOk(init, name);
      assert forall j :: 0 <= j < |init| ==> init[j] == xs[j];
    }
  }

  /** The last-match loop finds the last item of that name. */
  lemma {:induction false} LastNamedIsLast(xs: seq<Value>, name: string)
    requires LastNamed(xs, name).Ok? && LastNamed(xs, name).value.Some?
    ensures exists i :: 0 <= i < |xs| && xs[i] == LastNamed(xs, name).value.value && NamedAs(xs[i], name) &&
              forall j :: i < j < |xs| ==> !NamedAs(xs[j], name)
  {
    var init, last := xs[..|xs| - 1], xs[|xs| - 1];
    if !NamedAs(last, name) {
      LastNamedIsLast(init, name);
      var i :| 0 <= i < |init| && init[i] == LastNamed(init, name).value.value && NamedAs(init[i], name) &&
               forall j :: i < j < |init| ==> !NamedAs(init[j], name);
      assert xs[i] == init[i] && LastNamed(xs, name) == LastNamed(init, name);
      forall j | i < j < |xs|
        ensures !NamedAs(xs[j], name)
      {
        if j < |init| {
          assert xs[j] == init[j];
        }
      }
    }
  }

  /** The last-match loop finds nothing only when no item has that name. */
  lemma {:induction false} LastNamedNone(xs: seq<Value>, name: string)
    requires LastNamed(xs, name) == Ok(None)
    ensures forall j :: 0 <= j < |xs| ==> !NamedAs(xs[j], name)
  {
    if xs != [] {
      var init := xs[..|xs| - 1];
      LastNamedNone(init, name);
      assert forall j :: 0 <= j < |init| ==> init[j] == xs[j];
    }
  }

  /** The comprehension raises exactly when some device has no name. */
  lemma {:induction false} MatchingOk(xs: seq<Value>, name: string)
    ensures Matching(xs, name).Ok? <==> forall j :: 0 <= j < |xs| ==> Get(xs[j], "name").Ok?
  {
    if xs != [] {
      var tail := xs[1..];
      MatchingOk(tail, name);
      assert forall j :: 0 <= j < |tail| ==> tail[j] == xs[j + 1];
      assert forall j :: 1 <= j < |xs| ==> xs[j] == tail[j - 1];
    }
  }

  /** When every device has a name, the comprehension's first element is what the first-match loop finds. */
  lemma {:induction false} MatchingFirst(xs: seq<Value>, name: string)
    requires Matching(xs, name).Ok?
    ensures Matching(xs, name).value == [] ==> FirstNamed(xs, name) == Ok(None)
    ensures Matching(xs, name).value != [] ==> FirstNamed(xs, name) == Ok(Some(Matching(xs, name).value[0]))
  {
    if xs != [] {
      MatchingFirst(xs[1..], name);
    }
  }

  /**
   * `find_device` when the list is well formed: the device the first-match
   * loop finds, carrying the list's hash, or "Cannot locate device".
   */
  lemma PickDeviceIsFirst(all: Value, name: string, xs: seq<Value>)
    requires all.Dict? && "devices" in all.fields && "hash" in all.fields && all.fields["devices"] == List(xs)
    requires forall j :: 0 <= j < |xs| ==> Get(xs[j], "name").Ok?
    ensures FirstNamed(xs, name).Ok?
    ensures FirstNamed(xs, name).value.None? ==> PickDevice(all, name) == Err(Exception(NotLocated(name)))
    ensures FirstNamed(xs, name).value.Some? ==>
              FirstNamed(xs, name).value.value.Dict? &&
              PickDevice(all, name) == Ok(Dict(FirstNamed(xs, name).value.value.fields["hash" := all.fields["hash"]]))
  {
    MatchingOk(xs, name);
    MatchingFirst(xs, name);
    if FirstNamed(xs, name).value.Some? {
      FirstNamedIsFirst(xs, name);
    }
  }

  /** A nameless device after the match: the loop would stop at the match, but the comprehension raises KeyError. */
  lemma NamelessDeviceAfterMatch(name: string)
    ensures var d := Dict(map["name" := Str(name)]);
            var xs := [d, Dict(map[])];
            FirstNamed(xs, name) == Ok(Some(d)) && Matching(xs, name) == Err(KeyError("name"))
  {
    var d := Dict(map["name" := Str(name)]);
    var xs := [d, Dict(map[])];
    assert xs[1..] == [Dict(map[])];
    assert xs[1..][1..] == [];
  }

  /** With two components of the same name, `get_component` reports the second and `set_component_monitor` the first. */
  lemma FirstAndLastDiffer(name: string)
    ensures var a := Dict(map["name" := Str(name), "monitored" := Bool(true)]);
            var b := Dict(map["name" := Str(name), "monitored" := Bool(false)]);
            FirstNamed([a, b], name) == Ok(Some(a)) && LastNamed([a, b], name) == Ok(Some(b)) && a != b
  {
    var a := Dict(map["name" := Str(name), "monitored" := Bool(true)]);
    var b := Dict(map["name" := Str(name), "monitored" := Bool(false)]);
    assert Get(a, "name") == Ok(Str(name)) && Get(b, "name") == Ok(Str(name));
    assert [a, b][..1] == [a];
    assert [a][..0] == [];
    assert LastNamed([a], name) == Ok(Some(a));
    assert a.fields["monitored"] != b.fields["monitored"];
  }

  /** `device['uid']` and `device['hash']`, read in that order. */
  function UidAndHash(device: Value): Result<(Value, Value)> {
    match Get(device, "uid")
    case Err(e) => Err(e)
    case Ok(uid) =>
      match Get(device, "hash")
      case Err(e) => Err(e)
      case Ok(hash) => Ok((uid, hash))
  }

  /** The post's payload for deleting a device. */
  function RemoveData(uid: Value, hash: Value): Value {
    List([Dict(map["uids" := List([uid]), "hashcheck" := hash, "action" := Str("delete")])])
  }

  /** The post's payload for setting a production state. */
  function ProdStateData(uid: Value, state: int, hash: Value): Value {
    List([Dict(map["uids" := List([uid]), "prodState" := Int(state), "hashcheck" := hash])])
  }

  /** The post's payload for turning a component's monitoring on or off. */
  function MonitorData(uid: Value, monitor: bool): Value {
    List([Dict(map["uids" := List([uid]), "monitor" := Bool(monitor), "hashcheck" := Int(1)])])
  }

  /** The post's payload for the components of a device: the first 50, sorted by name. */
  function ComponentsQuery(uid: Value): Value {
    List([Dict(map[
      "uid" := uid, "meta_type" := Null, "keys" := Null, "start" := Int(0), "limit" := Int(50),
      "page" := Int(0), "sort" := Str("name"), "dir" := Str("ASC"), "name" := Null])])
  }

  /** `find_device(name)`: the unfiltered device list, then the first device of that name. */
  function FindDeviceCall(link: Link, n: nat, name: string): (s: Step<Value>)
    ensures Numbered(s.posts, n)
  {
    var all := GetDevicesCall(link, n, map[]);
    Step(if all.result.Err? then Err(all.result.error) else PickDevice(all.result.value, name), all.posts)
  }

  /** `device_uid(name)` */
  function DeviceUidCall(link: Link, n: nat, name: string): (s: Step<Value>)
    ensures Numbered(s.posts, n)
  {
    var found := FindDeviceCall(link, n, name);
    Step(if found.result.Err? then Err(found.result.error) else Get(found.result.value, "uid"), found.posts)
  }

  /** `get_components_by_uid(uid)` with its default arguments. */
  function GetComponentsByUidCall(link: Link, n: nat, uid: Value): (s: Step<Value>)
    ensures Numbered(s.posts, n)
  {
    RouterCall(link, n, DeviceRouter, "getComponents", ComponentsQuery(uid))
  }

  /** `get_components(name)`: the device's uid, then its components. */
  function GetComponentsCall(link: Link, n: nat, name: string): (s: Step<Value>)
    ensures Numbered(s.posts, n)
  {
    var uid := DeviceUidCall(link, n, name);
    if uid.result.Err? then uid
    else
      var got := GetComponentsByUidCall(link, n + |uid.posts|, uid.result.value);
      NumberedConcat(uid.posts, got.posts, n);
      Step(got.result, uid.posts + got.posts)
  }

  /** `set_components_monitored(component, monitor)` */
  function SetComponentsMonitoredCall(link: Link, n: nat, component: Value, monitor: bool): (s: Step<Value>)
    ensures Numbered(s.posts, n)
  {
    match Get(component, "uid")
    case Err(e) => Step(Err(e), [])
    case Ok(uid) => RouterCall(link, n, DeviceRouter, "setComponentsMonitored", MonitorData(uid, monitor))
  }

  /** `add_device(name, deviceClass, collector)` */
  function AddDeviceCall(link: Link, n: nat, name: string, deviceClass: string, collector: string): (s: Step<Value>)
    ensures Numbered(s.posts, n)
  {
    RouterCall(link, n, DeviceRouter, "addDevice",
      List([Dict(map["deviceName" := Str(name), "deviceClass" := Str(deviceClass), "model" := Bool(true), "collector" := Str(collector)])]))
  }

  /** `remove_device(name)`: the device found by name, then its deletion under the list's hash. */
  function RemoveDeviceCall(link: Link, n: nat, name: string): (s: Step<Value>)
    ensures Numbered(s.posts, n)
  {
    var found := FindDeviceCall(link, n, name);
    if found.result.Err? then found
    else
      match UidAndHash(found.result.value)
      case Err(e) => Step(Err(e), found.posts)
      case Ok((uid, hash)) =>
        var removed := RouterCall(link, n + |found.posts|, DeviceRouter, "removeDevices", RemoveData(uid, hash));
        NumberedConcat(found.posts, removed.posts, n);
        Step(removed.result, found.posts + removed.posts)
  }

  /** `set_prod_state(name, state)`: the device found by name, then the new state under the list's hash. */
  function SetProdStateCall(link: Link, n: nat, name: string, state: int): (s: Step<Value>)
    ensures Numbered(s.posts, n)
  {
    var found := FindDeviceCall(link, n, name);
    if found.result.Err? then found
    else
      match UidAndHash(found.result.value)
      case Err(e) => Step(Err(e), found.posts)
      case Ok((uid, hash)) =>
        var update := RouterCall(link, n + |found.posts|, DeviceRouter, "setProductionState", ProdStateData(uid, state, hash));
        NumberedConcat(found.posts, update.posts, n);
        Step(update.result, found.posts + update.posts)
  }

  /**
   * Setting a production state lists the devices, then posts the new state
   * for the device found, and only when one was found.
   */
  lemma SetProdStatePosts(link: Link, n: nat, name: string, state: int)
    ensures var s := SetProdStateCall(link, n, name, state);
            |s.posts| == 2 ==>
              s.posts[0].request.call == "getDevices" &&
              var keys := UidAndHash(PickDevice(Answer(link.server(s.posts[0]).value).value, name).value).value;
              s.posts[1].request == Request(DeviceRouter, "setProductionState", ProdStateData(keys.0, state, keys.1), n + 1)
  {
    DeviceRouterKnown();
  }

  /**
   * `Zenoss`: a connection to one server. `reqCount` is the transaction id
   * the next post will carry; `posted` records the completed posts.
   */
  class Client {
    const host: string
    const auth: (string, string)
    const server: Server
    var reqCount: nat
    ghost var posted: seq<Post>

    /** One completed post per transaction id, counted from 0. */
    ghost predicate Valid()
      reads this
    {
      reqCount == |posted| && Numbered(posted, 0)
    }

    function Connection(): Link {
      Link(host, auth, server)
    }

    /** `Zenoss(host, username, password, ssl_verify)`: nothing posted yet. */
    constructor(host: string, username: string, password: string, server: Server)
      ensures Valid() && posted == [] && reqCount == 0
      ensures Connection() == Link(host, (username, password), server)
    {
      this.host := host;
      this.auth := (username, password);
      this.server := server;
      reqCount := 0;
      posted := [];
    }

    /** `__router_request(router, method, data)` */
    method RouterRequest(router: string, call: string, data: Value) returns (r: Result<Value>)
      requires Valid()
      modifies this
      ensures Valid()
      ensures var s := RouterCall(Connection(), old(reqCount), router, call, data);
              r == s.result && posted == old(posted) + s.posts && reqCount == old(reqCount) + |s.posts|
    {
      if router !in Routers {
        return Err(Exception(UnknownRouter(router)));
      }
      var post := Post(RouterUri(host, router), auth, Request(router, call, data, reqCount));
      var response := server(post);
      if response.Err? {
        return Err(response.error);
      }
      NumberedConcat(posted, [post], 0);
      posted := posted + [post];
      reqCount := reqCount + 1;
      var reply := response.value;
      if Mentions(reply.content, LoginField) {
        return Err(ZenossException(BadLogin));
      }
      if reply.json.Err? {
        return Err(reply.json.error);
      }
      r := Get(reply.json.value, "result");
    }

    /** `get_devices(**params)` */
    method GetDevices(params: map<string, Value>) returns (r: Result<Value>)
      requires Valid()
      modifies this
      ensures Valid()
      ensures var s := GetDevicesCall(Connection(), old(reqCount), params);
              r == s.result && posted == old(posted) + s.posts && reqCount == old(reqCount) + |s.posts|
    {
      r := RouterRequest(DeviceRouter, "getDevices",
        List([Dict(map["uid" := Str(DevicesClass), "params" := Dict(params), "limit" := Null])]));
    }

    /** `find_device(name)` */
    method FindDevice(name: string) returns (r: Result<Value>)
      requires Valid()
      modifies this
      ensures Valid()
      ensures var s := FindDeviceCall(Connection(), old(reqCount), name);
              r == s.result && posted == old(posted) + s.posts && reqCount == old(reqCount) + |s.posts|
    {
      r := GetDevices(map[]);
      if r.Ok? {
        r := PickDevice(r.value, name);
      }
    }

    /** `device_uid(name)` */
    method DeviceUid(name: string) returns (r: Result<Value>)
      requires Valid()
      modifies this
      ensures Valid()
      ensures var s := DeviceUidCall(Connection(), old(reqCount), name);
              r == s.result && posted == old(posted) + s.posts && reqCount == old(reqCount) + |s.posts|
    {
      r := FindDevice(name);
      if r.Ok? {
        r := Get(r.value, "uid");
      }
    }

    /** `get_components_by_uid(uid)` */
    method GetComponentsByUid(uid: Value) returns (r: Result<Value>)
      requires Valid()
      modifies this
      ensures Valid()
      ensures var s := GetComponentsByUidCall(Connection(), old(reqCount), uid);
              r == s.result && posted == old(posted) + s.posts && reqCount == old(reqCount) + |s.posts|
    {
      r := RouterRequest(DeviceRouter, "getComponents", ComponentsQuery(uid));
    }

    /** `get_components(name)` */
    method GetComponents(name: string) returns (r: Result<Value>)
      requires Valid()
      modifies this
      ensures Valid()
      ensures var s := GetComponentsCall(Connection(), old(reqCount), name);
              r == s.result && posted == old(posted) + s.posts && reqCount == old(reqCount) + |s.posts|
    {
      ghost var before := posted;
      r := DeviceUid(name);
      ghost var uid := posted[|before|..];
      assert posted == before + uid;
      if r.Ok? {
        r := GetComponentsByUid(r.value);
        ghost var got := posted[|before + uid|..];
        assert posted == before + uid + got == before + (uid + got);
      }
    }

    /** `set_components_monitored(component, monitor)` */
    method SetComponentsMonitored(component: Value, monitor: bool) returns (r: Result<Value>)
      requires Valid()
      modifies this
      ensures Valid()
      ensures var s := SetComponentsMonitoredCall(Connection(), old(reqCount), component, monitor);
              r == s.result && posted == old(posted) + s.posts && reqCount == old(reqCount) + |s.posts|
    {
      r := Get(component, "uid");
      if r.Ok? {
        r := RouterRequest(DeviceRouter, "setComponentsMonitored", MonitorData(r.value, monitor));
      }
    }

    /** `add_device(name, deviceClass, collector)` */
    method AddDevice(name: string, deviceClass: string, collector: string) returns (r: Result<Value>)
      requires Valid()
      modifies this
      ensures Valid()
      ensures var s := AddDeviceCall(Connection(), old(reqCount), name, deviceClass, collector);
              r == s.result && posted == old(posted) + s.posts && reqCount == old(reqCount) + |s.posts|
    {
      r := RouterRequest(DeviceRouter, "addDevice",
        List([Dict(map["deviceName" := Str(name), "deviceClass" := Str(deviceClass), "model" := Bool(true), "collector" := Str(collector)])]));
    }

    /** `remove_device(name)` */
    method RemoveDevice(name: string) returns (r: Result<Value>)
      requires Valid()
      modifies this
      ensures Valid()
      ensures var s := RemoveDeviceCall(Connection(), old(reqCount), name);
              r == s.result && posted == old(posted) + s.posts && reqCount == old(reqCount) + |s.posts|
    {
      ghost var before := posted;
      var device := FindDevice(name);
      ghost var found := posted[|before|..];
      assert posted == before + found;
      if device.Err? {
        return device;
      }
      var keys := UidAndHash(device.value);
      if keys.Err? {
        return Err(keys.error);
      }
      r := RouterRequest(DeviceRouter, "removeDevices", RemoveData(keys.value.0, keys.value.1));
      ghost var update := posted[|before + found|..];
      assert posted == before + found + update == before + (found + update);
    }

    /** `set_prod_state(name, state)` */
    method SetProdState(name: string, state: int) returns (r: Result<Value>)
      requires Valid()
      modifies this
      ensures Valid()
      ensures var s := SetProdStateCall(Connection(), old(reqCount), name, state);
              r == s.result && posted == old(posted) + s.posts && reqCount == old(reqCount) + |s.posts|
    {
      ghost var before := posted;
      var device := FindDevice(name);
      ghost var found := posted[|before|..];
      assert posted == before + found;
      if device.Err? {
        return device;
      }
      var keys := UidAndHash(device.value);
      if keys.Err? {
        return Err(keys.error);
      }
      r := RouterRequest(DeviceRouter, "setProductionState", ProdStateData(keys.value.0, state, keys.value.1));
      ghost var update := posted[|before + found|..];
      assert posted == before + found + update == before + (found + update);
    }

    /** `set_maintenance(name)`: production state 300. */
    method SetMaintenance(name: string) returns (r: Result<Value>)
      requires Valid()
      modifies this
      ensures Valid()
      ensures var s := SetProdStateCall(Connection(), old(reqCount), name, 300);
              r == s.result && posted == old(posted) + s.posts && reqCount == old(reqCount) + |s.posts|
    {
      r := SetProdState(name, Maintenance);
    }

    /** `set_production(name)`: production state 1000. */
    method SetProduction(name: string) returns (r: Result<Value>)
      requires Valid()
      modifies this
      ensures Valid()
      ensures var s := SetProdStateCall(Connection(), old(reqCount), name, 1000);
              r == s.result && posted == old(posted) + s.posts && reqCount == old(reqCount) + |s.posts|
    {
      r := SetProdState(name, Production);
    }
  }

  /** The module's arguments; the optional ones may be missing. */
  datatype Params = Params(
    server: string, username: string, password: string, action: string, deviceName: string,
    componentName: Option<string>, state: Option<int>, monitor: Option<bool>)

  /** What a run ends with: `exit_json(changed, **fields)` or `fail_json(msg)`; an escaping exception is an `Err`. */
  datatype Outcome = Exit(changed: bool, fields: map<string, Value>) | Fail(msg: string)

  /** The `method` argument, compared once against the names `main` knows. */
  datatype Command = ListDevices | ReadProductionState | WriteProductionState | ReadComponent | WriteComponentMonitor | Unknown

  function CommandOf(action: string): Command {
    if action == "get_devices" then ListDevices
    else if action == "get_production_state" then ReadProductionState
    else if action == "set_production_state" then WriteProductionState
    else if action == "get_component" then ReadComponent
    else if action == "set_component_monitor" then WriteComponentMonitor
    else Unknown
  }

  /** The `name=device_name` filter `main` lists devices with. */
  function NameFilter(deviceName: string): map<string, Value> {
    map["name" := Str(deviceName)]
  }

  /** `devices['devices'][0]['productionState']`: the first listed device's state. */
  function ReadCurrent(reply: Value): Result<Value> {
    match Get(reply, "devices")
    case Err(e) => Err(e)
    case Ok(devices) =>
      match At(devices, 0)
      case Err(e) => Err(e)
      case Ok(first) => Get(first, "productionState")
  }

  /** `set_production_state`'s reads: the first listed device's state, then `devices['totalCount']`. */
  function ReadState(reply: Value): Result<(Value, Value)> {
    match ReadCurrent(reply)
    case Err(e) => Err(e)
    case Ok(current) =>
      match Get(reply, "totalCount")
      case Err(e) => Err(e)
      case Ok(count) => Ok((current, count))
  }

  /**
   * Reading the state alone needs no `totalCount`: the write branch reads
   * the same state and then the count, and fails only where one of them is
   * missing.
   */
  lemma ReadStateOfCurrent(reply: Value)
    ensures ReadState(reply).Ok? <==> ReadCurrent(reply).Ok? && reply.Dict? && "totalCount" in reply.fields
    ensures ReadState(reply).Ok? ==> ReadCurrent(reply) == Ok(ReadState(reply).value.0)
    ensures ReadCurrent(reply).Err? ==> ReadState(reply) == Err(ReadCurrent(reply).error)
  {
  }

  /** A listing without `totalCount` still gives `get_production_state` the device's state. */
  lemma ReadCurrentWithoutCount()
    ensures var reply := Dict(map["devices" := List([Dict(map["productionState" := Int(1000)])])]);
            ReadCurrent(reply) == Ok(Int(1000)) && ReadState(reply).Err?
  {
  }

  /** `components['data']`, iterated. */
  function ComponentsOf(reply: Value): Result<seq<Value>> {
    match Get(reply, "data")
    case Err(e) => Err(e)
    case Ok(data) => Items(data)
  }

  // The messages `main` reports.
  const StateRequired := "State parameter is required"
  const ComponentRequired := "Component name parameter is required"
  const ComponentNotFound := "Component is not in provided device"
  const MonitorArgsRequired := "Component name and monitor parameters are required"

  const StatePrefix := "Device is in production state "
  const TooManyPrefix := "More than 1 device impacted, total devices impacted "
  const AlreadyPrefix := "Device already in production state "
  const SetToPrefix := "Device set to production state "

  function StateMessage(current: Value): string {
    StatePrefix + Show(current)
  }

  function TooManyDevices(count: Value): string {
    TooManyPrefix + Show(count)
  }

  function AlreadyInState(state: int): string {
    AlreadyPrefix + IntToString(state)
  }

  function SetToState(state: int): string {
    SetToPrefix + IntToString(state)
  }

  function ComponentMissing(name: string, deviceName: string): string {
    "Component: " + name + " is not in provided device: " + deviceName
  }

  /** `get_devices`: the devices of that name, changing nothing. */
  function ExpectedListDevices(link: Link, n: nat, p: Params): (s: Step<Outcome>)
    ensures Numbered(s.posts, n)
  {
    var read := GetDevicesCall(link, n, NameFilter(p.deviceName));
    Step(
      if read.result.Err? then Err(read.result.error)
      else match Get(read.result.value, "devices")
        case Err(e) => Err(e)
        case Ok(devices) => Ok(Exit(false, map["devices" := devices])),
      read.posts)
  }

  /** `get_production_state`: the first listed device's state, changing nothing. */
  function ExpectedReadProductionState(link: Link, n: nat, p: Params): (s: Step<Outcome>)
    ensures Numbered(s.posts, n)
  {
    var read := GetDevicesCall(link, n, NameFilter(p.deviceName));
    Step(
      if read.result.Err? then Err(read.result.error)
      else match ReadCurrent(read.result.value)
        case Err(e) => Err(e)
        case Ok(current) =>
          Ok(Exit(false, map["production_state" := current, "msg" := Str(StateMessage(current))])),
      read.posts)
  }

  /**
   * `get_production_state` succeeds exactly when the listing answers and its
   * first device has a state, whatever `totalCount` says; it then reports
   * that state and no change.
   */
  lemma ReadProductionStateReports(link: Link, n: nat, p: Params)
    ensures var read := GetDevicesCall(link, n, NameFilter(p.deviceName));
            var s := ExpectedReadProductionState(link, n, p);
            && s.posts == read.posts
            && (s.result.Ok? <==> read.result.Ok? && ReadCurrent(read.result.value).Ok?)
            && (s.result.Ok? ==>
                  var current := ReadCurrent(read.result.value).value;
                  s.result.value == Exit(false, map["production_state" := current, "msg" := Str(StatePrefix + Show(current))]))
  {
  }

  /**
   * What `set_production_state` does with the listing of the devices of
   * that name, given what writing the state would give: it must count
   * exactly one device; the state is written, and the run reports a change,
   * only when the first listed device is in another state.
   */
  function DecideProductionState(state: int, devices: Result<Value>, update: Step<Value>): (s: Step<Outcome>)
  {
    if devices.Err? then Step(Err(devices.error), [])
    else match ReadState(devices.value)
      case Err(e) => Step(Err(e), [])
      case Ok((current, count)) =>
        if !Equal(count, Int(1)) then
          Step(Ok(Fail(TooManyDevices(count))), [])
        else if Equal(current, Int(state)) then
          Step(Ok(Exit(false, map["msg" := Str(AlreadyInState(state))])), [])
        else
          Step(
            if update.result.Err? then Err(update.result.error)
            else Ok(Exit(true, map["msg" := Str(SetToState(state))])),
            update.posts)
  }

  /** `get_component`: the last component of that name, reported as a change. */
  function ExpectedReadComponent(link: Link, n: nat, p: Params): (s: Step<Outcome>)
    ensures Numbered(s.posts, n)
  {
    if p.componentName.None? then Step(Ok(Fail(ComponentRequired)), [])
    else
      var got := GetComponentsCall(link, n, p.deviceName);
      Step(
        if got.result.Err? then Err(got.result.error)
        else match ComponentsOf(got.result.value)
          case Err(e) => Err(e)
          case Ok(xs) =>
            match LastNamed(xs, p.componentName.value)
            case Err(e) => Err(e)
            case Ok(None) => Ok(Fail(ComponentNotFound))
            case Ok(Some(c)) => Ok(Exit(true, map["component" := c])),
        got.posts)
  }

  /**
   * What `set_component_monitor` does with the components of the device:
   * the first component of that name has its flag written, and the run
   * reports a change, only when its `monitored` value differs. `n` is the
   * transaction id after the components were read.
   */
  function DecideComponentMonitor(link: Link, n: nat, deviceName: string, name: string, monitor: bool, components: Result<Value>): (s: Step<Outcome>)
    ensures Numbered(s.posts, n)
  {
    if components.Err? then Step(Err(components.error), [])
    else match ComponentsOf(components.value)
      case Err(e) => Step(Err(e), [])
      case Ok(xs) =>
        match FirstNamed(xs, name)
        case Err(e) => Step(Err(e), [])
        case Ok(None) => Step(Ok(Fail(ComponentMissing(name, deviceName))), [])
        case Ok(Some(c)) =>
          match Get(c, "monitored")
          case Err(e) => Step(Err(e), [])
          case Ok(monitored) =>
            if Equal(monitored, Bool(monitor)) then Step(Ok(Exit(false, map[])), [])
            else
              var update := SetComponentsMonitoredCall(link, n, c, monitor);
              Step(
                if update.result.Err? then Err(update.result.error)
                else match Get(update.result.value, "msg")
                  case Err(e) => Err(e)
                  case Ok(msg) => Ok(Exit(true, map["msg" := msg])),
                update.posts)
  }

  /** The methods of the posted calls, in order. */
  function Calls(posts: seq<Post>): (calls: seq<string>)
    ensures |calls| == |posts| && forall k :: 0 <= k < |posts| ==> calls[k] == posts[k].request.call
  {
    seq(|posts|, k requires 0 <= k < |posts| => posts[k].request.call)
  }

  /** A device-router call posts, at most, itself. */
  lemma DeviceCallPosts(link: Link, tid: nat, call: string, data: Value)
    ensures Calls(RouterCall(link, tid, DeviceRouter, call, data).posts) <= [call]
  {
    DeviceRouterKnown();
  }

  /** Reading a device's components lists the devices, then asks for the components, and writes nothing. */
  lemma GetComponentsPosts(link: Link, n: nat, name: string)
    ensures Calls(GetComponentsCall(link, n, name).posts) <= ["getDevices", "getComponents"]
  {
    DeviceCallPosts(link, n, "getDevices", List([Dict(map["uid" := Str(DevicesClass), "params" := Dict(map[]), "limit" := Null])]));
    var uid := DeviceUidCall(link, n, name);
    if uid.result.Ok? {
      DeviceCallPosts(link, n + |uid.posts|, "getComponents", ComponentsQuery(uid.result.value));
    }
  }

  /** The three reading methods post only `getDevices` and `getComponents` calls. */
  lemma ReadsOnlyRead(link: Link, n: nat, p: Params)
    ensures Calls(ExpectedListDevices(link, n, p).posts) <= ["getDevices"]
    ensures Calls(ExpectedReadProductionState(link, n, p).posts) <= ["getDevices"]
    ensures Calls(ExpectedReadComponent(link, n, p).posts) <= ["getDevices", "getComponents"]
  {
    DeviceCallPosts(link, n, "getDevices", List([Dict(map["uid" := Str(DevicesClass), "params" := Dict(NameFilter(p.deviceName)), "limit" := Null])]));
    GetComponentsPosts(link, n, p.deviceName);
  }

  /**
   * `set_production_state` after the listing: with a count other than 1 it
   * fails and writes nothing; otherwise it writes, and reports a change,
   * exactly when the first listed device is in another state.
   */
  lemma ProductionStateDecision(state: int, devices: Result<Value>, update: Step<Value>, current: Value, count: Value)
    requires devices.Ok? && ReadState(devices.value) == Ok((current, count))
    ensures var s := DecideProductionState(state, devices, update);
            && (!Equal(count, Int(1)) ==> s == Step(Ok(Fail(TooManyDevices(count))), []))
            && (Equal(count, Int(1)) ==> (s.posts == if Equal(current, Int(state)) then [] else update.posts))
            && (Equal(count, Int(1)) && update.result.Ok? ==>
                  s.result.Ok? && s.result.value.Exit? && (s.result.value.changed <==> !Equal(current, Int(state))))
  {
  }

  /** Writing a production state posts the listing of all devices, then the new state. */
  lemma SetProdStateCalls(link: Link, n: nat, name: string, state: int)
    ensures Calls(SetProdStateCall(link, n, name, state).posts) <= ["getDevices", "setProductionState"]
  {
    DeviceCallPosts(link, n, "getDevices", List([Dict(map["uid" := Str(DevicesClass), "params" := Dict(map[]), "limit" := Null])]));
    var found := FindDeviceCall(link, n, name);
    if found.result.Ok? && UidAndHash(found.result.value).Ok? {
      var keys := UidAndHash(found.result.value).value;
      DeviceCallPosts(link, n + |found.posts|, "setProductionState", ProdStateData(keys.0, state, keys.1));
    }
  }

  /**
   * `set_component_monitor` after the components were read: the first
   * component of that name decides; its flag is written, and a change
   * reported, exactly when its `monitored` value differs from the one asked for.
   */
  lemma ComponentMonitorDecision(link: Link, n: nat, deviceName: string, name: string, monitor: bool, components: Result<Value>,
                                 xs: seq<Value>, c: Value, monitored: Value)
    requires components.Ok? && ComponentsOf(components.value) == Ok(xs)
    requires FirstNamed(xs, name) == Ok(Some(c)) && Get(c, "monitored") == Ok(monitored)
    ensures exists i :: 0 <= i < |xs| && xs[i] == c && NamedAs(c, name) && forall j :: 0 <= j < i ==> !NamedAs(xs[j], name)
    ensures var s := DecideComponentMonitor(link, n, deviceName, name, monitor, components);
            && (Equal(monitored, Bool(monitor)) ==> s == Step(Ok(Exit(false, map[])), []))
            && (!Equal(monitored, Bool(monitor)) ==> s.posts == SetComponentsMonitoredCall(link, n, c, monitor).posts)
            && (s.result.Ok? ==> s.result.value.Exit? && (s.result.value.changed <==> !Equal(monitored, Bool(monitor))))
  {
    FirstNamedIsFirst(xs, name);
  }

  /** `get_component` reports a change whenever it finds the component, and the one it reports is the last of that name. */
  lemma ReadComponentAlwaysChanged(link: Link, n: nat, p: Params)
    ensures var s := ExpectedReadComponent(link, n, p);
            s.result.Ok? && s.result.value.Exit? ==>
              s.result.value.changed && p.componentName.Some? &&
              var xs := ComponentsOf(GetComponentsCall(link, n, p.deviceName).result.value).value;
              exists i :: 0 <= i < |xs| && s.result.value.fields["component"] == xs[i] && NamedAs(xs[i], p.componentName.value) &&
                forall j :: i < j < |xs| ==> !NamedAs(xs[j], p.componentName.value)
  {
    var s := ExpectedReadComponent(link, n, p);
    if s.result.Ok? && s.result.value.Exit? {
      var xs := ComponentsOf(GetComponentsCall(link, n, p.deviceName).result.value).value;
      LastNamedIsLast(xs, p.componentName.value);
    }
  }

  /** Once a prefix raises, every longer prefix raises the same exception. */
  lemma {:induction false} LastNamedRaisesOnward(xs: seq<Value>, i: nat, name: string)
    requires i <= |xs| && LastNamed(xs[..i], name).Err?
    ensures LastNamed(xs, name) == LastNamed(xs[..i], name)
    decreases |xs| - i
  {
    if i < |xs| {
      assert xs[..i + 1][..i] == xs[..i];
      LastNamedRaisesOnward(xs, i + 1, name);
    } else {
      assert xs[..i] == xs;
    }
  }

  /** The `get_component` loop: the component kept is the last one of that name. */
  method LastComponent(xs: seq<Value>, name: string) returns (r: Result<Option<Value>>)
    ensures r == LastNamed(xs, name)
  {
    var component: Option<Value> := None;
    var i := 0;
    while i < |xs|
      invariant i <= |xs| && LastNamed(xs[..i], name) == Ok(component)
    {
      assert xs[..i + 1][..i] == xs[..i];
      var n := Get(xs[i], "name");
      if n.Err? {
        LastNamedRaisesOnward(xs, i + 1, name);
        return Err(n.error);
      }
      if Equal(n.value, Str(name)) {
        component := Some(xs[i]);
      }
      i := i + 1;
    }
    assert xs[..i] == xs;
    r := Ok(component);
  }

  /** The `set_component_monitor` loop: it stops at the first component of that name. */
  method FirstComponent(xs: seq<Value>, name: string) returns (r: Result<Option<Value>>)
    ensures r == FirstNamed(xs, name)
  {
    var i := 0;
    while i < |xs|
      invariant i <= |xs| && FirstNamed(xs, name) == FirstNamed(xs[i..], name)
    {
      assert xs[i..][1..] == xs[i + 1..];
      var n := Get(xs[i], "name");
      if n.Err? {
        return Err(n.error);
      }
      if Equal(n.value, Str(name)) {
        return Ok(Some(xs[i]));
      }
      i := i + 1;
    }
    r := Ok(None);
  }

  /** `main`'s `get_devices` branch. */
  method ListDevicesBranch(z: Client, p: Params) returns (r: Result<Outcome>)
    requires z.Valid()
    modifies z
    ensures z.Valid()
    ensures var s := ExpectedListDevices(z.Connection(), old(z.reqCount), p);
            r == s.result && z.posted == old(z.posted) + s.posts && z.reqCount == old(z.reqCount) + |s.posts|
  {
    var devices := z.GetDevices(NameFilter(p.deviceName));
    if devices.Err? {
      return Err(devices.error);
    }
    var listed := Get(devices.value, "devices");
    if listed.Err? {
      return Err(listed.error);
    }
    r := Ok(Exit(false, map["devices" := listed.value]));
  }

  /** `main`'s `get_production_state` branch. */
  method ReadProductionStateBranch(z: Client, p: Params) returns (r: Result<Outcome>)
    requires z.Valid()
    modifies z
    ensures z.Valid()
    ensures var s := ExpectedReadProductionState(z.Connection(), old(z.reqCount), p);
            r == s.result && z.posted == old(z.posted) + s.posts && z.reqCount == old(z.reqCount) + |s.posts|
  {
    var devices := z.GetDevices(NameFilter(p.deviceName));
    if devices.Err? {
      return Err(devices.error);
    }
    var read := ReadCurrent(devices.value);
    if read.Err? {
      return Err(read.error);
    }
    var state := read.value;
    r := Ok(Exit(false, map["production_state" := state, "msg" := Str(StateMessage(state))]));
  }

  /** The part of `set_production_state` after the listing. */
  method DecideProductionStateStep(z: Client, deviceName: string, state: int, devices: Result<Value>)
    returns (r: Result<Outcome>)
    requires z.Valid()
    modifies z
    ensures z.Valid()
    ensures var s := DecideProductionState(state, devices, SetProdStateCall(z.Connection(), old(z.reqCount), deviceName, state));
            r == s.result && z.posted == old(z.posted) + s.posts && z.reqCount == old(z.reqCount) + |s.posts|
  {
    if devices.Err? {
      return Err(devices.error);
    }
    var current := ReadState(devices.value);
    if current.Err? {
      return Err(current.error);
    }
    var count := current.value.1;
    if !Equal(count, Int(1)) {
      return Ok(Fail(TooManyDevices(count)));
    }
    if Equal(current.value.0, Int(state)) {
      return Ok(Exit(false, map["msg" := Str(AlreadyInState(state))]));
    }
    var update := z.SetProdState(deviceName, state);
    if update.Err? {
      return Err(update.error);
    }
    r := Ok(Exit(true, map["msg" := Str(SetToState(state))]));
  }

  /** `main`'s `set_production_state` branch. */
  method WriteProductionStateBranch(z: Client, p: Params) returns (r: Result<Outcome>)
    requires z.Valid()
    modifies z
    ensures z.Valid()
    ensures p.state.None? ==> r == Ok(Fail(StateRequired)) && z.posted == old(z.posted)
    ensures p.state.Some? ==>
              var read := GetDevicesCall(z.Connection(), old(z.reqCount), NameFilter(p.deviceName));
              var s := DecideProductionState(p.state.value, read.result,
                         SetProdStateCall(z.Connection(), old(z.reqCount) + |read.posts|, p.deviceName, p.state.value));
              r == s.result && z.posted == old(z.posted) + read.posts + s.posts
  {
    if p.state.None? {
      return Ok(Fail(StateRequired));
    }
    ghost var n := z.reqCount;
    var devices := z.GetDevices(NameFilter(p.deviceName));
    assert z.reqCount == n + |GetDevicesCall(z.Connection(), n, NameFilter(p.deviceName)).posts|;
    r := DecideProductionStateStep(z, p.deviceName, p.state.value, devices);
  }

  /** `main`'s `get_component` branch. */
  method ReadComponentBranch(z: Client, p: Params) returns (r: Result<Outcome>)
    requires z.Valid()
    modifies z
    ensures z.Valid()
    ensures var s := ExpectedReadComponent(z.Connection(), old(z.reqCount), p);
            r == s.result && z.posted == old(z.posted) + s.posts && z.reqCount == old(z.reqCount) + |s.posts|
  {
    if p.componentName.None? {
      return Ok(Fail(ComponentRequired));
    }
    var components := z.GetComponents(p.deviceName);
    if components.Err? {
      return Err(components.error);
    }
    var xs := ComponentsOf(components.value);
    if xs.Err? {
      return Err(xs.error);
    }
    var component := LastComponent(xs.value, p.componentName.value);
    if component.Err? {
      return Err(component.error);
    }
    if component.value.Some? {
      r := Ok(Exit(true, map["component" := component.value.value]));
    } else {
      r := Ok(Fail(ComponentNotFound));
    }
  }

  /** The part of `set_component_monitor` after the components were read. */
  method DecideComponentMonitorStep(z: Client, deviceName: string, name: string, monitor: bool, components: Result<Value>)
    returns (r: Result<Outcome>)
    requires z.Valid()
    modifies z
    ensures z.Valid()
    ensures var s := DecideComponentMonitor(z.Connection(), old(z.reqCount), deviceName, name, monitor, components);
            r == s.result && z.posted == old(z.posted) + s.posts && z.reqCount == old(z.reqCount) + |s.posts|
  {
    if components.Err? {
      return Err(components.error);
    }
    var xs := ComponentsOf(components.value);
    if xs.Err? {
      return Err(xs.error);
    }
    var component := FirstComponent(xs.value, name);
    if component.Err? {
      return Err(component.error);
    }
    if component.value.None? {
      return Ok(Fail(ComponentMissing(name, deviceName)));
    }
    var c := component.value.value;
    var monitored := Get(c, "monitored");
    if monitored.Err? {
      return Err(monitored.error);
    }
    if Equal(monitored.value, Bool(monitor)) {
      return Ok(Exit(false, map[]));
    }
    var response := z.SetComponentsMonitored(c, monitor);
    if response.Err? {
      return Err(response.error);
    }
    var msg := Get(response.value, "msg");
    if msg.Err? {
      return Err(msg.error);
    }
    r := Ok(Exit(true, map["msg" := msg.value]));
  }

  /** `main`'s `set_component_monitor` branch. */
  method WriteComponentMonitorBranch(z: Client, p: Params) returns (r: Result<Outcome>)
    requires z.Valid()
    modifies z
    ensures z.Valid()
    ensures p.componentName.None? || p.monitor.None? ==> r == Ok(Fail(MonitorArgsRequired)) && z.posted == old(z.posted)
    ensures p.componentName.Some? && p.monitor.Some? ==>
              var got := GetComponentsCall(z.Connection(), old(z.reqCount), p.deviceName);
              var s := DecideComponentMonitor(z.Connection(), old(z.reqCount) + |got.posts|,
                         p.deviceName, p.componentName.value, p.monitor.value, got.result);
              r == s.result && z.posted == old(z.posted) + got.posts + s.posts
  {
    if p.componentName.None? || p.monitor.None? {
      return Ok(Fail(MonitorArgsRequired));
    }
    ghost var n := z.reqCount;
    var components := z.GetComponents(p.deviceName);
    assert z.reqCount == n + |GetComponentsCall(z.Connection(), n, p.deviceName).posts|;
    r := DecideComponentMonitorStep(z, p.deviceName, p.componentName.value, p.monitor.value, components);
  }

  /** The message `main` fails with on a method it does not know. */
  function UnknownMethod(action: string): string {
    "Unknown method: " + action
  }

  /**
   * `main`: one fresh client, so transaction ids count from 0, then the
   * branch the `method` argument names; an unknown method fails before
   * anything is posted.
   */
  method RunModule(p: Params, server: Server) returns (r: Result<Outcome>, z: Client)
    ensures fresh(z) && z.Valid() && z.Connection() == Link(p.server, (p.username, p.password), server)
    ensures CommandOf(p.action) == WriteProductionState && p.state.None? ==> r == Ok(Fail(StateRequired)) && z.posted == []
    ensures CommandOf(p.action) == ReadComponent && p.componentName.None? ==> r == Ok(Fail(ComponentRequired)) && z.posted == []
    ensures CommandOf(p.action) == WriteComponentMonitor && (p.componentName.None? || p.monitor.None?) ==>
              r == Ok(Fail(MonitorArgsRequired)) && z.posted == []
    ensures CommandOf(p.action) == Unknown ==> r == Ok(Fail(UnknownMethod(p.action))) && z.posted == []
    ensures CommandOf(p.action) == ListDevices ==>
              var s := ExpectedListDevices(z.Connection(), 0, p); r == s.result && z.posted == s.posts
    ensures CommandOf(p.action) == ReadProductionState ==>
              var s := ExpectedReadProductionState(z.Connection(), 0, p); r == s.result && z.posted == s.posts
    ensures CommandOf(p.action) == ReadComponent ==>
              var s := ExpectedReadComponent(z.Connection(), 0, p); r == s.result && z.posted == s.posts
  {
    z := new Client(p.server, p.username, p.password, server);
    match CommandOf(p.action)
    case ListDevices => r := ListDevicesBranch(z, p);
    case ReadProductionState => r := ReadProductionStateBranch(z, p);
    case WriteProductionState => r := WriteProductionStateBranch(z, p);
    case ReadComponent => r := ReadComponentBranch(z, p);
    case WriteComponentMonitor => r := WriteComponentMonitorBranch(z, p);
    case Unknown => r := Ok(Fail(UnknownMethod(p.action)));
  }
}
