/** The production frontend manager: `createVhost` and `removeVhost` drive the frontend's agent
    (create-vhost, proxy-pass install and delete, reload) and persist the vhost bookkeeping in the
    registry. Each operation is a function of the world it starts from, and the bean's methods are
    proved to follow those functions. */
module EjbManager {
  import opened Entities
  import opened Urls
  import opened Services
  import opened FrontendOps

  /** The entity of an agent reply where the caller dereferences it: a reply without one (204)
      becomes `MissingPayload`. */
  function Entity(r: Result<Option<Payload>>): (e: Result<Payload>)
    ensures e.Ok? <==> r.Ok? && r.value.Some?
    ensures e.Ok? ==> e.value == r.value.value
    ensures r.Err? ==> e == Err(r.error)
  {
    match r
    case Err(x) => Err(x)
    case Ok(None) => Err(MissingPayload)
    case Ok(Some(p)) => Ok(p)
  }

  /** A reply the agent accepted and that carries an entity. */
  predicate Delivers(reply: Reply)
  {
    reply.status in {200, 201, 202}
  }

  function CreateVhostRequest(apiUrl: string): Request
  {
    Request(Post, RemoveRedundantForwardSlash(GetUrl(apiUrl, CreateVhostPath)), CreateVhostParams)
  }

  function ProxyPassRequest(apiUrl: string, vhostId: string, vhostName: string, ip: string): Request
  {
    Request(Post, RemoveRedundantForwardSlash(GetUrl(apiUrl, ProxyPassPath(vhostId))), ProxyPassParams(vhostName, ip))
  }

  function ProxyPassDeleteRequest(apiUrl: string, vhostId: string, key: string): Request
  {
    Request(Delete, RemoveRedundantForwardSlash(GetUrl(apiUrl, ProxyPassDeletePath(vhostId, key))), [])
  }

  function ReloadRequest(apiUrl: string): Request
  {
    Request(Post, RemoveRedundantForwardSlash(GetUrl(apiUrl, ReloadPath)), [])
  }

  /** The vhost id `createVhost` uses: the first vhost's when the frontend has one, otherwise the id
      the agent returns for a newly created vhost. */
  function ResolveVhostId(w: World, f: Frontend): (p: (World, Result<string>))
    ensures f.vhosts != [] ==> p == (w, Ok(f.vhosts[0].vhostId))
    ensures f.vhosts == [] ==> p.0 == AfterSend(w, Post, GetUrl(f.apiUrl, CreateVhostPath), CreateVhostParams, true).0
    ensures f.vhosts == [] && w.replies != [] && Delivers(w.replies[0]) ==> p.1 == Ok(w.replies[0].payload.id)
    ensures f.vhosts == [] && (w.replies == [] || !Delivers(w.replies[0])) ==> p.1.Err?
  {
    if f.vhosts != [] then (w, Ok(f.vhosts[0].vhostId))
    else
      var q := AfterSend(w, Post, GetUrl(f.apiUrl, CreateVhostPath), CreateVhostParams, true);
      match Entity(q.1)
      case Err(e) => (q.0, Err(e))
      case Ok(v) => (q.0, Ok(v.id))
  }

  /** One iteration of the router loop: resolve the router and its compute, have the agent install
      a proxy pass to it, and give the first vhost named `vhostName` a fresh map holding only the
      returned directive. */
  function ProxyPassStep(w: World, apiUrl: string, vhostId: string, vhostName: string, f: Frontend, routerName: string)
    : (p: (World, Result<Frontend>))
    ensures SameRegistry(w, p.0)
    ensures RouterIp(w, routerName).Err? ==> p == (w, Err(RouterIp(w, routerName).error))
    ensures RouterIp(w, routerName).Ok? ==>
              p.0 == AfterSend(w, Post, GetUrl(apiUrl, ProxyPassPath(vhostId)), ProxyPassParams(vhostName, RouterIp(w, routerName).value), true).0
    ensures p.1.Ok? <==> RouterIp(w, routerName).Ok? && w.replies != [] && Delivers(w.replies[0])
    ensures p.1.Ok? ==>
              p.1.value == f.(vhosts := WithDirectives(f.vhosts, vhostName, map[w.replies[0].payload.id := w.replies[0].payload.value]))
  {
    match RouterIp(w, routerName)
    case Err(e) => (w, Err(e))
    case Ok(ip) =>
      var q := AfterSend(w, Post, GetUrl(apiUrl, ProxyPassPath(vhostId)), ProxyPassParams(vhostName, ip), true);
      match Entity(q.1)
      case Err(e) => (q.0, Err(e))
      case Ok(d) => (q.0, Ok(f.(vhosts := WithDirectives(f.vhosts, vhostName, map[d.id := d.value]))))
  }

  /** The router loop of `createVhost`, in the order of the router list; the first failure ends it. */
  function RouterLoop(w: World, apiUrl: string, vhostId: string, vhostName: string, f: Frontend, routers: seq<string>)
    : (p: (World, Result<Frontend>))
    ensures SameRegistry(w, p.0) && |w.trace| <= |p.0.trace|
    ensures p.1.Ok? ==> p.1.value.id == f.id && p.1.value.name == f.name && p.1.value.apiUrl == f.apiUrl
    decreases |routers|
  {
    if routers == [] then (w, Ok(f))
    else
      var q := ProxyPassStep(w, apiUrl, vhostId, vhostName, f, routers[0]);
      match q.1
      case Err(_) => q
      case Ok(f1) => RouterLoop(q.0, apiUrl, vhostId, vhostName, f1, routers[1..])
  }

  /** The reload request that ends `createVhost` and `removeVhost`. */
  function Reload(w: World, apiUrl: string): (p: (World, Outcome))
    ensures p.0 == AfterSend(w, Post, GetUrl(apiUrl, ReloadPath), [], false).0
    ensures p.1.Pass? <==> w.replies != [] && Accepted(w.replies[0].status)
  {
    var q := AfterSend(w, Post, GetUrl(apiUrl, ReloadPath), [], false);
    (q.0, if q.1.Ok? then Pass else Fail(q.1.error))
  }

  /** The part of `createVhost` after the vhost id is known: append the vhost and persist, run the
      router loop, then persist again and ask for a reload. */
  function AttachVhost(w: World, f: Frontend, vhostName: string, vhostId: string, routers: seq<string>): (p: (World, Outcome))
    ensures p.0.routers == w.routers && p.0.computes == w.computes && p.0.nextId == w.nextId
    ensures |p.0.frontends| == |w.frontends|
    ensures p.1.Pass? ==> |p.0.trace| > |w.trace| && p.0.trace[|p.0.trace| - 1] == AgentRequest(ReloadRequest(f.apiUrl))
  {
    var f1 := WithNewVhost(f, vhostName, vhostId);
    var (w1, r) := RouterLoop(AfterUpdateFrontend(w, f1), f.apiUrl, vhostId, vhostName, f1, routers);
    match r
    case Err(e) => (w1, Fail(e))
    case Ok(f2) => Reload(AfterUpdateFrontend(w1, f2), f.apiUrl)
  }

  /** `createVhost` of the production manager. */
  function CreateVhostSpec(w: World, frontendName: string, vhostName: string, routers: seq<string>): (p: (World, Outcome))
    ensures LookupFrontend(w, frontendName).None? ==> p == (w, Fail(FrontendNotFound(frontendName)))
    ensures p.0.routers == w.routers && p.0.computes == w.computes && p.0.nextId == w.nextId
    ensures p.1.Pass? ==> LookupFrontend(w, frontendName).Some? && |p.0.trace| > |w.trace|
                          && p.0.trace[|p.0.trace| - 1] == AgentRequest(ReloadRequest(LookupFrontend(w, frontendName).value.apiUrl))
  {
    match LookupFrontend(w, frontendName)
    case None => (w, Fail(FrontendNotFound(frontendName)))
    case Some(f) =>
      var (w1, id) := ResolveVhostId(w, f);
      match id
      case Err(e) => (w1, Fail(e))
      case Ok(vhostId) => AttachVhost(w1, f, vhostName, vhostId, routers)
  }

  /** The directive value pattern `removeVhost` deletes. */
  function DirectivePattern(vhostName: string): string
  {
    "/" + vhostName + "/ "
  }

  /** Whether `removeVhost` deletes the directive with value `value`: `/<vhostName>/ ` occurs in it. */
  function Matches(value: string, vhostName: string): (b: bool)
    ensures b <==> exists i :: 0 <= i <= |value| && |vhostName| + 3 <= |value| - i
                               && value[i..][..|vhostName| + 3] == "/" + vhostName + "/ "
  {
    Contains(value, DirectivePattern(vhostName))
  }

  /** One visited entry of the directive map: a matching entry is removed and deleted on the agent. */
  function DeleteStep(w: World, apiUrl: string, vhostId: string, vhostName: string, m: map<string, string>, key: string)
    : (p: (World, Result<map<string, string>>))
    ensures SameRegistry(w, p.0)
    ensures !(key in m && Matches(m[key], vhostName)) ==> p == (w, Ok(m))
    ensures key in m && Matches(m[key], vhostName) ==>
              p.0 == AfterSend(w, Delete, GetUrl(apiUrl, ProxyPassDeletePath(vhostId, key)), [], false).0
              && (p.1.Ok? <==> w.replies != [] && Accepted(w.replies[0].status))
              && (p.1.Ok? ==> p.1.value == m - {key})
  {
    if key in m && Matches(m[key], vhostName) then
      var q := AfterSend(w, Delete, GetUrl(apiUrl, ProxyPassDeletePath(vhostId, key)), [], false);
      if q.1.Err? then (q.0, Err(q.1.error)) else (q.0, Ok(m - {key}))
    else (w, Ok(m))
  }

  /** The directive loop of `removeVhost`, visiting the keys in `order` (the map's iteration order);
      the first failed delete ends it. */
  function DeleteLoop(w: World, apiUrl: string, vhostId: string, vhostName: string, m: map<string, string>, order: seq<string>)
    : (p: (World, Result<map<string, string>>))
    ensures SameRegistry(w, p.0) && |w.trace| <= |p.0.trace|
    ensures p.1.Ok? ==> p.1.value.Keys <= m.Keys
    decreases |order|
  {
    if order == [] then (w, Ok(m))
    else
      var q := DeleteLoop(w, apiUrl, vhostId, vhostName, m, order[..|order| - 1]);
      match q.1
      case Err(_) => q
      case Ok(m1) => DeleteStep(q.0, apiUrl, vhostId, vhostName, m1, order[|order| - 1])
  }

  /** No key occurs twice. */
  ghost predicate Distinct(s: seq<string>)
  {
    forall i, j :: 0 <= i < j < |s| ==> s[i] != s[j]
  }

  /** `order` visits every key of `m` exactly once. */
  ghost predicate Enumerates(order: seq<string>, m: map<string, string>)
  {
    Distinct(order)
    && (forall i :: 0 <= i < |order| ==> order[i] in m)
    && (forall k :: k in m ==> k in order)
  }

  /** `order` is an iteration order of the directive map `removeVhost` walks, when it gets that far. */
  ghost predicate IterationOrder(w: World, frontendName: string, vhostName: string, order: seq<string>)
  {
    match LookupFrontend(w, frontendName)
    case None => order == []
    case Some(f) =>
      match LookupVhost(f.vhosts, vhostName)
      case None => order == []
      case Some(v) => Enumerates(order, v.directives)
  }

  /** `removeVhost` of the production manager, given the iteration order of the directive map. */
  function RemoveVhostSpec(w: World, frontendName: string, vhostName: string, order: seq<string>): (p: (World, Outcome))
    ensures LookupFrontend(w, frontendName).None? ==> p == (w, Fail(FrontendNotFound(frontendName)))
    ensures LookupFrontend(w, frontendName).Some? && LookupVhost(LookupFrontend(w, frontendName).value.vhosts, vhostName).None? ==>
              p == (w, Fail(VhostNotFound(vhostName)))
    ensures p.0.routers == w.routers && p.0.computes == w.computes && p.0.nextId == w.nextId
    ensures p.1.Pass? ==> LookupFrontend(w, frontendName).Some? && |p.0.trace| > |w.trace|
                          && p.0.trace[|p.0.trace| - 1] == AgentRequest(ReloadRequest(LookupFrontend(w, frontendName).value.apiUrl))
  {
    match LookupFrontend(w, frontendName)
    case None => (w, Fail(FrontendNotFound(frontendName)))
    case Some(f) =>
      match LookupVhost(f.vhosts, vhostName)
      case None => (w, Fail(VhostNotFound(vhostName)))
      case Some(v) =>
        var (w1, r) := DeleteLoop(w, f.apiUrl, v.vhostId, vhostName, v.directives, order);
        match r
        case Err(e) => (w1, Fail(e))
        case Ok(_) => Reload(AfterRemoveVirtualHost(w1, f.id, vhostName), f.apiUrl)
  }

  /** The registry is as it was: only the agent's replies and the trace may differ. */
  predicate SameRegistry(w: World, w': World)
  {
    w'.frontends == w.frontends && w'.routers == w.routers && w'.computes == w.computes && w'.nextId == w.nextId
  }

  /** `w'`'s trace is `w`'s followed by `n` more events. */
  predicate Extends(w: World, w': World, n: nat)
  {
    |w'.trace| == |w.trace| + n && w'.trace[..|w.trace|] == w.trace
  }

  lemma RouterIpFrame(w: World, w': World, name: string)
    requires w'.routers == w.routers && w'.computes == w.computes
    ensures RouterIp(w', name) == RouterIp(w, name)
  {
  }

  /** The first `n` events after `w`'s trace in `w'` are the proxy-pass requests for the first `n`
      routers, in router order. */
  ghost predicate ProxyPassesLogged(w: World, w': World, apiUrl: string, vhostId: string, vhostName: string, routers: seq<string>, n: nat)
    requires n <= |routers| && |w.trace| + n <= |w'.trace|
  {
    forall i :: 0 <= i < n ==>
      RouterIp(w, routers[i]).Ok?
      && w'.trace[|w.trace| + i] == AgentRequest(ProxyPassRequest(apiUrl, vhostId, vhostName, RouterIp(w, routers[i]).value))
  }

  lemma ShiftProxyPassesLogged(w: World, w1: World, w': World, apiUrl: string, vhostId: string, vhostName: string,
                               routers: seq<string>, n: nat)
    requires 0 < n <= |routers|
    requires w1.routers == w.routers && w1.computes == w.computes
    requires Extends(w, w1, 1) && |w1.trace| + n - 1 <= |w'.trace| && w'.trace[..|w1.trace|] == w1.trace
    requires RouterIp(w, routers[0]).Ok?
    requires w1.trace[|w.trace|] == AgentRequest(ProxyPassRequest(apiUrl, vhostId, vhostName, RouterIp(w, routers[0]).value))
    requires ProxyPassesLogged(w1, w', apiUrl, vhostId, vhostName, routers[1..], n - 1)
    ensures ProxyPassesLogged(w, w', apiUrl, vhostId, vhostName, routers, n)
  {
    forall i | 0 <= i < n
      ensures RouterIp(w, routers[i]).Ok?
      ensures w'.trace[|w.trace| + i] == AgentRequest(ProxyPassRequest(apiUrl, vhostId, vhostName, RouterIp(w, routers[i]).value))
    {
      if i == 0 {
        assert w'.trace[|w.trace|] == w'.trace[..|w1.trace|][|w.trace|];
      } else {
        assert routers[1..][i - 1] == routers[i];
        RouterIpFrame(w, w1, routers[i]);
      }
    }
  }

  /** When the router loop succeeds, every router resolved, each got one proxy-pass request in list
      order and consumed one reply carrying a directive; the vhost named `vhostName` ends up with
      only the last router's directive, and with an empty list the frontend is untouched. */
  lemma {:induction false} RouterLoopSuccess(w: World, apiUrl: string, vhostId: string, vhostName: string, f: Frontend, routers: seq<string>)
    requires RouterLoop(w, apiUrl, vhostId, vhostName, f, routers).1.Ok?
    ensures var p := RouterLoop(w, apiUrl, vhostId, vhostName, f, routers);
      SameRegistry(w, p.0) && Extends(w, p.0, |routers|)
      && ProxyPassesLogged(w, p.0, apiUrl, vhostId, vhostName, routers, |routers|)
      && |routers| <= |w.replies| && p.0.replies == w.replies[|routers|..]
      && (forall i :: 0 <= i < |routers| ==> Delivers(w.replies[i]))
      && (routers == [] ==> p.1.value == f)
      && (routers != [] ==>
            var d := w.replies[|routers| - 1].payload;
            p.1.value == f.(vhosts := WithDirectives(f.vhosts, vhostName, map[d.id := d.value])))
    decreases |routers|
  {
    if routers != [] {
      var p := RouterLoop(w, apiUrl, vhostId, vhostName, f, routers);
      var q := ProxyPassStep(w, apiUrl, vhostId, vhostName, f, routers[0]);
      assert q.1.Ok?;
      var f1 := q.1.value;
      var w1 := q.0;
      var d0 := w.replies[0].payload;
      RouterLoopUnfold(w, apiUrl, vhostId, vhostName, f, routers);
      RouterLoopSuccess(w1, apiUrl, vhostId, vhostName, f1, routers[1..]);
      assert p.0.trace[..|w.trace|] == p.0.trace[..|w1.trace|][..|w.trace|];
      ShiftProxyPassesLogged(w, w1, p.0, apiUrl, vhostId, vhostName, routers, |routers|);
      forall i | 0 <= i < |routers| ensures Delivers(w.replies[i]) {
        if i > 0 {
          assert w1.replies[i - 1] == w.replies[i];
        }
      }
      if |routers| > 1 {
        var d := w.replies[|routers| - 1].payload;
        assert w1.replies[|routers[1..]| - 1] == w.replies[|routers| - 1];
        WithDirectivesOverwrites(f.vhosts, vhostName, map[d0.id := d0.value], map[d.id := d.value]);
      }
    }
  }

  /** One successful iteration of the router loop: one proxy-pass request and one reply consumed. */
  lemma RouterLoopUnfold(w: World, apiUrl: string, vhostId: string, vhostName: string, f: Frontend, routers: seq<string>)
    requires routers != [] && RouterIp(w, routers[0]).Ok? && w.replies != [] && Delivers(w.replies[0])
    ensures var q := ProxyPassStep(w, apiUrl, vhostId, vhostName, f, routers[0]);
      q.1.Ok? && q.0.routers == w.routers && q.0.computes == w.computes && q.0.replies == w.replies[1..]
      && q.0.trace == w.trace + [AgentRequest(ProxyPassRequest(apiUrl, vhostId, vhostName, RouterIp(w, routers[0]).value))]
      && RouterLoop(w, apiUrl, vhostId, vhostName, f, routers) == RouterLoop(q.0, apiUrl, vhostId, vhostName, q.1.value, routers[1..])
  {
  }

  /** The routers that resolve in `w`, with the replies after the first, are those that resolve in `w1`. */
  lemma ShiftResolved(w: World, w1: World, routers: seq<string>, k: nat)
    requires 0 < k < |routers| && k <= |w.replies|
    requires w1.routers == w.routers && w1.computes == w.computes && w1.replies == w.replies[1..]
    requires forall i :: 0 <= i < k ==> RouterIp(w, routers[i]).Ok? && Delivers(w.replies[i])
    requires RouterIp(w, routers[k]).Err?
    ensures forall i :: 0 <= i < k - 1 ==> RouterIp(w1, routers[1..][i]).Ok? && Delivers(w1.replies[i])
    ensures k - 1 <= |w1.replies| && RouterIp(w1, routers[1..][k - 1]) == RouterIp(w, routers[k])
  {
    forall i | 0 <= i < k - 1
      ensures RouterIp(w1, routers[1..][i]).Ok? && Delivers(w1.replies[i])
    {
      assert routers[1..][i] == routers[i + 1];
      RouterIpFrame(w, w1, routers[i + 1]);
    }
    assert routers[1..][k - 1] == routers[k];
    RouterIpFrame(w, w1, routers[k]);
  }

  /** When router `k` is the first that does not resolve (unknown name or no compute), and the agent
      delivered a directive for each router before it, the loop fails with that router's error after
      exactly the proxy-pass requests of routers `0 .. k-1`, and the registry is untouched. */
  lemma {:induction false} RouterLoopAbort(w: World, apiUrl: string, vhostId: string, vhostName: string, f: Frontend,
                                           routers: seq<string>, k: nat)
    requires k < |routers| && k <= |w.replies|
    requires forall i :: 0 <= i < k ==> RouterIp(w, routers[i]).Ok? && Delivers(w.replies[i])
    requires RouterIp(w, routers[k]).Err?
    ensures var p := RouterLoop(w, apiUrl, vhostId, vhostName, f, routers);
      p.1 == Err(RouterIp(w, routers[k]).error)
      && SameRegistry(w, p.0) && Extends(w, p.0, k)
      && ProxyPassesLogged(w, p.0, apiUrl, vhostId, vhostName, routers, k)
      && p.0.replies == w.replies[k..]
    decreases k
  {
    var p := RouterLoop(w, apiUrl, vhostId, vhostName, f, routers);
    if k == 0 {
      assert p.0 == w;
    } else {
      var q := ProxyPassStep(w, apiUrl, vhostId, vhostName, f, routers[0]);
      var w1 := q.0;
      RouterLoopUnfold(w, apiUrl, vhostId, vhostName, f, routers);
      ShiftResolved(w, w1, routers, k);
      RouterLoopAbort(w1, apiUrl, vhostId, vhostName, q.1.value, routers[1..], k - 1);
      assert p.0.trace[..|w.trace|] == p.0.trace[..|w1.trace|][..|w.trace|];
      ShiftProxyPassesLogged(w, w1, p.0, apiUrl, vhostId, vhostName, routers, k);
    }
  }

  /** Whatever its outcome, the router loop leaves the registry alone and issues, in router order,
      one proxy-pass request per router it reached. */
  lemma {:induction false} RouterLoopFrame(w: World, apiUrl: string, vhostId: string, vhostName: string, f: Frontend, routers: seq<string>)
    ensures var p := RouterLoop(w, apiUrl, vhostId, vhostName, f, routers);
      SameRegistry(w, p.0) && |w.trace| <= |p.0.trace| <= |w.trace| + |routers| && p.0.trace[..|w.trace|] == w.trace
      && ProxyPassesLogged(w, p.0, apiUrl, vhostId, vhostName, routers, |p.0.trace| - |w.trace|)
    decreases |routers|
  {
    var p := RouterLoop(w, apiUrl, vhostId, vhostName, f, routers);
    if routers != [] {
      var q := ProxyPassStep(w, apiUrl, vhostId, vhostName, f, routers[0]);
      var w1 := q.0;
      if RouterIp(w, routers[0]).Ok? {
        var ip := RouterIp(w, routers[0]).value;
        assert w1.trace == w.trace + [AgentRequest(ProxyPassRequest(apiUrl, vhostId, vhostName, ip))];
        if q.1.Ok? {
          RouterLoopFrame(w1, apiUrl, vhostId, vhostName, q.1.value, routers[1..]);
          assert p.0.trace[..|w.trace|] == p.0.trace[..|w1.trace|][..|w.trace|];
          ShiftProxyPassesLogged(w, w1, p.0, apiUrl, vhostId, vhostName, routers, |p.0.trace| - |w.trace|);
        } else {
          assert p.0 == w1;
        }
      } else {
        assert p.0 == w;
      }
    }
  }

  /** `ReplaceById` leaves every frontend with another id in place. */
  predicate OnlyFrontendChanged(w: World, w': World, id: nat)
  {
    w'.routers == w.routers && w'.computes == w.computes && w'.nextId == w.nextId
    && |w'.frontends| == |w.frontends|
    && forall i :: 0 <= i < |w.frontends| && w.frontends[i].id != id ==> w'.frontends[i] == w.frontends[i]
  }

  lemma ReplaceByIdTwice(fs: seq<Frontend>, f1: Frontend, f2: Frontend)
    requires f1.id == f2.id
    ensures ReplaceById(ReplaceById(fs, f1), f2) == ReplaceById(fs, f2)
  {
  }

  lemma UpdateOnlyChanges(w: World, f: Frontend)
    ensures OnlyFrontendChanged(w, AfterUpdateFrontend(w, f), f.id)
  {
  }

  lemma OnlyFrontendChangedTrans(w1: World, w2: World, w3: World, id: nat)
    requires OnlyFrontendChanged(w1, w2, id) && OnlyFrontendChanged(w2, w3, id)
    ensures OnlyFrontendChanged(w1, w3, id)
  {
  }

  /** A proxy-pass request and a reload request are not create-vhost requests: their parameters differ. */
  lemma NotCreateVhostRequests(apiUrl: string, vhostId: string, vhostName: string, ip: string, other: string)
    ensures ProxyPassRequest(apiUrl, vhostId, vhostName, ip) != CreateVhostRequest(other)
    ensures ReloadRequest(apiUrl) != CreateVhostRequest(other)
  {
    assert |ProxyPassRequest(apiUrl, vhostId, vhostName, ip).params| == 2;
    assert |CreateVhostRequest(other).params| == 1;
    assert |ReloadRequest(apiUrl).params| == 0;
  }

  lemma ProxyPassesNotCreate(w: World, w': World, apiUrl: string, vhostId: string, vhostName: string, routers: seq<string>,
                             n: nat, other: string)
    requires n <= |routers| && |w.trace| + n <= |w'.trace|
    requires ProxyPassesLogged(w, w', apiUrl, vhostId, vhostName, routers, n)
    ensures forall i :: |w.trace| <= i < |w.trace| + n ==> w'.trace[i] != AgentRequest(CreateVhostRequest(other))
  {
    forall i | |w.trace| <= i < |w.trace| + n
      ensures w'.trace[i] != AgentRequest(CreateVhostRequest(other))
    {
      var j := i - |w.trace|;
      assert w'.trace[|w.trace| + j] == AgentRequest(ProxyPassRequest(apiUrl, vhostId, vhostName, RouterIp(w, routers[j]).value));
      NotCreateVhostRequests(apiUrl, vhostId, vhostName, RouterIp(w, routers[j]).value, other);
    }
  }

  /** The events of `AttachVhost` from the first update on; no create-vhost request is among them. */
  lemma AttachVhostTrace(w: World, f: Frontend, vhostName: string, vhostId: string, routers: seq<string>)
    ensures var p := AttachVhost(w, f, vhostName, vhostId, routers);
      |w.trace| < |p.0.trace|
      && p.0.trace[..|w.trace| + 1] == w.trace + [RegistryWrite(UpdateFrontendCall(WithNewVhost(f, vhostName, vhostId)))]
      && (forall i :: |w.trace| <= i < |p.0.trace| ==> p.0.trace[i] != AgentRequest(CreateVhostRequest(f.apiUrl)))
      && OnlyFrontendChanged(w, p.0, f.id)
  {
    var f1 := WithNewVhost(f, vhostName, vhostId);
    var w2 := AfterUpdateFrontend(w, f1);
    var p := AttachVhost(w, f, vhostName, vhostId, routers);
    var l := RouterLoop(w2, f.apiUrl, vhostId, vhostName, f1, routers);
    RouterLoopFrame(w2, f.apiUrl, vhostId, vhostName, f1, routers);
    ProxyPassesNotCreate(w2, l.0, f.apiUrl, vhostId, vhostName, routers, |l.0.trace| - |w2.trace|, f.apiUrl);
    assert l.0.trace[..|w.trace| + 1] == l.0.trace[..|w2.trace|];
    var create := AgentRequest(CreateVhostRequest(f.apiUrl));
    forall i | |w.trace| <= i < |l.0.trace| ensures l.0.trace[i] != create {
      if i == |w.trace| {
        assert l.0.trace[i] == l.0.trace[..|w2.trace|][i];
      }
    }
    UpdateOnlyChanges(w, f1);
    if l.1.Ok? {
      var w3 := AfterUpdateFrontend(l.0, l.1.value);
      UpdateOnlyChanges(l.0, l.1.value);
      assert l.1.value.id == f.id by {
      }
      OnlyFrontendChangedTrans(w, l.0, w3, f.id);
      NotCreateVhostRequests(f.apiUrl, vhostId, vhostName, "", f.apiUrl);
      assert p.0.trace == w3.trace + [AgentRequest(ReloadRequest(f.apiUrl))];
      assert p.0.trace[..|w.trace| + 1] == l.0.trace[..|w.trace| + 1];
      forall i | |w.trace| <= i < |p.0.trace| ensures p.0.trace[i] != create {
        if i < |l.0.trace| {
          assert p.0.trace[i] == l.0.trace[i];
        } else if i == |l.0.trace| {
          assert p.0.trace[i].RegistryWrite?;
        } else {
          assert p.0.trace[i] == AgentRequest(ReloadRequest(f.apiUrl));
        }
      }
    } else {
      assert p.0 == l.0;
    }
  }

  /** A successful `AttachVhost` went through the whole router loop and ended with the reload. */
  lemma AttachVhostPassed(w: World, f: Frontend, vhostName: string, vhostId: string, routers: seq<string>)
    requires AttachVhost(w, f, vhostName, vhostId, routers).1 == Pass
    ensures var f1 := WithNewVhost(f, vhostName, vhostId);
      var l := RouterLoop(AfterUpdateFrontend(w, f1), f.apiUrl, vhostId, vhostName, f1, routers);
      l.1.Ok?
      && AttachVhost(w, f, vhostName, vhostId, routers).0
         == AfterSend(AfterUpdateFrontend(l.0, l.1.value), Post, GetUrl(f.apiUrl, ReloadPath), [], false).0
      && l.0.replies != [] && Accepted(l.0.replies[0].status)
  {
  }

  /** A successful `AttachVhost` persists the frontend with exactly one vhost more, named
      `vhostName` with id `vhostId`; the first vhost of that name holds only the last router's
      directive (none with no routers), and every other frontend stays. */
  lemma AttachVhostSuccess(w: World, f: Frontend, vhostName: string, vhostId: string, routers: seq<string>)
    requires AttachVhost(w, f, vhostName, vhostId, routers).1 == Pass
    ensures |routers| < |w.replies|
    ensures var p := AttachVhost(w, f, vhostName, vhostId, routers);
      var f1 := WithNewVhost(f, vhostName, vhostId);
      var d := w.replies[if routers == [] then 0 else |routers| - 1].payload;
      var f2 := if routers == [] then f1 else f1.(vhosts := WithDirectives(f1.vhosts, vhostName, map[d.id := d.value]));
      p.0.frontends == ReplaceById(w.frontends, f2)
      && |f2.vhosts| == |f.vhosts| + 1
      && f2.vhosts[|f.vhosts|].name == vhostName && f2.vhosts[|f.vhosts|].vhostId == vhostId
      && (forall i :: 0 <= i < |f.vhosts| ==> f2.vhosts[i].name == f.vhosts[i].name && f2.vhosts[i].vhostId == f.vhosts[i].vhostId)
  {
    var f1 := WithNewVhost(f, vhostName, vhostId);
    var w2 := AfterUpdateFrontend(w, f1);
    var l := RouterLoop(w2, f.apiUrl, vhostId, vhostName, f1, routers);
    AttachVhostPassed(w, f, vhostName, vhostId, routers);
    RouterLoopSuccess(w2, f.apiUrl, vhostId, vhostName, f1, routers);
    var f2 := l.1.value;
    ReplaceByIdTwice(w.frontends, f1, f2);
    assert VhostNames(f2.vhosts) == VhostNames(f1.vhosts);
    forall i | 0 <= i < |f1.vhosts| ensures f2.vhosts[i].vhostId == f1.vhosts[i].vhostId {
    }
  }

  /** The trace of a successful `AttachVhost`: the update with the vhost appended, the router loop's
      requests in router order, then the second update and the reload. */
  lemma AttachVhostSuccessTrace(w: World, f: Frontend, vhostName: string, vhostId: string, routers: seq<string>)
    requires AttachVhost(w, f, vhostName, vhostId, routers).1 == Pass
    ensures |routers| < |w.replies|
    ensures var p := AttachVhost(w, f, vhostName, vhostId, routers);
      var f1 := WithNewVhost(f, vhostName, vhostId);
      var d := w.replies[if routers == [] then 0 else |routers| - 1].payload;
      var f2 := if routers == [] then f1 else f1.(vhosts := WithDirectives(f1.vhosts, vhostName, map[d.id := d.value]));
      Extends(w, p.0, |routers| + 3)
      && p.0.trace[|w.trace|] == RegistryWrite(UpdateFrontendCall(f1))
      && ProxyPassesLogged(AfterUpdateFrontend(w, f1), p.0, f.apiUrl, vhostId, vhostName, routers, |routers|)
      && p.0.trace[|w.trace| + |routers| + 1] == RegistryWrite(UpdateFrontendCall(f2))
      && p.0.trace[|w.trace| + |routers| + 2] == AgentRequest(ReloadRequest(f.apiUrl))
  {
    var p := AttachVhost(w, f, vhostName, vhostId, routers);
    var f1 := WithNewVhost(f, vhostName, vhostId);
    var w2 := AfterUpdateFrontend(w, f1);
    var l := RouterLoop(w2, f.apiUrl, vhostId, vhostName, f1, routers);
    AttachVhostPassed(w, f, vhostName, vhostId, routers);
    RouterLoopSuccess(w2, f.apiUrl, vhostId, vhostName, f1, routers);
    var f2 := l.1.value;
    var w3 := AfterUpdateFrontend(l.0, f2);
    assert l.0.trace[|w.trace|] == l.0.trace[..|w2.trace|][|w.trace|];
    assert p.0.trace == l.0.trace + [RegistryWrite(UpdateFrontendCall(f2)), AgentRequest(ReloadRequest(f.apiUrl))];
    assert p.0.trace[..|w2.trace|] == l.0.trace[..|w2.trace|];
    assert p.0.trace[..|w.trace|] == l.0.trace[..|w2.trace|][..|w.trace|];
    forall j | |w2.trace| <= j < |w2.trace| + |routers| ensures p.0.trace[j] == l.0.trace[j] {
    }
  }

  /** `createVhost` with a name the frontend already has: the appended vhost keeps its empty map, and
      the router loop's directive goes to the earlier vhost of that name, the first one in the list. */
  lemma AttachVhostDuplicateName(w: World, f: Frontend, vhostName: string, vhostId: string, routers: seq<string>)
    requires AttachVhost(w, f, vhostName, vhostId, routers).1 == Pass
    requires routers != [] && FirstIndex(VhostNames(f.vhosts), vhostName).Some?
    ensures |routers| < |w.replies|
    ensures var p := AttachVhost(w, f, vhostName, vhostId, routers);
      var k := FirstIndex(VhostNames(f.vhosts), vhostName).value;
      var d := w.replies[|routers| - 1].payload;
      var f1 := WithNewVhost(f, vhostName, vhostId);
      var f2 := f1.(vhosts := WithDirectives(f1.vhosts, vhostName, map[d.id := d.value]));
      p.0.frontends == ReplaceById(w.frontends, f2)
      && k < |f.vhosts| && |f2.vhosts| == |f.vhosts| + 1
      && f2.vhosts[k].name == vhostName && f2.vhosts[k].directives == map[d.id := d.value]
      && f2.vhosts[|f.vhosts|] == VirtualHost(vhostName, vhostId, map[])
  {
    AttachVhostSuccess(w, f, vhostName, vhostId, routers);
    var f1 := WithNewVhost(f, vhostName, vhostId);
    assert VhostNames(f1.vhosts) == VhostNames(f.vhosts) + [vhostName];
    FirstIndexAppendFound(VhostNames(f.vhosts), vhostName, vhostName);
  }

  /** When router `k` is the first that does not resolve, `AttachVhost` fails with its error. The
      frontend stays persisted with the vhost appended and an empty directive map, the proxy passes of
      routers `0 .. k-1` stay issued, and neither the second update nor the reload happens. */
  lemma AttachVhostAbort(w: World, f: Frontend, vhostName: string, vhostId: string, routers: seq<string>, k: nat)
    requires k < |routers| && k <= |w.replies|
    requires forall i :: 0 <= i < k ==> RouterIp(w, routers[i]).Ok? && Delivers(w.replies[i])
    requires RouterIp(w, routers[k]).Err?
    ensures var p := AttachVhost(w, f, vhostName, vhostId, routers);
      var f1 := WithNewVhost(f, vhostName, vhostId);
      p.1 == Fail(RouterIp(w, routers[k]).error)
      && p.0.frontends == ReplaceById(w.frontends, f1)
      && Extends(w, p.0, k + 1)
      && p.0.trace[|w.trace|] == RegistryWrite(UpdateFrontendCall(f1))
      && ProxyPassesLogged(AfterUpdateFrontend(w, f1), p.0, f.apiUrl, vhostId, vhostName, routers, k)
      && p.0.replies == w.replies[k..]
  {
    var f1 := WithNewVhost(f, vhostName, vhostId);
    var w2 := AfterUpdateFrontend(w, f1);
    forall i | 0 <= i <= k ensures RouterIp(w2, routers[i]) == RouterIp(w, routers[i]) {
      RouterIpFrame(w, w2, routers[i]);
    }
    RouterLoopAbort(w2, f.apiUrl, vhostId, vhostName, f1, routers, k);
    var l := RouterLoop(w2, f.apiUrl, vhostId, vhostName, f1, routers);
    assert l.0.trace[|w.trace|] == l.0.trace[..|w2.trace|][|w.trace|];
    assert l.0.trace[..|w.trace|] == l.0.trace[..|w2.trace|][..|w.trace|];
  }

  /** With vhosts already on the frontend, `createVhost` reuses the first one's id: it issues no
      create-vhost request, and its first effect is the update that appends the new vhost. */
  lemma CreateVhostReusesFirstId(w: World, frontendName: string, vhostName: string, routers: seq<string>)
    requires LookupFrontend(w, frontendName).Some? && LookupFrontend(w, frontendName).value.vhosts != []
    ensures var f := LookupFrontend(w, frontendName).value;
      var p := CreateVhostSpec(w, frontendName, vhostName, routers);
      p == AttachVhost(w, f, vhostName, f.vhosts[0].vhostId, routers)
      && |w.trace| < |p.0.trace|
      && p.0.trace[|w.trace|] == RegistryWrite(UpdateFrontendCall(WithNewVhost(f, vhostName, f.vhosts[0].vhostId)))
      && (forall i :: |w.trace| <= i < |p.0.trace| ==> p.0.trace[i] != AgentRequest(CreateVhostRequest(f.apiUrl)))
  {
    var f := LookupFrontend(w, frontendName).value;
    AttachVhostTrace(w, f, vhostName, f.vhosts[0].vhostId, routers);
    var p := CreateVhostSpec(w, frontendName, vhostName, routers);
    assert p.0.trace[|w.trace|] == p.0.trace[..|w.trace| + 1][|w.trace|];
  }

  /** On a frontend without vhosts, `createVhost` first issues exactly one create-vhost request,
      with `address=*:80`. If the agent answers with a vhost, its id is the one used and the appended
      vhost is persisted next; otherwise the operation fails with that request as its only effect. */
  lemma CreateVhostOnEmptyList(w: World, frontendName: string, vhostName: string, routers: seq<string>)
    requires LookupFrontend(w, frontendName).Some? && LookupFrontend(w, frontendName).value.vhosts == []
    ensures var f := LookupFrontend(w, frontendName).value;
      var p := CreateVhostSpec(w, frontendName, vhostName, routers);
      var w1 := AfterSend(w, Post, GetUrl(f.apiUrl, CreateVhostPath), CreateVhostParams, true).0;
      CreateVhostRequest(f.apiUrl).params == [("address", "*:80")]
      && |w.trace| < |p.0.trace| && p.0.trace[..|w.trace| + 1] == w.trace + [AgentRequest(CreateVhostRequest(f.apiUrl))]
      && (forall i :: |w.trace| < i < |p.0.trace| ==> p.0.trace[i] != AgentRequest(CreateVhostRequest(f.apiUrl)))
      && (w.replies != [] && Delivers(w.replies[0]) ==>
            p == AttachVhost(w1, f, vhostName, w.replies[0].payload.id, routers)
            && |w.trace| + 1 < |p.0.trace|
            && p.0.trace[|w.trace| + 1] == RegistryWrite(UpdateFrontendCall(WithNewVhost(f, vhostName, w.replies[0].payload.id))))
      && (!(w.replies != [] && Delivers(w.replies[0])) ==> p.1.Fail? && p.0 == w1)
  {
    var f := LookupFrontend(w, frontendName).value;
    var p := CreateVhostSpec(w, frontendName, vhostName, routers);
    var w1 := AfterSend(w, Post, GetUrl(f.apiUrl, CreateVhostPath), CreateVhostParams, true).0;
    assert w1.trace == w.trace + [AgentRequest(CreateVhostRequest(f.apiUrl))];
    if w.replies != [] && Delivers(w.replies[0]) {
      var id := w.replies[0].payload.id;
      AttachVhostTrace(w1, f, vhostName, id, routers);
      assert p.0.trace[..|w.trace| + 1] == p.0.trace[..|w1.trace| + 1][..|w.trace| + 1];
      assert p.0.trace[|w.trace| + 1] == p.0.trace[..|w1.trace| + 1][|w1.trace|];
    }
  }

  /** `createVhost` changes nothing but the frontend it found: other frontends, routers, computes
      and the id counter stay; an unknown frontend leaves the world as it was. */
  lemma CreateVhostFrame(w: World, frontendName: string, vhostName: string, routers: seq<string>)
    ensures var p := CreateVhostSpec(w, frontendName, vhostName, routers);
      (LookupFrontend(w, frontendName).None? ==> p == (w, Fail(FrontendNotFound(frontendName))))
      && (LookupFrontend(w, frontendName).Some? ==> OnlyFrontendChanged(w, p.0, LookupFrontend(w, frontendName).value.id))
  {
    match LookupFrontend(w, frontendName)
    case None =>
    case Some(f) =>
      var (w1, id) := ResolveVhostId(w, f);
      assert OnlyFrontendChanged(w, w1, f.id);
      if id.Ok? {
        AttachVhostTrace(w1, f, vhostName, id.value, routers);
        OnlyFrontendChangedTrans(w, w1, AttachVhost(w1, f, vhostName, id.value, routers).0, f.id);
      }
  }

  /** The keys of `order`, in order, whose entry in `m` the directive loop deletes. */
  function DeletedKeys(m: map<string, string>, vhostName: string, order: seq<string>): (r: seq<string>)
    ensures forall k :: k in r <==> k in order && k in m && Matches(m[k], vhostName)
    decreases |order|
  {
    if order == [] then []
    else
      var last := order[|order| - 1];
      assert forall k :: k in order <==> k in order[..|order| - 1] || k == last;
      DeletedKeys(m, vhostName, order[..|order| - 1]) + (if last in m && Matches(m[last], vhostName) then [last] else [])
  }

  /** The entries of `m` the directive loop keeps after visiting the keys of `order`. */
  function Kept(m: map<string, string>, vhostName: string, order: seq<string>): (r: map<string, string>)
    ensures forall k :: k in r <==> k in m && !(k in order && Matches(m[k], vhostName))
    ensures forall k :: k in r ==> r[k] == m[k]
  {
    map k | k in m && !(k in order && Matches(m[k], vhostName)) :: m[k]
  }

  lemma DropTwice(s: seq<Reply>, a: nat)
    requires a < |s|
    ensures s[a..][1..] == s[a + 1..]
  {
  }

  lemma DistinctPrefix(s: seq<string>)
    requires Distinct(s) && s != []
    ensures Distinct(s[..|s| - 1]) && s[|s| - 1] !in s[..|s| - 1]
  {
  }

  /** The keys the directive loop visits without failing: entries whose value contains
      `"/" + vhostName + "/ "` are removed and each gets one DELETE request, in visiting order; the
      other entries stay; the registry is untouched. */
  lemma DeleteLoopSuccess(w: World, apiUrl: string, vhostId: string, vhostName: string,
                          m: map<string, string>, order: seq<string>)
    requires Distinct(order)
    requires DeleteLoop(w, apiUrl, vhostId, vhostName, m, order).1.Ok?
    ensures var p := DeleteLoop(w, apiUrl, vhostId, vhostName, m, order);
      var ks := DeletedKeys(m, vhostName, order);
      p.1.value == Kept(m, vhostName, order)
      && SameRegistry(w, p.0) && Extends(w, p.0, |ks|)
      && (forall i :: 0 <= i < |ks| ==> p.0.trace[|w.trace| + i] == AgentRequest(ProxyPassDeleteRequest(apiUrl, vhostId, ks[i])))
      && |ks| <= |w.replies| && p.0.replies == w.replies[|ks|..]
  {
    DeleteLoopKept(w, apiUrl, vhostId, vhostName, m, order);
    DeleteLoopLog(w, apiUrl, vhostId, vhostName, m, order);
  }

  /** The map the directive loop leaves: `Kept`. */
  lemma {:induction false} DeleteLoopKept(w: World, apiUrl: string, vhostId: string, vhostName: string,
                                          m: map<string, string>, order: seq<string>)
    requires Distinct(order)
    requires DeleteLoop(w, apiUrl, vhostId, vhostName, m, order).1.Ok?
    ensures DeleteLoop(w, apiUrl, vhostId, vhostName, m, order).1.value == Kept(m, vhostName, order)
    decreases |order|
  {
    var p := DeleteLoop(w, apiUrl, vhostId, vhostName, m, order);
    if order == [] {
      assert Kept(m, vhostName, order) == m;
    } else {
      var prefix := order[..|order| - 1];
      var last := order[|order| - 1];
      DistinctPrefix(order);
      var q := DeleteLoop(w, apiUrl, vhostId, vhostName, m, prefix);
      assert q.1.Ok?;
      DeleteLoopKept(w, apiUrl, vhostId, vhostName, m, prefix);
      var m1 := q.1.value;
      assert forall k :: k in order <==> k in prefix || k == last;
      if last in m1 && Matches(m1[last], vhostName) {
        assert last in m && m1[last] == m[last];
        assert p.1.value == m1 - {last};
        assert m1 - {last} == Kept(m, vhostName, order);
      } else {
        assert !(last in m && Matches(m[last], vhostName));
        assert m1 == Kept(m, vhostName, order);
      }
    }
  }

  /** One more successful DELETE after those for `kp`: it is logged next and consumes the next reply. */
  lemma DeleteLogStep(w: World, q: World, p: World, apiUrl: string, vhostId: string, kp: seq<string>, last: string)
    requires SameRegistry(w, q) && Extends(w, q, |kp|)
    requires forall i :: 0 <= i < |kp| ==> q.trace[|w.trace| + i] == AgentRequest(ProxyPassDeleteRequest(apiUrl, vhostId, kp[i]))
    requires |kp| < |w.replies| && q.replies == w.replies[|kp|..]
    requires p == AfterSend(q, Delete, GetUrl(apiUrl, ProxyPassDeletePath(vhostId, last)), [], false).0
    ensures var ks := kp + [last];
      SameRegistry(w, p) && Extends(w, p, |ks|)
      && (forall i :: 0 <= i < |ks| ==> p.trace[|w.trace| + i] == AgentRequest(ProxyPassDeleteRequest(apiUrl, vhostId, ks[i])))
      && |ks| <= |w.replies| && p.replies == w.replies[|ks|..]
  {
    var ks := kp + [last];
    assert p.trace == q.trace + [AgentRequest(ProxyPassDeleteRequest(apiUrl, vhostId, last))];
    assert p.trace[..|w.trace|] == q.trace[..|w.trace|];
    forall i | 0 <= i < |ks|
      ensures p.trace[|w.trace| + i] == AgentRequest(ProxyPassDeleteRequest(apiUrl, vhostId, ks[i]))
    {
      if i < |kp| {
        assert ks[i] == kp[i];
      }
    }
    DropTwice(w.replies, |kp|);
  }

  /** The requests the directive loop issues when it does not fail: one DELETE per deleted key. */
  lemma {:induction false} DeleteLoopLog(w: World, apiUrl: string, vhostId: string, vhostName: string,
                                         m: map<string, string>, order: seq<string>)
    requires Distinct(order)
    requires DeleteLoop(w, apiUrl, vhostId, vhostName, m, order).1.Ok?
    ensures var p := DeleteLoop(w, apiUrl, vhostId, vhostName, m, order);
      var ks := DeletedKeys(m, vhostName, order);
      SameRegistry(w, p.0) && Extends(w, p.0, |ks|)
      && (forall i :: 0 <= i < |ks| ==> p.0.trace[|w.trace| + i] == AgentRequest(ProxyPassDeleteRequest(apiUrl, vhostId, ks[i])))
      && |ks| <= |w.replies| && p.0.replies == w.replies[|ks|..]
    decreases |order|
  {
    var p := DeleteLoop(w, apiUrl, vhostId, vhostName, m, order);
    var ks := DeletedKeys(m, vhostName, order);
    if order != [] {
      var prefix := order[..|order| - 1];
      var last := order[|order| - 1];
      DistinctPrefix(order);
      var q := DeleteLoop(w, apiUrl, vhostId, vhostName, m, prefix);
      assert q.1.Ok?;
      DeleteLoopLog(w, apiUrl, vhostId, vhostName, m, prefix);
      DeleteLoopKept(w, apiUrl, vhostId, vhostName, m, prefix);
      var m1 := q.1.value;
      var kp := DeletedKeys(m, vhostName, prefix);
      if last in m1 && Matches(m1[last], vhostName) {
        assert last in m && m1[last] == m[last];
        assert ks == kp + [last];
        assert p == DeleteStep(q.0, apiUrl, vhostId, vhostName, m1, last);
        DeleteLogStep(w, q.0, p.0, apiUrl, vhostId, kp, last);
      } else {
        assert last in m ==> m1[last] == m[last];
        assert ks == kp;
      }
    }
  }

  /** Whatever its outcome, the directive loop leaves the registry alone and only issues DELETE requests. */
  lemma {:induction false} DeleteLoopFrame(w: World, apiUrl: string, vhostId: string, vhostName: string,
                                           m: map<string, string>, order: seq<string>)
    ensures var p := DeleteLoop(w, apiUrl, vhostId, vhostName, m, order);
      SameRegistry(w, p.0) && |w.trace| <= |p.0.trace| && p.0.trace[..|w.trace|] == w.trace
      && forall i :: |w.trace| <= i < |p.0.trace| ==> p.0.trace[i].AgentRequest? && p.0.trace[i].request.verb == Delete
    decreases |order|
  {
    if order != [] {
      var q := DeleteLoop(w, apiUrl, vhostId, vhostName, m, order[..|order| - 1]);
      DeleteLoopFrame(w, apiUrl, vhostId, vhostName, m, order[..|order| - 1]);
      var p := DeleteLoop(w, apiUrl, vhostId, vhostName, m, order);
      if q.1.Ok? && p.0 != q.0 {
        assert p.0.trace[..|q.0.trace|] == q.0.trace;
        assert p.0.trace[..|w.trace|] == q.0.trace[..|w.trace|];
      }
    }
  }

  /** Over a full iteration order, the directive loop keeps exactly the entries whose value does not
      contain the pattern, and the keys it deletes are exactly the others, each once. */
  lemma DeleteLoopFilter(w: World, apiUrl: string, vhostId: string, vhostName: string,
                         m: map<string, string>, order: seq<string>)
    requires Enumerates(order, m)
    requires DeleteLoop(w, apiUrl, vhostId, vhostName, m, order).1.Ok?
    ensures var ks := DeletedKeys(m, vhostName, order);
      DeleteLoop(w, apiUrl, vhostId, vhostName, m, order).1.value == (map k | k in m && !Matches(m[k], vhostName) :: m[k])
      && (forall k :: k in ks <==> k in m && Matches(m[k], vhostName))
      && Distinct(ks)
  {
    DeleteLoopSuccess(w, apiUrl, vhostId, vhostName, m, order);
    DeletedKeysDistinct(m, vhostName, order);
  }

  lemma {:induction false} DeletedKeysDistinct(m: map<string, string>, vhostName: string, order: seq<string>)
    requires Distinct(order)
    ensures Distinct(DeletedKeys(m, vhostName, order))
    decreases |order|
  {
    if order != [] {
      DistinctPrefix(order);
      DeletedKeysDistinct(m, vhostName, order[..|order| - 1]);
      var last := order[|order| - 1];
      var kp := DeletedKeys(m, vhostName, order[..|order| - 1]);
      assert last !in kp;
    }
  }

  /** A successful `removeVhost` issues one DELETE per directive of the vhost whose value contains
      the pattern (and for no other), then removes the vhost from the registry and asks for a reload;
      those three steps are all it does. */
  lemma RemoveVhostSuccess(w: World, frontendName: string, vhostName: string, order: seq<string>)
    requires IterationOrder(w, frontendName, vhostName, order)
    requires RemoveVhostSpec(w, frontendName, vhostName, order).1 == Pass
    ensures LookupFrontend(w, frontendName).Some?
    ensures var f := LookupFrontend(w, frontendName).value;
      LookupVhost(f.vhosts, vhostName).Some?
      && var v := LookupVhost(f.vhosts, vhostName).value;
      var ks := DeletedKeys(v.directives, vhostName, order);
      var p := RemoveVhostSpec(w, frontendName, vhostName, order);
      (forall k :: k in ks <==> k in v.directives && Matches(v.directives[k], vhostName))
      && Distinct(ks)
      && Extends(w, p.0, |ks| + 2)
      && (forall i :: 0 <= i < |ks| ==> p.0.trace[|w.trace| + i] == AgentRequest(ProxyPassDeleteRequest(f.apiUrl, v.vhostId, ks[i])))
      && p.0.trace[|w.trace| + |ks|] == RegistryWrite(RemoveVirtualHostCall(f.id, vhostName))
      && p.0.trace[|w.trace| + |ks| + 1] == AgentRequest(ReloadRequest(f.apiUrl))
      && p.0.frontends == AfterRemoveVirtualHost(w, f.id, vhostName).frontends
      && p.0.routers == w.routers && p.0.computes == w.computes && p.0.nextId == w.nextId
  {
    var f := LookupFrontend(w, frontendName).value;
    var v := LookupVhost(f.vhosts, vhostName).value;
    var l := DeleteLoop(w, f.apiUrl, v.vhostId, vhostName, v.directives, order);
    assert l.1.Ok?;
    DeleteLoopSuccess(w, f.apiUrl, v.vhostId, vhostName, v.directives, order);
    DeleteLoopFilter(w, f.apiUrl, v.vhostId, vhostName, v.directives, order);
    var w2 := AfterRemoveVirtualHost(l.0, f.id, vhostName);
    var p := RemoveVhostSpec(w, frontendName, vhostName, order);
    assert p.0.trace == l.0.trace + [RegistryWrite(RemoveVirtualHostCall(f.id, vhostName)), AgentRequest(ReloadRequest(f.apiUrl))];
    assert p.0.trace[..|w.trace|] == l.0.trace[..|w.trace|];
    assert p.0.frontends == w2.frontends;
  }

  /** When the frontend or the vhost is unknown, `removeVhost` fails before any request or write;
      an unknown frontend makes `createVhost` and `removeFrontend` fail the same way. */
  lemma LookupFailuresHaveNoEffect(w: World, frontendName: string, vhostName: string, routers: seq<string>, order: seq<string>)
    ensures LookupFrontend(w, frontendName).None? ==>
      CreateVhostSpec(w, frontendName, vhostName, routers) == (w, Fail(FrontendNotFound(frontendName)))
      && RemoveVhostSpec(w, frontendName, vhostName, order) == (w, Fail(FrontendNotFound(frontendName)))
      && RemoveFrontendSpec(w, frontendName) == (w, Fail(FrontendNotFound(frontendName)))
    ensures LookupFrontend(w, frontendName).Some? && LookupVhost(LookupFrontend(w, frontendName).value.vhosts, vhostName).None? ==>
      RemoveVhostSpec(w, frontendName, vhostName, order) == (w, Fail(VhostNotFound(vhostName)))
  {
  }

  /** Whatever its outcome, `removeVhost` changes the registry at most by removing the vhost from the
      frontend it found. */
  lemma RemoveVhostFrame(w: World, frontendName: string, vhostName: string, order: seq<string>)
    ensures var p := RemoveVhostSpec(w, frontendName, vhostName, order);
      p.0.routers == w.routers && p.0.computes == w.computes && p.0.nextId == w.nextId
      && (p.0.frontends == w.frontends
          || (LookupFrontend(w, frontendName).Some?
              && p.0.frontends == AfterRemoveVirtualHost(w, LookupFrontend(w, frontendName).value.id, vhostName).frontends))
  {
    match LookupFrontend(w, frontendName)
    case None =>
    case Some(f) =>
      match LookupVhost(f.vhosts, vhostName)
      case None =>
      case Some(v) =>
        DeleteLoopFrame(w, f.apiUrl, v.vhostId, vhostName, v.directives, order);
  }

  /** Once the directive loop has failed, visiting more keys changes nothing. */
  lemma {:induction false} DeleteLoopStaysFailed(w: World, apiUrl: string, vhostId: string, vhostName: string,
                                                 m: map<string, string>, order: seq<string>, more: seq<string>)
    requires DeleteLoop(w, apiUrl, vhostId, vhostName, m, order).1.Err?
    ensures DeleteLoop(w, apiUrl, vhostId, vhostName, m, order + more) == DeleteLoop(w, apiUrl, vhostId, vhostName, m, order)
    decreases |more|
  {
    if more == [] {
      assert order + more == order;
    } else {
      var shorter := more[..|more| - 1];
      DeleteLoopStaysFailed(w, apiUrl, vhostId, vhostName, m, order, shorter);
      assert (order + more)[..|order + more| - 1] == order + shorter;
    }
  }

  /** Some enumeration of a finite set of keys. */
  lemma SomeEnumeration(keys: set<string>) returns (r: seq<string>)
    ensures Distinct(r) && forall k :: k in r <==> k in keys
    decreases |keys|
  {
    if keys == {} {
      r := [];
    } else {
      var k :| k in keys;
      var rest := SomeEnumeration(keys - {k});
      r := rest + [k];
    }
  }

  /** The keys visited so far followed by an enumeration of the rest enumerate the map. */
  lemma CompleteEnumeration(visited: seq<string>, rest: seq<string>, pending: set<string>, m: map<string, string>)
    requires pending <= m.Keys
    requires Distinct(visited) && forall k :: k in visited <==> k in m && k !in pending
    requires Distinct(rest) && forall k :: k in rest <==> k in pending
    ensures Enumerates(visited + rest, m)
  {
    var s := visited + rest;
    forall i, j | 0 <= i < j < |s| ensures s[i] != s[j] {
      if j < |visited| {
        assert s[i] == visited[i] && s[j] == visited[j];
      } else if i >= |visited| {
        assert s[i] == rest[i - |visited|] && s[j] == rest[j - |visited|];
      } else {
        assert s[i] == visited[i] && s[j] == rest[j - |visited|];
        assert s[i] !in pending && s[j] in pending;
      }
    }
    forall i | 0 <= i < |s| ensures s[i] in m {
      if i < |visited| {
        assert s[i] == visited[i];
      } else {
        assert s[i] == rest[i - |visited|];
      }
    }
  }

  /** The production frontend manager bean over its registry facades and agent. */
  class FrontendManagerBean {
    const backend: Backend

    constructor (backend: Backend)
      ensures this.backend == backend
    {
      this.backend := backend;
    }

    method CreateFrontend(frontendName: string, apiUrl: string) returns (outcome: Outcome)
      modifies backend
      ensures (backend.State(), outcome) == CreateFrontendSpec(old(backend.State()), frontendName, apiUrl)
    {
      var created := backend.CreateFrontend(frontendName, apiUrl);
      outcome := if created then Pass else Fail(CannotCreateFrontend(frontendName));
    }

    method RemoveFrontend(frontendName: string) returns (outcome: Outcome)
      modifies backend
      ensures (backend.State(), outcome) == RemoveFrontendSpec(old(backend.State()), frontendName)
    {
      var paasFrontend := FindFrontend(backend, frontendName);
      if paasFrontend.None? {
        return Fail(FrontendNotFound(frontendName));
      }
      backend.DeleteFrontend(paasFrontend.value.id);
      outcome := Pass;
    }

    method CreateVhost(frontendName: string, vhostName: string, targetRouterNames: seq<string>) returns (outcome: Outcome)
      modifies backend
      ensures (backend.State(), outcome) == CreateVhostSpec(old(backend.State()), frontendName, vhostName, targetRouterNames)
    {
      var found := FindFrontend(backend, frontendName);
      if found.None? {
        return Fail(FrontendNotFound(frontendName));
      }
      var paasFrontend := found.value;
      var vhostId := ObtainVhostId(paasFrontend);
      if vhostId.Err? {
        return Fail(vhostId.error);
      }
      outcome := Attach(paasFrontend, vhostName, vhostId.value, targetRouterNames);
    }

    /** The first part of `createVhost` after the lookup: reuse the first vhost's id, or have the
        agent create a vhost. */
    method ObtainVhostId(paasFrontend: Frontend) returns (vhostId: Result<string>)
      modifies backend
      ensures (backend.State(), vhostId) == ResolveVhostId(old(backend.State()), paasFrontend)
    {
      if paasFrontend.vhosts != [] {
        return Ok(paasFrontend.vhosts[0].vhostId);
      }
      var vhost := backend.SendRequestWithReply(Post, GetUrl(paasFrontend.apiUrl, CreateVhostPath), CreateVhostParams, true);
      if vhost.Err? {
        return Err(vhost.error);
      }
      if vhost.value.None? {
        return Err(MissingPayload);
      }
      vhostId := Ok(vhost.value.value.id);
    }

    /** The rest of `createVhost`: append and persist, loop over the routers, persist, reload. */
    method Attach(paasFrontend: Frontend, vhostName: string, vhostId: string, targetRouterNames: seq<string>)
      returns (outcome: Outcome)
      modifies backend
      ensures (backend.State(), outcome) == AttachVhost(old(backend.State()), paasFrontend, vhostName, vhostId, targetRouterNames)
    {
      var apiUrl := paasFrontend.apiUrl;
      var updated := paasFrontend.(vhosts := paasFrontend.vhosts + [VirtualHost(vhostName, vhostId, map[])]);
      updated := backend.UpdateFrontend(updated);
      var r := InstallProxyPasses(apiUrl, vhostId, vhostName, updated, targetRouterNames);
      if r.Err? {
        return Fail(r.error);
      }
      updated := backend.UpdateFrontend(r.value);
      var reload := backend.SendRequestWithReply(Post, GetUrl(apiUrl, ReloadPath), [], false);
      outcome := if reload.Ok? then Pass else Fail(reload.error);
    }

    /** The router loop of `createVhost`. */
    method InstallProxyPasses(apiUrl: string, vhostId: string, vhostName: string, paasFrontend: Frontend, routers: seq<string>)
      returns (r: Result<Frontend>)
      modifies backend
      ensures (backend.State(), r) == RouterLoop(old(backend.State()), apiUrl, vhostId, vhostName, paasFrontend, routers)
    {
      var current := paasFrontend;
      var k := 0;
      while k < |routers|
        invariant 0 <= k <= |routers|
        invariant RouterLoop(old(backend.State()), apiUrl, vhostId, vhostName, paasFrontend, routers)
               == RouterLoop(backend.State(), apiUrl, vhostId, vhostName, current, routers[k..])
      {
        assert routers[k..][0] == routers[k] && routers[k..][1..] == routers[k + 1..];
        var step := InstallProxyPass(apiUrl, vhostId, vhostName, current, routers[k]);
        if step.Err? {
          return step;
        }
        current := step.value;
        k := k + 1;
      }
      r := Ok(current);
    }

    /** One iteration of the router loop. */
    method InstallProxyPass(apiUrl: string, vhostId: string, vhostName: string, paasFrontend: Frontend, routerName: string)
      returns (r: Result<Frontend>)
      modifies backend
      ensures (backend.State(), r) == ProxyPassStep(old(backend.State()), apiUrl, vhostId, vhostName, paasFrontend, routerName)
    {
      var ip := FindRouterIp(backend, routerName);
      if ip.Err? {
        return Err(ip.error);
      }
      var proxyDirective := backend.SendRequestWithReply(Post, GetUrl(apiUrl, ProxyPassPath(vhostId)),
                                                        ProxyPassParams(vhostName, ip.value), true);
      if proxyDirective.Err? {
        return Err(proxyDirective.error);
      }
      if proxyDirective.value.None? {
        return Err(MissingPayload);
      }
      var d := proxyDirective.value.value;
      var proxyList := map[d.id := d.value];
      var vhosts := paasFrontend.vhosts;
      var at := FindFirst(VhostNames(vhosts), vhostName);
      if at.Some? {
        vhosts := vhosts[at.value := vhosts[at.value].(directives := proxyList)];
      }
      r := Ok(paasFrontend.(vhosts := vhosts));
    }

    /** `order` is the order in which the directive map's entries were visited. */
    method RemoveVhost(frontendName: string, vhostName: string) returns (outcome: Outcome, ghost order: seq<string>)
      modifies backend
      ensures IterationOrder(old(backend.State()), frontendName, vhostName, order)
      ensures (backend.State(), outcome) == RemoveVhostSpec(old(backend.State()), frontendName, vhostName, order)
    {
      order := [];
      var found := FindFrontend(backend, frontendName);
      if found.None? {
        return Fail(FrontendNotFound(frontendName)), order;
      }
      var paasFrontend := found.value;
      var vhost := FindVhost(paasFrontend.vhosts, vhostName);
      if vhost.None? {
        return Fail(VhostNotFound(vhostName)), order;
      }
      var virtualHost := vhost.value;
      var r;
      r, order := DeleteProxyPasses(paasFrontend.apiUrl, virtualHost.vhostId, vhostName, virtualHost.directives);
      if r.Err? {
        return Fail(r.error), order;
      }
      backend.RemoveVirtualHost(paasFrontend.id, vhostName);
      var reload := backend.SendRequestWithReply(Post, GetUrl(paasFrontend.apiUrl, ReloadPath), [], false);
      outcome := if reload.Ok? then Pass else Fail(reload.error);
    }

    /** The directive loop of `removeVhost`: walk the map, removing each entry whose value contains
        the pattern and deleting it on the agent. */
    method DeleteProxyPasses(apiUrl: string, vhostId: string, vhostName: string, proxyList: map<string, string>)
      returns (r: Result<map<string, string>>, ghost order: seq<string>)
      modifies backend
      ensures Enumerates(order, proxyList)
      ensures (backend.State(), r) == DeleteLoop(old(backend.State()), apiUrl, vhostId, vhostName, proxyList, order)
    {
      order := [];
      var remaining := proxyList;
      var pending := proxyList.Keys;
      while pending != {}
        invariant pending <= proxyList.Keys
        invariant Distinct(order) && forall k :: k in order <==> k in proxyList && k !in pending
        invariant (backend.State(), Ok(remaining)) == DeleteLoop(old(backend.State()), apiUrl, vhostId, vhostName, proxyList, order)
        invariant forall k :: k in pending ==> k in remaining && remaining[k] == proxyList[k]
        decreases |pending|
      {
        var key :| key in pending;
        pending := pending - {key};
        ghost var visited := order;
        order := order + [key];
        assert order[..|order| - 1] == visited;
        if Contains(remaining[key], DirectivePattern(vhostName)) {
          remaining := remaining - {key};
          var reply := backend.SendRequestWithReply(Delete, GetUrl(apiUrl, ProxyPassDeletePath(vhostId, key)), [], false);
          if reply.Err? {
            ghost var rest := SomeEnumeration(pending);
            DeleteLoopStaysFailed(old(backend.State()), apiUrl, vhostId, vhostName, proxyList, order, rest);
            CompleteEnumeration(order, rest, pending, proxyList);
            order := order + rest;
            return Err(reply.error), order;
          }
        }
      }
      r := Ok(remaining);
    }
  }
}
