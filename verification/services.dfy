/** The collaborators of the frontend manager: the registry facades (frontends, Apache JK routers,
    and the router-to-compute link) and the remote agent of a frontend. Both are seen through one
    object whose trace records, in order, every registry write and every agent request the manager
    issues. Agent answers come from a queue of replies fixed in advance; an empty queue stands for an
    agent that does not answer. */
module Services {
  import opened Entities
  import opened Urls

  datatype HttpMethod = Put | Post | Get | Delete

  /** A request to the agent as it goes on the wire: its URL is already normalised. */
  datatype Request = Request(verb: HttpMethod, url: string, params: seq<(string, string)>)

  /** The entity an agent reply carries: the id of a vhost, or the id and value of a directive. */
  datatype Payload = Payload(id: string, value: string)

  datatype Reply = Reply(status: int, payload: Payload)

  /** The registry calls that change what the registry stores. */
  datatype Write =
    | CreateFrontendCall(name: string, apiUrl: string)
    | DeleteFrontendCall(id: nat)
    | UpdateFrontendCall(frontend: Frontend)
    | RemoveVirtualHostCall(frontendId: nat, vhostName: string)

  datatype Event = RegistryWrite(write: Write) | AgentRequest(request: Request)

  /** Everything the manager can observe or change: the registry's contents, the agent's pending
      replies, and the trace of calls made so far. */
  datatype World = World(
    frontends: seq<Frontend>,
    routers: seq<Router>,
    computes: map<nat, string>,   // router id to the IP address of its IaaS compute
    nextId: nat,                  // the id the registry gives the next frontend it creates
    replies: seq<Reply>,
    trace: seq<Event>)

  const HTTP_STATUS_OK := 200
  const HTTP_STATUS_CREATED := 201
  const HTTP_STATUS_ACCEPTED := 202
  const HTTP_STATUS_NO_CONTENT := 204

  // Agent paths and parameters.
  const CreateVhostPath := "/vhostmanager/vhost"
  const ReloadPath := "apache-manager/server/action/reload"
  const CreateVhostParams: seq<(string, string)> := [("address", "*:80")]

  function ProxyPassPath(vhostId: string): string
  {
    "/proxymanager/vhost/" + vhostId + "/proxypass"
  }

  function ProxyPassDeletePath(vhostId: string, key: string): string
  {
    "/proxymanager/vhost/" + vhostId + "/proxypass/" + key
  }

  function ProxyPassParams(vhostName: string, computeIp: string): seq<(string, string)>
  {
    [("path", "/" + vhostName + "/"), ("url", "http://" + computeIp + "/")]
  }

  /** The status rule of `sendRequestWithReply`. */
  predicate Accepted(status: int)
  {
    status == HTTP_STATUS_ACCEPTED || status == HTTP_STATUS_OK
    || status == HTTP_STATUS_NO_CONTENT || status == HTTP_STATUS_CREATED
  }

  /** How `sendRequestWithReply` reads a reply: a status outside 200, 201, 202, 204 is an error;
      otherwise the entity is read unless the status is 204 or no response class was asked for. */
  function ReadReply(reply: Reply, wantsPayload: bool): (r: Result<Option<Payload>>)
    ensures r.Ok? <==> reply.status in {200, 201, 202, 204}
    ensures r.Err? ==> r.error == AgentRejected(reply.status)
    ensures r.Ok? ==> (r.value.Some? <==> reply.status != 204 && wantsPayload)
    ensures r.Ok? && r.value.Some? ==> r.value.value == reply.payload
  {
    if !Accepted(reply.status) then Err(AgentRejected(reply.status))
    else if reply.status != HTTP_STATUS_NO_CONTENT && wantsPayload then Ok(Some(reply.payload))
    else Ok(None)
  }

  /** `sendRequestWithReply` on the world: the normalised request is traced and the next reply, if
      any, is consumed and read. */
  function AfterSend(w: World, verb: HttpMethod, url: string, params: seq<(string, string)>, wantsPayload: bool)
    : (p: (World, Result<Option<Payload>>))
    ensures p.0.frontends == w.frontends && p.0.routers == w.routers
    ensures p.0.computes == w.computes && p.0.nextId == w.nextId
    ensures p.0.trace == w.trace + [AgentRequest(Request(verb, RemoveRedundantForwardSlash(url), params))]
    ensures w.replies == [] ==> p.0.replies == [] && p.1 == Err(AgentUnreachable)
    ensures w.replies != [] ==> p.0.replies == w.replies[1..] && p.1 == ReadReply(w.replies[0], wantsPayload)
  {
    var traced := w.(trace := w.trace + [AgentRequest(Request(verb, RemoveRedundantForwardSlash(url), params))]);
    if w.replies == [] then (traced, Err(AgentUnreachable))
    else (traced.(replies := w.replies[1..]), ReadReply(w.replies[0], wantsPayload))
  }

  /** The frontends other than those with id `id`, in order. */
  function WithoutId(fs: seq<Frontend>, id: nat): (r: seq<Frontend>)
    ensures forall f :: f in r <==> f in fs && f.id != id
    ensures |r| <= |fs|
  {
    if fs == [] then []
    else (if fs[0].id == id then [] else [fs[0]]) + WithoutId(fs[1..], id)
  }

  /** Every frontend with the id of `f` replaced by `f`. */
  function ReplaceById(fs: seq<Frontend>, f: Frontend): (r: seq<Frontend>)
    ensures |r| == |fs|
    ensures forall i :: 0 <= i < |fs| ==> r[i] == if fs[i].id == f.id then f else fs[i]
  {
    seq(|fs|, i requires 0 <= i < |fs| => if fs[i].id == f.id then f else fs[i])
  }

  /** The vhosts not named `name`, in order. */
  function WithoutVhost(vs: seq<VirtualHost>, name: string): (r: seq<VirtualHost>)
    ensures forall v :: v in r <==> v in vs && v.name != name
  {
    if vs == [] then []
    else (if vs[0].name == name then [] else [vs[0]]) + WithoutVhost(vs[1..], name)
  }

  /** The registry's `createFrontend`: refused when the name is taken, otherwise the frontend is
      stored with a fresh id. */
  function AfterCreateFrontend(w: World, name: string, apiUrl: string): (p: (World, bool))
    ensures p.0.trace == w.trace + [RegistryWrite(CreateFrontendCall(name, apiUrl))]
    ensures p.1 <==> FirstIndex(FrontendNames(w.frontends), name).None?
    ensures p.1 ==> p.0.frontends == w.frontends + [Frontend(w.nextId, name, apiUrl, [])]
    ensures !p.1 ==> p.0.frontends == w.frontends
    ensures p.0.routers == w.routers && p.0.computes == w.computes && p.0.replies == w.replies
  {
    var traced := w.(trace := w.trace + [RegistryWrite(CreateFrontendCall(name, apiUrl))]);
    if FirstIndex(FrontendNames(w.frontends), name).Some? then (traced, false)
    else (traced.(frontends := w.frontends + [Frontend(w.nextId, name, apiUrl, [])], nextId := w.nextId + 1), true)
  }

  /** The registry's `deleteFrontend`. */
  function AfterDeleteFrontend(w: World, id: nat): (w': World)
    ensures w'.frontends == WithoutId(w.frontends, id)
    ensures w'.trace == w.trace + [RegistryWrite(DeleteFrontendCall(id))]
    ensures w'.routers == w.routers && w'.computes == w.computes
    ensures w'.nextId == w.nextId && w'.replies == w.replies
  {
    w.(frontends := WithoutId(w.frontends, id), trace := w.trace + [RegistryWrite(DeleteFrontendCall(id))])
  }

  /** The registry's `updateFrontend`: the stored frontend with that id becomes `f`. */
  function AfterUpdateFrontend(w: World, f: Frontend): (w': World)
    ensures w'.frontends == ReplaceById(w.frontends, f)
    ensures w'.trace == w.trace + [RegistryWrite(UpdateFrontendCall(f))]
    ensures w'.routers == w.routers && w'.computes == w.computes
    ensures w'.nextId == w.nextId && w'.replies == w.replies
  {
    w.(frontends := ReplaceById(w.frontends, f), trace := w.trace + [RegistryWrite(UpdateFrontendCall(f))])
  }

  /** The registry's `removeVirtualHost`: the frontend with that id loses its vhosts of that name. */
  function AfterRemoveVirtualHost(w: World, frontendId: nat, vhostName: string): (w': World)
    ensures |w'.frontends| == |w.frontends|
    ensures forall i :: 0 <= i < |w.frontends| ==>
              w'.frontends[i] == if w.frontends[i].id == frontendId
                                 then w.frontends[i].(vhosts := WithoutVhost(w.frontends[i].vhosts, vhostName))
                                 else w.frontends[i]
    ensures w'.trace == w.trace + [RegistryWrite(RemoveVirtualHostCall(frontendId, vhostName))]
    ensures w'.routers == w.routers && w'.computes == w.computes
    ensures w'.nextId == w.nextId && w'.replies == w.replies
  {
    var fs := seq(|w.frontends|, i requires 0 <= i < |w.frontends| =>
      if w.frontends[i].id == frontendId
      then w.frontends[i].(vhosts := WithoutVhost(w.frontends[i].vhosts, vhostName))
      else w.frontends[i]);
    w.(frontends := fs, trace := w.trace + [RegistryWrite(RemoveVirtualHostCall(frontendId, vhostName))])
  }

  /** The registry facades and the agent, as one stateful collaborator. */
  class Backend {
    var frontends: seq<Frontend>
    var routers: seq<Router>
    var computes: map<nat, string>
    var nextId: nat
    var replies: seq<Reply>
    var trace: seq<Event>

    function State(): World
      reads this
    {
      World(frontends, routers, computes, nextId, replies, trace)
    }

    constructor (w: World)
      ensures State() == w
    {
      frontends, routers, computes, nextId, replies, trace := w.frontends, w.routers, w.computes, w.nextId, w.replies, w.trace;
    }

    method FindFrontends() returns (fs: seq<Frontend>)
      ensures fs == frontends
    {
      fs := frontends;
    }

    method FindApacheJkRouters() returns (rs: seq<Router>)
      ensures rs == routers
    {
      rs := routers;
    }

    method FindIaasComputeByPaasResource(routerId: nat) returns (ip: Option<string>)
      ensures ip == if routerId in computes then Some(computes[routerId]) else None
    {
      ip := if routerId in computes then Some(computes[routerId]) else None;
    }

    method CreateFrontend(name: string, apiUrl: string) returns (created: bool)
      modifies this
      ensures (State(), created) == AfterCreateFrontend(old(State()), name, apiUrl)
    {
      var p := AfterCreateFrontend(State(), name, apiUrl);
      frontends, nextId, trace := p.0.frontends, p.0.nextId, p.0.trace;
      created := p.1;
    }

    method DeleteFrontend(id: nat)
      modifies this
      ensures State() == AfterDeleteFrontend(old(State()), id)
    {
      frontends := WithoutId(frontends, id);
      trace := trace + [RegistryWrite(DeleteFrontendCall(id))];
    }

    /** Persists `f` and returns the persisted value. */
    method UpdateFrontend(f: Frontend) returns (persisted: Frontend)
      modifies this
      ensures State() == AfterUpdateFrontend(old(State()), f)
      ensures persisted == f
    {
      frontends := ReplaceById(frontends, f);
      trace := trace + [RegistryWrite(UpdateFrontendCall(f))];
      persisted := f;
    }

    method RemoveVirtualHost(frontendId: nat, vhostName: string)
      modifies this
      ensures State() == AfterRemoveVirtualHost(old(State()), frontendId, vhostName)
    {
      frontends := AfterRemoveVirtualHost(State(), frontendId, vhostName).frontends;
      trace := trace + [RegistryWrite(RemoveVirtualHostCall(frontendId, vhostName))];
    }

    /** `sendRequestWithReply`: the URL is normalised, the request issued and the reply read. */
    method SendRequestWithReply(verb: HttpMethod, url: string, params: seq<(string, string)>, wantsPayload: bool)
      returns (r: Result<Option<Payload>>)
      modifies this
      ensures (State(), r) == AfterSend(old(State()), verb, url, params, wantsPayload)
    {
      trace := trace + [AgentRequest(Request(verb, RemoveRedundantForwardSlash(url), params))];
      if replies == [] {
        r := Err(AgentUnreachable);
      } else {
        var reply := replies[0];
        replies := replies[1..];
        var status := reply.status;
        if !Accepted(status) {
          r := Err(AgentRejected(status));
        } else if status != HTTP_STATUS_NO_CONTENT && wantsPayload {
          r := Ok(Some(reply.payload));
        } else {
          r := Ok(None);
        }
      }
    }
  }
}
