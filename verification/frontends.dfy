/** `createFrontend` and `removeFrontend`, whose code is the same in both variants of the manager,
    and the first-match frontend lookup that all operations but `createFrontend` start with. */
module FrontendOps {
  import opened Entities
  import opened Services

  /** The first frontend named `name`, as the manager's scan over `findFrontends` finds it. */
  function LookupFrontend(w: World, name: string): (r: Option<Frontend>)
    ensures r.None? <==> forall i :: 0 <= i < |w.frontends| ==> w.frontends[i].name != name
    ensures r.Some? ==> exists k :: 0 <= k < |w.frontends| && r.value == w.frontends[k] && w.frontends[k].name == name
                                    && forall j :: 0 <= j < k ==> w.frontends[j].name != name
  {
    match FirstIndex(FrontendNames(w.frontends), name)
    case None => None
    case Some(k) => Some(w.frontends[k])
  }

  /** The first vhost named `name` in a frontend's list. */
  function LookupVhost(vs: seq<VirtualHost>, name: string): (r: Option<VirtualHost>)
    ensures r.None? <==> forall i :: 0 <= i < |vs| ==> vs[i].name != name
    ensures r.Some? ==> exists k :: 0 <= k < |vs| && r.value == vs[k] && vs[k].name == name
                                    && forall j :: 0 <= j < k ==> vs[j].name != name
  {
    match FirstIndex(VhostNames(vs), name)
    case None => None
    case Some(k) => Some(vs[k])
  }

  /** The IP address of the IaaS compute behind the router named `name`: the first router with that
      name, then the compute the registry links to its id. */
  function RouterIp(w: World, name: string): (r: Result<string>)
    ensures r.Err? ==> r.error == RouterNotFound(name) || r.error == ComputeNotFound(name)
  {
    match FirstIndex(RouterNames(w.routers), name)
    case None => Err(RouterNotFound(name))
    case Some(k) =>
      if w.routers[k].id in w.computes then Ok(w.computes[w.routers[k].id]) else Err(ComputeNotFound(name))
  }

  /** `RouterIp` reads the first router of that name: "router doesn't exist" exactly when none has
      it, "compute doesn't exist" exactly when the first one has no compute linked, and otherwise
      the IP of that compute. */
  lemma RouterIpFirstMatch(w: World, name: string)
    ensures RouterIp(w, name) == Err(RouterNotFound(name)) <==> forall i :: 0 <= i < |w.routers| ==> w.routers[i].name != name
    ensures RouterIp(w, name) == Err(ComputeNotFound(name)) <==>
              exists k :: 0 <= k < |w.routers| && w.routers[k].name == name && w.routers[k].id !in w.computes
                          && forall j :: 0 <= j < k ==> w.routers[j].name != name
    ensures RouterIp(w, name).Ok? ==>
              exists k :: 0 <= k < |w.routers| && w.routers[k].name == name
                          && (forall j :: 0 <= j < k ==> w.routers[j].name != name)
                          && w.routers[k].id in w.computes && RouterIp(w, name).value == w.computes[w.routers[k].id]
  {
  }

  /** The frontend with `vhostName` appended, as both variants of `createVhost` persist it
      before their router loop. */
  function WithNewVhost(f: Frontend, vhostName: string, vhostId: string): (f1: Frontend)
    ensures f1.id == f.id && f1.name == f.name && f1.apiUrl == f.apiUrl
    ensures f1.vhosts == f.vhosts + [VirtualHost(vhostName, vhostId, map[])]
  {
    f.(vhosts := f.vhosts + [VirtualHost(vhostName, vhostId, map[])])
  }

  /** The lookup loop over `findFrontends`: the first frontend with that exact name. */
  method FindFrontend(backend: Backend, name: string) returns (f: Option<Frontend>)
    ensures f == LookupFrontend(backend.State(), name)
  {
    var fs := backend.FindFrontends();
    var k := FindFirst(FrontendNames(fs), name);
    f := if k.Some? then Some(fs[k.value]) else None;
  }

  /** The lookup loop over a frontend's vhosts. */
  method FindVhost(vs: seq<VirtualHost>, name: string) returns (v: Option<VirtualHost>)
    ensures v == LookupVhost(vs, name)
  {
    var k := FindFirst(VhostNames(vs), name);
    v := if k.Some? then Some(vs[k.value]) else None;
  }

  /** The router lookup loop over `findApacheJkRouters`, then the compute query for its id. */
  method FindRouterIp(backend: Backend, name: string) returns (ip: Result<string>)
    ensures ip == RouterIp(backend.State(), name)
  {
    var routers := backend.FindApacheJkRouters();
    var k := FindFirst(RouterNames(routers), name);
    if k.None? {
      return Err(RouterNotFound(name));
    }
    var compute := backend.FindIaasComputeByPaasResource(routers[k.value].id);
    ip := if compute.Some? then Ok(compute.value) else Err(ComputeNotFound(name));
  }

  /** Frontend names are pairwise distinct. */
  ghost predicate NamesUnique(fs: seq<Frontend>)
  {
    forall i, j :: 0 <= i < j < |fs| ==> fs[i].name != fs[j].name
  }

  /** Frontend ids are pairwise distinct. */
  ghost predicate IdsUnique(fs: seq<Frontend>)
  {
    forall i, j :: 0 <= i < j < |fs| ==> fs[i].id != fs[j].id
  }

  /** Registry invariants: names and ids are unique and every id is below the next id the registry
      hands out. */
  ghost predicate RegistryValid(w: World)
  {
    NamesUnique(w.frontends) && IdsUnique(w.frontends)
    && (forall i :: 0 <= i < |w.frontends| ==> w.frontends[i].id < w.nextId)
  }

  /** `createFrontend`: a frontend with the given name and apiUrl and no vhost is handed to the
      registry; a refusal of the registry is reported as `CannotCreateFrontend`. */
  function CreateFrontendSpec(w: World, name: string, apiUrl: string): (p: (World, Outcome))
    ensures p.0 == AfterCreateFrontend(w, name, apiUrl).0
    ensures p.1.Pass? <==> AfterCreateFrontend(w, name, apiUrl).1
    ensures p.1.Fail? ==> p.1.error == CannotCreateFrontend(name)
  {
    var q := AfterCreateFrontend(w, name, apiUrl);
    (q.0, if q.1 then Pass else Fail(CannotCreateFrontend(name)))
  }

  /** `removeFrontend`: fails with nothing done when no frontend has the name; otherwise deletes the
      id of the first match. */
  function RemoveFrontendSpec(w: World, name: string): (p: (World, Outcome))
    ensures p.1.Pass? <==> LookupFrontend(w, name).Some?
    ensures p.1.Fail? ==> p == (w, Fail(FrontendNotFound(name)))
    ensures p.1.Pass? ==> p.0 == AfterDeleteFrontend(w, LookupFrontend(w, name).value.id)
  {
    match LookupFrontend(w, name)
    case None => (w, Fail(FrontendNotFound(name)))
    case Some(f) => (AfterDeleteFrontend(w, f.id), Pass)
  }

  lemma FrontendNamesAppend(fs: seq<Frontend>, f: Frontend)
    ensures FrontendNames(fs + [f]) == FrontendNames(fs) + [f.name]
  {
    assert |FrontendNames(fs + [f])| == |FrontendNames(fs) + [f.name]|;
    forall i | 0 <= i < |fs| + 1
      ensures FrontendNames(fs + [f])[i] == (FrontendNames(fs) + [f.name])[i]
    {
      if i < |fs| {
        assert (fs + [f])[i] == fs[i];
      }
    }
  }

  /** Round trip: after a successful `createFrontend`, looking the name up finds the new frontend,
      with the given apiUrl and an empty vhost list; no agent was called and nothing else changed. */
  lemma CreateThenLookup(w: World, name: string, apiUrl: string)
    requires CreateFrontendSpec(w, name, apiUrl).1.Pass?
    ensures var w' := CreateFrontendSpec(w, name, apiUrl).0;
      LookupFrontend(w', name) == Some(Frontend(w.nextId, name, apiUrl, []))
      && w'.replies == w.replies
      && w'.trace == w.trace + [RegistryWrite(CreateFrontendCall(name, apiUrl))]
  {
    var w' := CreateFrontendSpec(w, name, apiUrl).0;
    var f := Frontend(w.nextId, name, apiUrl, []);
    assert w'.frontends == w.frontends + [f];
    FrontendNamesAppend(w.frontends, f);
    FirstIndexAppendFresh(FrontendNames(w.frontends), name);
  }

  /** `createFrontend` keeps the registry invariants. */
  lemma CreateFrontendKeepsValid(w: World, name: string, apiUrl: string)
    requires RegistryValid(w)
    ensures RegistryValid(CreateFrontendSpec(w, name, apiUrl).0)
  {
    var w' := CreateFrontendSpec(w, name, apiUrl).0;
    if CreateFrontendSpec(w, name, apiUrl).1.Pass? {
      var f := Frontend(w.nextId, name, apiUrl, []);
      assert w'.frontends == w.frontends + [f];
      assert forall i :: 0 <= i < |w.frontends| ==> FrontendNames(w.frontends)[i] != name;
      forall i, j | 0 <= i < j < |w'.frontends|
        ensures w'.frontends[i].name != w'.frontends[j].name
        ensures w'.frontends[i].id != w'.frontends[j].id
      {
        if j == |w.frontends| {
          assert FrontendNames(w.frontends)[i] != name;
          assert w'.frontends[i].id < w.nextId;
        }
      }
    }
  }

  lemma WithoutAbsentId(fs: seq<Frontend>, id: nat)
    requires forall i :: 0 <= i < |fs| ==> fs[i].id != id
    ensures WithoutId(fs, id) == fs
  {
    if fs != [] {
      WithoutAbsentId(fs[1..], id);
    }
  }

  lemma {:induction false} WithoutIdAppend(fs: seq<Frontend>, f: Frontend, id: nat)
    ensures WithoutId(fs + [f], id) == WithoutId(fs, id) + (if f.id == id then [] else [f])
    decreases |fs|
  {
    if fs == [] {
      assert [] + [f] == [f];
      assert [f][1..] == [];
    } else {
      assert (fs + [f])[0] == fs[0];
      assert (fs + [f])[1..] == fs[1..] + [f];
      WithoutIdAppend(fs[1..], f, id);
      var head := if fs[0].id == id then [] else [fs[0]];
      var tail := if f.id == id then [] else [f];
      assert WithoutId(fs + [f], id) == head + WithoutId(fs[1..] + [f], id);
      assert head + (WithoutId(fs[1..], id) + tail) == (head + WithoutId(fs[1..], id)) + tail;
    }
  }

  /** Creating a frontend and then removing it by name gives back the frontends the registry had,
      provided the registry invariants held. */
  lemma CreateThenRemove(w: World, name: string, apiUrl: string)
    requires RegistryValid(w)
    requires CreateFrontendSpec(w, name, apiUrl).1.Pass?
    ensures var w1 := CreateFrontendSpec(w, name, apiUrl).0;
      var p := RemoveFrontendSpec(w1, name);
      p.1 == Pass && p.0.frontends == w.frontends
      && p.0.trace == w.trace + [RegistryWrite(CreateFrontendCall(name, apiUrl)), RegistryWrite(DeleteFrontendCall(w.nextId))]
  {
    var w1 := CreateFrontendSpec(w, name, apiUrl).0;
    CreateThenLookup(w, name, apiUrl);
    var f := Frontend(w.nextId, name, apiUrl, []);
    assert w1.frontends == w.frontends + [f];
    WithoutIdAppend(w.frontends, f, w.nextId);
    WithoutAbsentId(w.frontends, w.nextId);
  }

  /** With unique ids, deleting the id of the frontend at `k` removes exactly that element. */
  lemma {:induction false} WithoutIdAt(fs: seq<Frontend>, k: nat)
    requires k < |fs| && IdsUnique(fs)
    ensures WithoutId(fs, fs[k].id) == fs[..k] + fs[k + 1..]
    decreases |fs|
  {
    var id := fs[k].id;
    TailIdsUnique(fs);
    if k == 0 {
      WithoutIdHead(fs);
    } else {
      var tail := fs[1..];
      assert fs[0].id != id;
      assert tail[k - 1] == fs[k];
      WithoutIdAt(tail, k - 1);
      assert WithoutId(fs, id) == [fs[0]] + WithoutId(tail, id);
      ConsRemoveAt(fs, k);
    }
  }

  lemma ConsRemoveAt(s: seq<Frontend>, k: nat)
    requires 0 < k < |s|
    ensures [s[0]] + (s[1..][..k - 1] + s[1..][k..]) == s[..k] + s[k + 1..]
  {
    assert [s[0]] + s[1..][..k - 1] == s[..k];
    assert s[1..][k..] == s[k + 1..];
  }

  lemma TailIdsUnique(fs: seq<Frontend>)
    requires fs != [] && IdsUnique(fs)
    ensures IdsUnique(fs[1..])
  {
    var tail := fs[1..];
    forall i, j | 0 <= i < j < |tail| ensures tail[i].id != tail[j].id {
      assert tail[i] == fs[i + 1] && tail[j] == fs[j + 1];
    }
  }

  lemma WithoutIdHead(fs: seq<Frontend>)
    requires fs != [] && IdsUnique(fs)
    ensures WithoutId(fs, fs[0].id) == fs[1..]
  {
    var tail := fs[1..];
    forall i | 0 <= i < |tail| ensures tail[i].id != fs[0].id {
      assert tail[i] == fs[i + 1];
    }
    WithoutAbsentId(tail, fs[0].id);
  }

  /** The frontends with the element at `k` removed keep the registry invariants. */
  lemma RemoveAtKeepsValid(w: World, k: nat)
    requires k < |w.frontends| && RegistryValid(w)
    ensures RegistryValid(w.(frontends := w.frontends[..k] + w.frontends[k + 1..]))
  {
    var fs := w.frontends;
    var r := fs[..k] + fs[k + 1..];
    assert forall i :: 0 <= i < |r| ==> r[i] == fs[if i < k then i else i + 1];
  }

  /** `removeFrontend` deletes exactly the first frontend of that name, provided ids are unique:
      every other frontend stays, in order. */
  lemma RemoveFrontendDeletesFirstMatch(w: World, name: string)
    requires RegistryValid(w)
    ensures var p := RemoveFrontendSpec(w, name);
      var k := FirstIndex(FrontendNames(w.frontends), name);
      k.Some? ==> p.0.frontends == w.frontends[..k.value] + w.frontends[k.value + 1..]
  {
    var k := FirstIndex(FrontendNames(w.frontends), name);
    if k.Some? {
      WithoutIdAt(w.frontends, k.value);
    }
  }

  /** `removeFrontend` keeps the registry invariants. */
  lemma RemoveFrontendKeepsValid(w: World, name: string)
    requires RegistryValid(w)
    ensures RegistryValid(RemoveFrontendSpec(w, name).0)
  {
    var k := FirstIndex(FrontendNames(w.frontends), name);
    if k.Some? {
      RemoveFrontendDeletesFirstMatch(w, name);
      RemoveAtKeepsValid(w, k.value);
      assert RemoveFrontendSpec(w, name).0.frontends == w.frontends[..k.value] + w.frontends[k.value + 1..];
    }
  }

  /** After a successful `removeFrontend` the name is no longer found, provided names were unique;
      an unknown name leaves everything as it was. */
  lemma RemoveThenLookup(w: World, name: string)
    requires RegistryValid(w)
    ensures var p := RemoveFrontendSpec(w, name);
      (p.1.Pass? ==> LookupFrontend(p.0, name).None?)
      && (p.1.Fail? <==> LookupFrontend(w, name).None?)
      && (p.1.Fail? ==> p.0 == w)
  {
    var p := RemoveFrontendSpec(w, name);
    if p.1.Pass? {
      var f := LookupFrontend(w, name).value;
      var k := FirstIndex(FrontendNames(w.frontends), name).value;
      forall g | g in p.0.frontends
        ensures g.name != name
      {
        assert g in w.frontends && g.id != f.id;
        var j :| 0 <= j < |w.frontends| && w.frontends[j] == g;
        assert w.frontends[k] == f;
        assert j == k ==> g.id == f.id;
        assert j < k ==> w.frontends[j].name != w.frontends[k].name;
        assert k < j ==> w.frontends[k].name != w.frontends[j].name;
      }
    }
  }
}
