/** The stub frontend manager: the same four operations as the production one, but `createVhost`
    does nothing when the vhost already exists, talks to no agent, and only checks that routers,
    computes and the instance name can be found; `removeVhost` only updates the registry. */
module MockManager {
  import opened Entities
  import opened Services
  import opened FrontendOps

  /** The characters Java's `.` does not match by default. */
  predicate IsLineTerminator(c: char)
  {
    c == '\n' || c == '\r' || c == '\U{85}' || c == '\U{2028}' || c == '\U{2029}'
  }

  /** `s` matches the regular expression `.jpaas.org`: ten characters, where each `.` is any
      character but a line terminator. */
  predicate MatchesInstanceSuffix(s: string)
  {
    |s| == 10 && !IsLineTerminator(s[0]) && s[1..6] == "jpaas" && !IsLineTerminator(s[6]) && s[7..] == "org"
  }

  /** `s` is a run of back-to-back matches of `.jpaas.org` (possibly none). */
  function AllSuffixes(s: string): (r: bool)
    ensures r ==> |s| % 10 == 0
    ensures |s| == 10 ==> (r <==> MatchesInstanceSuffix(s))
    decreases |s|
  {
    assert |s| == 10 ==> s[..10] == s && s[10..] == [];
    s == [] || (|s| >= 10 && MatchesInstanceSuffix(s[..10]) && AllSuffixes(s[10..]))
  }

  /** `vhostName.split(".jpaas.org")` has length 0: every piece between matches is empty and the
      trailing empty pieces are dropped, which happens exactly when the name is a non-empty run of
      matches (with no match at all, `split` returns the name itself). */
  function SplitIsEmpty(vhostName: string): (b: bool)
    ensures b ==> |vhostName| >= 10 && |vhostName| % 10 == 0 && MatchesInstanceSuffix(vhostName[..10])
    ensures |vhostName| == 10 ==> (b <==> MatchesInstanceSuffix(vhostName))
  {
    vhostName != [] && AllSuffixes(vhostName)
  }

  /** The instance-name check on two names. */
  lemma SplitExamples(app: string, bare: string)
    requires app == "shop.jpaas.org" && bare == "xjpaasyorg"
    ensures !SplitIsEmpty(app)
    ensures SplitIsEmpty(bare)
  {
    assert app[..10] == "shop.jpaas";
    assert !MatchesInstanceSuffix(app[..10]) by {
      assert app[..10][1..6] == "hop.j";
    }
    assert bare[..10] == bare && bare[10..] == [];
    assert bare[1..6] == "jpaas" && bare[7..] == "org";
  }

  /** The vhost id of the mock: the first vhost's, or the random one when there is none. */
  function MockVhostId(f: Frontend, randomId: string): (id: string)
    ensures f.vhosts != [] ==> id == f.vhosts[0].vhostId
    ensures f.vhosts == [] ==> id == randomId
  {
    if f.vhosts != [] then f.vhosts[0].vhostId else randomId
  }

  /** The router loop of the mock: for each router in order, the router and its compute must be
      found and the instance name must survive the split; nothing is requested or written. */
  function RouterChecks(w: World, vhostName: string, routers: seq<string>): (o: Outcome)
    ensures routers == [] ==> o == Pass
    ensures o.Fail? ==> o.error.RouterNotFound? || o.error.ComputeNotFound? || (o.error == InstanceNameMissing && SplitIsEmpty(vhostName))
    decreases |routers|
  {
    if routers == [] then Pass
    else
      match RouterIp(w, routers[0])
      case Err(e) => Fail(e)
      case Ok(_) => if SplitIsEmpty(vhostName) then Fail(InstanceNameMissing) else RouterChecks(w, vhostName, routers[1..])
  }

  /** `createVhost` of the mock; `randomId` stands for `String.valueOf(new Random().nextLong())`. */
  function MockCreateVhostSpec(w: World, frontendName: string, vhostName: string, routers: seq<string>, randomId: string)
    : (p: (World, Outcome))
    ensures LookupFrontend(w, frontendName).None? ==> p == (w, Fail(FrontendNotFound(frontendName)))
    ensures LookupFrontend(w, frontendName).Some? && LookupVhost(LookupFrontend(w, frontendName).value.vhosts, vhostName).Some? ==>
              p == (w, Pass)
    ensures p.0.replies == w.replies && p.0.routers == w.routers && p.0.computes == w.computes && p.0.nextId == w.nextId
  {
    match LookupFrontend(w, frontendName)
    case None => (w, Fail(FrontendNotFound(frontendName)))
    case Some(f) =>
      if LookupVhost(f.vhosts, vhostName).Some? then (w, Pass)
      else
        var f1 := WithNewVhost(f, vhostName, MockVhostId(f, randomId));
        var w1 := AfterUpdateFrontend(w, f1);
        match RouterChecks(w1, vhostName, routers)
        case Fail(e) => (w1, Fail(e))
        case Pass => (AfterUpdateFrontend(w1, f1), Pass)
  }

  /** `removeVhost` of the mock. */
  function MockRemoveVhostSpec(w: World, frontendName: string, vhostName: string): (p: (World, Outcome))
    ensures p.0.replies == w.replies && p.0.routers == w.routers && p.0.computes == w.computes && p.0.nextId == w.nextId
    ensures p.1.Fail? ==> p.0 == w
    ensures |p.0.trace| <= |w.trace| + 1
  {
    match LookupFrontend(w, frontendName)
    case None => (w, Fail(FrontendNotFound(frontendName)))
    case Some(f) =>
      match LookupVhost(f.vhosts, vhostName)
      case None => (w, Fail(VhostNotFound(vhostName)))
      case Some(_) => (AfterRemoveVirtualHost(w, f.id, vhostName), Pass)
  }

  /** The router checks pass exactly when every router and its compute are found and, if there is a
      router at all, the instance name survives the split; otherwise they fail on the first router
      that is missing, or on the name. */
  lemma {:induction false} RouterChecksPass(w: World, vhostName: string, routers: seq<string>)
    ensures RouterChecks(w, vhostName, routers) == Pass <==>
      (forall i :: 0 <= i < |routers| ==> RouterIp(w, routers[i]).Ok?) && (routers != [] ==> !SplitIsEmpty(vhostName))
    ensures RouterChecks(w, vhostName, routers).Fail? ==>
      RouterChecks(w, vhostName, routers).error == InstanceNameMissing
      || exists i :: 0 <= i < |routers| && RouterIp(w, routers[i]) == Err(RouterChecks(w, vhostName, routers).error)
    decreases |routers|
  {
    if routers != [] {
      RouterChecksPass(w, vhostName, routers[1..]);
      forall i | 0 <= i < |routers| - 1 ensures routers[1..][i] == routers[i + 1] {
      }
      var o := RouterChecks(w, vhostName, routers);
      if RouterIp(w, routers[0]).Ok? && !SplitIsEmpty(vhostName) && o.Fail? && o.error != InstanceNameMissing {
        var i :| 0 <= i < |routers[1..]| && RouterIp(w, routers[1..][i]) == Err(o.error);
        assert RouterIp(w, routers[i + 1]) == Err(o.error);
      }
    }
  }

  /** Replacing the found frontend by one with the same id and name leaves the lookup finding the
      replacement. */
  lemma LookupAfterUpdate(w: World, name: string, g: Frontend)
    requires LookupFrontend(w, name).Some?
    requires g.id == LookupFrontend(w, name).value.id && g.name == name
    ensures LookupFrontend(AfterUpdateFrontend(w, g), name) == Some(g)
  {
    var fs := w.frontends;
    var fs' := AfterUpdateFrontend(w, g).frontends;
    var k := FirstIndex(FrontendNames(fs), name).value;
    assert fs'[k] == g;
    assert FrontendNames(fs')[k] == name;
    var k' := FirstIndex(FrontendNames(fs'), name);
    assert k'.Some? && k'.value <= k;
    assert k'.value < k ==> FrontendNames(fs)[k'.value] != name;
    assert FrontendNames(fs')[k'.value] == name;
  }

  /** The effect of the mock's `createVhost`. A vhost of that name already there: nothing at all.
      Otherwise one vhost is appended (with the first vhost's id, or the random one) and persisted,
      and the router checks run: on success the same frontend is persisted a second time; on failure
      the first update stays. No agent is involved either way. */
  lemma MockCreateVhostEffects(w: World, frontendName: string, vhostName: string, routers: seq<string>, randomId: string)
    ensures LookupFrontend(w, frontendName).None? ==>
              MockCreateVhostSpec(w, frontendName, vhostName, routers, randomId) == (w, Fail(FrontendNotFound(frontendName)))
    ensures LookupFrontend(w, frontendName).Some? ==>
      var f := LookupFrontend(w, frontendName).value;
      var f1 := WithNewVhost(f, vhostName, MockVhostId(f, randomId));
      var p := MockCreateVhostSpec(w, frontendName, vhostName, routers, randomId);
      (LookupVhost(f.vhosts, vhostName).Some? ==> p == (w, Pass))
      && (LookupVhost(f.vhosts, vhostName).None? && p.1 == Pass ==>
            p.0.trace == w.trace + [RegistryWrite(UpdateFrontendCall(f1)), RegistryWrite(UpdateFrontendCall(f1))])
      && (LookupVhost(f.vhosts, vhostName).None? && p.1.Fail? ==>
            p.0.trace == w.trace + [RegistryWrite(UpdateFrontendCall(f1))]
            && p.1 == RouterChecks(w, vhostName, routers))
      && (LookupVhost(f.vhosts, vhostName).None? ==> p.0.frontends == ReplaceById(w.frontends, f1))
      && p.0.replies == w.replies && p.0.routers == w.routers && p.0.computes == w.computes && p.0.nextId == w.nextId
  {
    if LookupFrontend(w, frontendName).Some? {
      var f := LookupFrontend(w, frontendName).value;
      var f1 := WithNewVhost(f, vhostName, MockVhostId(f, randomId));
      var w1 := AfterUpdateFrontend(w, f1);
      RouterChecksFrame(w, w1, vhostName, routers);
      assert ReplaceById(ReplaceById(w.frontends, f1), f1) == ReplaceById(w.frontends, f1);
    }
  }

  lemma {:induction false} RouterChecksFrame(w: World, w': World, vhostName: string, routers: seq<string>)
    requires w'.routers == w.routers && w'.computes == w.computes
    ensures RouterChecks(w', vhostName, routers) == RouterChecks(w, vhostName, routers)
    decreases |routers|
  {
    if routers != [] {
      assert RouterIp(w', routers[0]) == RouterIp(w, routers[0]);
      RouterChecksFrame(w, w', vhostName, routers[1..]);
    }
  }

  /** Idempotence: once the mock's `createVhost` has found the frontend, whatever its outcome, a
      second call with the same names does nothing and succeeds. */
  lemma MockCreateVhostIdempotent(w: World, frontendName: string, vhostName: string, routers: seq<string>,
                                  randomId: string, routers2: seq<string>, randomId2: string)
    requires MockCreateVhostSpec(w, frontendName, vhostName, routers, randomId).1 != Fail(FrontendNotFound(frontendName))
    ensures var w1 := MockCreateVhostSpec(w, frontendName, vhostName, routers, randomId).0;
      MockCreateVhostSpec(w1, frontendName, vhostName, routers2, randomId2) == (w1, Pass)
  {
    var f := LookupFrontend(w, frontendName).value;
    var w1 := MockCreateVhostSpec(w, frontendName, vhostName, routers, randomId).0;
    if LookupVhost(f.vhosts, vhostName).None? {
      var f1 := WithNewVhost(f, vhostName, MockVhostId(f, randomId));
      MockCreateVhostEffects(w, frontendName, vhostName, routers, randomId);
      LookupAfterUpdate(w, frontendName, f1);
      assert w1.frontends == AfterUpdateFrontend(w, f1).frontends;
      assert LookupFrontend(w1, frontendName) == Some(f1);
      assert f1.vhosts[|f.vhosts|].name == vhostName;
    }
  }

  /** The mock's `removeVhost`: when frontend and vhost are found its only effect is the registry's
      `removeVirtualHost` for that frontend's id; otherwise it has none. */
  lemma MockRemoveVhostEffects(w: World, frontendName: string, vhostName: string)
    ensures var p := MockRemoveVhostSpec(w, frontendName, vhostName);
      (p.1 == Pass <==> LookupFrontend(w, frontendName).Some? && LookupVhost(LookupFrontend(w, frontendName).value.vhosts, vhostName).Some?)
      && (p.1 == Pass ==> p.0 == AfterRemoveVirtualHost(w, LookupFrontend(w, frontendName).value.id, vhostName))
      && (p.1 != Pass ==> p.0 == w)
  {
  }

  /** The stub frontend manager bean. */
  class MockFrontendManagerBean {
    const backend: Backend

    constructor (backend: Backend)
      ensures this.backend == backend
    {
      this.backend := backend;
    }

    method CreateFrontend(frontendName: string, apiUrl: string) returns (outcome: Outcome)
      modifies backend
      ensures (backend.State(), outcome) == CreateFrontendSpec(old(backend.State()), frontendName, apiUrl)
    {
      var created := backend.CreateFrontend(frontendName, apiUrl);
      outcome := if created then Pass else Fail(CannotCreateFrontend(frontendName));
    }

    method RemoveFrontend(frontendName: string) returns (outcome: Outcome)
      modifies backend
      ensures (backend.State(), outcome) == RemoveFrontendSpec(old(backend.State()), frontendName)
    {
      var paasFrontend := FindFrontend(backend, frontendName);
      if paasFrontend.None? {
        return Fail(FrontendNotFound(frontendName));
      }
      backend.DeleteFrontend(paasFrontend.value.id);
      outcome := Pass;
    }

    method CreateVhost(frontendName: string, vhostName: string, targetRouterNames: seq<string>, randomId: string)
      returns (outcome: Outcome)
      modifies backend
      ensures (backend.State(), outcome) == MockCreateVhostSpec(old(backend.State()), frontendName, vhostName, targetRouterNames, randomId)
    {
      var found := FindFrontend(backend, frontendName);
      if found.None? {
        return Fail(FrontendNotFound(frontendName));
      }
      var paasFrontend := found.value;
      var vhostId := if paasFrontend.vhosts != [] then paasFrontend.vhosts[0].vhostId else randomId;
      var vhostExists := VhostExists(paasFrontend.vhosts, vhostName);
      if vhostExists {
        return Pass;
      }
      paasFrontend := paasFrontend.(vhosts := paasFrontend.vhosts + [VirtualHost(vhostName, vhostId, map[])]);
      paasFrontend := backend.UpdateFrontend(paasFrontend);
      var checked := CheckRouters(vhostName, targetRouterNames);
      if checked.Fail? {
        return checked;
      }
      paasFrontend := backend.UpdateFrontend(paasFrontend);
      outcome := Pass;
    }

    /** The router loop of the mock's `createVhost`. */
    method CheckRouters(vhostName: string, routers: seq<string>) returns (outcome: Outcome)
      ensures outcome == RouterChecks(backend.State(), vhostName, routers)
    {
      var k := 0;
      while k < |routers|
        invariant 0 <= k <= |routers|
        invariant RouterChecks(backend.State(), vhostName, routers) == RouterChecks(backend.State(), vhostName, routers[k..])
      {
        assert routers[k..][0] == routers[k] && routers[k..][1..] == routers[k + 1..];
        var ip := FindRouterIp(backend, routers[k]);
        if ip.Err? {
          return Fail(ip.error);
        }
        if SplitIsEmpty(vhostName) {
          return Fail(InstanceNameMissing);
        }
        k := k + 1;
      }
      outcome := Pass;
    }

    method RemoveVhost(frontendName: string, vhostName: string) returns (outcome: Outcome)
      modifies backend
      ensures (backend.State(), outcome) == MockRemoveVhostSpec(old(backend.State()), frontendName, vhostName)
    {
      var found := FindFrontend(backend, frontendName);
      if found.None? {
        return Fail(FrontendNotFound(frontendName));
      }
      var paasFrontend := found.value;
      var vhost := FindVhost(paasFrontend.vhosts, vhostName);
      if vhost.None? {
        return Fail(VhostNotFound(vhostName));
      }
      backend.RemoveVirtualHost(paasFrontend.id, vhostName);
      outcome := Pass;
    }
  }
}
