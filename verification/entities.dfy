/** The registry's value objects (frontends, virtual hosts, routers), the error cases the frontend
    manager reports, and the first-match lookup by name that every operation performs. */
module Entities {

  datatype Option<+T> = None | Some(value: T)

  /** The causes an operation of the frontend manager fails with. */
  datatype Error =
    | FrontendNotFound(frontend: string)
    | VhostNotFound(vhost: string)
    | RouterNotFound(router: string)
    | ComputeNotFound(router: string)
    | CannotCreateFrontend(frontend: string)
    | AgentRejected(status: int)   // the agent answered with a status outside the accepted ones
    | AgentUnreachable             // no answer from the agent
    | MissingPayload               // a 204 answer where the caller dereferences the reply
    | InstanceNameMissing          // the mock's `split(".jpaas.org")` check

  datatype Result<+T> = Ok(value: T) | Err(error: Error)

  datatype Outcome = Pass | Fail(error: Error)

  /** A virtual host of a frontend: its name, the id of the agent-side vhost it lives on, and its
      proxy-pass directives (directive id to directive value). */
  datatype VirtualHost = VirtualHost(name: string, vhostId: string, directives: map<string, string>)

  /** A frontend as the registry stores it. */
  datatype Frontend = Frontend(id: nat, name: string, apiUrl: string, vhosts: seq<VirtualHost>)

  /** An Apache JK router as the registry stores it. */
  datatype Router = Router(id: nat, name: string)

  function FrontendNames(fs: seq<Frontend>): (r: seq<string>)
    ensures |r| == |fs| && forall i :: 0 <= i < |fs| ==> r[i] == fs[i].name
  {
    seq(|fs|, i requires 0 <= i < |fs| => fs[i].name)
  }

  /** The names of vhosts; the same projection as `FrontendNames`, for the vhost record. */
  function VhostNames(vs: seq<VirtualHost>): (r: seq<string>)
    ensures |r| == |vs| && forall i :: 0 <= i < |vs| ==> r[i] == vs[i].name
  {
    seq(|vs|, i requires 0 <= i < |vs| => vs[i].name)
  }

  /** The names of routers; the same projection as `FrontendNames`, for the router record. */
  function RouterNames(rs: seq<Router>): (r: seq<string>)
    ensures |r| == |rs| && forall i :: 0 <= i < |rs| ==> r[i] == rs[i].name
  {
    seq(|rs|, i requires 0 <= i < |rs| => rs[i].name)
  }

  /** The index of the first element of `names` equal to `name`, if any. */
  function FirstIndex(names: seq<string>, name: string): (r: Option<nat>)
    ensures r.Some? ==> r.value < |names| && names[r.value] == name
    ensures r.Some? ==> forall j :: 0 <= j < r.value ==> names[j] != name
    ensures r.None? <==> forall j :: 0 <= j < |names| ==> names[j] != name
    decreases |names|
  {
    if names == [] then None
    else if names[0] == name then Some(0)
    else match FirstIndex(names[1..], name)
      case None => None
      case Some(j) => Some(j + 1)
  }

  /** The source's lookup loop: scan in order and stop at the first exact name match. */
  method FindFirst(names: seq<string>, name: string) returns (r: Option<nat>)
    ensures r == FirstIndex(names, name)
  {
    var k := 0;
    r := None;
    while k < |names|
      invariant 0 <= k <= |names|
      invariant forall j :: 0 <= j < k ==> names[j] != name
    {
      if names[k] == name {
        r := Some(k);
        break;
      }
      k := k + 1;
    }
  }

  /** The mock's `vhostExists` loop: set a flag when some vhost carries the name. */
  method VhostExists(vhosts: seq<VirtualHost>, name: string) returns (found: bool)
    ensures found <==> exists i :: 0 <= i < |vhosts| && vhosts[i].name == name
    ensures found <==> FirstIndex(VhostNames(vhosts), name).Some?
  {
    found := false;
    var k := 0;
    while k < |vhosts|
      invariant 0 <= k <= |vhosts|
      invariant !found
      invariant forall j :: 0 <= j < k ==> vhosts[j].name != name
    {
      if vhosts[k].name == name {
        found := true;
        break;
      }
      k := k + 1;
    }
    assert found ==> VhostNames(vhosts)[k] == name;
  }

  /** Java's `String.contains`: `p` occurs somewhere in `s`. */
  function Contains(s: string, p: string): (b: bool)
    ensures b <==> exists i :: 0 <= i <= |s| && |p| <= |s| - i && s[i..][..|p|] == p
    decreases |s|
  {
    if |p| <= |s| && s[..|p|] == p then
      assert s[0..][..|p|] == p;
      true
    else if |s| == 0 then
      assert forall i :: 0 <= i <= |s| ==> i == 0 && s[i..] == s;
      false
    else
      var r := Contains(s[1..], p);
      assert forall i :: 0 <= i < |s[1..]| + 1 ==> s[1..][i..] == s[i + 1..];
      assert r ==> exists i :: 0 <= i <= |s| && |p| <= |s| - i && s[i..][..|p|] == p by {
        if r {
          var i :| 0 <= i <= |s[1..]| && |p| <= |s[1..]| - i && s[1..][i..][..|p|] == p;
          assert s[i + 1..][..|p|] == p;
        }
      }
      assert !r ==> forall i :: 0 <= i <= |s| && |p| <= |s| - i ==> s[i..][..|p|] != p by {
        if !r {
          forall i | 0 <= i <= |s| && |p| <= |s| - i ensures s[i..][..|p|] != p {
            if i == 0 {
              assert s[0..] == s;
            } else {
              assert s[1..][i - 1..] == s[i..];
            }
          }
        }
      }
      r
  }

  /** The directive map of the first vhost named `name` replaced by `m`; every other vhost, and the
      names and ids of all of them, unchanged. */
  function WithDirectives(vs: seq<VirtualHost>, name: string, m: map<string, string>): (r: seq<VirtualHost>)
    ensures |r| == |vs| && VhostNames(r) == VhostNames(vs)
    ensures forall i :: 0 <= i < |vs| ==> r[i].name == vs[i].name && r[i].vhostId == vs[i].vhostId
    ensures FirstIndex(VhostNames(vs), name).Some? ==>
              var k := FirstIndex(VhostNames(vs), name).value;
              r[k].directives == m && forall i :: 0 <= i < |vs| && i != k ==> r[i] == vs[i]
    ensures FirstIndex(VhostNames(vs), name).None? ==> r == vs
  {
    match FirstIndex(VhostNames(vs), name)
    case None => vs
    case Some(k) => vs[k := vs[k].(directives := m)]
  }

  /** Installing directive maps one after the other keeps only the last one: maps are replaced, not merged. */
  lemma WithDirectivesOverwrites(vs: seq<VirtualHost>, name: string, m1: map<string, string>, m2: map<string, string>)
    ensures WithDirectives(WithDirectives(vs, name, m1), name, m2) == WithDirectives(vs, name, m2)
  {
    var once := WithDirectives(vs, name, m1);
    assert VhostNames(once) == VhostNames(vs);
    var a := WithDirectives(once, name, m2);
    var b := WithDirectives(vs, name, m2);
    assert |a| == |b|;
    forall i | 0 <= i < |a| ensures a[i] == b[i] {
    }
  }

  /** A name missing from `names` is found at the end once appended. */
  lemma FirstIndexAppendFresh(names: seq<string>, name: string)
    requires FirstIndex(names, name).None?
    ensures FirstIndex(names + [name], name) == Some(|names|)
  {
    var k := FirstIndex(names + [name], name);
    assert (names + [name])[|names|] == name;
    assert forall j :: 0 <= j < |names| ==> (names + [name])[j] == names[j];
  }

  /** A name already in `names` is still found at its first position once anything is appended. */
  lemma {:induction false} FirstIndexAppendFound(names: seq<string>, name: string, x: string)
    requires FirstIndex(names, name).Some?
    ensures FirstIndex(names + [x], name) == FirstIndex(names, name)
    decreases |names|
  {
    if names[0] != name {
      assert (names + [x])[1..] == names[1..] + [x];
      FirstIndexAppendFound(names[1..], name, x);
    }
  }
}
