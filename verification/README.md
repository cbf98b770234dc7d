# Frontend manager of the PaaS layer, modelled in Dafny

The frontend manager is the control-plane bean that keeps the reverse-proxy *frontends* of the
PaaS layer. It has four operations:

- `createFrontend` and `removeFrontend` create and delete a frontend record in the registry.
- `createVhost` attaches a named virtual host to a frontend and wires it to a list of Apache JK
  routers. For each router it asks the frontend's HTTP agent to install a proxy pass to the IP of the
  IaaS compute behind the router, then persists the vhost bookkeeping and asks the agent to reload.
- `removeVhost` deletes the vhost's proxy passes on the agent, removes the vhost from the registry
  and asks for a reload.

The bean comes in two variants:

- the production variant (`ejb/…/FrontendManagerBean.java`), which drives the agent;
- the stub variant (`mock/…/FrontendManagerBean.java`). Its `createVhost` does nothing when a vhost
  of that name already exists, talks to no agent, and only checks that routers, computes and the
  instance name can be found. Its `removeVhost` only updates the registry.

The model's modules:

- `Urls`: `getUrl` and the slash normalisation `removeRedundantForwardSlash`.
- `Entities`: the value objects, the error causes and the first-match name scan every operation uses.
- `Services`: the collaborators the bean calls (the frontend, router and compute registries and
  the agent) as one class, `Backend`. Its `trace` records, in order, every registry write and every
  agent request. Agent replies come from a queue fixed in advance. An empty queue is an agent that
  does not answer.
- `FrontendOps`: `createFrontend` and `removeFrontend`, whose code is the same in both variants, and
  the frontend, vhost and router lookups.
- `EjbManager`: the production bean.
- `MockManager`: the stub bean.

Each bean operation is a method of a class holding the `Backend`. It is proved to change the
backend's state, and to return the outcome, exactly as a pure function of the old state does.
The properties are proved as lemmas about those functions: round trips, invariants, frames,
the order of the requests issued, and the effect of a failure in the middle of a loop.

Behaviour of the code worth knowing:

- The production `createVhost` has no duplicate-name check. It appends a vhost of the given name even
  when one exists. Only the stub skips (`MockManager.MockCreateVhostIdempotent`).
- The proxy-pass create request goes to `/proxymanager/vhost/<vhostId>/proxypass` on the agent.
- When the router loop of the production `createVhost` aborts on router N, the proxy passes for
  routers 1..N−1 have been installed on the agent. The registry, however, holds only the first
  update: the vhost appended with an empty directive map. The directives are persisted only by the
  second update after the loop, which an abort skips (`EjbManager.AttachVhostAbort`).
- Each router replaces the directive map of the first vhost of that name with a fresh one holding
  only its own directive. After the loop that vhost therefore carries only the last router's
  directive (`Entities.WithDirectivesOverwrites`, `EjbManager.RouterLoopSuccess`).
- When the frontend already has a vhost of that name, that earlier vhost is the first of the name:
  it receives the directive, and the vhost just appended keeps its empty map
  (`EjbManager.AttachVhostDuplicateName`).
- `removeVhost` removes the matching entries from a map that is never persisted. Its only
  observable effects are the DELETE requests, the registry's `removeVirtualHost` and the reload.

## Model

| member | source | states |
|---|---|---|
| Urls.GetUrl | ejb/src/main/java/org/ow2/jonas/jpaas/frontend/manager/bean/FrontendManagerBean.java:372-374 | the URL is the base URL, exactly one `/`, then the path |
| Urls.CollapseSlashes | ejb/src/main/java/org/ow2/jonas/jpaas/frontend/manager/bean/FrontendManagerBean.java:455 | `replaceAll("/+", "/")` never lengthens the string and keeps its first character |
| Urls.ExpandSchemeSeparators | ejb/src/main/java/org/ow2/jonas/jpaas/frontend/manager/bean/FrontendManagerBean.java:456 | `replaceAll(":/", "://")` never shortens the string and keeps its first character |
| Urls.CollapseLeavesNoDoubleSlash | ejb/src/main/java/org/ow2/jonas/jpaas/frontend/manager/bean/FrontendManagerBean.java:455 | after collapsing, no two consecutive slashes remain |
| Urls.ExpandDoublesOnlyAfterColon | ejb/src/main/java/org/ow2/jonas/jpaas/frontend/manager/bean/FrontendManagerBean.java:456 | expanding a string without `//` creates `//` only right after a colon and never `///` |
| Urls.RemoveRedundantForwardSlash | ejb/src/main/java/org/ow2/jonas/jpaas/frontend/manager/bean/FrontendManagerBean.java:454-457 | in every normalised URL a `//` occurs only as part of `://`, and `///` never occurs |
| Urls.CollapseFixpoint | ejb/src/main/java/org/ow2/jonas/jpaas/frontend/manager/bean/FrontendManagerBean.java:455 | a string without `//` is left unchanged by collapsing |
| Urls.CollapseUndoesExpand | ejb/src/main/java/org/ow2/jonas/jpaas/frontend/manager/bean/FrontendManagerBean.java:454-457 | on a string without `//`, collapsing undoes the expansion of `:/` |
| Urls.NormalizationIdempotent | ejb/src/main/java/org/ow2/jonas/jpaas/frontend/manager/bean/FrontendManagerBean.java:454-457 | normalising an already normalised URL changes nothing |
| Urls.CollapseKeepsNonSlash | ejb/src/main/java/org/ow2/jonas/jpaas/frontend/manager/bean/FrontendManagerBean.java:455 | collapsing removes only slashes: every other character survives, in order |
| Urls.ExpandKeepsNonSlash | ejb/src/main/java/org/ow2/jonas/jpaas/frontend/manager/bean/FrontendManagerBean.java:456 | expanding adds only slashes |
| Urls.NormalizationKeepsNonSlash | ejb/src/main/java/org/ow2/jonas/jpaas/frontend/manager/bean/FrontendManagerBean.java:454-457 | normalisation changes nothing but forward slashes |
| Urls.CollapseConcat | ejb/src/main/java/org/ow2/jonas/jpaas/frontend/manager/bean/FrontendManagerBean.java:455 | collapsing passes unchanged over a prefix without `//` that does not join a run of slashes with what follows |
| Urls.ExpandConcat | ejb/src/main/java/org/ow2/jonas/jpaas/frontend/manager/bean/FrontendManagerBean.java:456 | expansion passes unchanged over a prefix without `:/` that does not form one with what follows |
| Urls.NormalizedJoin | ejb/src/main/java/org/ow2/jonas/jpaas/frontend/manager/bean/FrontendManagerBean.java:454-457 | `getUrl("scheme://host/", "/path")` normalises to `scheme://host/path`: the slashes getUrl duplicates are merged and the scheme separator is kept |
| Urls.CreateVhostUrlExample | ejb/src/main/java/org/ow2/jonas/jpaas/frontend/manager/bean/FrontendManagerBean.java:208 | base `http://agent:8080/` with path `/vhostmanager/vhost` is sent as `http://agent:8080/vhostmanager/vhost` |
| Entities.FirstIndex | ejb/src/main/java/org/ow2/jonas/jpaas/frontend/manager/bean/FrontendManagerBean.java:146-151 | the scan stops at the first exact match; no earlier element matches; none is found exactly when no element matches |
| Entities.FindFirst | ejb/src/main/java/org/ow2/jonas/jpaas/frontend/manager/bean/FrontendManagerBean.java:146-151 | the for-each loop with `break` finds exactly the first match, `FirstIndex` |
| Entities.VhostExists | mock/src/main/java/org/ow2/jonas/jpaas/frontend/manager/bean/FrontendManagerBean.java:168-174 | the flag is set exactly when some vhost carries the name |
| Entities.WithDirectives | ejb/src/main/java/org/ow2/jonas/jpaas/frontend/manager/bean/FrontendManagerBean.java:271-277 | only the first vhost with the name gets the new directive map; names, ids and every other vhost are unchanged; no match leaves the list as it was |
| Entities.Contains | ejb/src/main/java/org/ow2/jonas/jpaas/frontend/manager/bean/FrontendManagerBean.java:342 | Java's `String.contains`: true exactly when the pattern occurs at some position of the string |
| Entities.WithDirectivesOverwrites | ejb/src/main/java/org/ow2/jonas/jpaas/frontend/manager/bean/FrontendManagerBean.java:266-277 | installing two directive maps in turn keeps only the second: the map is replaced, not merged |
| Services.ReadReply | ejb/src/main/java/org/ow2/jonas/jpaas/frontend/manager/bean/FrontendManagerBean.java:421-445 | a reply succeeds exactly when its status is 200, 201, 202 or 204; otherwise the error carries the status; an entity is read exactly when the status is not 204 and a response class was asked for |
| Services.AfterSend | ejb/src/main/java/org/ow2/jonas/jpaas/frontend/manager/bean/FrontendManagerBean.java:389-447 | the request goes out with the normalised URL and is traced; one reply is consumed and read; no reply means the agent is unreachable; the registry is untouched |
| Services.WithoutId | ejb/src/main/java/org/ow2/jonas/jpaas/frontend/manager/bean/FrontendManagerBean.java:157 | the frontends left are exactly those with another id, and never more than before |
| Services.ReplaceById | ejb/src/main/java/org/ow2/jonas/jpaas/frontend/manager/bean/FrontendManagerBean.java:216 | the list keeps its length; each frontend with the given id is replaced by the given one, every other stays at its place |
| Services.WithoutVhost | ejb/src/main/java/org/ow2/jonas/jpaas/frontend/manager/bean/FrontendManagerBean.java:353 | the vhosts left are exactly those with another name |
| Services.AfterCreateFrontend | ejb/src/main/java/org/ow2/jonas/jpaas/frontend/manager/bean/FrontendManagerBean.java:125 | the registry refuses a taken name and otherwise stores the frontend with a fresh id and no vhost; the call is traced either way |
| Services.AfterDeleteFrontend | ejb/src/main/java/org/ow2/jonas/jpaas/frontend/manager/bean/FrontendManagerBean.java:157 | the frontends with that id are gone and nothing else changes |
| Services.AfterUpdateFrontend | ejb/src/main/java/org/ow2/jonas/jpaas/frontend/manager/bean/FrontendManagerBean.java:216 | the stored frontend with that id becomes the given one and nothing else changes |
| Services.AfterRemoveVirtualHost | ejb/src/main/java/org/ow2/jonas/jpaas/frontend/manager/bean/FrontendManagerBean.java:353 | the frontend with that id loses its vhosts of that name; every other frontend is unchanged |
| Services.Backend.constructor | ejb/src/main/java/org/ow2/jonas/jpaas/frontend/manager/bean/FrontendManagerBean.java:89-102 | the collaborators start in the given state |
| Services.Backend.FindFrontends | ejb/src/main/java/org/ow2/jonas/jpaas/frontend/manager/bean/FrontendManagerBean.java:145 | returns the stored frontends |
| Services.Backend.FindApacheJkRouters | ejb/src/main/java/org/ow2/jonas/jpaas/frontend/manager/bean/FrontendManagerBean.java:238 | returns the stored routers |
| Services.Backend.FindIaasComputeByPaasResource | ejb/src/main/java/org/ow2/jonas/jpaas/frontend/manager/bean/FrontendManagerBean.java:249-252 | returns the compute IP linked to the router id, or none (the source's null) |
| Services.Backend.CreateFrontend | ejb/src/main/java/org/ow2/jonas/jpaas/frontend/manager/bean/FrontendManagerBean.java:125 | the state becomes `AfterCreateFrontend` of the old one |
| Services.Backend.DeleteFrontend | ejb/src/main/java/org/ow2/jonas/jpaas/frontend/manager/bean/FrontendManagerBean.java:157 | the state becomes `AfterDeleteFrontend` of the old one |
| Services.Backend.UpdateFrontend | ejb/src/main/java/org/ow2/jonas/jpaas/frontend/manager/bean/FrontendManagerBean.java:216 | the state becomes `AfterUpdateFrontend` of the old one, and the value returned is the one persisted |
| Services.Backend.RemoveVirtualHost | ejb/src/main/java/org/ow2/jonas/jpaas/frontend/manager/bean/FrontendManagerBean.java:353 | the state becomes `AfterRemoveVirtualHost` of the old one |
| Services.Backend.SendRequestWithReply | ejb/src/main/java/org/ow2/jonas/jpaas/frontend/manager/bean/FrontendManagerBean.java:389-447 | the status checks of `sendRequestWithReply` give exactly `AfterSend` of the old state |
| FrontendOps.LookupFrontend | ejb/src/main/java/org/ow2/jonas/jpaas/frontend/manager/bean/FrontendManagerBean.java:143-154 | none is found exactly when no frontend has the name; otherwise the found frontend is the first in the stored list with that name |
| FrontendOps.LookupVhost | ejb/src/main/java/org/ow2/jonas/jpaas/frontend/manager/bean/FrontendManagerBean.java:319-330 | none is found exactly when no vhost has the name; otherwise the found vhost is the first of the list with that name |
| FrontendOps.RouterIp | ejb/src/main/java/org/ow2/jonas/jpaas/frontend/manager/bean/FrontendManagerBean.java:236-252 | an error is always "router doesn't exist" or "compute doesn't exist" for that name |
| FrontendOps.RouterIpFirstMatch | ejb/src/main/java/org/ow2/jonas/jpaas/frontend/manager/bean/FrontendManagerBean.java:236-252 | "router doesn't exist" exactly when no router has the name; "compute doesn't exist" exactly when the first router of that name has no compute linked; otherwise the IP of the compute linked to that first router |
| FrontendOps.WithNewVhost | ejb/src/main/java/org/ow2/jonas/jpaas/frontend/manager/bean/FrontendManagerBean.java:214-215 | the frontend keeps its id, name and apiUrl and gains one vhost at the end, with the given name and id and no directive |
| FrontendOps.FindFrontend | ejb/src/main/java/org/ow2/jonas/jpaas/frontend/manager/bean/FrontendManagerBean.java:143-154 | the lookup loop over `findFrontends` finds `LookupFrontend` |
| FrontendOps.FindVhost | ejb/src/main/java/org/ow2/jonas/jpaas/frontend/manager/bean/FrontendManagerBean.java:319-330 | the lookup loop over the vhosts finds `LookupVhost` |
| FrontendOps.FindRouterIp | ejb/src/main/java/org/ow2/jonas/jpaas/frontend/manager/bean/FrontendManagerBean.java:236-252 | the router loop and the compute query give `RouterIp` |
| FrontendOps.CreateFrontendSpec | ejb/src/main/java/org/ow2/jonas/jpaas/frontend/manager/bean/FrontendManagerBean.java:120-129 | `createFrontend` hands the registry a frontend with no vhost and reports a refusal as "cannot create" naming the frontend |
| FrontendOps.CreateThenLookup | ejb/src/main/java/org/ow2/jonas/jpaas/frontend/manager/bean/FrontendManagerBean.java:120-129 | round trip: after a successful `createFrontend` the lookup by name finds the new frontend with the given apiUrl and no vhost; no agent call is made |
| FrontendOps.CreateFrontendKeepsValid | ejb/src/main/java/org/ow2/jonas/jpaas/frontend/manager/bean/FrontendManagerBean.java:120-129 | `createFrontend` keeps frontend names and ids unique and every id below the next one |
| FrontendOps.RemoveFrontendSpec | ejb/src/main/java/org/ow2/jonas/jpaas/frontend/manager/bean/FrontendManagerBean.java:139-161 | `removeFrontend` passes exactly when the name is found; a failure is "frontend not found" with nothing changed; a success deletes the found frontend's id |
| FrontendOps.RemoveFrontendDeletesFirstMatch | ejb/src/main/java/org/ow2/jonas/jpaas/frontend/manager/bean/FrontendManagerBean.java:139-161 | with unique ids, `removeFrontend` deletes exactly the first frontend of that name; every other frontend stays, in order |
| FrontendOps.CreateThenRemove | ejb/src/main/java/org/ow2/jonas/jpaas/frontend/manager/bean/FrontendManagerBean.java:139-161 | creating a frontend and then removing it by name gives back the stored frontends, with exactly a create and a delete of the new id traced |
| FrontendOps.RemoveFrontendKeepsValid | ejb/src/main/java/org/ow2/jonas/jpaas/frontend/manager/bean/FrontendManagerBean.java:139-161 | `removeFrontend` keeps the registry invariants: unique names, unique ids, every id below the next one |
| FrontendOps.RemoveThenLookup | ejb/src/main/java/org/ow2/jonas/jpaas/frontend/manager/bean/FrontendManagerBean.java:139-161 | after a successful `removeFrontend` the name is no longer found; it fails exactly when the name is unknown, and then nothing changed |
| EjbManager.Entity | ejb/src/main/java/org/ow2/jonas/jpaas/frontend/manager/bean/FrontendManagerBean.java:206-212 | dereferencing a reply succeeds exactly when it carried an entity; agent errors pass through |
| EjbManager.ResolveVhostId | ejb/src/main/java/org/ow2/jonas/jpaas/frontend/manager/bean/FrontendManagerBean.java:198-213 | with vhosts present, the first one's id is used and nothing is sent; without, one create request is sent and the id is that of the returned vhost, or the operation fails |
| EjbManager.Reload | ejb/src/main/java/org/ow2/jonas/jpaas/frontend/manager/bean/FrontendManagerBean.java:282-287 | one reload request without parameters is sent; the operation passes exactly when the agent accepts it |
| EjbManager.ProxyPassStep | ejb/src/main/java/org/ow2/jonas/jpaas/frontend/manager/bean/FrontendManagerBean.java:237-277 | an unresolved router fails with its error and nothing done; otherwise one proxy-pass request is sent with the router's IP; the step succeeds exactly when the router resolves and the reply carries a directive, and then the first vhost of that name holds just that directive |
| EjbManager.RouterLoop | ejb/src/main/java/org/ow2/jonas/jpaas/frontend/manager/bean/FrontendManagerBean.java:235-279 | the router loop writes nothing to the registry and only adds to the trace; a completed loop keeps the frontend's id, name and apiUrl |
| EjbManager.RouterLoopSuccess | ejb/src/main/java/org/ow2/jonas/jpaas/frontend/manager/bean/FrontendManagerBean.java:235-279 | a completed router loop resolved every router, sent one proxy-pass request per router in list order, consumed one entity-carrying reply each and wrote nothing to the registry; the vhost keeps only the last router's directive |
| EjbManager.RouterLoopAbort | ejb/src/main/java/org/ow2/jonas/jpaas/frontend/manager/bean/FrontendManagerBean.java:245-252 | at the first router that does not resolve, the loop fails with that router's error after exactly the proxy passes of the earlier routers, and the registry is untouched |
| EjbManager.RouterLoopFrame | ejb/src/main/java/org/ow2/jonas/jpaas/frontend/manager/bean/FrontendManagerBean.java:235-279 | whatever its outcome, the router loop leaves the registry alone and issues at most one request per router |
| EjbManager.AttachVhost | ejb/src/main/java/org/ow2/jonas/jpaas/frontend/manager/bean/FrontendManagerBean.java:214-287 | after the vhost id is known, routers, computes and the next id stay, the number of frontends stays, and a success ends with the reload of the frontend's agent |
| EjbManager.AttachVhostTrace | ejb/src/main/java/org/ow2/jonas/jpaas/frontend/manager/bean/FrontendManagerBean.java:214-287 | after the vhost id is known, the first event is the update with the appended vhost, no create-vhost request follows, and only that frontend changes |
| EjbManager.AttachVhostSuccess | ejb/src/main/java/org/ow2/jonas/jpaas/frontend/manager/bean/FrontendManagerBean.java:214-287 | a successful `createVhost` stores the frontend with exactly one more vhost, with the given name and id; the first vhost of that name carries the last router's directive, and none is set without routers |
| EjbManager.AttachVhostSuccessTrace | ejb/src/main/java/org/ow2/jonas/jpaas/frontend/manager/bean/FrontendManagerBean.java:214-287 | a successful `createVhost` traces, in order, the update, one proxy pass per router, the second update and the reload |
| EjbManager.AttachVhostDuplicateName | ejb/src/main/java/org/ow2/jonas/jpaas/frontend/manager/bean/FrontendManagerBean.java:214-277 | with a vhost of that name already on the frontend, the appended vhost keeps an empty map and the earlier vhost of that name receives the last router's directive |
| EjbManager.AttachVhostAbort | ejb/src/main/java/org/ow2/jonas/jpaas/frontend/manager/bean/FrontendManagerBean.java:214-279 | when a router does not resolve, `createVhost` fails with its error; only the first update (with an empty directive map) is persisted, and there is no second update and no reload |
| EjbManager.CreateVhostSpec | ejb/src/main/java/org/ow2/jonas/jpaas/frontend/manager/bean/FrontendManagerBean.java:173-289 | an unknown frontend fails with nothing done; routers, computes and the next id never change; a success ends with the reload of the found frontend's agent |
| EjbManager.CreateVhostReusesFirstId | ejb/src/main/java/org/ow2/jonas/jpaas/frontend/manager/bean/FrontendManagerBean.java:198-200 | with vhosts on the frontend, the first vhost's id is reused and no create-vhost request is ever issued |
| EjbManager.CreateVhostOnEmptyList | ejb/src/main/java/org/ow2/jonas/jpaas/frontend/manager/bean/FrontendManagerBean.java:201-213 | without vhosts, exactly one create-vhost request with `address=*:80` comes first; the returned id is used, or the operation fails right there |
| EjbManager.CreateVhostFrame | ejb/src/main/java/org/ow2/jonas/jpaas/frontend/manager/bean/FrontendManagerBean.java:173-289 | an unknown frontend fails with nothing done; otherwise only the found frontend may change |
| EjbManager.Matches | ejb/src/main/java/org/ow2/jonas/jpaas/frontend/manager/bean/FrontendManagerBean.java:342 | a directive is deleted exactly when `/<vhost>/ ` occurs somewhere in its value |
| EjbManager.DeleteStep | ejb/src/main/java/org/ow2/jonas/jpaas/frontend/manager/bean/FrontendManagerBean.java:340-350 | a key that is absent or does not match changes nothing; a matching key sends one DELETE of that proxy pass, succeeds exactly when the agent accepts it, and then drops that key |
| EjbManager.DeleteLoop | ejb/src/main/java/org/ow2/jonas/jpaas/frontend/manager/bean/FrontendManagerBean.java:338-351 | the directive loop writes nothing to the registry, only adds to the trace, and a completed loop leaves a sub-map of the original keys |
| EjbManager.DeletedKeys | ejb/src/main/java/org/ow2/jonas/jpaas/frontend/manager/bean/FrontendManagerBean.java:340-351 | the deleted keys are exactly the visited keys whose value contains `/<vhost>/ ` |
| EjbManager.Kept | ejb/src/main/java/org/ow2/jonas/jpaas/frontend/manager/bean/FrontendManagerBean.java:340-351 | the entries kept are exactly those not visited or whose value does not match, with their values |
| EjbManager.DeleteLoopSuccess | ejb/src/main/java/org/ow2/jonas/jpaas/frontend/manager/bean/FrontendManagerBean.java:338-351 | a completed directive loop keeps exactly `Kept` and sends one DELETE per deleted key, in visiting order |
| EjbManager.DeleteLoopKept | ejb/src/main/java/org/ow2/jonas/jpaas/frontend/manager/bean/FrontendManagerBean.java:340-351 | the map the directive loop leaves is `Kept` |
| EjbManager.DeleteLoopLog | ejb/src/main/java/org/ow2/jonas/jpaas/frontend/manager/bean/FrontendManagerBean.java:345-349 | the completed directive loop sends, in order, one DELETE of `/proxymanager/vhost/<vhostId>/proxypass/<key>` per deleted key and consumes one reply for each |
| EjbManager.DeleteLoopFrame | ejb/src/main/java/org/ow2/jonas/jpaas/frontend/manager/bean/FrontendManagerBean.java:338-351 | whatever its outcome, the directive loop leaves the registry alone and only issues DELETE requests |
| EjbManager.DeleteLoopFilter | ejb/src/main/java/org/ow2/jonas/jpaas/frontend/manager/bean/FrontendManagerBean.java:338-351 | over a full iteration order, the loop keeps exactly the entries whose value does not contain the pattern, and deletes each matching key once |
| EjbManager.DeleteLoopStaysFailed | ejb/src/main/java/org/ow2/jonas/jpaas/frontend/manager/bean/FrontendManagerBean.java:345-349 | once a DELETE has failed, the keys not yet visited are never visited |
| EjbManager.RemoveVhostSpec | ejb/src/main/java/org/ow2/jonas/jpaas/frontend/manager/bean/FrontendManagerBean.java:300-362 | an unknown frontend or vhost fails with that cause and nothing done; routers, computes and the next id never change; a success ends with the reload of the found frontend's agent |
| EjbManager.RemoveVhostSuccess | ejb/src/main/java/org/ow2/jonas/jpaas/frontend/manager/bean/FrontendManagerBean.java:300-362 | a successful `removeVhost` traces the DELETEs of exactly the matching directives, then `removeVirtualHost` of the frontend's id, then the reload; the registry ends as `removeVirtualHost` leaves it |
| EjbManager.LookupFailuresHaveNoEffect | ejb/src/main/java/org/ow2/jonas/jpaas/frontend/manager/bean/FrontendManagerBean.java:304-329 | an unknown frontend (all three operations) or an unknown vhost (`removeVhost`) fails with that cause before any request or write |
| EjbManager.RemoveVhostFrame | ejb/src/main/java/org/ow2/jonas/jpaas/frontend/manager/bean/FrontendManagerBean.java:300-362 | whatever its outcome, `removeVhost` changes the registry at most by removing the vhost from the found frontend |
| EjbManager.FrontendManagerBean.constructor | ejb/src/main/java/org/ow2/jonas/jpaas/frontend/manager/bean/FrontendManagerBean.java:107-108 | the bean holds the given collaborators |
| EjbManager.FrontendManagerBean.CreateFrontend | ejb/src/main/java/org/ow2/jonas/jpaas/frontend/manager/bean/FrontendManagerBean.java:120-129 | the new state and the outcome are `CreateFrontendSpec` of the old state |
| EjbManager.FrontendManagerBean.RemoveFrontend | ejb/src/main/java/org/ow2/jonas/jpaas/frontend/manager/bean/FrontendManagerBean.java:139-161 | the new state and the outcome are `RemoveFrontendSpec` of the old state |
| EjbManager.FrontendManagerBean.CreateVhost | ejb/src/main/java/org/ow2/jonas/jpaas/frontend/manager/bean/FrontendManagerBean.java:173-289 | the new state and the outcome are `CreateVhostSpec` of the old state |
| EjbManager.FrontendManagerBean.ObtainVhostId | ejb/src/main/java/org/ow2/jonas/jpaas/frontend/manager/bean/FrontendManagerBean.java:194-213 | the state and the id are `ResolveVhostId` of the old state |
| EjbManager.FrontendManagerBean.Attach | ejb/src/main/java/org/ow2/jonas/jpaas/frontend/manager/bean/FrontendManagerBean.java:214-287 | the state and the outcome are `AttachVhost` of the old state |
| EjbManager.FrontendManagerBean.InstallProxyPasses | ejb/src/main/java/org/ow2/jonas/jpaas/frontend/manager/bean/FrontendManagerBean.java:235-279 | the router loop gives `RouterLoop` of the old state |
| EjbManager.FrontendManagerBean.InstallProxyPass | ejb/src/main/java/org/ow2/jonas/jpaas/frontend/manager/bean/FrontendManagerBean.java:237-277 | one iteration gives `ProxyPassStep` of the old state |
| EjbManager.FrontendManagerBean.RemoveVhost | ejb/src/main/java/org/ow2/jonas/jpaas/frontend/manager/bean/FrontendManagerBean.java:300-362 | for an iteration order of the vhost's directive map, the state and the outcome are `RemoveVhostSpec` of the old state |
| EjbManager.FrontendManagerBean.DeleteProxyPasses | ejb/src/main/java/org/ow2/jonas/jpaas/frontend/manager/bean/FrontendManagerBean.java:338-351 | the iterator loop visits every key once and gives `DeleteLoop` in that order, also when a DELETE fails midway |
| MockManager.AllSuffixes | mock/src/main/java/org/ow2/jonas/jpaas/frontend/manager/bean/FrontendManagerBean.java:200-201 | a run of matches of `.jpaas.org` has a length divisible by 10; a ten-character string is one exactly when it matches |
| MockManager.SplitIsEmpty | mock/src/main/java/org/ow2/jonas/jpaas/frontend/manager/bean/FrontendManagerBean.java:200-201 | the split leaves no piece only for a name of at least ten characters, a multiple of ten long, that starts with a match of `.jpaas.org`; a ten-character name leaves none exactly when it matches |
| MockManager.SplitExamples | mock/src/main/java/org/ow2/jonas/jpaas/frontend/manager/bean/FrontendManagerBean.java:200-203 | `shop.jpaas.org` keeps an instance name; `xjpaasyorg`, a full match of the regex `.jpaas.org`, leaves none |
| MockManager.MockVhostId | mock/src/main/java/org/ow2/jonas/jpaas/frontend/manager/bean/FrontendManagerBean.java:158-165 | the first vhost's id when there is one, otherwise the random id |
| MockManager.RouterChecks | mock/src/main/java/org/ow2/jonas/jpaas/frontend/manager/bean/FrontendManagerBean.java:181-205 | no routers pass; a failure is a missing router, a missing compute, or the missing instance name when the split leaves nothing |
| MockManager.RouterChecksPass | mock/src/main/java/org/ow2/jonas/jpaas/frontend/manager/bean/FrontendManagerBean.java:181-205 | the router checks pass exactly when every router and its compute are found and, if there is any router, the name survives the split; a failure is the error of some router or the missing instance name |
| MockManager.RouterChecksFrame | mock/src/main/java/org/ow2/jonas/jpaas/frontend/manager/bean/FrontendManagerBean.java:181-205 | the router checks depend only on the routers and the computes |
| MockManager.MockCreateVhostSpec | mock/src/main/java/org/ow2/jonas/jpaas/frontend/manager/bean/FrontendManagerBean.java:133-211 | an unknown frontend fails with nothing done; an existing vhost name succeeds with nothing done; replies, routers, computes and the next id never change |
| MockManager.MockCreateVhostEffects | mock/src/main/java/org/ow2/jonas/jpaas/frontend/manager/bean/FrontendManagerBean.java:133-211 | an unknown frontend: "frontend not found" and nothing happens. An existing vhost name: nothing happens, success. Otherwise the vhost is appended and persisted; on success the same frontend is persisted again, and on failure only once; no agent is involved |
| MockManager.MockCreateVhostIdempotent | mock/src/main/java/org/ow2/jonas/jpaas/frontend/manager/bean/FrontendManagerBean.java:167-178 | once the frontend was found, a second `createVhost` with the same names does nothing and succeeds, whatever the routers |
| MockManager.MockRemoveVhostSpec | mock/src/main/java/org/ow2/jonas/jpaas/frontend/manager/bean/FrontendManagerBean.java:222-256 | the agent is never used and routers, computes and the next id stay; a failure changes nothing; at most one registry call is traced |
| MockManager.MockRemoveVhostEffects | mock/src/main/java/org/ow2/jonas/jpaas/frontend/manager/bean/FrontendManagerBean.java:222-256 | the stub's `removeVhost` succeeds exactly when frontend and vhost are found, and then its only effect is `removeVirtualHost`; otherwise nothing changes |
| MockManager.MockFrontendManagerBean.constructor | mock/src/main/java/org/ow2/jonas/jpaas/frontend/manager/bean/FrontendManagerBean.java:67-68 | the bean holds the given collaborators |
| MockManager.MockFrontendManagerBean.CreateFrontend | mock/src/main/java/org/ow2/jonas/jpaas/frontend/manager/bean/FrontendManagerBean.java:80-89 | the new state and the outcome are `CreateFrontendSpec` of the old state |
| MockManager.MockFrontendManagerBean.RemoveFrontend | mock/src/main/java/org/ow2/jonas/jpaas/frontend/manager/bean/FrontendManagerBean.java:99-121 | the new state and the outcome are `RemoveFrontendSpec` of the old state |
| MockManager.MockFrontendManagerBean.CreateVhost | mock/src/main/java/org/ow2/jonas/jpaas/frontend/manager/bean/FrontendManagerBean.java:133-211 | the new state and the outcome are `MockCreateVhostSpec` of the old state |
| MockManager.MockFrontendManagerBean.CheckRouters | mock/src/main/java/org/ow2/jonas/jpaas/frontend/manager/bean/FrontendManagerBean.java:181-205 | the router loop changes nothing and gives `RouterChecks` |
| MockManager.MockFrontendManagerBean.RemoveVhost | mock/src/main/java/org/ow2/jonas/jpaas/frontend/manager/bean/FrontendManagerBean.java:222-256 | the new state and the outcome are `MockRemoveVhostSpec` of the old state |

## Left out

- The Jersey transport is not modelled: creating and destroying the client, the query-parameter encoding and the HTTP verbs on the wire. A request is its verb, normalised URL and parameter list; the reply is taken from a queue fixed in advance.
- Logging, the component annotations and dependency injection are not modelled.
- The text of exception messages is not modelled. A failure is an `Error` value naming its cause and the entity.
- Concurrency is not modelled: each operation runs alone on the collaborators.
- The registry's own implementation is not part of this model. Its `removeVirtualHost` is assumed to drop every vhost of that name from the frontend, and its `updateFrontend` to replace every stored frontend with that id. Its `createFrontend` is assumed to refuse a name already taken and to hand out increasing ids. Its `updateFrontend` returns the value passed in. Other registry errors (a store failure) are not modelled.
- `removeFrontend`: the failure path of `deleteFrontend` (line 158) is not modelled. It only fires when the registry fails, which the registry model never does for an id just found.
- The missing null checks on the agent reply in `createVhost` (lines 212 and 266) are modelled as an error. A 204 answer where the code then dereferences the entity (a `NullPointerException` in the source) becomes `MissingPayload`.
- A vhost whose directive map is null would make `removeVhost` throw a `NullPointerException`. New vhosts are modelled with an empty map, so this case is not modelled.
- The iteration order of the `Hashtable` in `removeVhost` is not computed. `RemoveVhost` returns it as a ghost value; all the model requires is that it visits every key exactly once.
- `Random.nextLong` in the stub's `createVhost` is a parameter, `randomId`.
- Java regular expressions are modelled only for the one pattern the stub uses, `.jpaas.org` in `split`. Characters are code points, and `.` matches any of them but the line terminators.
- The interface `IFrontendManager` only declares the four operations, so it has no model of its own.
- The commented-out blocks of the source (the per-vhost create request, the vhost DELETE, the media-type check) are not modelled.
- Services.Backend.FindIaasComputeByPaasResource: returns only the IP address of the compute, the one field the manager reads.
- MockManager.MockFrontendManagerBean.CheckRouters: models the `split` check as a predicate on the name. The array `split` builds is not modelled.
