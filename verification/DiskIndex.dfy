/**
 The disk index (server/src/disk_view.rs): which relationships become ownership edges, and what may
 then be attributed to one disk alone.
 */
module DiskIndex {
  import opened Wrappers
  import opened Graph
  import opened Ownership

  // ---- Objects and relationships, as far as the index looks at them ----

  /** An acquisition context. */
  datatype Context = Context(schema: int, boot: string, generation: string, session: string)

  datatype Object = Object(
    resource: Option<string>, kind: string, rtype: string, source: string, bsdName: Option<string>,
    filesystem: string, local: bool, scope: string, context: Context, observedSession: Option<string>,
    observedBoot: Option<string>, association: string, relations: seq<Relation>)

  datatype Relation = Relation(
    rid: string, from: string, to: string, kind: string, source: string, stale: bool,
    boot: Option<string>, session: Option<string>, acquisition: Context)

  datatype Node = Node(online: bool, boot: string, generation: string, session: string)

  datatype Edge = Edge(kind: string, from: Id, to: Id, stale: bool)

  predicate Physical(o: Object) {
    o.rtype == "physical_device" && o.source == "diskutil.list.physical"
  }

  predicate LocalMount(o: Object) {
    && o.rtype == "mount" && o.local && o.kind != "nfs_mount"
    && o.filesystem !in {"nfs", "nfs4", "smbfs", "cifs", "webdav", "autofs", "devfs", "tmpfs", "ramfs"}
  }

  predicate Known(c: Context) {
    c.schema == 1 && c.boot != "" && c.generation != "" && c.session != ""
  }

  predicate Current(c: Context, n: Node) {
    Known(c) && c.boot == n.boot && c.session == n.session && c.generation == n.generation
  }

  predicate SameContext(a: Context, b: Context) {
    a.boot == b.boot && a.generation == b.generation && a.session == b.session
  }

  predicate Matches(o: Option<string>, s: string) {
    o.None? || o.value == s
  }

  predicate SourceMatches(o: Object) {
    Matches(o.observedSession, o.context.session) && Matches(o.observedBoot, o.context.boot)
  }

  /** valid_kind: the only relationships that may carry ownership or a driver. */
  predicate ValidKind(r: Relation, f: Object, t: Object) {
    if r.kind == "contains" then
      (Physical(f) && t.rtype == "media")
      || ((f.rtype == "apfs_container" || f.rtype == "storage_pool") && t.rtype == "filesystem")
    else if r.kind == "backed_by" then
      && (f.rtype == "apfs_container" || f.rtype == "storage_pool" || f.rtype == "filesystem" || f.rtype == "media"
          || (LocalMount(f) && f.filesystem != "apfs" && r.source == "derived.storage"
              && t.source == "diskutil.list.physical" && t.bsdName.Some? && f.source == "/dev/" + t.bsdName.value))
      && (t.rtype == "media" || Physical(t))
    else if r.kind == "attached_to" then
      f.rtype == "controller" && f.scope == "driver" && Physical(t) && r.source == "derived.storage"
    else if r.kind == "mounts" then LocalMount(f) && t.rtype == "filesystem"
    else if r.kind == "snapshot_of" then f.rtype == "snapshot" && (t.rtype == "filesystem" || t.rtype == "snapshot")
    else false
  }

  predicate Coherent(r: Relation, f: Object, t: Object) {
    && Known(r.acquisition) && Known(f.context) && Known(t.context)
    && SameContext(r.acquisition, f.context) && SameContext(r.acquisition, t.context)
    && SourceMatches(f) && SourceMatches(t)
    && Matches(r.boot, r.acquisition.boot) && Matches(r.session, r.acquisition.session)
  }

  // ---- Which relationships become edges (lines 213-279) ----

  /** An object, or a relationship listed by an object, in the order they are read. */
  datatype Claim = Seen(owner: Id) | Claims(owner: Id, r: Relation)

  function ClaimsOf(owned: map<Id, Object>, id: Id): seq<Claim>
    requires id in owned
  {
    [Seen(id)] + seq(|owned[id].relations|,
      i requires 0 <= i < |owned[id].relations| => Claims(id, owned[id].relations[i]))
  }

  ghost function AllClaims(owned: map<Id, Object>, order: seq<Id>): seq<Claim>
    requires forall id :: id in order ==> id in owned
  {
    if order == [] then [] else AllClaims(owned, order[..|order| - 1]) + ClaimsOf(owned, order[|order| - 1])
  }

  datatype Links = Links(edges: map<string, Edge>, reasons: map<Id, set<Reason>>)

  ghost predicate Resolves(owned: map<Id, Object>, resources: map<string, Id>) {
    forall r :: r in resources ==> resources[r] in owned
  }

  predicate Endpoints(resources: map<string, Id>, r: Relation) {
    r.from in resources && r.to in resources
  }

  /** The relationship becomes an edge. */
  ghost predicate Admissible(owned: map<Id, Object>, resources: map<string, Id>, r: Relation)
    requires Resolves(owned, resources)
  {
    && Endpoints(resources, r)
    && ValidKind(r, owned[resources[r.from]], owned[resources[r.to]])
    && Coherent(r, owned[resources[r.from]], owned[resources[r.to]])
  }

  function EdgeOf(owned: map<Id, Object>, resources: map<string, Id>, node: Node, r: Relation): Edge
    requires Endpoints(resources, r) && resources[r.from] in owned && resources[r.to] in owned
  {
    Edge(r.kind, resources[r.from], resources[r.to],
      !Current(r.acquisition, node) || r.stale
      || owned[resources[r.from]].association == "stale" || owned[resources[r.to]].association == "stale")
  }

  ghost function Linked(owned: map<Id, Object>, resources: map<string, Id>, node: Node, links: Links, c: Claim): Links
    requires Resolves(owned, resources) && c.owner in owned
  {
    match c
    case Seen(id) => if Known(owned[id].context) then links
      else links.(reasons := Note(links.reasons, id, ContextMissing))
    case Claims(owner, r) =>
      if !Endpoints(resources, r) then links.(reasons := Note(links.reasons, owner, EndpointMissing))
      else if !ValidKind(r, owned[resources[r.from]], owned[resources[r.to]]) then links
      else if !Coherent(r, owned[resources[r.from]], owned[resources[r.to]]) then
        links.(reasons := Note(Note(links.reasons, resources[r.from], ContextMismatch), resources[r.to],
          ContextMismatch))
      else links.(edges := links.edges[r.rid := EdgeOf(owned, resources, node, r)])
  }

  ghost function LinksOf(owned: map<Id, Object>, resources: map<string, Id>, node: Node, claims: seq<Claim>): Links
    requires Resolves(owned, resources) && forall i :: 0 <= i < |claims| ==> claims[i].owner in owned
  {
    if claims == [] then Links(map[], map[])
    else Linked(owned, resources, node, LinksOf(owned, resources, node, claims[..|claims| - 1]), claims[|claims| - 1])
  }

  lemma {:induction false} ClaimsOwned(owned: map<Id, Object>, order: seq<Id>)
    requires forall id :: id in order ==> id in owned
    ensures forall i :: 0 <= i < |AllClaims(owned, order)| ==> AllClaims(owned, order)[i].owner in owned
  {
    if order != [] {
      ClaimsOwned(owned, order[..|order| - 1]);
    }
  }

  lemma LinksOne(owned: map<Id, Object>, resources: map<string, Id>, node: Node, claims: seq<Claim>, c: Claim)
    requires Resolves(owned, resources) && c.owner in owned && forall i ::
      0 <= i < |claims| ==> claims[i].owner in owned
    ensures LinksOf(owned, resources, node, claims + [c])
      == Linked(owned, resources, node, LinksOf(owned, resources, node, claims), c)
  {
    assert (claims + [c])[..|claims|] == claims;
    hide Linked;
  }

  lemma LastClaim(owned: map<Id, Object>, resources: map<string, Id>, node: Node, claims: seq<Claim>, rid: string)
    requires claims != [] && Resolves(owned, resources) && forall i :: 0 <= i < |claims| ==> claims[i].owner in owned
    ensures var front, last := claims[..|claims| - 1], claims[|claims| - 1];
      var before, after := LinksOf(owned, resources, node, front).edges, LinksOf(owned, resources, node, claims).edges;
      if IsEdge(owned, resources, last, rid) then rid in after && after[rid] == EdgeOf(owned, resources, node, last.r)
      else (rid in after <==> rid in before) && (rid in before ==> after[rid] == before[rid])
  {
    hide ValidKind, Coherent, EdgeOf, Note;
  }

  /** A relationship id has an edge exactly when some relationship with that id is admissible. */
  lemma {:induction false} EdgesAreAdmissible(owned: map<Id, Object>, resources: map<string, Id>, node: Node,
          claims: seq<Claim>, rid: string)
    requires Resolves(owned, resources) && forall i :: 0 <= i < |claims| ==> claims[i].owner in owned
    ensures rid in LinksOf(owned, resources, node, claims).edges <==>
      exists i :: 0 <= i < |claims| && IsEdge(owned, resources, claims[i], rid)
    decreases |claims|
  {
    if claims != [] {
      EdgesAreAdmissible(owned, resources, node, claims[..|claims| - 1], rid);
      LastAdmissible(owned, resources, node, claims, rid);
    }
  }

  lemma LastAdmissible(owned: map<Id, Object>, resources: map<string, Id>, node: Node, claims: seq<Claim>, rid: string)
    requires Resolves(owned, resources) && forall i :: 0 <= i < |claims| ==> claims[i].owner in owned
    requires claims != []
    requires var front := claims[..|claims| - 1];
      rid in LinksOf(owned, resources, node, front).edges <==>
        exists i :: 0 <= i < |front| && IsEdge(owned, resources, front[i], rid)
    ensures rid in LinksOf(owned, resources, node, claims).edges <==>
      exists i :: 0 <= i < |claims| && IsEdge(owned, resources, claims[i], rid)
  {
    LastClaim(owned, resources, node, claims, rid);
    hide LinksOf, IsEdge;
    var front := claims[..|claims| - 1];
    if i :| 0 <= i < |claims| && IsEdge(owned, resources, claims[i], rid) {
      assert i < |front| ==> IsEdge(owned, resources, front[i], rid);
    }
    if i :| 0 <= i < |front| && IsEdge(owned, resources, front[i], rid) {
      assert IsEdge(owned, resources, claims[i], rid);
    }
  }

  /** The last admissible relationship with a given id decides what its edge is. */
  lemma {:induction false} LastAdmissibleWins(owned: map<Id, Object>, resources: map<string, Id>, node: Node,
          claims: seq<Claim>, rid: string, i: nat)
    requires Resolves(owned, resources) && forall k :: 0 <= k < |claims| ==> claims[k].owner in owned
    requires i < |claims| && IsEdge(owned, resources, claims[i], rid)
    requires forall j :: i < j < |claims| ==> !IsEdge(owned, resources, claims[j], rid)
    ensures var edges := LinksOf(owned, resources, node, claims).edges;
      rid in edges && edges[rid] == EdgeOf(owned, resources, node, claims[i].r)
    decreases |claims|
  {
    LastClaim(owned, resources, node, claims, rid);
    if i < |claims| - 1 {
      LastAdmissibleWins(owned, resources, node, claims[..|claims| - 1], rid, i);
    }
    hide LinksOf;
  }

  ghost predicate IsEdge(owned: map<Id, Object>, resources: map<string, Id>, c: Claim, rid: string)
    requires Resolves(owned, resources)
  {
    c.Claims? && c.r.rid == rid && Admissible(owned, resources, c.r)
  }

  /** Every edge joins two owned objects by a relationship of a valid kind. */
  ghost predicate EdgesValid(owned: map<Id, Object>, edges: map<string, Edge>) {
    forall rid :: rid in edges ==> EdgeValid(owned, edges[rid])
  }

  ghost predicate EdgeValid(owned: map<Id, Object>, e: Edge) {
    && e.from in owned && e.to in owned
    && exists r: Relation :: r.kind == e.kind && ValidKind(r, owned[e.from], owned[e.to])
  }

  /** No reason that only a traversal finds. */
  ghost predicate NotTraversed(reasons: map<Id, set<Reason>>) {
    forall id :: TopologyCycle !in Noted(reasons, id) && TraversalLimit !in Noted(reasons, id)
  }

  lemma {:induction false} LinksValid(owned: map<Id, Object>, resources: map<string, Id>, node: Node,
          claims: seq<Claim>)
    requires Resolves(owned, resources) && forall i :: 0 <= i < |claims| ==> claims[i].owner in owned
    ensures EdgesValid(owned, LinksOf(owned, resources, node, claims).edges)
    ensures NotTraversed(LinksOf(owned, resources, node, claims).reasons)
    decreases |claims|
  {
    hide ValidKind, Coherent, Current, Note;
    if claims != [] {
      var front := claims[..|claims| - 1];
      LinksValid(owned, resources, node, front);
      LinkedNoCycle(owned, resources, node, LinksOf(owned, resources, node, front), claims[|claims| - 1]);
    }
  }

  lemma LinkedNoCycle(owned: map<Id, Object>, resources: map<string, Id>, node: Node, links: Links, c: Claim)
    requires Resolves(owned, resources) && c.owner in owned
    requires NotTraversed(links.reasons)
    ensures NotTraversed(Linked(owned, resources, node, links, c).reasons)
  {
    hide ValidKind, Coherent;
    match c {
      case Seen(id) => NoteOther(links.reasons, id, ContextMissing);
      case Claims(owner, r) =>
        NoteOther(links.reasons, owner, EndpointMissing);
        if Endpoints(resources, r) {
          NoteOther(links.reasons, resources[r.from], ContextMismatch);
          NoteOther(Note(links.reasons, resources[r.from], ContextMismatch), resources[r.to], ContextMismatch);
        }
    }
  }

  lemma NoteOther(reasons: map<Id, set<Reason>>, id: Id, reason: Reason)
    requires NotTraversed(reasons) && !reason.TopologyCycle? && !reason.TraversalLimit?
    ensures NotTraversed(Note(reasons, id, reason))
  {
    forall x ensures TopologyCycle !in Noted(Note(reasons, id, reason), x)
      && TraversalLimit !in Noted(Note(reasons, id, reason), x) {
      assert TopologyCycle !in Noted(reasons, x) && TraversalLimit !in Noted(reasons, x);
    }
  }

  method Relate(owned: map<Id, Object>, order: seq<Id>, resources: map<string, Id>, node: Node) returns (links: Links)
    requires Resolves(owned, resources) && forall id :: id in order ==> id in owned
    ensures forall i :: 0 <= i < |AllClaims(owned, order)| ==> AllClaims(owned, order)[i].owner in owned
    ensures links == LinksOf(owned, resources, node, AllClaims(owned, order))
  {
    hide ValidKind, Coherent, Known, Current, Note, AllClaims, LinksOf;
    ClaimsOwned(owned, order);
    var edges: map<string, Edge> := map[];
    var reasons: map<Id, set<Reason>> := map[];
    ghost var claims: seq<Claim> := [];
    assert claims == AllClaims(owned, order[..0])
      && Links(edges, reasons) == LinksOf(owned, resources, node, claims) by {
      NoClaims(owned, resources, node, order[..0]);
    }
    for i := 0 to |order|
      invariant forall k :: 0 <= k < |claims| ==> claims[k].owner in owned
      invariant claims == AllClaims(owned, order[..i])
      invariant Links(edges, reasons) == LinksOf(owned, resources, node, claims)
    {
      var id := order[i];
      MoreClaims(owned, order, i);
      ghost var before := claims;
      LinksOne(owned, resources, node, claims, Seen(id));
      claims := claims + [Seen(id)];
      if !Known(owned[id].context) {
        reasons := Note(reasons, id, ContextMissing);
      }
      for j := 0 to |owned[id].relations|
        invariant claims == before + ClaimsOf(owned, id)[..j + 1]
        invariant forall k :: 0 <= k < |claims| ==> claims[k].owner in owned
        invariant Links(edges, reasons) == LinksOf(owned, resources, node, claims)
      {
        var raw := owned[id].relations[j];
        LinksOne(owned, resources, node, claims, Claims(id, raw));
        OneClaim(owned, id, before, j);
        claims := claims + [Claims(id, raw)];
        if raw.from !in resources || raw.to !in resources {
          reasons := Note(reasons, id, EndpointMissing);
          continue;
        }
        var f, t := owned[resources[raw.from]], owned[resources[raw.to]];
        if !ValidKind(raw, f, t) {
          continue;
        }
        if !Coherent(raw, f, t) {
          reasons := Note(reasons, resources[raw.from], ContextMismatch);
          reasons := Note(reasons, resources[raw.to], ContextMismatch);
          continue;
        }
        edges := edges[raw.rid := EdgeOf(owned, resources, node, raw)];
      }
      assert ClaimsOf(owned, id)[..|owned[id].relations| + 1] == ClaimsOf(owned, id);
    }
    assert order[..|order|] == order;
    links := Links(edges, reasons);
  }

  lemma NoClaims(owned: map<Id, Object>, resources: map<string, Id>, node: Node, none: seq<Id>)
    requires Resolves(owned, resources) && none == []
    ensures AllClaims(owned, none) == [] && LinksOf(owned, resources, node, []) == Links(map[], map[])
  {
  }

  lemma MoreClaims(owned: map<Id, Object>, order: seq<Id>, i: nat)
    requires i < |order| && forall id :: id in order ==> id in owned
    ensures AllClaims(owned, order[..i + 1]) == AllClaims(owned, order[..i]) + ClaimsOf(owned, order[i])
  {
    assert order[..i + 1][..i] == order[..i];
  }

  lemma OneClaim(owned: map<Id, Object>, id: Id, before: seq<Claim>, j: nat)
    requires id in owned && j < |owned[id].relations|
    ensures before + ClaimsOf(owned, id)[..j + 2] ==
      before + ClaimsOf(owned, id)[..j + 1] + [Claims(id, owned[id].relations[j])]
  {
    assert ClaimsOf(owned, id)[..j + 2] == ClaimsOf(owned, id)[..j + 1] + [ClaimsOf(owned, id)[j + 1]];
  }

  // ---- The child-to-parent graph (lines 281-293) ----

  function Child(e: Edge): Id {
    if e.kind == "contains" then e.to else e.from
  }

  function Parent(e: Edge): Id {
    if e.kind == "contains" then e.from else e.to
  }

  ghost predicate IsParentGraph(edges: map<string, Edge>, parents: Parents) {
    forall c, p :: p in Next(parents, c) <==> exists rid ::
      rid in edges && Child(edges[rid]) == c && Parent(edges[rid]) == p
  }

  method ParentGraph(edges: map<string, Edge>) returns (parents: Parents)
    ensures IsParentGraph(edges, parents)
  {
    parents := map[];
    ghost var done: map<string, Edge> := map[];
    var rest := edges.Keys;
    while rest != {}
      invariant rest <= edges.Keys && done == edges - rest
      invariant IsParentGraph(done, parents)
      decreases |rest|
    {
      var rid :| rid in rest;
      var e := edges[rid];
      ParentAdded(done, parents, rid, e);
      parents := parents[Child(e) := Next(parents, Child(e)) + {Parent(e)}];
      done := done[rid := e];
      rest := rest - {rid};
    }
    assert done == edges;
  }

  lemma ParentAdded(edges: map<string, Edge>, parents: Parents, rid: string, e: Edge)
    requires IsParentGraph(edges, parents) && rid !in edges
    ensures IsParentGraph(edges[rid := e], parents[Child(e) := Next(parents, Child(e)) + {Parent(e)}])
  {
    var edges' := edges[rid := e];
    var parents' := parents[Child(e) := Next(parents, Child(e)) + {Parent(e)}];
    forall c, p
      ensures p in Next(parents', c) <==> exists q :: q in edges' && Child(edges'[q]) == c && Parent(edges'[q]) == p
    {
      if p in Next(parents, c) {
        var q :| q in edges && Child(edges[q]) == c && Parent(edges[q]) == p;
        assert q in edges' && edges'[q] == edges[q];
      } else if c == Child(e) && p == Parent(e) {
        assert rid in edges' && edges'[rid] == e;
      }
    }
  }

  /** No valid relationship makes a physical disk somebody's child: traversals may stop at one. */
  lemma NoPhysicalChild(owned: map<Id, Object>, e: Edge)
    requires EdgeValid(owned, e)
    ensures Child(e) in owned && Parent(e) in owned && !Physical(owned[Child(e)])
  {
  }

  ghost function Disks(owned: map<Id, Object>): set<Id> {
    set id | id in owned && Physical(owned[id])
  }

  lemma TopologyOk(owned: map<Id, Object>, edges: map<string, Edge>, parents: Parents)
    requires EdgesValid(owned, edges) && IsParentGraph(edges, parents)
    ensures Topology(parents, Disks(owned), owned.Keys)
  {
    forall c, p | p in Next(parents, c) ensures p in owned && c !in Disks(owned) {
      ParentEdge(owned, edges, parents, c, p);
    }
    hide IsParentGraph, EdgesValid, Next;
    forall c | c in owned ensures Next(parents, c) <= owned.Keys {
      forall p | p in Next(parents, c) ensures p in owned.Keys {
      }
    }
    forall r | r in Disks(owned) ensures Next(parents, r) == {} {
      if p :| p in Next(parents, r) {
        assert false;
      }
    }
  }

  lemma ParentEdge(owned: map<Id, Object>, edges: map<string, Edge>, parents: Parents, c: Id, p: Id)
    requires EdgesValid(owned, edges) && IsParentGraph(edges, parents) && p in Next(parents, c)
    ensures c in owned && p in owned && !Physical(owned[c])
  {
    var rid :| rid in edges && Child(edges[rid]) == c && Parent(edges[rid]) == p;
    NoPhysicalChild(owned, edges[rid]);
  }

  // ---- What one disk may claim (lines 453-545) ----

  predicate IsPool(o: Object) {
    o.rtype == "apfs_container" || o.rtype == "storage_pool"
  }

  function Members(membership: map<Id, set<Id>>, disk: Id): set<Id> {
    set o | o in membership && o != disk && disk in membership[o]
  }

  function Pools(owned: map<Id, Object>, membership: map<Id, set<Id>>, disk: Id): set<Id> {
    set o | o in Members(membership, disk) && o in owned && IsPool(owned[o])
  }

  function Exclusive(owned: map<Id, Object>, membership: map<Id, set<Id>>, reasons: map<Id, set<Reason>>,
          disk: Id): set<Id> {
    set o | o in Pools(owned, membership, disk) && |membership[o]| == 1 && Noted(reasons, o) == {}
  }

  function DriverEdges(edges: map<string, Edge>, disk: Id): set<string> {
    set rid | rid in edges && edges[rid].kind == "attached_to" && edges[rid].to == disk
  }

  function Targets(edges: map<string, Edge>, driver: Id): set<Id> {
    set rid | rid in edges && edges[rid].kind == "attached_to" && edges[rid].from == driver :: edges[rid].to
  }

  predicate Fanout(edges: map<string, Edge>, disk: Id) {
    exists rid :: rid in DriverEdges(edges, disk) && |Targets(edges, edges[rid].from)| > 1
  }

  datatype LinkState = Ambiguous | Unresolved | StaleLink | Resolved(driver: Id)

  /** The driver whose counters may be shown for a disk. */
  ghost function DriverLink(owned: map<Id, Object>, edges: map<string, Edge>, node: Node, inventoryOk: bool,
          disk: Id): LinkState
    requires disk in owned
  {
    var candidates := DriverEdges(edges, disk);
    if owned[disk].association == "ambiguous" || |candidates| > 1 || Fanout(edges, disk) then Ambiguous
    else if candidates == {} then Unresolved
    else
      var rid :| rid in candidates;
      if !inventoryOk || edges[rid].stale || !node.online then StaleLink else Resolved(edges[rid].from)
  }

  // ---- The whole index ----

  datatype Index = Index(edges: map<string, Edge>, parents: Parents, membership: map<Id, set<Id>>,
    reasons: map<Id, set<Reason>>)

  /** Ownership is exact for every object whose traversal was not cut short, and a cut is recorded. */
  ghost predicate IndexOk(owned: map<Id, Object>, index: Index) {
    && EdgesValid(owned, index.edges) && IsParentGraph(index.edges, index.parents)
    && index.membership.Keys == owned.Keys
    && forall id :: id in owned ==> OwnershipOk(owned, index, id)
  }

  ghost predicate OwnershipOk(owned: map<Id, Object>, index: Index, id: Id)
    requires id in index.membership
  {
    && index.membership[id] <= Owners(index.parents, Disks(owned), id)
    && (TraversalLimit !in Noted(index.reasons, id) ==> index.membership[id] == Owners(index.parents, Disks(owned), id))
    && (TraversalLimit in Noted(index.reasons, id) ==> |Above(index.parents, owned.Keys, id)| > MAX_TRAVERSAL)
    && (Wide(index.parents, Disks(owned), owned.Keys, id) ==> TraversalLimit in Noted(index.reasons, id))
    && (TopologyCycle in Noted(index.reasons, id) <==> Tainted(index.parents, id))
  }

  /** For each resource name the greatest owned object that carries it. */
  ghost predicate ResourcesOk(owned: map<Id, Object>, resources: map<string, Id>) {
    && (forall r :: r in resources ==> resources[r] in owned && owned[resources[r]].resource == Some(r))
    && (forall id :: id in owned && owned[id].resource.Some? ==>
          owned[id].resource.value in resources && id <= resources[owned[id].resource.value])
  }

  /** The keys of a BTreeMap, in order. */
  method SortedKeys(owned: map<Id, Object>) returns (order: seq<Id>)
    ensures forall id :: id in order <==> id in owned
    ensures forall i, j :: 0 <= i < j < |order| ==> order[i] < order[j]
    ensures |order| == |owned|
  {
    order := [];
    var rest := owned.Keys;
    while rest != {}
      invariant rest <= owned.Keys && |order| + |rest| == |owned|
      invariant forall id :: id in order <==> id in owned.Keys - rest
      invariant forall i, j :: 0 <= i < j < |order| ==> order[i] < order[j]
      invariant forall x, y :: x in order && y in rest ==> x < y
      decreases |rest|
    {
      var least := Least(rest);
      forall i | 0 <= i < |order| ensures order[i] < least {
        assert order[i] in order;
      }
      order, rest := order + [least], rest - {least};
    }
  }

  method Least(s: set<Id>) returns (least: Id)
    requires s != {}
    ensures least in s && forall x :: x in s ==> least <= x
  {
    least :| least in s;
    var rest := s - {least};
    while rest != {}
      invariant rest <= s && least in s && forall x :: x in s && x !in rest ==> least <= x
      decreases |rest|
    {
      var x :| x in rest;
      if x < least {
        least := x;
      }
      rest := rest - {x};
    }
  }

  method Resources(owned: map<Id, Object>, order: seq<Id>) returns (resources: map<string, Id>)
    requires forall id :: id in order <==> id in owned
    requires forall i, j :: 0 <= i < j < |order| ==> order[i] < order[j]
    ensures ResourcesOk(owned, resources)
  {
    resources := map[];
    for i := 0 to |order|
      invariant forall r :: r in resources ==> resources[r] in order[..i] && owned[resources[r]].resource == Some(r)
      invariant forall id :: id in order[..i] && owned[id].resource.Some? ==>
        owned[id].resource.value in resources && id <= resources[owned[id].resource.value]
    {
      var id := order[i];
      assert order[..i + 1] == order[..i] + [id];
      if owned[id].resource.Some? {
        resources := resources[owned[id].resource.value := id];
      }
    }
    assert order[..|order|] == order;
  }

  /** The keys in order, each once. */
  ghost predicate Listing(owned: map<Id, Object>, order: seq<Id>) {
    && (forall id :: id in order <==> id in owned)
    && (forall i, j :: 0 <= i < j < |order| ==> order[i] < order[j])
  }

  /** What was recorded about an object while its relationships were read is still recorded. */
  ghost predicate StillNoted(before: map<Id, set<Reason>>, after: map<Id, set<Reason>>, id: Id) {
    && (ContextMissing in Noted(after, id) <==> ContextMissing in Noted(before, id))
    && (EndpointMissing in Noted(after, id) <==> EndpointMissing in Noted(before, id))
    && (ContextMismatch in Noted(after, id) <==> ContextMismatch in Noted(before, id))
  }

  method BuildIndex(owned: map<Id, Object>, node: Node)
    returns (index: Index, ghost order: seq<Id>, ghost claims: seq<Claim>, ghost resources: map<string, Id>)
    ensures IndexOk(owned, index) && ResourcesOk(owned, resources)
    ensures Listing(owned, order) && claims == AllClaims(owned, order)
    ensures forall i :: 0 <= i < |claims| ==> claims[i].owner in owned
    ensures forall id :: id in owned ==> forall i ::
      0 <= i < |owned[id].relations| ==> Claims(id, owned[id].relations[i]) in claims
    ensures Resolves(owned, resources) && index.edges == LinksOf(owned, resources, node, claims).edges
    ensures forall id :: id in owned ==>
      StillNoted(LinksOf(owned, resources, node, claims).reasons, index.reasons, id)
  {
    var keys := SortedKeys(owned);
    order := keys;
    var byName := Resources(owned, keys);
    resources := byName;
    var links := Relate(owned, keys, byName, node);
    claims := AllClaims(owned, order);
    forall id, i | id in owned && 0 <= i < |owned[id].relations| ensures Claims(id, owned[id].relations[i]) in claims {
      Claimed(owned, order, id, i);
    }
    LinksValid(owned, byName, node, claims);
    hide LinksOf, EdgesValid, AllClaims, ResourcesOk, IndexOk, StillNoted;
    index := Project(owned, keys, links);
  }

  /** From edges to ownership. */
  method Project(owned: map<Id, Object>, order: seq<Id>, links: Links) returns (index: Index)
    requires forall id :: id in order <==> id in owned
    requires |order| == |owned| && forall i, j :: 0 <= i < j < |order| ==> order[i] < order[j]
    requires EdgesValid(owned, links.edges)
    requires NotTraversed(links.reasons)
    ensures IndexOk(owned, index) && index.edges == links.edges
    ensures forall id :: id in owned ==> StillNoted(links.reasons, index.reasons, id)
  {
    hide EdgesValid, StillNoted, IsParentGraph, Topology, Owners, ReasonsAre, Physical, OwnershipOk, Above, Wide;
    var parents := ParentGraph(links.edges);
    TopologyOk(owned, links.edges, parents);
    var disks := set id | id in owned && Physical(owned[id]);
    assert disks == Disks(owned);
    var membership, reasons, limited := Membership(order, owned.Keys, parents, disks, links.reasons);
    index := Index(links.edges, parents, membership, reasons);
    forall id | id in owned ensures OwnershipOk(owned, index, id) && StillNoted(links.reasons, index.reasons, id) {
      OwnershipFrom(owned, index, links.reasons, limited, id);
    }
  }

  lemma OwnershipFrom(owned: map<Id, Object>, index: Index, before: map<Id, set<Reason>>, limited: set<Id>, id: Id)
    requires id in index.membership && TopologyCycle !in Noted(before, id) && TraversalLimit !in Noted(before, id)
    requires ReasonsAre(index.parents, before, index.reasons, limited, id)
    requires index.membership[id] <= Owners(index.parents, Disks(owned), id)
    requires id !in limited ==> index.membership[id] == Owners(index.parents, Disks(owned), id)
    requires id in limited ==> |Above(index.parents, owned.Keys, id)| > MAX_TRAVERSAL
    requires Wide(index.parents, Disks(owned), owned.Keys, id) ==> id in limited
    ensures OwnershipOk(owned, index, id) && StillNoted(before, index.reasons, id)
  {
    hide Owners, Tainted, Noted, Above, Wide, Disks;
  }

  lemma {:induction false} Claimed(owned: map<Id, Object>, order: seq<Id>, id: Id, i: nat)
    requires forall x :: x in order ==> x in owned
    requires id in order && i < |owned[id].relations|
    ensures Claims(id, owned[id].relations[i]) in AllClaims(owned, order)
  {
    var last := order[|order| - 1];
    if id == last {
      assert ClaimsOf(owned, id)[i + 1] == Claims(id, owned[id].relations[i]);
    } else {
      assert id in order[..|order| - 1];
      Claimed(owned, order[..|order| - 1], id, i);
    }
  }

  // ---- Main results ----

  /** A pool shown as exclusive to a disk reaches that disk and no other, and nothing above it is
      cyclic; so no pool is exclusive to two disks. */
  lemma ExclusivePoolOneDisk(owned: map<Id, Object>, index: Index, pool: Id, disk: Id)
    requires IndexOk(owned, index) && disk in Disks(owned) && pool in owned
    ensures pool in Exclusive(owned, index.membership, index.reasons, disk) <==>
      && IsPool(owned[pool]) && Noted(index.reasons, pool) == {}
      && RootsOf(index.parents, Disks(owned), pool) == {disk} && !Tainted(index.parents, pool)
  {
    hide Tainted, RootsOf, EdgesValid, IsParentGraph, Above, Wide;
    assert OwnershipOk(owned, index, pool);
    if pool in Exclusive(owned, index.membership, index.reasons, disk) {
      Singleton(index.membership[pool], disk);
    }
  }

  lemma Singleton(s: set<Id>, x: Id)
    requires |s| <= 1 && x in s
    ensures s == {x}
  {
    assert |s - {x}| == 0;
    assert s == (s - {x}) + {x};
  }

  lemma PoolNotExclusiveToTwo(owned: map<Id, Object>, index: Index, pool: Id, disk: Id, other: Id)
    requires IndexOk(owned, index) && disk in Disks(owned) && other in Disks(owned)
    requires pool in Exclusive(owned, index.membership, index.reasons, disk)
    requires pool in Exclusive(owned, index.membership, index.reasons, other)
    ensures disk == other
  {
    ExclusivePoolOneDisk(owned, index, pool, disk);
    ExclusivePoolOneDisk(owned, index, pool, other);
    hide IndexOk, Exclusive, RootsOf, Tainted;
    assert other in {disk};
  }

  lemma ResolvedTargets(owned: map<Id, Object>, edges: map<string, Edge>, node: Node, inventoryOk: bool, disk: Id)
    requires disk in owned && DriverLink(owned, edges, node, inventoryOk, disk).Resolved?
    ensures Targets(edges, DriverLink(owned, edges, node, inventoryOk, disk).driver) == {disk}
  {
    var driver := DriverLink(owned, edges, node, inventoryOk, disk).driver;
    var rid :| rid in DriverEdges(edges, disk) && edges[rid].from == driver;
    assert disk in Targets(edges, driver);
    assert |Targets(edges, driver)| <= 1;
    Singleton(Targets(edges, driver), disk);
  }

  /** A resolved driver is linked to one disk only. */
  lemma ResolvedDriverOneDisk(owned: map<Id, Object>, edges: map<string, Edge>, node: Node, inventoryOk: bool,
          disk: Id, other: Id)
    requires disk in owned && other in owned
    requires DriverLink(owned, edges, node, inventoryOk, disk).Resolved?
    requires DriverLink(owned, edges, node, inventoryOk, other) == DriverLink(owned, edges, node, inventoryOk, disk)
    ensures disk == other
  {
    ResolvedTargets(owned, edges, node, inventoryOk, disk);
    ResolvedTargets(owned, edges, node, inventoryOk, other);
    hide DriverLink;
    assert other in {disk};
  }

  /** A driver has no parents but the disks it is attached to. */
  lemma DriverParents(owned: map<Id, Object>, index: Index, driver: Id)
    requires IndexOk(owned, index) && driver in owned && owned[driver].rtype == "controller"
    ensures Next(index.parents, driver) == Targets(index.edges, driver)
  {
    hide Targets;
    forall p | p in Next(index.parents, driver) ensures p in Targets(index.edges, driver) {
      DriverParent(owned, index, driver, p);
    }
    forall p | p in Targets(index.edges, driver) ensures p in Next(index.parents, driver) {
      DriverTarget(index.edges, index.parents, driver, p);
    }
  }

  lemma DriverParent(owned: map<Id, Object>, index: Index, driver: Id, p: Id)
    requires IndexOk(owned, index) && driver in owned && owned[driver].rtype == "controller"
      && p in Next(index.parents, driver)
    ensures p in Targets(index.edges, driver)
  {
    var rid :| rid in index.edges && Child(index.edges[rid]) == driver && Parent(index.edges[rid]) == p;
    assert EdgeValid(owned, index.edges[rid]);
    hide IndexOk, EdgesValid, IsParentGraph, EdgeValid, Child, Parent;
    ControllerEdge(owned, index.edges[rid]);
  }

  lemma ControllerEdge(owned: map<Id, Object>, e: Edge)
    requires EdgeValid(owned, e) && Child(e) in owned && owned[Child(e)].rtype == "controller"
    ensures e.kind == "attached_to" && e.from == Child(e) && e.to == Parent(e)
  {
  }

  lemma DriverTarget(edges: map<string, Edge>, parents: Parents, driver: Id, p: Id)
    requires IsParentGraph(edges, parents) && p in Targets(edges, driver)
    ensures p in Next(parents, driver)
  {
    var rid :| rid in edges && edges[rid].kind == "attached_to" && edges[rid].from == driver && edges[rid].to == p;
    assert Child(edges[rid]) == driver && Parent(edges[rid]) == p;
  }

  lemma DriverIsController(owned: map<Id, Object>, index: Index, node: Node, inventoryOk: bool, disk: Id)
    requires IndexOk(owned, index) && disk in owned && DriverLink(owned, index.edges, node, inventoryOk, disk).Resolved?
    ensures var driver := DriverLink(owned, index.edges, node, inventoryOk, disk).driver;
      driver in owned && owned[driver].rtype == "controller" && owned[driver].scope == "driver"
  {
    var driver := DriverLink(owned, index.edges, node, inventoryOk, disk).driver;
    var rid :| rid in DriverEdges(index.edges, disk) && index.edges[rid].from == driver;
    assert EdgeValid(owned, index.edges[rid]);
  }

  /** A driver resolved for a disk is owned by that disk alone: the traffic shown for the disk is
      never that of another one. */
  lemma ResolvedDriverBelongs(owned: map<Id, Object>, index: Index, node: Node, inventoryOk: bool, disk: Id)
    requires IndexOk(owned, index) && disk in Disks(owned)
    requires DriverLink(owned, index.edges, node, inventoryOk, disk).Resolved?
    ensures index.membership[DriverLink(owned, index.edges, node, inventoryOk, disk).driver] == {disk}
  {
    var driver := DriverLink(owned, index.edges, node, inventoryOk, disk).driver;
    DriverIsController(owned, index, node, inventoryOk, disk);
    ResolvedTargets(owned, index.edges, node, inventoryOk, disk);
    DriverParents(owned, index, driver);
    TopologyOk(owned, index.edges, index.parents);
    assert OwnershipOk(owned, index, driver);
    OnlyParent(index.parents, Disks(owned), driver, disk);
  }

  lemma OnlyParent(parents: Parents, roots: set<Id>, driver: Id, disk: Id)
    requires Next(parents, driver) == {disk} && Next(parents, disk) == {} && driver !in roots && disk in roots
    ensures Owners(parents, roots, driver) == {disk}
    ensures forall owned: set<Id> :: |Above(parents, owned, driver)| <= 2
  {
    hide Reach;
    ReachItself(parents, driver);
    ReachOneMore(parents, driver, driver, disk);
    forall x | Reach(parents, driver, x) ensures x == driver || x == disk {
      ClosedReach(parents, {driver, disk}, driver, x);
    }
    forall owned: set<Id> ensures |Above(parents, owned, driver)| <= 2 {
      SubsetSize(Above(parents, owned, driver), {driver, disk});
    }
    if Tainted(parents, driver) {
      var c :| Reach(parents, driver, c) && OnCycle(parents, c);
      var n :| n in Next(parents, c) && Reach(parents, n, c);
      ClosedReach(parents, {disk}, disk, c);
      assert false;
    }
  }
}
