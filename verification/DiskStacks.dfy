/**
 Which disk an object stands on (server/src/disk_view.rs:58-98 and 188-367), stated on the objects and the
 relationships they list, and what the index makes of it.
 */
module DiskStacks {
  import opened Wrappers
  import opened Graph
  import opened Ownership
  import opened DiskIndex

  // ---- What may rest on what ----

  predicate IsDisk(o: Object) {
    o.rtype == "physical_device" && o.source == "diskutil.list.physical"
  }

  predicate IsBacking(o: Object) {
    o.rtype == "media" || IsDisk(o)
  }

  /** A mounted file system of this machine, not a network or a pseudo file system. */
  predicate IsLocal(o: Object) {
    && o.local && o.kind != "nfs_mount"
    && o.filesystem != "nfs" && o.filesystem != "nfs4" && o.filesystem != "smbfs" && o.filesystem != "cifs"
    && o.filesystem != "webdav" && o.filesystem != "autofs" && o.filesystem != "devfs" && o.filesystem != "tmpfs"
    && o.filesystem != "ramfs"
  }

  /** A local mount whose source is the device node of a whole disk. */
  predicate MountsDevice(r: Relation, child: Object, parent: Object) {
    && r.kind == "backed_by" && r.source == "derived.storage" && child.filesystem != "apfs"
    && IsBacking(parent) && parent.source == "diskutil.list.physical"
    && parent.bsdName.Some? && child.source == "/dev/" + parent.bsdName.value
  }

  /** The child rests on the parent by a relationship of this kind: told by what the child is. */
  predicate Rests(r: Relation, child: Object, parent: Object) {
    if child.rtype == "media" then
      (r.kind == "contains" && IsDisk(parent)) || (r.kind == "backed_by" && IsBacking(parent))
    else if child.rtype == "apfs_container" || child.rtype == "storage_pool" then
      r.kind == "backed_by" && IsBacking(parent)
    else if child.rtype == "filesystem" then
      || (r.kind == "contains" && (parent.rtype == "apfs_container" || parent.rtype == "storage_pool"))
      || (r.kind == "backed_by" && IsBacking(parent))
    else if child.rtype == "mount" then
      IsLocal(child) && ((r.kind == "mounts" && parent.rtype == "filesystem") || MountsDevice(r, child, parent))
    else if child.rtype == "snapshot" then
      r.kind == "snapshot_of" && (parent.rtype == "filesystem" || parent.rtype == "snapshot")
    else if child.rtype == "controller" then
      r.kind == "attached_to" && child.scope == "driver" && r.source == "derived.storage" && IsDisk(parent)
    else false
  }

  /** Containment is named from the parent's side, everything else from the child's. */
  predicate Fits(r: Relation, f: Object, t: Object) {
    if r.kind == "contains" then Rests(r, t, f) else Rests(r, f, t)
  }

  predicate Whole(c: Context) {
    c.schema == 1 && c.boot != "" && c.generation != "" && c.session != ""
  }

  /** The relationship and both its ends were acquired together. */
  predicate Together(r: Relation, f: Object, t: Object) {
    var c := r.acquisition;
    && Whole(c) && f.context == c && t.context == c
    && (r.boot.Some? ==> r.boot.value == c.boot) && (r.session.Some? ==> r.session.value == c.session)
    && (f.observedBoot.Some? ==> f.observedBoot.value == c.boot)
    && (t.observedBoot.Some? ==> t.observedBoot.value == c.boot)
    && (f.observedSession.Some? ==> f.observedSession.value == c.session)
    && (t.observedSession.Some? ==> t.observedSession.value == c.session)
  }

  lemma FitsIs(r: Relation, f: Object, t: Object)
    ensures Fits(r, f, t) <==> ValidKind(r, f, t)
  {
  }

  lemma TogetherIs(r: Relation, f: Object, t: Object)
    ensures Together(r, f, t) <==> Coherent(r, f, t)
  {
  }

  // ---- The relationships of a node ----

  /** A relationship listed by an object; at == -1 stands for the object itself. */
  datatype Place = Place(owner: Id, at: int)

  predicate InPlace(owned: map<Id, Object>, p: Place) {
    p.owner in owned && -1 <= p.at < |owned[p.owner].relations|
  }

  predicate Listed(owned: map<Id, Object>, p: Place) {
    p.owner in owned && 0 <= p.at < |owned[p.owner].relations|
  }

  function At(owned: map<Id, Object>, p: Place): Relation
    requires Listed(owned, p)
  {
    owned[p.owner].relations[p.at]
  }

  /** Objects are read in the order of their ids, their relationships in the order listed. */
  predicate Before(p: Place, q: Place) {
    p.owner < q.owner || (p.owner == q.owner && p.at < q.at)
  }

  /** A name stands for the greatest object that carries it. */
  ghost predicate Named(owned: map<Id, Object>, name: string, id: Id) {
    && id in owned && owned[id].resource == Some(name)
    && forall x :: x in owned && owned[x].resource == Some(name) ==> x <= id
  }

  ghost predicate Ends(owned: map<Id, Object>, r: Relation, f: Id, t: Id) {
    Named(owned, r.from, f) && Named(owned, r.to, t)
  }

  ghost predicate Accepted(owned: map<Id, Object>, r: Relation, f: Id, t: Id) {
    Ends(owned, r, f, t) && Fits(r, owned[f], owned[t]) && Together(r, owned[f], owned[t])
  }

  ghost predicate Taken(owned: map<Id, Object>, p: Place) {
    Listed(owned, p) && exists f, t :: Accepted(owned, At(owned, p), f, t)
  }

  /** The last accepted relationship with its id, and its ends. */
  ghost predicate Standing(owned: map<Id, Object>, p: Place, f: Id, t: Id) {
    && Listed(owned, p) && Accepted(owned, At(owned, p), f, t)
    && forall q :: Before(p, q) && Taken(owned, q) ==> At(owned, q).rid != At(owned, p).rid
  }

  /** Nothing about the relationship or its ends is out of date. */
  predicate Fresh(owned: map<Id, Object>, node: Node, r: Relation, f: Id, t: Id)
    requires f in owned && t in owned
  {
    && r.acquisition == Context(1, node.boot, node.generation, node.session) && !r.stale
    && owned[f].association != "stale" && owned[t].association != "stale"
  }

  /** What BuildIndex promises. */
  ghost predicate Built(owned: map<Id, Object>, node: Node, index: Index, order: seq<Id>, resources: map<string, Id>) {
    && IndexOk(owned, index) && ResourcesOk(owned, resources) && Resolves(owned, resources)
    && Listing(owned, order) && Owned(owned, AllClaims(owned, order))
    && index.edges == LinksOf(owned, resources, node, AllClaims(owned, order)).edges
    && forall id :: id in owned ==>
         StillNoted(LinksOf(owned, resources, node, AllClaims(owned, order)).reasons, index.reasons, id)
  }

  ghost predicate Owned(owned: map<Id, Object>, claims: seq<Claim>) {
    forall i :: 0 <= i < |claims| ==> claims[i].owner in owned
  }

  /** The index of any node, with its promises. */
  method Build(owned: map<Id, Object>, node: Node)
    returns (index: Index, ghost order: seq<Id>, ghost resources: map<string, Id>)
    ensures Built(owned, node, index, order, resources)
  {
    ghost var claims: seq<Claim>;
    index, order, claims, resources := BuildIndex(owned, node);
  }

  lemma NamedIs(owned: map<Id, Object>, resources: map<string, Id>, name: string, id: Id)
    requires ResourcesOk(owned, resources)
    ensures Named(owned, name, id) <==> name in resources && resources[name] == id
  {
  }

  lemma AcceptedIs(owned: map<Id, Object>, resources: map<string, Id>, r: Relation, f: Id, t: Id)
    requires ResourcesOk(owned, resources) && Resolves(owned, resources)
    ensures Accepted(owned, r, f, t) <==>
      Admissible(owned, resources, r) && resources[r.from] == f && resources[r.to] == t
  {
    NamedIs(owned, resources, r.from, f);
    NamedIs(owned, resources, r.to, t);
    hide Named, ResourcesOk, Fits, Together, ValidKind, Coherent;
    if f in owned && t in owned {
      FitsIs(r, owned[f], owned[t]);
      TogetherIs(r, owned[f], owned[t]);
    }
  }

  // ---- The claims are the places in order ----

  function ClaimAt(owned: map<Id, Object>, p: Place): Claim
    requires InPlace(owned, p)
  {
    if p.at == -1 then Seen(p.owner) else Claims(p.owner, owned[p.owner].relations[p.at])
  }

  ghost function PlacesOf(owned: map<Id, Object>, id: Id): seq<Place>
    requires id in owned
  {
    seq(|owned[id].relations| + 1, i => Place(id, i - 1))
  }

  ghost function Places(owned: map<Id, Object>, order: seq<Id>): seq<Place>
    requires forall id :: id in order ==> id in owned
  {
    if order == [] then [] else Places(owned, order[..|order| - 1]) + PlacesOf(owned, order[|order| - 1])
  }

  ghost predicate SamePlaces(owned: map<Id, Object>, claims: seq<Claim>, places: seq<Place>) {
    && |claims| == |places|
    && forall i :: 0 <= i < |places| ==> InPlace(owned, places[i]) && claims[i] == ClaimAt(owned, places[i])
  }

  ghost predicate Ascending(places: seq<Place>) {
    forall i, j :: 0 <= i < j < |places| ==> Before(places[i], places[j])
  }

  lemma {:induction false} PlacesAre(owned: map<Id, Object>, order: seq<Id>)
    requires forall id :: id in order ==> id in owned
    ensures SamePlaces(owned, AllClaims(owned, order), Places(owned, order))
  {
    if order != [] {
      PlacesAre(owned, order[..|order| - 1]);
    }
  }

  lemma {:induction false} PlacesWithin(owned: map<Id, Object>, order: seq<Id>)
    requires forall id :: id in order ==> id in owned
    ensures forall i :: 0 <= i < |Places(owned, order)| ==> Places(owned, order)[i].owner in order
  {
    if order != [] {
      PlacesWithin(owned, order[..|order| - 1]);
    }
  }

  lemma {:induction false} PlacesAscend(owned: map<Id, Object>, order: seq<Id>)
    requires forall id :: id in order ==> id in owned
    requires forall i, j :: 0 <= i < j < |order| ==> order[i] < order[j]
    ensures Ascending(Places(owned, order))
  {
    if order != [] {
      PlacesAscend(owned, order[..|order| - 1]);
      PlacesWithin(owned, order[..|order| - 1]);
    }
  }

  lemma {:induction false} PlaceFound(owned: map<Id, Object>, order: seq<Id>, p: Place) returns (i: nat)
    requires forall id :: id in order ==> id in owned
    requires InPlace(owned, p) && p.owner in order
    ensures i < |Places(owned, order)| && Places(owned, order)[i] == p
  {
    var last := order[|order| - 1];
    if p.owner == last {
      i := |Places(owned, order[..|order| - 1])| + p.at + 1;
      assert PlacesOf(owned, last)[p.at + 1] == p;
    } else {
      assert p.owner in order[..|order| - 1];
      i := PlaceFound(owned, order[..|order| - 1], p);
    }
  }

  // ---- Edges ----

  function EdgeAt(owned: map<Id, Object>, node: Node, r: Relation, f: Id, t: Id): Edge
    requires f in owned && t in owned
  {
    Edge(r.kind, f, t, !Fresh(owned, node, r, f, t))
  }

  lemma EdgeIs(owned: map<Id, Object>, resources: map<string, Id>, node: Node, r: Relation)
    requires Resolves(owned, resources) && Admissible(owned, resources, r)
    ensures EdgeOf(owned, resources, node, r) == EdgeAt(owned, node, r, resources[r.from], resources[r.to])
  {
    hide ValidKind;
  }

  lemma LastOf(owned: map<Id, Object>, resources: map<string, Id>, claims: seq<Claim>, rid: string, k: nat)
    returns (i: nat)
    requires Resolves(owned, resources) && k < |claims| && IsEdge(owned, resources, claims[k], rid)
    ensures i < |claims| && IsEdge(owned, resources, claims[i], rid)
    ensures forall j :: i < j < |claims| ==> !IsEdge(owned, resources, claims[j], rid)
  {
    hide IsEdge;
    i := |claims| - 1;
    while !IsEdge(owned, resources, claims[i], rid)
      invariant k <= i < |claims|
      invariant forall j :: i < j < |claims| ==> !IsEdge(owned, resources, claims[j], rid)
      decreases i
    {
      i := i - 1;
    }
  }

  /** A relationship that stands is the edge of its id. */
  lemma StandingIsEdge(owned: map<Id, Object>, node: Node, index: Index, order: seq<Id>, resources: map<string, Id>,
          p: Place, f: Id, t: Id)
    requires Built(owned, node, index, order, resources) && Standing(owned, p, f, t)
    ensures At(owned, p).rid in index.edges
    ensures index.edges[At(owned, p).rid] == EdgeAt(owned, node, At(owned, p), f, t)
  {
    var r := At(owned, p);
    var claims, places := AllClaims(owned, order), Places(owned, order);
    PlacesAre(owned, order);
    PlacesAscend(owned, order);
    var i := PlaceFound(owned, order, p);
    AcceptedIs(owned, resources, r, f, t);
    hide LinksOf, AllClaims, Places, Accepted, Admissible, EdgeOf, EdgeAt, IndexOk, ResourcesOk, StillNoted, Resolves;
    forall j | i < j < |claims| ensures !IsEdge(owned, resources, claims[j], r.rid) {
      Overtaken(owned, resources, p, places[j], f, t);
    }
    LastAdmissibleWins(owned, resources, node, claims, r.rid, i);
    EdgeIs(owned, resources, node, r);
  }

  lemma Overtaken(owned: map<Id, Object>, resources: map<string, Id>, p: Place, q: Place, f: Id, t: Id)
    requires ResourcesOk(owned, resources) && Resolves(owned, resources)
    requires Standing(owned, p, f, t) && Before(p, q) && InPlace(owned, q)
    ensures !IsEdge(owned, resources, ClaimAt(owned, q), At(owned, p).rid)
  {
    if IsEdge(owned, resources, ClaimAt(owned, q), At(owned, p).rid) {
      EdgeIsTaken(owned, resources, q, At(owned, p).rid);
    }
    hide Accepted, ValidKind, Coherent, ResourcesOk, Resolves, IsEdge, Taken;
  }

  lemma EdgeIsTaken(owned: map<Id, Object>, resources: map<string, Id>, q: Place, rid: string)
    requires ResourcesOk(owned, resources) && Resolves(owned, resources)
    requires InPlace(owned, q) && IsEdge(owned, resources, ClaimAt(owned, q), rid)
    ensures Taken(owned, q) && At(owned, q).rid == rid
  {
    var r := At(owned, q);
    AcceptedIs(owned, resources, r, resources[r.from], resources[r.to]);
    hide Accepted, ValidKind, Coherent, ResourcesOk, Resolves;
  }

  /** Every edge is a relationship that stands. */
  lemma EdgeIsStanding(owned: map<Id, Object>, node: Node, index: Index, order: seq<Id>, resources: map<string, Id>,
          rid: string) returns (p: Place, f: Id, t: Id)
    requires Built(owned, node, index, order, resources) && rid in index.edges
    ensures Standing(owned, p, f, t) && At(owned, p).rid == rid
  {
    var claims := AllClaims(owned, order);
    PlacesAre(owned, order);
    hide LinksOf, AllClaims, Places, Admissible, IndexOk, ResourcesOk, StillNoted, Resolves, Standing;
    EdgesAreAdmissible(owned, resources, node, claims, rid);
    var k :| 0 <= k < |claims| && IsEdge(owned, resources, claims[k], rid);
    var i := LastOf(owned, resources, claims, rid, k);
    p, f, t := Stands(owned, order, resources, rid, i);
  }

  lemma Stands(owned: map<Id, Object>, order: seq<Id>, resources: map<string, Id>, rid: string, i: nat)
    returns (p: Place, f: Id, t: Id)
    requires ResourcesOk(owned, resources) && Resolves(owned, resources) && Listing(owned, order)
    requires i < |AllClaims(owned, order)| && IsEdge(owned, resources, AllClaims(owned, order)[i], rid)
    requires forall j :: i < j < |AllClaims(owned, order)| ==>
      !IsEdge(owned, resources, AllClaims(owned, order)[j], rid)
    ensures Standing(owned, p, f, t) && At(owned, p).rid == rid
  {
    PlacesAre(owned, order);
    PlacesAscend(owned, order);
    p := Places(owned, order)[i];
    var r := At(owned, p);
    f, t := resources[r.from], resources[r.to];
    hide AllClaims, Places, Accepted, Admissible, ResourcesOk, Resolves;
    AcceptedIs(owned, resources, r, f, t);
    forall q | Before(p, q) && Taken(owned, q) ensures At(owned, q).rid != rid {
      TakenIsEdge(owned, resources, q);
      var j := PlaceFound(owned, order, q);
      Onward(Places(owned, order), i, j);
    }
  }

  lemma Onward(places: seq<Place>, i: nat, j: nat)
    requires Ascending(places) && i < |places| && j < |places| && Before(places[i], places[j])
    ensures i < j
  {
  }

  lemma TakenIsEdge(owned: map<Id, Object>, resources: map<string, Id>, q: Place)
    requires ResourcesOk(owned, resources) && Resolves(owned, resources) && Taken(owned, q)
    ensures IsEdge(owned, resources, ClaimAt(owned, q), At(owned, q).rid)
  {
    var f, t :| Accepted(owned, At(owned, q), f, t);
    AcceptedIs(owned, resources, At(owned, q), f, t);
    hide Accepted, Admissible;
  }

  /** There is an edge of an id exactly when a relationship with that id stands, and the edge is that
      relationship. */
  lemma EdgesAreStanding(owned: map<Id, Object>, node: Node, index: Index, order: seq<Id>, resources: map<string, Id>,
          rid: string, e: Edge)
    requires Built(owned, node, index, order, resources)
    ensures rid in index.edges && index.edges[rid] == e <==>
      exists p, f, t :: && Standing(owned, p, f, t) && At(owned, p).rid == rid
        && e == Edge(At(owned, p).kind, f, t, !Fresh(owned, node, At(owned, p), f, t))
  {
    if rid in index.edges {
      var p, f, t := EdgeIsStanding(owned, node, index, order, resources, rid);
    }
    hide Built, Standing;
    forall p, f, t | Standing(owned, p, f, t) && At(owned, p).rid == rid
      ensures rid in index.edges && index.edges[rid] == EdgeAt(owned, node, At(owned, p), f, t) {
      StandingIsEdge(owned, node, index, order, resources, p, f, t);
    }
  }

  // ---- What stands on what ----

  /** The child rests on the parent by some relationship that stands. */
  ghost predicate RestsOn(owned: map<Id, Object>, child: Id, parent: Id) {
    exists p: Place, f: Id, t: Id :: && Standing(owned, p, f, t)
      && (if At(owned, p).kind == "contains" then f == parent && t == child else f == child && t == parent)
  }

  ghost predicate Stack(owned: map<Id, Object>, s: seq<Id>) {
    s != [] && forall i :: 0 <= i < |s| - 1 ==> RestsOn(owned, s[i], s[i + 1])
  }

  /** From the object down to what it stands on, one relationship at a time. */
  ghost predicate StandsOn(owned: map<Id, Object>, id: Id, base: Id) {
    exists s :: Stack(owned, s) && s[0] == id && s[|s| - 1] == base
  }

  /** Going down from the object one comes back to some object already passed. */
  ghost predicate Looped(owned: map<Id, Object>, id: Id) {
    exists c, n :: StandsOn(owned, id, c) && RestsOn(owned, c, n) && StandsOn(owned, n, c)
  }

  lemma RestsAreParents(owned: map<Id, Object>, node: Node, index: Index, order: seq<Id>, resources: map<string, Id>,
          child: Id, parent: Id)
    requires Built(owned, node, index, order, resources)
    ensures RestsOn(owned, child, parent) <==> parent in Next(index.parents, child)
  {
    hide Accepted, Taken, Child, Parent;
    if RestsOn(owned, child, parent) {
      var p, f, t :| && Standing(owned, p, f, t)
        && (if At(owned, p).kind == "contains" then f == parent && t == child else f == child && t == parent);
      RestIsParent(owned, node, index, order, resources, p, f, t);
    }
    if parent in Next(index.parents, child) {
      var rid :| rid in index.edges && Child(index.edges[rid]) == child && Parent(index.edges[rid]) == parent;
      ParentIsRest(owned, node, index, order, resources, rid);
    }
  }

  lemma RestIsParent(owned: map<Id, Object>, node: Node, index: Index, order: seq<Id>, resources: map<string, Id>,
          p: Place, f: Id, t: Id)
    requires Built(owned, node, index, order, resources) && Standing(owned, p, f, t)
    ensures if At(owned, p).kind == "contains" then f in Next(index.parents, t) else t in Next(index.parents, f)
  {
    StandingIsEdge(owned, node, index, order, resources, p, f, t);
    hide Standing, Fresh;
    var e := index.edges[At(owned, p).rid];
    assert IsParentGraph(index.edges, index.parents);
    hide Built, IndexOk, IsParentGraph;
    EdgeInGraph(index.edges, index.parents, At(owned, p).rid);
  }

  lemma EdgeInGraph(edges: map<string, Edge>, parents: Parents, rid: string)
    requires IsParentGraph(edges, parents) && rid in edges
    ensures Parent(edges[rid]) in Next(parents, Child(edges[rid]))
  {
  }

  lemma ParentIsRest(owned: map<Id, Object>, node: Node, index: Index, order: seq<Id>, resources: map<string, Id>,
          rid: string)
    requires Built(owned, node, index, order, resources) && rid in index.edges
    ensures RestsOn(owned, Child(index.edges[rid]), Parent(index.edges[rid]))
  {
    var p, f, t := EdgeIsStanding(owned, node, index, order, resources, rid);
    StandingIsEdge(owned, node, index, order, resources, p, f, t);
    hide Built, Standing, Fresh;
  }

  /** RestsOn is the parent relation of the index. */
  ghost predicate RestsIn(owned: map<Id, Object>, parents: Parents) {
    forall c, p :: RestsOn(owned, c, p) <==> p in Next(parents, c)
  }

  lemma RestsInIndex(owned: map<Id, Object>, node: Node, index: Index, order: seq<Id>, resources: map<string, Id>)
    requires Built(owned, node, index, order, resources)
    ensures RestsIn(owned, index.parents)
  {
    forall c, p ensures RestsOn(owned, c, p) <==> p in Next(index.parents, c) {
      RestsAreParents(owned, node, index, order, resources, c, p);
    }
    hide Built, RestsOn;
  }

  lemma StackIsPath(owned: map<Id, Object>, parents: Parents, s: seq<Id>)
    requires RestsIn(owned, parents)
    ensures Stack(owned, s) <==> Path(parents, s)
  {
    hide RestsOn;
  }

  lemma StandsIsReach(owned: map<Id, Object>, parents: Parents, id: Id, base: Id)
    requires RestsIn(owned, parents)
    ensures StandsOn(owned, id, base) <==> Reach(parents, id, base)
  {
    if StandsOn(owned, id, base) {
      var s :| Stack(owned, s) && s[0] == id && s[|s| - 1] == base;
      StackIsPath(owned, parents, s);
      assert Joins(parents, s, id, base);
    }
    if Reach(parents, id, base) {
      var s :| Joins(parents, s, id, base);
      StackIsPath(owned, parents, s);
    }
    hide Stack, Path, RestsIn;
  }

  lemma LoopedIsTainted(owned: map<Id, Object>, parents: Parents, id: Id)
    requires RestsIn(owned, parents)
    ensures Looped(owned, id) <==> Tainted(parents, id)
  {
    forall a, b ensures StandsOn(owned, a, b) <==> Reach(parents, a, b) {
      StandsIsReach(owned, parents, a, b);
    }
    hide StandsOn, Reach, RestsOn;
    if Tainted(parents, id) {
      var c :| Reach(parents, id, c) && OnCycle(parents, c);
      var n :| n in Next(parents, c) && Reach(parents, n, c);
      assert StandsOn(owned, id, c) && RestsOn(owned, c, n) && StandsOn(owned, n, c);
    }
    if Looped(owned, id) {
      var c, n :| StandsOn(owned, id, c) && RestsOn(owned, c, n) && StandsOn(owned, n, c);
      assert OnCycle(parents, c);
    }
  }

  /** Everything an object stands on, the object among them. */
  ghost function Below(owned: map<Id, Object>, id: Id): set<Id> {
    set x | x in owned && StandsOn(owned, id, x)
  }

  ghost function NoDisks(owned: map<Id, Object>, id: Id): set<Id> {
    set x | x in owned && StandsOn(owned, id, x) && !IsDisk(owned[x])
  }

  /** An object belongs to exactly the disks it stands on, unless it stands on a loop.  Only an object
      with more than 4096 objects below it may be given fewer, and then that is recorded; it is for certain
      if that many of them are no disks. */
  lemma BelongsExactly(owned: map<Id, Object>, node: Node, index: Index, order: seq<Id>, resources: map<string, Id>,
          id: Id, disk: Id)
    requires Built(owned, node, index, order, resources) && id in owned
    ensures TraversalLimit !in Noted(index.reasons, id) ==>
      (disk in index.membership[id] <==>
         disk in owned && IsDisk(owned[disk]) && StandsOn(owned, id, disk) && !Looped(owned, id))
    ensures disk in index.membership[id] ==>
      disk in owned && IsDisk(owned[disk]) && StandsOn(owned, id, disk) && !Looped(owned, id)
    ensures TraversalLimit in Noted(index.reasons, id) ==> |Below(owned, id)| > 4096
    ensures |NoDisks(owned, id)| > 4096 ==> TraversalLimit in Noted(index.reasons, id)
    ensures TopologyCycle in Noted(index.reasons, id) <==> Looped(owned, id)
  {
    RestsInIndex(owned, node, index, order, resources);
    assert OwnershipOk(owned, index, id);
    hide Built, OwnershipOk;
    forall x ensures StandsOn(owned, id, x) <==> Reach(index.parents, id, x) {
      StandsIsReach(owned, index.parents, id, x);
    }
    LoopedIsTainted(owned, index.parents, id);
    OwnershipBelongs(owned, index, id, disk);
  }

  lemma OwnershipBelongs(owned: map<Id, Object>, index: Index, id: Id, disk: Id)
    requires id in index.membership && OwnershipOk(owned, index, id)
    requires forall x :: StandsOn(owned, id, x) <==> Reach(index.parents, id, x)
    requires Looped(owned, id) <==> Tainted(index.parents, id)
    ensures TraversalLimit !in Noted(index.reasons, id) ==>
      (disk in index.membership[id] <==>
         disk in owned && IsDisk(owned[disk]) && StandsOn(owned, id, disk) && !Looped(owned, id))
    ensures disk in index.membership[id] ==>
      disk in owned && IsDisk(owned[disk]) && StandsOn(owned, id, disk) && !Looped(owned, id)
    ensures TraversalLimit in Noted(index.reasons, id) ==> |Below(owned, id)| > 4096
    ensures |NoDisks(owned, id)| > 4096 ==> TraversalLimit in Noted(index.reasons, id)
    ensures TopologyCycle in Noted(index.reasons, id) <==> Looped(owned, id)
  {
    hide Reach, StandsOn, Looped, Tainted, Noted;
    assert Below(owned, id) == Above(index.parents, owned.Keys, id);
    assert NoDisks(owned, id) == Above(index.parents, owned.Keys, id) - Disks(owned);
  }

  // ---- What is recorded against an object ----

  /** Some relationship the object lists has an end that no object carries. */
  ghost predicate Dangling(owned: map<Id, Object>, id: Id) {
    exists p :: Listed(owned, p) && p.owner == id && OpenEnded(owned, At(owned, p))
  }

  ghost predicate OpenEnded(owned: map<Id, Object>, r: Relation) {
    forall f, t :: !Ends(owned, r, f, t)
  }

  /** Some relationship would let the object rest on another, or the other way round, but was not
      acquired together with both. */
  ghost predicate Mismatched(owned: map<Id, Object>, id: Id) {
    exists p, f, t :: && Listed(owned, p) && Apart(owned, At(owned, p), f, t) && (id == f || id == t)
  }

  ghost predicate Apart(owned: map<Id, Object>, r: Relation, f: Id, t: Id) {
    Ends(owned, r, f, t) && Fits(r, owned[f], owned[t]) && !Together(r, owned[f], owned[t])
  }

  ghost predicate Gives(owned: map<Id, Object>, c: Claim, id: Id, reason: Reason) {
    match reason
    case ContextMissing => c == Seen(id) && id in owned && !Whole(owned[id].context)
    case EndpointMissing => c.Claims? && c.owner == id && OpenEnded(owned, c.r)
    case ContextMismatch => c.Claims? && exists f, t :: Apart(owned, c.r, f, t) && (id == f || id == t)
    case _ => false
  }

  lemma OpenEndedIs(owned: map<Id, Object>, resources: map<string, Id>, r: Relation)
    requires ResourcesOk(owned, resources)
    ensures OpenEnded(owned, r) <==> !Endpoints(resources, r)
  {
    if Endpoints(resources, r) {
      NamedIs(owned, resources, r.from, resources[r.from]);
      NamedIs(owned, resources, r.to, resources[r.to]);
      assert Ends(owned, r, resources[r.from], resources[r.to]);
    }
    forall f, t | Ends(owned, r, f, t) ensures Endpoints(resources, r) {
      NamedIs(owned, resources, r.from, f);
      NamedIs(owned, resources, r.to, t);
    }
    hide Named, ResourcesOk;
  }

  lemma ApartIs(owned: map<Id, Object>, resources: map<string, Id>, r: Relation, f: Id, t: Id)
    requires ResourcesOk(owned, resources) && Resolves(owned, resources)
    ensures Apart(owned, r, f, t) <==>
      && Endpoints(resources, r) && f == resources[r.from] && t == resources[r.to]
      && ValidKind(r, owned[f], owned[t]) && !Coherent(r, owned[f], owned[t])
  {
    NamedIs(owned, resources, r.from, f);
    NamedIs(owned, resources, r.to, t);
    hide Named, ResourcesOk, Fits, Together, ValidKind, Coherent;
    if f in owned && t in owned {
      FitsIs(r, owned[f], owned[t]);
      TogetherIs(r, owned[f], owned[t]);
    }
  }

  ghost predicate ByReading(reason: Reason) {
    reason.ContextMissing? || reason.EndpointMissing? || reason.ContextMismatch?
  }

  lemma LinkedGives(owned: map<Id, Object>, resources: map<string, Id>, node: Node, links: Links, c: Claim, id: Id,
          reason: Reason)
    requires ResourcesOk(owned, resources) && Resolves(owned, resources) && c.owner in owned && ByReading(reason)
    ensures reason in Noted(Linked(owned, resources, node, links, c).reasons, id) <==>
      reason in Noted(links.reasons, id) || Gives(owned, c, id, reason)
  {
    hide ValidKind, Coherent, ResourcesOk, OpenEnded, Apart, EdgeOf;
    if c.Claims? {
      OpenEndedIs(owned, resources, c.r);
      forall f, t ensures Apart(owned, c.r, f, t) <==>
        && Endpoints(resources, c.r) && f == resources[c.r.from] && t == resources[c.r.to]
        && ValidKind(c.r, owned[f], owned[t]) && !Coherent(c.r, owned[f], owned[t])
      {
        ApartIs(owned, resources, c.r, f, t);
      }
    }
  }

  lemma {:induction false} ClaimsGive(owned: map<Id, Object>, resources: map<string, Id>, node: Node,
          claims: seq<Claim>,
          id: Id, reason: Reason)
    requires ResourcesOk(owned, resources) && Resolves(owned, resources) && ByReading(reason)
    requires forall i :: 0 <= i < |claims| ==> claims[i].owner in owned
    ensures reason in Noted(LinksOf(owned, resources, node, claims).reasons, id) <==>
      exists i :: 0 <= i < |claims| && Gives(owned, claims[i], id, reason)
    decreases |claims|
  {
    hide ResourcesOk, Resolves, Linked, Gives, ByReading;
    if claims != [] {
      var front, last := claims[..|claims| - 1], claims[|claims| - 1];
      ClaimsGive(owned, resources, node, front, id, reason);
      LinkedGives(owned, resources, node, LinksOf(owned, resources, node, front), last, id, reason);
      if i :| 0 <= i < |claims| && Gives(owned, claims[i], id, reason) {
        assert i < |front| ==> Gives(owned, front[i], id, reason);
      }
      if i :| 0 <= i < |front| && Gives(owned, front[i], id, reason) {
        assert Gives(owned, claims[i], id, reason);
      }
    }
  }

  /** Some place gives the reason. */
  lemma PlaceGives(owned: map<Id, Object>, order: seq<Id>, id: Id, reason: Reason)
    requires Listing(owned, order)
    ensures (exists i :: 0 <= i < |AllClaims(owned, order)| && Gives(owned, AllClaims(owned, order)[i], id, reason))
      <==> exists p :: InPlace(owned, p) && Gives(owned, ClaimAt(owned, p), id, reason)
  {
    hide Gives, AllClaims, InPlace, ClaimAt;
    if i :| 0 <= i < |AllClaims(owned, order)| && Gives(owned, AllClaims(owned, order)[i], id, reason) {
      var p := ClaimPlace(owned, order, i);
      assert Gives(owned, ClaimAt(owned, p), id, reason);
    }
    forall p | InPlace(owned, p) && Gives(owned, ClaimAt(owned, p), id, reason)
      ensures exists i :: 0 <= i < |AllClaims(owned, order)| && Gives(owned, AllClaims(owned, order)[i], id, reason)
    {
      var i := PlaceClaim(owned, order, p);
      assert Gives(owned, AllClaims(owned, order)[i], id, reason);
    }
  }

  lemma ClaimPlace(owned: map<Id, Object>, order: seq<Id>, i: nat) returns (p: Place)
    requires Listing(owned, order) && i < |AllClaims(owned, order)|
    ensures InPlace(owned, p) && AllClaims(owned, order)[i] == ClaimAt(owned, p)
  {
    PlacesAre(owned, order);
    hide AllClaims, Places;
    p := Places(owned, order)[i];
  }

  lemma PlaceClaim(owned: map<Id, Object>, order: seq<Id>, p: Place) returns (i: nat)
    requires Listing(owned, order) && InPlace(owned, p)
    ensures i < |AllClaims(owned, order)| && AllClaims(owned, order)[i] == ClaimAt(owned, p)
  {
    PlacesAre(owned, order);
    i := PlaceFound(owned, order, p);
    hide AllClaims, Places;
  }

  /** What is recorded against an object says exactly what is wrong with it or its relationships. */
  lemma ReasonsExactly(owned: map<Id, Object>, node: Node, index: Index, order: seq<Id>, resources: map<string, Id>,
          id: Id)
    requires Built(owned, node, index, order, resources) && id in owned
    ensures ContextMissing in Noted(index.reasons, id) <==> !Whole(owned[id].context)
    ensures EndpointMissing in Noted(index.reasons, id) <==> Dangling(owned, id)
    ensures ContextMismatch in Noted(index.reasons, id) <==> Mismatched(owned, id)
  {
    ReasonGiven(owned, node, index, order, resources, id, ContextMissing);
    ReasonGiven(owned, node, index, order, resources, id, EndpointMissing);
    ReasonGiven(owned, node, index, order, resources, id, ContextMismatch);
    hide Built, OpenEnded, Apart, Noted, Whole;
    GivenMissing(owned, id);
    GivenDangling(owned, id);
    GivenMismatch(owned, id);
    hide Gives, Dangling, Mismatched, InPlace, ClaimAt;
  }

  lemma GivenMissing(owned: map<Id, Object>, id: Id)
    requires id in owned
    ensures (exists p :: InPlace(owned, p) && Gives(owned, ClaimAt(owned, p), id, ContextMissing)) <==>
      !Whole(owned[id].context)
  {
    assert InPlace(owned, Place(id, -1)) && ClaimAt(owned, Place(id, -1)) == Seen(id);
    hide Whole;
  }

  lemma GivenDangling(owned: map<Id, Object>, id: Id)
    ensures (exists p :: InPlace(owned, p) && Gives(owned, ClaimAt(owned, p), id, EndpointMissing)) <==>
      Dangling(owned, id)
  {
    hide OpenEnded;
    if p :| Listed(owned, p) && p.owner == id && OpenEnded(owned, At(owned, p)) {
      assert Gives(owned, ClaimAt(owned, p), id, EndpointMissing);
    }
  }

  lemma GivenMismatch(owned: map<Id, Object>, id: Id)
    ensures (exists p :: InPlace(owned, p) && Gives(owned, ClaimAt(owned, p), id, ContextMismatch)) <==>
      Mismatched(owned, id)
  {
    hide Apart;
    if p, f, t :| Listed(owned, p) && Apart(owned, At(owned, p), f, t) && (id == f || id == t) {
      assert Gives(owned, ClaimAt(owned, p), id, ContextMismatch);
    }
    if p :| InPlace(owned, p) && Gives(owned, ClaimAt(owned, p), id, ContextMismatch) {
      var f, t :| Apart(owned, ClaimAt(owned, p).r, f, t) && (id == f || id == t);
      assert Listed(owned, p) && Apart(owned, At(owned, p), f, t);
    }
  }

  lemma ReasonGiven(owned: map<Id, Object>, node: Node, index: Index, order: seq<Id>, resources: map<string, Id>,
          id: Id, reason: Reason)
    requires Built(owned, node, index, order, resources) && id in owned && ByReading(reason)
    ensures reason in Noted(index.reasons, id) <==>
      exists p :: InPlace(owned, p) && Gives(owned, ClaimAt(owned, p), id, reason)
  {
    assert StillNoted(LinksOf(owned, resources, node, AllClaims(owned, order)).reasons, index.reasons, id);
    hide LinksOf, AllClaims, IndexOk, ResourcesOk, Resolves, Gives, InPlace, ClaimAt;
    ClaimsGive(owned, resources, node, AllClaims(owned, order), id, reason);
    PlaceGives(owned, order, id, reason);
  }

  // ---- Pools and drivers ----

  /** A pool is exclusive to a disk exactly when that is the one disk it stands on and nothing is
      recorded against it. */
  lemma ExclusiveExactly(owned: map<Id, Object>, node: Node, index: Index, order: seq<Id>, resources: map<string, Id>,
          pool: Id, disk: Id)
    requires Built(owned, node, index, order, resources)
    requires disk in owned && IsDisk(owned[disk])
    ensures pool in Exclusive(owned, index.membership, index.reasons, disk) <==>
      && pool in owned && (owned[pool].rtype == "apfs_container" || owned[pool].rtype == "storage_pool")
      && StandsOn(owned, pool, disk) && !Looped(owned, pool)
      && (forall d :: d in owned && IsDisk(owned[d]) && StandsOn(owned, pool, d) ==> d == disk)
      && Noted(index.reasons, pool) == {}
  {
    ExclusiveIs(owned, index, pool, disk);
    if pool in owned && TraversalLimit !in Noted(index.reasons, pool) {
      BelongsToOne(owned, node, index, order, resources, pool, disk);
    }
    hide StandsOn, Looped, Noted, Exclusive;
  }

  lemma ExclusiveIs(owned: map<Id, Object>, index: Index, pool: Id, disk: Id)
    requires IndexOk(owned, index)
    ensures pool in Exclusive(owned, index.membership, index.reasons, disk) <==>
      && pool in owned && (owned[pool].rtype == "apfs_container" || owned[pool].rtype == "storage_pool")
      && pool != disk && index.membership[pool] == {disk} && Noted(index.reasons, pool) == {}
  {
    assert index.membership.Keys == owned.Keys;
    hide IndexOk, Noted;
    if pool in owned && disk in index.membership[pool] && |index.membership[pool]| == 1 {
      Singleton(index.membership[pool], disk);
    }
  }

  lemma BelongsToOne(owned: map<Id, Object>, node: Node, index: Index, order: seq<Id>, resources: map<string, Id>,
          id: Id, disk: Id)
    requires Built(owned, node, index, order, resources) && id in owned && disk in owned && IsDisk(owned[disk])
    requires TraversalLimit !in Noted(index.reasons, id)
    ensures index.membership[id] == {disk} <==>
      && StandsOn(owned, id, disk) && !Looped(owned, id)
      && forall d :: d in owned && IsDisk(owned[d]) && StandsOn(owned, id, d) ==> d == disk
  {
    assert index.membership.Keys == owned.Keys;
    hide Built, StandsOn, Looped, IsDisk, Noted;
    if index.membership[id] == {disk} {
      forall d | d in owned && IsDisk(owned[d]) && StandsOn(owned, id, d) ensures d == disk {
        BelongsExactly(owned, node, index, order, resources, id, disk);
        BelongsExactly(owned, node, index, order, resources, id, d);
      }
      BelongsExactly(owned, node, index, order, resources, id, disk);
    } else {
      BelongsExactly(owned, node, index, order, resources, id, disk);
      if d :| d in index.membership[id] && d != disk {
        BelongsExactly(owned, node, index, order, resources, id, d);
      } else if disk in index.membership[id] {
        OnlyMember(index.membership[id], disk);
      }
    }
  }

  lemma OnlyMember(s: set<Id>, x: Id)
    requires x in s && forall d :: d in s ==> d == x
    ensures s == {x}
  {
  }

  ghost predicate Attached(owned: map<Id, Object>, p: Place, driver: Id, disk: Id) {
    Standing(owned, p, driver, disk) && At(owned, p).kind == "attached_to"
  }

  /** Two relationships that stand have different ids. */
  lemma StandingApart(owned: map<Id, Object>, p: Place, f: Id, t: Id, q: Place, g: Id, u: Id)
    requires Standing(owned, p, f, t) && Standing(owned, q, g, u) && At(owned, p).rid == At(owned, q).rid
    ensures p == q
  {
    hide Accepted;
    assert Taken(owned, p) && Taken(owned, q);
  }

  /** It is not clear which driver serves the disk. */
  ghost predicate Contested(owned: map<Id, Object>, disk: Id)
    requires disk in owned
  {
    || owned[disk].association == "ambiguous"
    || (exists p, q, d, e :: Attached(owned, p, d, disk) && Attached(owned, q, e, disk) && p != q)
    || (exists p, q, d, x :: Attached(owned, p, d, disk) && Attached(owned, q, d, x) && x != disk)
  }

  lemma MoreThanOne<T>(s: set<T>)
    ensures |s| > 1 <==> exists x, y :: x in s && y in s && x != y
  {
    if |s| > 1 {
      var x :| x in s;
      assert |s - {x}| > 0;
      var y :| y in s - {x};
    }
    if x, y :| x in s && y in s && x != y {
      SubsetSize({x, y}, s);
    }
  }

  lemma ContestedEdges(owned: map<Id, Object>, node: Node, index: Index, order: seq<Id>, resources: map<string, Id>,
          disk: Id)
    requires Built(owned, node, index, order, resources) && disk in owned
    ensures Contested(owned, disk) <==>
      owned[disk].association == "ambiguous" || |DriverEdges(index.edges, disk)| > 1 || Fanout(index.edges, disk)
  {
    var edges := index.edges;
    hide Built, Attached;
    MoreThanOne(DriverEdges(edges, disk));
    if a, b :| a in DriverEdges(edges, disk) && b in DriverEdges(edges, disk) && a != b {
      var p := EdgeAttached(owned, node, index, order, resources, a);
      var q := EdgeAttached(owned, node, index, order, resources, b);
      assert Attached(owned, p, edges[a].from, disk) && Attached(owned, q, edges[b].from, disk) && p != q;
    }
    if Fanout(edges, disk) {
      FanoutContests(owned, node, index, order, resources, disk);
    }
    forall p, q, d, e | Attached(owned, p, d, disk) && Attached(owned, q, e, disk) && p != q
      ensures |DriverEdges(edges, disk)| > 1 {
      TwoAttached(owned, node, index, order, resources, disk, p, q, d, e);
    }
    forall p, q, d, x | Attached(owned, p, d, disk) && Attached(owned, q, d, x) && x != disk
      ensures Fanout(edges, disk) {
      AttachedFanout(owned, node, index, order, resources, disk, p, q, d, x);
    }
  }

  lemma FanoutContests(owned: map<Id, Object>, node: Node, index: Index, order: seq<Id>, resources: map<string, Id>,
          disk: Id)
    requires Built(owned, node, index, order, resources) && disk in owned && Fanout(index.edges, disk)
    ensures exists p, q, d, x :: Attached(owned, p, d, disk) && Attached(owned, q, d, x) && x != disk
  {
    var edges := index.edges;
    hide Built, Attached;
    var a :| a in DriverEdges(edges, disk) && |Targets(edges, edges[a].from)| > 1;
    var p := EdgeAttached(owned, node, index, order, resources, a);
    MoreThanOne(Targets(edges, edges[a].from));
    var x :| x in Targets(edges, edges[a].from) && x != disk;
    var b :| b in edges && edges[b].kind == "attached_to" && edges[b].from == edges[a].from && edges[b].to == x;
    var q := EdgeAttached(owned, node, index, order, resources, b);
    assert Attached(owned, p, edges[a].from, disk) && Attached(owned, q, edges[a].from, x);
  }

  lemma TwoAttached(owned: map<Id, Object>, node: Node, index: Index, order: seq<Id>, resources: map<string, Id>,
          disk: Id, p: Place, q: Place, d: Id, e: Id)
    requires Built(owned, node, index, order, resources)
    requires Attached(owned, p, d, disk) && Attached(owned, q, e, disk) && p != q
    ensures |DriverEdges(index.edges, disk)| > 1
  {
    var a := AttachedEdge(owned, node, index, order, resources, p, d, disk);
    var b := AttachedEdge(owned, node, index, order, resources, q, e, disk);
    hide Built, Accepted, Taken;
    if a == b {
      StandingApart(owned, p, d, disk, q, e, disk);
    }
    MoreThanOne(DriverEdges(index.edges, disk));
    hide Standing;
    assert a in DriverEdges(index.edges, disk) && b in DriverEdges(index.edges, disk);
  }

  lemma AttachedFanout(owned: map<Id, Object>, node: Node, index: Index, order: seq<Id>, resources: map<string, Id>,
          disk: Id, p: Place, q: Place, d: Id, x: Id)
    requires Built(owned, node, index, order, resources)
    requires Attached(owned, p, d, disk) && Attached(owned, q, d, x) && x != disk
    ensures Fanout(index.edges, disk)
  {
    var a := AttachedEdge(owned, node, index, order, resources, p, d, disk);
    var b := AttachedEdge(owned, node, index, order, resources, q, d, x);
    hide Built, Attached;
    MoreThanOne(Targets(index.edges, d));
    assert x in Targets(index.edges, d) && disk in Targets(index.edges, d);
    assert a in DriverEdges(index.edges, disk) && |Targets(index.edges, index.edges[a].from)| > 1;
  }

  lemma AttachedEdge(owned: map<Id, Object>, node: Node, index: Index, order: seq<Id>, resources: map<string, Id>,
          p: Place, driver: Id, disk: Id) returns (rid: string)
    requires Built(owned, node, index, order, resources) && Attached(owned, p, driver, disk)
    ensures rid == At(owned, p).rid && rid in index.edges && index.edges[rid].kind == "attached_to"
    ensures index.edges[rid].from == driver && index.edges[rid].to == disk
    ensures index.edges[rid].stale <==> !Fresh(owned, node, At(owned, p), driver, disk)
  {
    rid := At(owned, p).rid;
    StandingIsEdge(owned, node, index, order, resources, p, driver, disk);
    hide Built, Accepted, Taken, Fresh;
  }

  lemma EdgeAttached(owned: map<Id, Object>, node: Node, index: Index, order: seq<Id>, resources: map<string, Id>,
          rid: string) returns (p: Place)
    requires Built(owned, node, index, order, resources) && rid in index.edges
      && index.edges[rid].kind == "attached_to"
    ensures Attached(owned, p, index.edges[rid].from, index.edges[rid].to) && At(owned, p).rid == rid
  {
    var f, t;
    p, f, t := EdgeIsStanding(owned, node, index, order, resources, rid);
    StandingIsEdge(owned, node, index, order, resources, p, f, t);
    hide Built, Standing, Fresh;
  }

  /** Which driver's counters are shown for a disk, told from the relationships alone. */
  lemma DriverExactly(owned: map<Id, Object>, node: Node, index: Index, order: seq<Id>, resources: map<string, Id>,
          inventoryOk: bool, disk: Id, driver: Id)
    requires Built(owned, node, index, order, resources) && disk in owned
    ensures var link := DriverLink(owned, index.edges, node, inventoryOk, disk);
      && (link.Ambiguous? <==> Contested(owned, disk))
      && (link.Unresolved? <==> !Contested(owned, disk) && forall p, d :: !Attached(owned, p, d, disk))
      && (link == Resolved(driver) <==>
           && !Contested(owned, disk) && inventoryOk && node.online
           && exists p :: Attached(owned, p, driver, disk) && Fresh(owned, node, At(owned, p), driver, disk))
  {
    ContestedEdges(owned, node, index, order, resources, disk);
    LinkIs(owned, index.edges, node, inventoryOk, disk, driver);
    NoneAttached(owned, node, index, order, resources, disk);
    FreshAttached(owned, node, index, order, resources, disk, driver);
    hide Built, Contested, Fanout, Attached, Fresh, DriverLink, DriverEdges, FreshEdge;
  }

  /** Some current edge attaches this driver to the disk. */
  predicate FreshEdge(edges: map<string, Edge>, disk: Id, driver: Id) {
    exists rid :: rid in DriverEdges(edges, disk) && edges[rid].from == driver && !edges[rid].stale
  }

  lemma LinkIs(owned: map<Id, Object>, edges: map<string, Edge>, node: Node, inventoryOk: bool, disk: Id, driver: Id)
    requires disk in owned
    ensures var link, contested := DriverLink(owned, edges, node, inventoryOk, disk),
        owned[disk].association == "ambiguous" || |DriverEdges(edges, disk)| > 1 || Fanout(edges, disk);
      && (link.Ambiguous? <==> contested)
      && (link.Unresolved? <==> !contested && DriverEdges(edges, disk) == {})
      && (link == Resolved(driver) <==>
           !contested && inventoryOk && node.online && FreshEdge(edges, disk, driver))
  {
    hide Fanout;
    var candidates := DriverEdges(edges, disk);
    if |candidates| <= 1 && candidates != {} {
      var rid :| rid in candidates;
      OneElement(candidates, rid);
    }
  }

  lemma OneElement<T>(s: set<T>, x: T)
    requires |s| <= 1 && x in s
    ensures s == {x}
  {
    assert |s - {x}| == 0;
    assert s == (s - {x}) + {x};
  }

  lemma NoneAttached(owned: map<Id, Object>, node: Node, index: Index, order: seq<Id>, resources: map<string, Id>,
          disk: Id)
    requires Built(owned, node, index, order, resources)
    ensures DriverEdges(index.edges, disk) == {} <==> forall p, d :: !Attached(owned, p, d, disk)
  {
    hide Built, Attached;
    if rid :| rid in DriverEdges(index.edges, disk) {
      var p := EdgeAttached(owned, node, index, order, resources, rid);
    }
    forall p, d | Attached(owned, p, d, disk) ensures DriverEdges(index.edges, disk) != {} {
      var rid := AttachedEdge(owned, node, index, order, resources, p, d, disk);
      assert rid in DriverEdges(index.edges, disk);
    }
  }

  lemma FreshAttached(owned: map<Id, Object>, node: Node, index: Index, order: seq<Id>, resources: map<string, Id>,
          disk: Id, driver: Id)
    requires Built(owned, node, index, order, resources)
    ensures FreshEdge(index.edges, disk, driver) <==>
      exists p :: Attached(owned, p, driver, disk) && Fresh(owned, node, At(owned, p), driver, disk)
  {
    hide Built, Fits, Together, Taken, Fresh;
    if rid :| rid in DriverEdges(index.edges, disk) && index.edges[rid].from == driver && !index.edges[rid].stale {
      var p := EdgeAttached(owned, node, index, order, resources, rid);
      var again := AttachedEdge(owned, node, index, order, resources, p, driver, disk);
    }
    forall p | Attached(owned, p, driver, disk) && Fresh(owned, node, At(owned, p), driver, disk)
      ensures FreshEdge(index.edges, disk, driver) {
      var rid := AttachedEdge(owned, node, index, order, resources, p, driver, disk);
      assert rid in DriverEdges(index.edges, disk);
    }
  }

  // ---- A node collected in one go ----

  /** Everything on the node was acquired in the context c, with its own name and relationship ids. */
  ghost predicate Uniform(owned: map<Id, Object>, c: Context) {
    && Whole(c)
    && (forall id :: id in owned ==> CollectedIn(owned[id], c))
    && (forall a, b :: a in owned && b in owned && a != b ==>
          owned[a].resource.Some? && owned[a].resource != owned[b].resource)
    && (forall p, q :: Listed(owned, p) && Listed(owned, q) && At(owned, p).rid == At(owned, q).rid ==> p == q)
  }

  ghost predicate CollectedIn(o: Object, c: Context) {
    && o.context == c && (o.observedBoot.Some? ==> o.observedBoot.value == c.boot)
    && (o.observedSession.Some? ==> o.observedSession.value == c.session)
    && forall r :: r in o.relations ==>
         && r.acquisition == c && (r.boot.Some? ==> r.boot.value == c.boot)
         && (r.session.Some? ==> r.session.value == c.session)
  }

  /** The relationship listed at p names a and b, in this order. */
  ghost predicate Names(owned: map<Id, Object>, p: Place, a: Id, b: Id) {
    && Listed(owned, p) && a in owned && b in owned
    && Some(At(owned, p).from) == owned[a].resource && Some(At(owned, p).to) == owned[b].resource
  }

  ghost predicate Lists(owned: map<Id, Object>, kind: string, a: Id, b: Id) {
    exists p :: Names(owned, p, a, b) && At(owned, p).kind == kind
  }

  lemma NamedRests(owned: map<Id, Object>, c: Context, p: Place, a: Id, b: Id)
    requires Uniform(owned, c) && Names(owned, p, a, b) && Fits(At(owned, p), owned[a], owned[b])
    ensures if At(owned, p).kind == "contains" then RestsOn(owned, b, a) else RestsOn(owned, a, b)
  {
    assert At(owned, p) in owned[p.owner].relations;
    assert CollectedIn(owned[p.owner], c) && CollectedIn(owned[a], c) && CollectedIn(owned[b], c);
    hide Fits;
    assert Accepted(owned, At(owned, p), a, b);
    assert Standing(owned, p, a, b);
  }

  lemma ListedRests(owned: map<Id, Object>, c: Context, kind: string, a: Id, b: Id)
    requires Uniform(owned, c) && Lists(owned, kind, a, b)
    requires forall r: Relation :: r.kind == kind ==> Fits(r, owned[a], owned[b])
    ensures if kind == "contains" then RestsOn(owned, b, a) else RestsOn(owned, a, b)
  {
    var p :| Names(owned, p, a, b) && At(owned, p).kind == kind;
    hide Fits, Uniform;
    NamedRests(owned, c, p, a, b);
  }

  lemma StandsOnItself(owned: map<Id, Object>, id: Id)
    ensures StandsOn(owned, id, id)
  {
    assert Stack(owned, [id]);
  }

  lemma RestsThenStands(owned: map<Id, Object>, id: Id, next: Id, base: Id)
    requires RestsOn(owned, id, next) && StandsOn(owned, next, base)
    ensures StandsOn(owned, id, base)
  {
    var s :| Stack(owned, s) && s[0] == next && s[|s| - 1] == base;
    hide RestsOn;
    assert Stack(owned, [id] + s);
  }

  /** The usual stack of a disk, named bottom up. */
  datatype Layers = Layers(disk: Id, media: Id, pool: Id, filesystem: Id, mount: Id, snapshot: Id, driver: Id)

  ghost predicate Layered(owned: map<Id, Object>, s: Layers) {
    && s.disk in owned && s.media in owned && s.pool in owned && s.filesystem in owned
    && s.mount in owned && s.snapshot in owned && s.driver in owned
    && LayerTypes(owned, s)
    && Lists(owned, "contains", s.disk, s.media) && Lists(owned, "backed_by", s.pool, s.media)
    && Lists(owned, "contains", s.pool, s.filesystem) && Lists(owned, "mounts", s.mount, s.filesystem)
    && Lists(owned, "snapshot_of", s.snapshot, s.filesystem)
    && exists p :: Drives(owned, p, s.driver, s.disk)
  }

  ghost predicate Drives(owned: map<Id, Object>, p: Place, driver: Id, disk: Id) {
    Names(owned, p, driver, disk) && At(owned, p).kind == "attached_to" && At(owned, p).source == "derived.storage"
  }

  predicate LayerTypes(owned: map<Id, Object>, s: Layers)
    requires s.disk in owned && s.media in owned && s.pool in owned && s.filesystem in owned
    requires s.mount in owned && s.snapshot in owned && s.driver in owned
  {
    && owned[s.disk].rtype == "physical_device" && owned[s.disk].source == "diskutil.list.physical"
    && owned[s.media].rtype == "media"
    && (owned[s.pool].rtype == "apfs_container" || owned[s.pool].rtype == "storage_pool")
    && owned[s.filesystem].rtype == "filesystem"
    && owned[s.mount].rtype == "mount" && IsLocal(owned[s.mount]) && owned[s.snapshot].rtype == "snapshot"
    && owned[s.driver].rtype == "controller" && owned[s.driver].scope == "driver"
  }

  ghost predicate LayersRest(owned: map<Id, Object>, s: Layers) {
    && RestsOn(owned, s.media, s.disk) && RestsOn(owned, s.pool, s.media) && RestsOn(owned, s.filesystem, s.pool)
    && RestsOn(owned, s.mount, s.filesystem) && RestsOn(owned, s.snapshot, s.filesystem)
    && RestsOn(owned, s.driver, s.disk)
  }

  lemma LayersDo(owned: map<Id, Object>, c: Context, s: Layers)
    requires Uniform(owned, c) && Layered(owned, s)
    ensures LayersRest(owned, s)
  {
    hide Uniform, Lists, Names, RestsOn, IsLocal;
    ListedRests(owned, c, "contains", s.disk, s.media);
    ListedRests(owned, c, "backed_by", s.pool, s.media);
    ListedRests(owned, c, "contains", s.pool, s.filesystem);
    ListedRests(owned, c, "mounts", s.mount, s.filesystem);
    ListedRests(owned, c, "snapshot_of", s.snapshot, s.filesystem);
    DriverRests(owned, c, s.driver, s.disk);
  }

  lemma DriverRests(owned: map<Id, Object>, c: Context, driver: Id, disk: Id)
    requires Uniform(owned, c) && driver in owned && disk in owned && IsDisk(owned[disk])
    requires owned[driver].rtype == "controller" && owned[driver].scope == "driver"
    requires exists p :: Drives(owned, p, driver, disk)
    ensures RestsOn(owned, driver, disk)
  {
    var p :| Drives(owned, p, driver, disk);
    hide Uniform;
    NamedRests(owned, c, p, driver, disk);
  }

  lemma LayersStand(owned: map<Id, Object>, s: Layers)
    requires LayersRest(owned, s)
    ensures StandsOn(owned, s.media, s.disk) && StandsOn(owned, s.pool, s.disk)
    ensures StandsOn(owned, s.filesystem, s.disk) && StandsOn(owned, s.mount, s.disk)
    ensures StandsOn(owned, s.snapshot, s.disk) && StandsOn(owned, s.driver, s.disk)
  {
    hide RestsOn, StandsOn;
    StandsOnItself(owned, s.disk);
    RestsThenStands(owned, s.driver, s.disk, s.disk);
    RestsThenStands(owned, s.media, s.disk, s.disk);
    RestsThenStands(owned, s.pool, s.media, s.disk);
    RestsThenStands(owned, s.filesystem, s.pool, s.disk);
    RestsThenStands(owned, s.mount, s.filesystem, s.disk);
    RestsThenStands(owned, s.snapshot, s.filesystem, s.disk);
  }

  ghost predicate BelongsTo(owned: map<Id, Object>, index: Index, x: Id, disk: Id) {
    x in index.membership && (!Looped(owned, x) ==> disk in index.membership[x])
  }

  /** On a node collected in one go the layers of a disk belong to it. */
  lemma LayersBelong(owned: map<Id, Object>, node: Node, index: Index, order: seq<Id>, resources: map<string, Id>,
          c: Context, s: Layers)
    requires Built(owned, node, index, order, resources) && |owned| <= 4096
    requires Uniform(owned, c) && Layered(owned, s)
    ensures BelongsTo(owned, index, s.media, s.disk) && BelongsTo(owned, index, s.pool, s.disk)
    ensures BelongsTo(owned, index, s.filesystem, s.disk) && BelongsTo(owned, index, s.mount, s.disk)
    ensures BelongsTo(owned, index, s.snapshot, s.disk) && BelongsTo(owned, index, s.driver, s.disk)
  {
    hide Built, Uniform, StandsOn, Lists, Drives, IsLocal, LayersRest, BelongsTo;
    LayersDo(owned, c, s);
    LayersStand(owned, s);
    StandsBelongs(owned, node, index, order, resources, s.media, s.disk);
    StandsBelongs(owned, node, index, order, resources, s.pool, s.disk);
    StandsBelongs(owned, node, index, order, resources, s.filesystem, s.disk);
    StandsBelongs(owned, node, index, order, resources, s.mount, s.disk);
    StandsBelongs(owned, node, index, order, resources, s.snapshot, s.disk);
    StandsBelongs(owned, node, index, order, resources, s.driver, s.disk);
  }

  /** There the pool is the disk's alone, unless it stands on another disk too, or in a loop, or lists a
      relationship with an end that is not there. */
  lemma PoolBelongs(owned: map<Id, Object>, node: Node, index: Index, order: seq<Id>, resources: map<string, Id>,
          c: Context, s: Layers)
    requires Built(owned, node, index, order, resources) && |owned| <= 4096
    requires Uniform(owned, c) && Layered(owned, s)
    ensures s.pool in Exclusive(owned, index.membership, index.reasons, s.disk) <==>
      && !Looped(owned, s.pool) && !Dangling(owned, s.pool)
      && forall d :: d in owned && IsDisk(owned[d]) && StandsOn(owned, s.pool, d) ==> d == s.disk
  {
    hide Built, Uniform, StandsOn, Looped, Lists, Drives, IsLocal, LayersRest, Dangling, Exclusive;
    LayersDo(owned, c, s);
    LayersStand(owned, s);
    ExclusiveExactly(owned, node, index, order, resources, s.pool, s.disk);
    NothingNoted(owned, node, index, order, resources, c, s.pool);
  }

  lemma StandsBelongs(owned: map<Id, Object>, node: Node, index: Index, order: seq<Id>, resources: map<string, Id>,
          x: Id, disk: Id)
    requires Built(owned, node, index, order, resources) && |owned| <= 4096
    requires x in owned && disk in owned && IsDisk(owned[disk]) && StandsOn(owned, x, disk)
    ensures BelongsTo(owned, index, x, disk)
  {
    assert index.membership.Keys == owned.Keys;
    BelongsExactly(owned, node, index, order, resources, x, disk);
    FewBelow(owned, x);
    hide Built, StandsOn, Looped, Below, Noted;
  }

  lemma FewBelow(owned: map<Id, Object>, x: Id)
    ensures |Below(owned, x)| <= |owned|
  {
    hide StandsOn;
    SubsetSize(Below(owned, x), owned.Keys);
  }

  lemma NothingNoted(owned: map<Id, Object>, node: Node, index: Index, order: seq<Id>, resources: map<string, Id>,
          c: Context, id: Id)
    requires Built(owned, node, index, order, resources) && |owned| <= 4096 && Uniform(owned, c) && id in owned
    ensures Noted(index.reasons, id) == {} <==> !Dangling(owned, id) && !Looped(owned, id)
  {
    ReasonsExactly(owned, node, index, order, resources, id);
    BelongsExactly(owned, node, index, order, resources, id, id);
    FewBelow(owned, id);
    NeverApart(owned, c, id);
    assert CollectedIn(owned[id], c);
    hide Built, StandsOn, Looped, Below, Noted, Dangling, Mismatched, IsDisk;
    forall x: Reason | x in Noted(index.reasons, id) ensures Dangling(owned, id) || Looped(owned, id) {
      match x { case ContextMissing => case EndpointMissing => case ContextMismatch => case TraversalLimit =>
        case TopologyCycle => }
    }
  }

  lemma NeverApart(owned: map<Id, Object>, c: Context, id: Id)
    requires Uniform(owned, c)
    ensures !Mismatched(owned, id)
  {
    hide Fits;
    forall p, f, t | Listed(owned, p) && Ends(owned, At(owned, p), f, t)
      ensures Together(At(owned, p), owned[f], owned[t])
    {
      assert At(owned, p) in owned[p.owner].relations;
      assert CollectedIn(owned[p.owner], c) && CollectedIn(owned[f], c) && CollectedIn(owned[t], c);
    }
    hide Together, Ends, Uniform;
  }
}
