/**
 Acceptance of an inventory (server/src/model.rs:243-316): which reports are refused, on account of
 which field, and that the accepted ones are exactly the well-formed ones without a cycle.
 */
module InventoryOrder {
  import opened Wrappers
  import opened Graph
  import opened Text
  import opened TopologicalVisit

  /** The name of an object within its inventory. */
  datatype Name = Name(text: string)

  const MAX_OBJECTS: nat := 2048
  const MAX_GENERATION: nat := 0x7FFF_FFFF_FFFF_FFFF
  const ROOT: Name := Name("node")
  const KINDS: set<string> := {
    "device", "partition", "apfs_store", "apfs_container", "apfs_volume", "snapshot", "mount", "nfs_mount", "provider"
  }

  datatype Object = Object(local: Name, kind: string, parents: seq<Name>)
  datatype Inventory = Inventory(generation: nat, objects: seq<Object>)

  datatype Field = Generation | Objects | LocalId | Kind | Parents
  datatype Verdict = Accepted | Refused(field: Field)

  // ---- What is accepted ----

  predicate Bounded(s: string, max: nat) {
    !Blank(s) && Bytes(s) <= max && forall i :: 0 <= i < |s| ==> !Control(s[i])
  }

  predicate GenerationOk(inv: Inventory) {
    0 < inv.generation <= 0x7FFF_FFFF_FFFF_FFFF
  }

  ghost function Ids(objects: seq<Object>): set<Name> {
    if objects == [] then {} else Ids(objects[..|objects| - 1]) + {objects[|objects| - 1].local}
  }

  lemma {:induction false} IdsAre(objects: seq<Object>)
    ensures forall x :: x in Ids(objects) <==> exists i :: 0 <= i < |objects| && objects[i].local == x
  {
    if objects != [] {
      var front, last := objects[..|objects| - 1], objects[|objects| - 1];
      IdsAre(front);
      forall x ensures x in Ids(objects) <==> exists i :: 0 <= i < |objects| && objects[i].local == x {
        if i :| 0 <= i < |front| && front[i].local == x {
          assert objects[i].local == x;
        }
        if i :| 0 <= i < |objects| && objects[i].local == x {
          assert i < |front| ==> front[i].local == x;
        }
      }
    }
  }

  ghost predicate IdOk(objects: seq<Object>, i: nat)
    requires i < |objects|
  {
    && Bounded(objects[i].local.text, 128) && objects[i].local != ROOT
    && forall j :: 0 <= j < i ==> objects[j].local != objects[i].local
  }

  predicate KindOk(o: Object) {
    o.kind in KINDS
  }

  ghost predicate ParentOk(o: Object, ids: set<Name>, i: nat)
    requires i < |o.parents|
  {
    && (o.parents[i] == ROOT || o.parents[i] in ids)
    && forall j :: 0 <= j < i ==> o.parents[j] != o.parents[i]
  }

  ghost predicate ParentsOk(o: Object, ids: set<Name>) {
    forall i :: 0 <= i < |o.parents| ==> ParentOk(o, ids, i)
  }

  ghost predicate AllParentsOk(objects: seq<Object>, ids: set<Name>) {
    forall i :: 0 <= i < |objects| ==> ParentsOk(objects[i], ids)
  }

  ghost predicate Named(objects: seq<Object>) {
    forall i :: 0 <= i < |objects| ==> IdOk(objects, i)
  }

  /** The parents that are objects themselves. */
  ghost function Above(o: Object): set<Name> {
    set p | p in o.parents && p != ROOT
  }

  ghost function ParentGraph(objects: seq<Object>): map<Name, set<Name>> {
    if objects == [] then map[]
    else ParentGraph(objects[..|objects| - 1])[objects[|objects| - 1].local := Above(objects[|objects| - 1])]
  }

  ghost predicate ObjectsOk(objects: seq<Object>) {
    Named(objects) && (forall i :: 0 <= i < |objects| ==> KindOk(objects[i])) && AllParentsOk(objects, Ids(objects))
  }

  ghost predicate Acceptable(inv: Inventory) {
    && GenerationOk(inv) && |inv.objects| <= 2048 && ObjectsOk(inv.objects) && Acyclic(ParentGraph(inv.objects))
  }

  /** The graph of objects with distinct names, without the recursion. */
  lemma {:induction false} GraphIs(objects: seq<Object>)
    requires Named(objects)
    ensures ParentGraph(objects).Keys == Ids(objects) && |ParentGraph(objects)| == |objects|
    ensures forall i :: 0 <= i < |objects| ==>
      objects[i].local in ParentGraph(objects) && ParentGraph(objects)[objects[i].local] == Above(objects[i])
  {
    if objects != [] {
      var front, last := objects[..|objects| - 1], objects[|objects| - 1];
      hide Above;
      NamedFront(objects);
      GraphIs(front);
      assert |ParentGraph(objects).Keys| == |ParentGraph(front).Keys| + 1;
      hide Named, Ids, ParentGraph;
      forall i | 0 <= i < |objects|
        ensures objects[i].local in ParentGraph(objects) && ParentGraph(objects)[objects[i].local] == Above(objects[i])
      {
        assert ParentGraph(objects) == ParentGraph(front)[last.local := Above(last)] by { GraphStep(objects); }
        if i < |front| {
          assert front[i] == objects[i];
        }
      }
    }
  }

  lemma GraphStep(objects: seq<Object>)
    requires objects != []
    ensures var front, last := objects[..|objects| - 1], objects[|objects| - 1];
      ParentGraph(objects) == ParentGraph(front)[last.local := Above(last)]
  {
    hide Above;
  }

  lemma NamedFront(objects: seq<Object>)
    requires objects != [] && Named(objects)
    ensures Named(objects[..|objects| - 1]) && objects[|objects| - 1].local !in Ids(objects[..|objects| - 1])
  {
    var front := objects[..|objects| - 1];
    hide Bounded;
    forall i | 0 <= i < |front| ensures IdOk(front, i) {
      assert IdOk(objects, i);
    }
    assert IdOk(objects, |objects| - 1);
    IdsAre(front);
  }

  // ---- The field a refusal names ----

  /** The first thing wrong with a single object, in the order it is checked. */
  ghost function ObjectFault(objects: seq<Object>, i: nat): Option<Field>
    requires i < |objects|
  {
    if !IdOk(objects, i) then Some(LocalId) else if !KindOk(objects[i]) then Some(Kind) else None
  }

  ghost predicate FirstFault(objects: seq<Object>, i: nat, field: Field) {
    && i < |objects| && ObjectFault(objects, i) == Some(field)
    && forall j :: 0 <= j < i ==> ObjectFault(objects, j).None?
  }

  ghost predicate NoFault(objects: seq<Object>) {
    forall i :: 0 <= i < |objects| ==> ObjectFault(objects, i).None?
  }

  /** Refusals are attributed to the first check that fails. */
  ghost predicate Explains(inv: Inventory, field: Field) {
    match field
    case Generation => !GenerationOk(inv)
    case Objects => GenerationOk(inv) && |inv.objects| > 2048
    case LocalId => GenerationOk(inv) && |inv.objects| <= 2048 && exists i: nat ::
      FirstFault(inv.objects, i, LocalId)
    case Kind => GenerationOk(inv) && |inv.objects| <= 2048 && exists i: nat :: FirstFault(inv.objects, i, Kind)
    case Parents =>
      && GenerationOk(inv) && |inv.objects| <= 2048 && NoFault(inv.objects)
      && !(AllParentsOk(inv.objects, Ids(inv.objects)) && Acyclic(ParentGraph(inv.objects)))
  }

  /** The first loop: names and kinds. */
  method CheckObjects(objects: seq<Object>) returns (ids: set<Name>, fault: Option<Field>)
    ensures fault.Some? ==> (fault == Some(LocalId) || fault == Some(Kind)) && exists i: nat ::
      FirstFault(objects, i, fault.value)
    ensures fault.None? ==> ids == Ids(objects) && NoFault(objects)
  {
    hide Bounded;
    ids, fault := {}, None;
    for i := 0 to |objects|
      invariant ids == Ids(objects[..i])
      invariant forall j :: 0 <= j < i ==> ObjectFault(objects, j).None?
    {
      var o := objects[i];
      IdsAre(objects[..i]);
      assert o.local in ids <==> exists j :: 0 <= j < i && objects[j].local == o.local;
      assert objects[..i + 1][..i] == objects[..i];
      if !Bounded(o.local.text, 128) || o.local == ROOT || o.local in ids {
        fault := Some(LocalId);
        assert !IdOk(objects, i);
        assert FirstFault(objects, i, LocalId);
        return;
      }
      assert IdOk(objects, i);
      ids := ids + {o.local};
      if o.kind !in KINDS {
        fault := Some(Kind);
        assert FirstFault(objects, i, Kind);
        return;
      }
    }
    assert objects[..|objects|] == objects;
  }

  /** What the second loop has collected from a prefix of the objects. */
  ghost predicate Collected(objects: seq<Object>, degrees: map<Name, nat>, children: map<Name, seq<Name>>) {
    Counts(ParentGraph(objects), degrees, {}) && Reversed(ParentGraph(objects), children)
  }

  lemma NothingCollected(objects: seq<Object>)
    requires objects == []
    ensures Collected(objects, map[], map[])
  {
  }

  /** The second loop: parents, degrees and children. */
  method Connect(objects: seq<Object>, ids: set<Name>)
    returns (degrees: map<Name, nat>, children: map<Name, seq<Name>>, ok: bool)
    requires Named(objects)
    ensures ok <==> AllParentsOk(objects, ids)
    ensures ok ==> Collected(objects, degrees, children)
  {
    hide Collected, ParentsOk, IdOk, Above;
    degrees, children, ok := map[], map[], true;
    NothingCollected(objects[..0]);
    for i := 0 to |objects|
      invariant forall j :: 0 <= j < i ==> ParentsOk(objects[j], ids)
      invariant Collected(objects[..i], degrees, children)
    {
      ghost var was := children;
      var degree: nat, fine := 0, true;
      degree, children, fine := Attach(objects[i], ids, children);
      if !fine {
        ok := false;
        return;
      }
      CollectedOne(objects, i, degrees, was, degree, children);
      degrees := degrees[objects[i].local := degree];
    }
    assert objects[..|objects|] == objects;
  }

  /** children after the object called name was added below every p of above. */
  ghost predicate Extended(before: map<Name, seq<Name>>, after: map<Name, seq<Name>>, name: Name, above: set<Name>) {
    && (forall p :: p in before && p !in above ==> p in after && after[p] == before[p])
    && (forall p :: p in above ==> p in after && after[p] == (if p in before then before[p] else []) + [name])
    && (forall p :: p in after ==> p in before || p in above)
  }

  method Attach(o: Object, ids: set<Name>, before: map<Name, seq<Name>>)
    returns (degree: nat, children: map<Name, seq<Name>>, ok: bool)
    ensures ok <==> ParentsOk(o, ids)
    ensures ok ==> degree == |Above(o)| && Extended(before, children, o.local, Above(o))
  {
    hide Above, Extended, Listed, ParentOk, WithoutRoot;
    var unique: set<Name> := {};
    degree, children, ok := 0, before, true;
    ghost var above: set<Name> := {};
    NothingAttached(before, o.local);
    assert Listed(o.parents[..0]) == {} && WithoutRoot({}) == {} by { NothingListed(o.parents[..0]); }
    for i := 0 to |o.parents|
      invariant unique == Listed(o.parents[..i])
      invariant forall j :: 0 <= j < i ==> ParentOk(o, ids, j)
      invariant above == WithoutRoot(unique) && degree == |above|
      invariant Extended(before, children, o.local, above)
    {
      var parent := o.parents[i];
      ListedOne(o, ids, i);
      WithoutRootOne(unique, parent);
      if parent in unique || (parent != ROOT && parent !in ids) {
        ok := false;
        return;
      }
      if parent != ROOT {
        OneAttached(before, children, o.local, above, parent);
        degree := degree + 1;
        children := children[parent := (if parent in children then children[parent] else []) + [o.local]];
        above := above + {parent};
      }
      unique := unique + {parent};
    }
    assert o.parents[..|o.parents|] == o.parents;
    AboveIs(o, above);
  }

  function Listed(s: seq<Name>): set<Name> {
    set x | x in s
  }

  lemma NothingListed(s: seq<Name>)
    requires s == []
    ensures Listed(s) == {} && WithoutRoot({}) == {}
  {
  }

  function WithoutRoot(s: set<Name>): set<Name> {
    s - {ROOT}
  }

  lemma WithoutRootOne(s: set<Name>, x: Name)
    ensures WithoutRoot(s + {x}) == if x == ROOT then WithoutRoot(s) else WithoutRoot(s) + {x}
    ensures x !in s ==> x !in WithoutRoot(s)
  {
  }

  lemma ListedOne(o: Object, ids: set<Name>, i: nat)
    requires i < |o.parents|
    ensures Listed(o.parents[..i + 1]) == Listed(o.parents[..i]) + {o.parents[i]}
    ensures ParentOk(o, ids, i) <==>
      o.parents[i] !in Listed(o.parents[..i]) && (o.parents[i] == ROOT || o.parents[i] in ids)
  {
    var before := o.parents[..i];
    assert o.parents[..i + 1] == before + [o.parents[i]];
    assert forall j :: 0 <= j < i ==> before[j] == o.parents[j];
    if o.parents[i] in before {
      var j :| 0 <= j < |before| && before[j] == o.parents[i];
    }
  }

  lemma AboveIs(o: Object, above: set<Name>)
    requires above == WithoutRoot(Listed(o.parents))
    ensures above == Above(o)
  {
  }

  lemma NothingAttached(before: map<Name, seq<Name>>, name: Name)
    ensures Extended(before, before, name, {})
  {
  }

  lemma OneAttached(before: map<Name, seq<Name>>, children: map<Name, seq<Name>>, name: Name, above: set<Name>,
          parent: Name)
    requires Extended(before, children, name, above) && parent !in above
    ensures Extended(before, children[parent := (if parent in children then children[parent] else []) + [name]], name,
      above + {parent})
  {
  }

  lemma CollectedOne(objects: seq<Object>, i: nat, degrees: map<Name, nat>, before: map<Name, seq<Name>>, degree: nat,
          after: map<Name, seq<Name>>)
    requires i < |objects| && Named(objects) && Collected(objects[..i], degrees, before)
    requires degree == |Above(objects[i])| && Extended(before, after, objects[i].local, Above(objects[i]))
    ensures Collected(objects[..i + 1], degrees[objects[i].local := degree], after)
  {
    var front, name := objects[..i], objects[i].local;
    var above := Above(objects[i]);
    assert objects[..i + 1][..i] == front && objects[..i + 1][i] == objects[i];
    assert name !in ParentGraph(front) by {
      NewName(objects, i);
    }
    var g, g' := ParentGraph(front), ParentGraph(objects[..i + 1]);
    assert g' == g[name := above];
    hide ParentGraph, Above, Named;
    CountsOne(g, degrees, name, above);
    ReversedOne(g, before, after, name, above);
  }

  lemma NewName(objects: seq<Object>, i: nat)
    requires i < |objects| && Named(objects)
    ensures objects[i].local !in ParentGraph(objects[..i])
  {
    forall j | 0 <= j < i ensures IdOk(objects[..i], j) {
      assert IdOk(objects, j);
    }
    GraphIs(objects[..i]);
    IdsAre(objects[..i]);
    assert IdOk(objects, i);
    hide Bounded, Above, ParentGraph, Named;
  }

  lemma ReversedOne(g: map<Name, set<Name>>, before: map<Name, seq<Name>>, after: map<Name, seq<Name>>, name: Name,
          above: set<Name>)
    requires Reversed(g, before) && Extended(before, after, name, above) && name !in g
    ensures Reversed(g[name := above], after)
  {
    forall p, c ensures (p in after && c in after[p]) <==> (c in g[name := above] && p in g[name := above][c]) {
      assert (p in before && c in before[p]) <==> (c in g && p in g[c]);
    }
    forall p | p in after ensures Unique(after[p]) {
      if p in above && p in before {
        assert name !in before[p];
      }
    }
  }

  /** Exactly the acceptable inventories are accepted; a refusal names the first check that fails. */
  method Validate(inv: Inventory) returns (v: Verdict)
    ensures v.Accepted? <==> Acceptable(inv)
    ensures v.Refused? ==> Explains(inv, v.field)
  {
    hide ParentsOk, IdOk, KindOk, Acyclic, ParentGraph, Ids, Collected, NoFault, Named, AllParentsOk, Counts, Reversed;
    if inv.generation == 0 || inv.generation > MAX_GENERATION {
      return Refused(Generation);
    }
    if |inv.objects| > MAX_OBJECTS {
      return Refused(Objects);
    }
    var ids, fault := CheckObjects(inv.objects);
    if fault.Some? {
      FaultRefuses(inv.objects, fault.value);
      return Refused(fault.value);
    }
    NoFaults(inv.objects);
    var degrees, children, ok := Connect(inv.objects, ids);
    if !ok {
      return Refused(Parents);
    }
    ParentsInside(inv.objects);
    assert Counts(ParentGraph(inv.objects), degrees, {}) && Reversed(ParentGraph(inv.objects), children) by {
      CollectedIs(inv.objects, degrees, children);
    }
    var visited, order := Visit(ParentGraph(inv.objects), degrees, children);
    if visited != |inv.objects| {
      return Refused(Parents);
    }
    return Accepted;
  }

  lemma CollectedIs(objects: seq<Object>, degrees: map<Name, nat>, children: map<Name, seq<Name>>)
    requires Collected(objects, degrees, children)
    ensures Counts(ParentGraph(objects), degrees, {}) && Reversed(ParentGraph(objects), children)
  {
  }

  lemma FaultRefuses(objects: seq<Object>, field: Field)
    requires exists i: nat :: FirstFault(objects, i, field)
    ensures !ObjectsOk(objects)
  {
    var i: nat :| FirstFault(objects, i, field);
    assert IdOk(objects, i) ==> !KindOk(objects[i]);
  }

  lemma NoFaults(objects: seq<Object>)
    requires NoFault(objects)
    ensures Named(objects) && forall i :: 0 <= i < |objects| ==> KindOk(objects[i])
  {
    forall i | 0 <= i < |objects| ensures IdOk(objects, i) && KindOk(objects[i]) {
      assert ObjectFault(objects, i).None?;
    }
  }

  lemma ParentsInside(objects: seq<Object>)
    requires Named(objects) && AllParentsOk(objects, Ids(objects))
    ensures var g := ParentGraph(objects); |g| == |objects| && forall x :: x in g ==> g[x] <= g.Keys
  {
    GraphIs(objects);
    IdsAre(objects);
    var g := ParentGraph(objects);
    hide ParentGraph, Named, ParentsOk, Above, Ids;
    forall x | x in g ensures g[x] <= g.Keys {
      var i :| 0 <= i < |objects| && objects[i].local == x;
      AboveInside(objects[i], Ids(objects));
    }
  }

  lemma AboveInside(o: Object, ids: set<Name>)
    requires ParentsOk(o, ids)
    ensures Above(o) <= ids
  {
    forall p | p in Above(o) ensures p in ids {
      var i :| 0 <= i < |o.parents| && o.parents[i] == p;
      assert ParentOk(o, ids, i);
    }
  }
}
