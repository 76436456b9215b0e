/**
 Which physical disks own an object (server/src/disk_view.rs:294-367): three worklist traversals
 over the child-to-parent graph, and what they compute.
 */
module Ownership {
  import opened Graph

  type Id = nat
  type Parents = map<Id, set<Id>>

  const MAX_TRAVERSAL: nat := 4096

  /** The physical disks reachable from id. */
  ghost function RootsOf(parents: Parents, roots: set<Id>, id: Id): set<Id> {
    set r | r in roots && Reach(parents, id, r)
  }

  /** Some ancestor of id, or id itself, is on a cycle. */
  ghost predicate Tainted(parents: Parents, id: Id) {
    exists c :: Reach(parents, id, c) && OnCycle(parents, c)
  }

  ghost function Owners(parents: Parents, roots: set<Id>, id: Id): set<Id> {
    if Tainted(parents, id) then {} else RootsOf(parents, roots, id)
  }

  ghost predicate Topology(parents: Parents, roots: set<Id>, owned: set<Id>) {
    && roots <= owned && Closed(parents, owned)
    && forall r :: r in roots ==> Next(parents, r) == {}
  }

  /** What a traversal has found so far: everything reached is seen or still to do. */
  ghost predicate Frontier(parents: Parents, seen: set<Id>, todo: seq<Id>) {
    forall x, y :: x in seen && y in Next(parents, x) ==> y in seen || y in todo
  }

  lemma FrontierClosed(parents: Parents, seen: set<Id>)
    requires Frontier(parents, seen, [])
    ensures Closed(parents, seen)
  {
  }

  lemma FrontierVisits(parents: Parents, seen: set<Id>, todo: seq<Id>, more: seq<Id>)
    requires todo != [] && Frontier(parents, seen, todo)
    requires forall y :: y in Next(parents, todo[|todo| - 1]) ==> y in more
    ensures Frontier(parents, seen + {todo[|todo| - 1]}, todo[..|todo| - 1] + more)
  {
    var at := todo[|todo| - 1];
    var rest := todo[..|todo| - 1] + more;
    forall x, y | x in seen + {at} && y in Next(parents, x) ensures y in seen + {at} || y in rest {
      if x in seen && y in todo && y != at {
        assert todo == todo[..|todo| - 1] + [at];
      }
    }
  }

  /** Popping an element already seen. */
  lemma FrontierSkips(parents: Parents, seen: set<Id>, todo: seq<Id>)
    requires todo != [] && Frontier(parents, seen, todo) && todo[|todo| - 1] in seen
    ensures Frontier(parents, seen, todo[..|todo| - 1])
  {
    assert todo == todo[..|todo| - 1] + [todo[|todo| - 1]];
  }

  lemma Popped(todo: seq<Id>, x: Id)
    requires todo != []
    ensures x in todo <==> x == todo[|todo| - 1] || x in todo[..|todo| - 1]
  {
    assert todo == todo[..|todo| - 1] + [todo[|todo| - 1]];
  }

  lemma Shrinks(owned: set<Id>, seen: set<Id>, at: Id)
    requires at in owned && at !in seen
    ensures |owned - (seen + {at})| < |owned - seen|
  {
    assert owned - seen == (owned - (seen + {at})) + {at};
  }

  /** Everything a traversal met is owned and reachable from start. */
  ghost predicate Found(parents: Parents, owned: set<Id>, start: Id, seen: set<Id>, todo: seq<Id>) {
    && (forall x :: x in seen ==> x in owned && Reach(parents, start, x))
    && (forall x :: x in todo ==> x in owned && Reach(parents, start, x))
  }

  lemma FoundNext(parents: Parents, owned: set<Id>, start: Id, seen: set<Id>, todo: seq<Id>, more: seq<Id>)
    requires todo != [] && Closed(parents, owned) && Found(parents, owned, start, seen, todo)
    requires forall y :: y in more ==> y in Next(parents, todo[|todo| - 1])
    ensures Found(parents, owned, start, seen + {todo[|todo| - 1]}, todo[..|todo| - 1] + more)
  {
    var at := todo[|todo| - 1];
    assert at in todo;
    forall y | y in more ensures y in owned && Reach(parents, start, y) {
      ReachOneMore(parents, start, at, y);
    }
    hide Reach;
  }

  /** The start of a traversal. */
  lemma Starts(parents: Parents, owned: set<Id>, id: Id)
    requires id in owned
    ensures Found(parents, owned, id, {}, [id]) && Frontier(parents, {}, [id])
  {
    ReachItself(parents, id);
  }

  /** One turn that finds nothing new. */
  lemma Skips(parents: Parents, owned: set<Id>, start: Id, seen: set<Id>, todo: seq<Id>)
    requires todo != [] && Found(parents, owned, start, seen, todo) && Frontier(parents, seen, todo)
    ensures todo[|todo| - 1] in owned && Reach(parents, start, todo[|todo| - 1])
    ensures todo[|todo| - 1] in seen ==>
      Found(parents, owned, start, seen, todo[..|todo| - 1]) && Frontier(parents, seen, todo[..|todo| - 1])
  {
    assert todo[|todo| - 1] in todo;
    if todo[|todo| - 1] in seen {
      FrontierSkips(parents, seen, todo);
    }
    hide Reach;
    forall x | x in todo[..|todo| - 1] ensures x in todo {
    }
  }

  /** One turn that visits a new object and finds its parents. */
  lemma Visits(parents: Parents, owned: set<Id>, start: Id, seen: set<Id>, todo: seq<Id>, more: seq<Id>)
    requires Closed(parents, owned) && todo != [] && Found(parents, owned, start, seen, todo)
      && Frontier(parents, seen, todo)
    requires todo[|todo| - 1] !in seen
    requires forall y :: y in more <==> y in Next(parents, todo[|todo| - 1])
    ensures var at, rest := todo[|todo| - 1], todo[..|todo| - 1] + more;
      && Found(parents, owned, start, seen + {at}, rest) && Frontier(parents, seen + {at}, rest)
      && |owned - (seen + {at})| < |owned - seen|
  {
    assert todo[|todo| - 1] in todo;
    Shrinks(owned, seen, todo[|todo| - 1]);
    FrontierVisits(parents, seen, todo, more);
    FoundNext(parents, owned, start, seen, todo, more);
  }

  /** A traversal that ran to its end has seen exactly what is reachable. */
  lemma Complete(parents: Parents, owned: set<Id>, start: Id, seen: set<Id>)
    requires Found(parents, owned, start, seen, []) && Frontier(parents, seen, []) && start in seen
    ensures forall x :: x in seen <==> Reach(parents, start, x)
  {
    FrontierClosed(parents, seen);
    forall x | Reach(parents, start, x) ensures x in seen {
      ClosedReach(parents, seen, start, x);
    }
    hide Reach;
  }

  // ---- The three traversals ----

  /** Everything a traversal from id can see. */
  ghost function Above(parents: Parents, owned: set<Id>, id: Id): set<Id> {
    set x | x in owned && Reach(parents, id, x)
  }

  /** A traversal from id must hit its limit: disks do not count towards it. */
  ghost predicate Wide(parents: Parents, roots: set<Id>, owned: set<Id>, id: Id) {
    |Above(parents, owned, id) - roots| > MAX_TRAVERSAL
  }

  /** First pass: the disks reachable from id, unless the traversal limit cuts it short. */
  method CollectRoots(parents: Parents, roots: set<Id>, ghost owned: set<Id>, id: Id)
    returns (disks: set<Id>, limited: bool)
    requires Topology(parents, roots, owned) && id in owned
    ensures disks <= RootsOf(parents, roots, id)
    ensures !limited ==> disks == RootsOf(parents, roots, id)
    ensures limited ==> |Above(parents, owned, id)| > MAX_TRAVERSAL
    ensures Wide(parents, roots, owned, id) ==> limited
  {
    hide Reach, Above, Found, Frontier, RootsOf, Wide;
    Starts(parents, owned, id);
    var seen: set<Id>, todo := {}, [id];
    disks, limited := {}, false;
    while todo != []
      invariant Found(parents, owned, id, seen, todo) && Frontier(parents, seen, todo)
      invariant id in seen || id in todo
      invariant disks == seen * roots && |seen - roots| <= MAX_TRAVERSAL
      decreases |owned - seen|, |todo|
    {
      var at := todo[|todo| - 1];
      Popped(todo, id);
      Skips(parents, owned, id, seen, todo);
      if at in seen {
        todo := todo[..|todo| - 1];
        continue;
      }
      SeenMore(seen, roots, at);
      if at in roots {
        Visits(parents, owned, id, seen, todo, []);
        assert todo[..|todo| - 1] + [] == todo[..|todo| - 1];
        todo, seen, disks := todo[..|todo| - 1], seen + {at}, disks + {at};
        continue;
      }
      var next := Elements(Next(parents, at));
      Visits(parents, owned, id, seen, todo, next);
      todo, seen := todo[..|todo| - 1] + next, seen + {at};
      if |seen| > MAX_TRAVERSAL {
        limited := true;
        break;
      }
      SubsetSize(seen - roots, seen);
    }
    SeenIsFound(parents, owned, roots, id, seen, todo);
    if !limited {
      Complete(parents, owned, id, seen);
      assert RootsOf(parents, roots, id) == seen * roots by { RootsAre(parents, roots, id); }
      NotWide(parents, roots, owned, id, seen);
    }
  }

  lemma NotWide(parents: Parents, roots: set<Id>, owned: set<Id>, id: Id, seen: set<Id>)
    requires |seen - roots| <= MAX_TRAVERSAL && forall x :: x in seen <==> Reach(parents, id, x)
    ensures !Wide(parents, roots, owned, id)
  {
    SubsetSize(Above(parents, owned, id) - roots, seen - roots);
    hide Reach;
  }

  lemma SeenMore(seen: set<Id>, roots: set<Id>, at: Id)
    ensures (seen + {at}) * roots == if at in roots then seen * roots + {at} else seen * roots
    ensures at in roots ==> (seen + {at}) - roots == seen - roots
  {
  }

  lemma RootsAre(parents: Parents, roots: set<Id>, id: Id)
    ensures forall r :: r in RootsOf(parents, roots, id) <==> r in roots && Reach(parents, id, r)
  {
  }

  lemma SeenIsFound(parents: Parents, owned: set<Id>, roots: set<Id>, start: Id, seen: set<Id>, todo: seq<Id>)
    requires Found(parents, owned, start, seen, todo)
    ensures seen * roots <= RootsOf(parents, roots, start) && |seen| <= |Above(parents, owned, start)|
  {
    SubsetSize(seen, Above(parents, owned, start));
  }

  /** Second pass: whether id can be reached from one of its own parents. */
  method IsCyclic(parents: Parents, ghost owned: set<Id>, id: Id) returns (cyclic: bool)
    requires Closed(parents, owned) && id in owned
    ensures cyclic <==> OnCycle(parents, id)
  {
    hide Reach, Behind, Frontier, Closed;
    var todo := Elements(Next(parents, id));
    var seen: set<Id> := {};
    cyclic := false;
    Leaves(parents, owned, id, todo);
    while todo != []
      invariant forall x :: x in seen || x in todo ==> x in owned && Behind(parents, id, x)
      invariant Frontier(parents, seen, todo)
      invariant forall x :: x in Next(parents, id) ==> x in seen || x in todo
      invariant id !in seen
      decreases |owned - seen|, |todo|
    {
      var at := todo[|todo| - 1];
      assert at in todo;
      PoppedAll(todo);
      if at == id {
        assert OnCycle(parents, id) by { BehindItself(parents, id); }
        return true;
      }
      if at in seen {
        FrontierSkips(parents, seen, todo);
        todo := todo[..|todo| - 1];
        continue;
      }
      Shrinks(owned, seen, at);
      var next := Elements(Next(parents, at));
      FrontierVisits(parents, seen, todo, next);
      forall x | x in next ensures x in owned && Behind(parents, id, x) {
        BehindOneMore(parents, owned, id, at, x);
      }
      todo, seen := todo[..|todo| - 1] + next, seen + {at};
    }
    NotBehind(parents, seen, id);
  }

  lemma Leaves(parents: Parents, owned: set<Id>, id: Id, todo: seq<Id>)
    requires Closed(parents, owned) && id in owned && forall x :: x in todo <==> x in Next(parents, id)
    ensures Frontier(parents, {}, todo) && forall x :: x in todo ==> x in owned && Behind(parents, id, x)
  {
    forall x | x in todo ensures Behind(parents, id, x) {
      ReachItself(parents, x);
    }
    hide Reach, Behind;
  }

  lemma BehindItself(parents: Parents, id: Id)
    requires Behind(parents, id, id)
    ensures OnCycle(parents, id)
  {
  }

  lemma NotBehind(parents: Parents, seen: set<Id>, id: Id)
    requires Frontier(parents, seen, []) && Next(parents, id) <= seen && id !in seen
    ensures !OnCycle(parents, id)
  {
    FrontierClosed(parents, seen);
    if OnCycle(parents, id) {
      var n :| n in Next(parents, id) && Reach(parents, n, id);
      ClosedReach(parents, seen, n, id);
      assert false;
    }
  }

  lemma PoppedAll(todo: seq<Id>)
    requires todo != []
    ensures forall x :: x in todo <==> x == todo[|todo| - 1] || x in todo[..|todo| - 1]
  {
    forall x ensures x in todo <==> x == todo[|todo| - 1] || x in todo[..|todo| - 1] {
      Popped(todo, x);
    }
  }

  /** x is reachable from id in at least one step. */
  ghost predicate Behind(parents: Parents, id: Id, x: Id) {
    exists n :: n in Next(parents, id) && Reach(parents, n, x)
  }

  lemma BehindOneMore(parents: Parents, owned: set<Id>, id: Id, x: Id, y: Id)
    requires Closed(parents, owned) && x in owned && Behind(parents, id, x) && y in Next(parents, x)
    ensures y in owned && Behind(parents, id, y)
  {
    var n :| n in Next(parents, id) && Reach(parents, n, x);
    ReachOneMore(parents, n, x, y);
  }

  /** Third pass: whether some cyclic object is reachable from id. */
  method ReachesAny(parents: Parents, ghost owned: set<Id>, cyclic: set<Id>, id: Id) returns (tainted: bool)
    requires Closed(parents, owned) && id in owned
    ensures tainted <==> exists c :: c in cyclic && Reach(parents, id, c)
  {
    hide Reach, Found, Frontier;
    Starts(parents, owned, id);
    var seen: set<Id>, todo := {}, [id];
    tainted := false;
    while todo != []
      invariant Found(parents, owned, id, seen, todo) && Frontier(parents, seen, todo)
      invariant id in seen || id in todo
      invariant seen !! cyclic
      decreases |owned - seen|, |todo|
    {
      var at := todo[|todo| - 1];
      Popped(todo, id);
      Skips(parents, owned, id, seen, todo);
      if at in cyclic {
        return true;
      }
      if at in seen {
        todo := todo[..|todo| - 1];
        continue;
      }
      var next := Elements(Next(parents, at));
      Visits(parents, owned, id, seen, todo, next);
      todo, seen := todo[..|todo| - 1] + next, seen + {at};
    }
    Complete(parents, owned, id, seen);
  }

  // ---- The whole projection ----

  datatype Reason = ContextMissing | EndpointMissing | ContextMismatch | TraversalLimit | TopologyCycle

  function Noted(reasons: map<Id, set<Reason>>, id: Id): set<Reason> {
    if id in reasons then reasons[id] else {}
  }

  function Note(reasons: map<Id, set<Reason>>, id: Id, reason: Reason): map<Id, set<Reason>> {
    reasons[id := Noted(reasons, id) + {reason}]
  }

  /** Exactly the objects in who were additionally given reason. */
  ghost predicate Extra(before: map<Id, set<Reason>>, after: map<Id, set<Reason>>, who: set<Id>, reason: Reason) {
    forall id :: Noted(after, id) == Noted(before, id) + if id in who then {reason} else {}
  }

  lemma NothingExtra(before: map<Id, set<Reason>>, reason: Reason)
    ensures Extra(before, before, {}, reason)
  {
  }

  lemma OneExtra(before: map<Id, set<Reason>>, after: map<Id, set<Reason>>, who: set<Id>, id: Id, reason: Reason)
    requires Extra(before, after, who, reason)
    ensures Extra(before, Note(after, id, reason), who + {id}, reason)
  {
  }

  /** Exactly the objects in who lost their disks. */
  ghost predicate Emptied(m: map<Id, set<Id>>, membership: map<Id, set<Id>>, who: set<Id>) {
    membership.Keys == m.Keys && forall id :: id in m ==> membership[id] == if id in who then {} else m[id]
  }

  /** What is recorded about id after the traversals, given what was noted before them. */
  ghost predicate ReasonsAre(parents: Parents, before: map<Id, set<Reason>>, after: map<Id, set<Reason>>,
          limited: set<Id>, id: Id) {
    Noted(after, id) == Noted(before, id)
      + (if id in limited then {TraversalLimit} else {})
      + (if Tainted(parents, id) then {TopologyCycle} else {})
  }

  /** Ownership is what it should be: no disk for an object under a cycle, otherwise exactly the
      disks it can reach.  Only an object above more than 4096 others can hit the traversal limit, and if
      that many of them are no disks it does; then the limit is recorded. */
  method Membership(order: seq<Id>, ghost owned: set<Id>, parents: Parents, roots: set<Id>, before: map<Id,
          set<Reason>>)
    returns (membership: map<Id, set<Id>>, reasons: map<Id, set<Reason>>, ghost limited: set<Id>)
    requires Topology(parents, roots, owned) && forall id :: id in owned <==> id in order
    requires forall i, j :: 0 <= i < j < |order| ==> order[i] != order[j]
    requires forall id :: TopologyCycle !in Noted(before, id)
    ensures membership.Keys == owned
    ensures forall id :: id in order && id !in limited ==> membership[id] == Owners(parents, roots, id)
    ensures forall id :: id in order ==> membership[id] <= Owners(parents, roots, id)
    ensures forall id :: id in order ==> ReasonsAre(parents, before, reasons, limited, id)
    ensures forall id :: id in limited ==> id in order && |Above(parents, owned, id)| > MAX_TRAVERSAL
    ensures forall id :: id in order && Wide(parents, roots, owned, id) ==> id in limited
  {
    hide Tainted, OnCycle, Reach, Owners, RootsOf, Note, Noted, Extra, Closed, Meets, Wide;
    membership, reasons, limited := FirstPass(order, owned, parents, roots, before);
    ghost var noted := reasons;
    ghost var loops, met: set<Id> := {}, {};
    membership, reasons, loops := SecondPass(order, owned, parents, membership, reasons);
    ghost var cut := reasons;
    var cyclic := set id | id in reasons && TopologyCycle in reasons[id];
    assert cyclic == loops by { OnlyCyclicNoted(before, noted, cut, limited, loops); }
    if cyclic != {} {
      membership, reasons, met := ThirdPass(order, owned, parents, cyclic, membership, reasons);
    } else {
      NoneMet(parents, owned);
      NothingExtra(cut, TopologyCycle);
    }
    TaintedMeets(parents, owned, cyclic);
    forall id | id in order
      ensures id !in limited ==> membership[id] == Owners(parents, roots, id)
      ensures membership[id] <= Owners(parents, roots, id)
      ensures ReasonsAre(parents, before, reasons, limited, id)
    {
      ReasonsAdd(before, noted, cut, reasons, limited, cyclic, met, id);
      OwnersAre(parents, roots, id);
    }
  }

  lemma OnlyCyclicNoted(before: map<Id, set<Reason>>, a: map<Id, set<Reason>>, b: map<Id, set<Reason>>,
          limited: set<Id>, loops: set<Id>)
    requires forall id :: TopologyCycle !in Noted(before, id)
    requires Extra(before, a, limited, TraversalLimit) && Extra(a, b, loops, TopologyCycle)
    ensures (set id | id in b && TopologyCycle in b[id]) == loops
  {
    forall id ensures id in loops <==> TopologyCycle in Noted(b, id) {
      assert TopologyCycle !in Noted(a, id);
    }
    forall id | id in loops ensures id in b {
      assert TopologyCycle in Noted(b, id);
    }
  }

  lemma ReasonsAdd(before: map<Id, set<Reason>>, a: map<Id, set<Reason>>, b: map<Id, set<Reason>>, c: map<Id,
          set<Reason>>,
    limited: set<Id>, cyclic: set<Id>, met: set<Id>, id: Id)
    requires Extra(before, a, limited, TraversalLimit) && Extra(a, b, cyclic, TopologyCycle)
      && Extra(b, c, met, TopologyCycle)
    ensures Noted(c, id) == Noted(before, id) + (if id in limited then {TraversalLimit} else {})
      + (if id in cyclic || id in met then {TopologyCycle} else {})
  {
  }

  lemma OwnersAre(parents: Parents, roots: set<Id>, id: Id)
    ensures Owners(parents, roots, id) == if Tainted(parents, id) then {} else RootsOf(parents, roots, id)
  {
  }

  lemma NoneMet(parents: Parents, owned: set<Id>)
    ensures forall id :: !Meets(parents, {}, id)
  {
  }

  /** The cyclic objects, and those that reach one, are the tainted ones. */
  lemma TaintedMeets(parents: Parents, owned: set<Id>, cyclic: set<Id>)
    requires Closed(parents, owned) && forall c :: c in cyclic <==> c in owned && OnCycle(parents, c)
    ensures forall id :: id in owned ==> (Tainted(parents, id) <==> Meets(parents, cyclic, id))
    ensures forall id :: id in cyclic ==> Meets(parents, cyclic, id)
  {
    hide OnCycle, Reach;
    forall id | id in owned
      ensures Tainted(parents, id) <==> Meets(parents, cyclic, id)
      ensures id in cyclic ==> Meets(parents, cyclic, id)
    {
      ReachItself(parents, id);
      if Tainted(parents, id) {
        var c :| Reach(parents, id, c) && OnCycle(parents, c);
        ClosedReach(parents, owned, id, c);
      }
    }
  }

  method FirstPass(order: seq<Id>, ghost owned: set<Id>, parents: Parents, roots: set<Id>, before: map<Id, set<Reason>>)
    returns (membership: map<Id, set<Id>>, reasons: map<Id, set<Reason>>, ghost limited: set<Id>)
    requires Topology(parents, roots, owned) && forall id :: id in owned <==> id in order
    requires forall i, j :: 0 <= i < j < |order| ==> order[i] != order[j]
    ensures membership.Keys == owned
    ensures forall id :: id in order ==> membership[id] <= RootsOf(parents, roots, id)
    ensures forall id :: id in order && id !in limited ==> membership[id] == RootsOf(parents, roots, id)
    ensures Extra(before, reasons, limited, TraversalLimit)
    ensures forall id :: id in limited ==> id in order && |Above(parents, owned, id)| > MAX_TRAVERSAL
    ensures forall id :: id in order && Wide(parents, roots, owned, id) ==> id in limited
  {
    hide RootsOf, Topology, Extra, Note, Above, Wide;
    NothingExtra(before, TraversalLimit);
    membership, reasons, limited := map[], before, {};
    for i := 0 to |order|
      invariant forall id :: id in membership <==> id in order[..i]
      invariant limited <= membership.Keys
      invariant forall id :: id in membership ==> membership[id] <= RootsOf(parents, roots, id)
      invariant forall id :: id in membership && id !in limited ==> membership[id] == RootsOf(parents, roots, id)
      invariant Extra(before, reasons, limited, TraversalLimit)
      invariant forall id :: id in limited ==> |Above(parents, owned, id)| > MAX_TRAVERSAL
      invariant forall id :: id in membership && Wide(parents, roots, owned, id) ==> id in limited
    {
      var id := order[i];
      assert id !in order[..i];
      assert order[..i + 1] == order[..i] + [id];
      var disks, cut := CollectRoots(parents, roots, owned, id);
      if cut {
        OneExtra(before, reasons, limited, id, TraversalLimit);
        limited := limited + {id};
        reasons := Note(reasons, id, TraversalLimit);
      }
      membership := membership[id := disks];
    }
    assert order[..|order|] == order;
  }

  method SecondPass(order: seq<Id>, ghost owned: set<Id>, parents: Parents, m: map<Id, set<Id>>, before: map<Id,
          set<Reason>>)
    returns (membership: map<Id, set<Id>>, reasons: map<Id, set<Reason>>, ghost cyclic: set<Id>)
    requires Closed(parents, owned) && m.Keys == owned && forall id :: id in owned <==> id in order
    ensures forall c :: c in cyclic <==> c in owned && OnCycle(parents, c)
    ensures Emptied(m, membership, cyclic) && Extra(before, reasons, cyclic, TopologyCycle)
  {
    hide OnCycle, Closed, Extra, Note;
    membership, reasons, cyclic := m, before, {};
    NothingExtra(before, TopologyCycle);
    for i := 0 to |order|
      invariant forall c :: c in cyclic <==> c in order[..i] && OnCycle(parents, c)
      invariant Emptied(m, membership, cyclic) && Extra(before, reasons, cyclic, TopologyCycle)
    {
      var id := order[i];
      assert order[..i + 1] == order[..i] + [id];
      var loops := IsCyclic(parents, owned, id);
      if loops {
        OneExtra(before, reasons, cyclic, id, TopologyCycle);
        reasons := Note(reasons, id, TopologyCycle);
        membership := membership[id := {}];
        cyclic := cyclic + {id};
      }
    }
    assert order[..|order|] == order;
  }

  method ThirdPass(order: seq<Id>, ghost owned: set<Id>, parents: Parents, cyclic: set<Id>, m: map<Id, set<Id>>,
          before: map<Id, set<Reason>>)
    returns (membership: map<Id, set<Id>>, reasons: map<Id, set<Reason>>, ghost met: set<Id>)
    requires Closed(parents, owned) && m.Keys == owned && forall id :: id in owned <==> id in order
    ensures forall c :: c in met <==> c in owned && Meets(parents, cyclic, c)
    ensures Emptied(m, membership, met) && Extra(before, reasons, met, TopologyCycle)
  {
    hide Meets, Closed, Extra, Note;
    membership, reasons, met := m, before, {};
    NothingExtra(before, TopologyCycle);
    for i := 0 to |order|
      invariant forall c :: c in met <==> c in order[..i] && Meets(parents, cyclic, c)
      invariant Emptied(m, membership, met) && Extra(before, reasons, met, TopologyCycle)
    {
      var id := order[i];
      assert order[..i + 1] == order[..i] + [id];
      var tainted := ReachesAny(parents, owned, cyclic, id);
      assert tainted == Meets(parents, cyclic, id) by { MeetsIs(parents, cyclic, id); }
      if tainted {
        OneExtra(before, reasons, met, id, TopologyCycle);
        membership := membership[id := {}];
        reasons := Note(reasons, id, TopologyCycle);
        met := met + {id};
      }
    }
    assert order[..|order|] == order;
  }

  ghost predicate Meets(parents: Parents, cyclic: set<Id>, id: Id) {
    exists c :: c in cyclic && Reach(parents, id, c)
  }

  lemma MeetsIs(parents: Parents, cyclic: set<Id>, id: Id)
    ensures Meets(parents, cyclic, id) <==> exists c :: c in cyclic && Reach(parents, id, c)
  {
  }
}
