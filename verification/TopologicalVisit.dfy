/**
 The queue of server/src/model.rs:291-308: objects are visited once all their parents have been, and
 all of them are visited exactly when the parent graph has no cycle.
 */
module TopologicalVisit {
  import opened Graph

  // ---- Cycles ----

  ghost predicate Acyclic<T(!new)>(g: map<T, set<T>>) {
    forall x :: x in g ==> !OnCycle(g, x)
  }

  /** Every object comes after all of its parents. */
  ghost predicate Topological<T(!new)>(g: map<T, set<T>>, order: seq<T>) {
    && (forall i :: 0 <= i < |order| ==> order[i] in g)
    && (forall i, j :: 0 <= i < j < |order| ==> order[i] != order[j])
    && forall i :: 0 <= i < |order| ==> ParentsBefore(g, order, i)
  }

  ghost predicate ParentsBefore<T(!new)>(g: map<T, set<T>>, order: seq<T>, i: nat)
    requires i < |order|
  {
    forall p :: p in Next(g, order[i]) ==> p in order[..i]
  }

  /** Going up from position i one only ever meets earlier positions. */
  lemma {:induction false} PathGoesBack<T(!new)>(g: map<T, set<T>>, order: seq<T>, i: nat, p: seq<T>)
    requires Topological(g, order) && i < |order| && Path(g, p) && p[0] == order[i]
    ensures |p| > 1 ==> p[|p| - 1] in order[..i]
    ensures |p| == 1 ==> p[|p| - 1] == order[i]
    decreases |p|
  {
    if |p| > 1 {
      assert ParentsBefore(g, order, i) && p[1] in Next(g, p[0]);
      var j :| 0 <= j < i && order[j] == p[1];
      assert Path(g, p[1..]) by {
        forall k | 0 <= k < |p[1..]| - 1 ensures p[1..][k + 1] in Next(g, p[1..][k]) {
          assert p[1..][k + 1] == p[k + 2] && p[1..][k] == p[k + 1];
        }
      }
      PathGoesBack(g, order, j, p[1..]);
      assert order[..j] <= order[..i];
    }
  }

  /** An order of all objects with parents first rules every cycle out. */
  lemma TopologicalIsAcyclic<T(!new)>(g: map<T, set<T>>, order: seq<T>)
    requires Topological(g, order) && forall x :: x in g ==> x in order
    ensures Acyclic(g)
  {
    forall x | x in g ensures !OnCycle(g, x) {
      if OnCycle(g, x) {
        var n :| n in Next(g, x) && Reach(g, n, x);
        var p :| Joins(g, p, n, x);
        var i :| 0 <= i < |order| && order[i] == x;
        assert Path(g, [x] + p) by {
          forall k | 0 <= k < |[x] + p| - 1 ensures ([x] + p)[k + 1] in Next(g, ([x] + p)[k]) {
            if k > 0 {
              assert ([x] + p)[k + 1] == p[k] && ([x] + p)[k] == p[k - 1];
            }
          }
        }
        PathGoesBack(g, order, i, [x] + p);
        assert false;
      }
    }
  }

  ghost predicate HasParentIn<T(!new)>(g: map<T, set<T>>, s: set<T>, x: T) {
    exists y :: y in s && y in Next(g, x)
  }

  /** Every object of s has a parent in s. */
  ghost predicate Endless<T(!new)>(g: map<T, set<T>>, s: set<T>) {
    forall x :: x in s ==> HasParentIn(g, s, x)
  }

  lemma ParentInside<T(!new)>(g: map<T, set<T>>, s: set<T>, x: T) returns (y: T)
    requires Endless(g, s) && x in s
    ensures y in s && y in Next(g, x)
  {
    assert HasParentIn(g, s, x);
    y :| y in s && y in Next(g, x);
  }

  /** From a in a set where everything has a parent inside, one can climb k steps inside it. */
  lemma {:induction false} Climb<T(!new)>(g: map<T, set<T>>, s: set<T>, a: T, k: nat) returns (p: seq<T>)
    requires a in s && Endless(g, s)
    ensures |p| == k + 1 && Path(g, p) && p[0] == a && forall i :: 0 <= i < |p| ==> p[i] in s
  {
    hide Endless;
    if k == 0 {
      p := [a];
    } else {
      var q := Climb(g, s, a, k - 1);
      var y := ParentInside(g, s, q[k - 1]);
      p := q + [y];
    }
  }

  lemma {:induction false} Pigeonhole<T(!new)>(s: set<T>, p: seq<T>)
    requires |p| > |s| && forall i :: 0 <= i < |p| ==> p[i] in s
    ensures exists i, j :: 0 <= i < j < |p| && p[i] == p[j]
    decreases |s|
  {
    var last := p[|p| - 1];
    if i :| 0 <= i < |p| - 1 && p[i] == last {
      assert p[i] == p[|p| - 1];
    } else {
      var front := p[..|p| - 1];
      assert |s - {last}| == |s| - 1;
      Pigeonhole(s - {last}, front);
      var i, j :| 0 <= i < j < |front| && front[i] == front[j];
      assert p[i] == p[j];
    }
  }

  /** A nonempty set in which every object has a parent of the set holds a cycle. */
  lemma EndlessIsCyclic<T(!new)>(g: map<T, set<T>>, s: set<T>)
    requires s != {} && s <= g.Keys && Endless(g, s)
    ensures !Acyclic(g)
  {
    hide Endless;
    var a :| a in s;
    var p := Climb(g, s, a, |s|);
    Pigeonhole(s, p);
    var i, j :| 0 <= i < j < |p| && p[i] == p[j];
    LoopIsCycle(g, p, i, j);
  }

  lemma LoopIsCycle<T(!new)>(g: map<T, set<T>>, p: seq<T>, i: nat, j: nat)
    requires Path(g, p) && i < j < |p| && p[i] == p[j]
    ensures OnCycle(g, p[i])
  {
    var loop := p[i + 1..j + 1];
    assert loop[0] in Next(g, p[i]);
    assert Joins(g, loop, loop[0], p[i]) by {
      forall k | 0 <= k < |loop| - 1 ensures loop[k + 1] in Next(g, loop[k]) {
        assert loop[k + 1] == p[i + k + 2] && loop[k] == p[i + k + 1];
      }
    }
    assert Reach(g, loop[0], p[i]);
  }

  // ---- The queue (lines 291-308) ----

  /** children is the parent relation turned round, without repetition. */
  ghost predicate Reversed<T(!new)>(g: map<T, set<T>>, children: map<T, seq<T>>) {
    && (forall p :: p in children ==> Unique(children[p]))
    && forall p, c :: (p in children && c in children[p]) <==> (c in g && p in g[c])
  }

  ghost predicate Unique<T(!new)>(s: seq<T>) {
    forall i, j :: 0 <= i < j < |s| ==> s[i] != s[j]
  }

  /** The remaining parents of every object once done has been visited. */
  ghost predicate Counts<T(!new)>(g: map<T, set<T>>, degrees: map<T, nat>, done: set<T>) {
    degrees.Keys == g.Keys && forall x :: x in g ==> degrees[x] == |g[x] - done|
  }

  /** The queue holds exactly the objects without remaining parents that are not visited yet. */
  ghost predicate Queued<T(!new)>(g: map<T, set<T>>, degrees: map<T, nat>, done: set<T>, queue: seq<T>) {
    && degrees.Keys == g.Keys && Unique(queue)
    && (forall x :: x in queue ==> x in g && x !in done && degrees[x] == 0)
    && (forall x :: x in g && degrees[x] == 0 ==> x in done || x in queue)
    && (forall x :: x in done && x in g ==> degrees[x] == 0)
  }

  /** The queue visits all objects exactly when there is no cycle, and then parents first. */
  method Visit<T(==, !new)>(ghost g: map<T, set<T>>, initial: map<T, nat>, children: map<T, seq<T>>)
    returns (visited: nat, ghost order: seq<T>)
    requires forall x :: x in g ==> g[x] <= g.Keys
    requires Counts(g, initial, {}) && Reversed(g, children)
    ensures visited == |order| <= |g| && Topological(g, order)
    ensures visited == |g| <==> Acyclic(g)
  {
    hide Topological, Acyclic, Reversed, Counts, Queued;
    var degrees := initial;
    var queue := Ready(degrees);
    order, visited := [], 0;
    ghost var done: set<T> := {};
    Started(g, degrees, queue);
    while queue != []
      invariant visited == |order| == |done| && done <= g.Keys
      invariant forall x :: x in done <==> x in order
      invariant Topological(g, order) && Counts(g, degrees, done) && Queued(g, degrees, done, queue)
      decreases |g| - visited
    {
      var id := queue[0];
      LineFacts(g, degrees, done, queue);
      assert id in queue;
      Room(g, done, id);
      NoneLeft(g, degrees, done, id);
      TopologicalOne(g, order, id);
      degrees, queue := Release(g, degrees, children, done, queue);
      visited := visited + 1;
      order, done := order + [id], done + {id};
    }
    Finish(g, order, done, degrees);
  }

  lemma Started<T(!new)>(g: map<T, set<T>>, degrees: map<T, nat>, queue: seq<T>)
    requires Counts(g, degrees, {}) && Unique(queue) && forall x :: x in queue <==> x in degrees && degrees[x] == 0
    ensures Topological(g, []) && Queued(g, degrees, {}, queue)
  {
  }

  lemma Room<T(!new)>(g: map<T, set<T>>, done: set<T>, id: T)
    requires done <= g.Keys && id in g && id !in done
    ensures |done| + 1 <= |g| && |done + {id}| == |done| + 1
  {
    SubsetSize(done + {id}, g.Keys);
  }

  lemma NoneLeft<T(!new)>(g: map<T, set<T>>, degrees: map<T, nat>, done: set<T>, id: T)
    requires Counts(g, degrees, done) && id in g && degrees[id] == 0
    ensures g[id] <= done
  {
    var left := g[id] - done;
    assert |left| == 0;
    forall x | x in g[id] ensures x in done {
      assert x !in left;
    }
  }

  lemma SomeLeft<T(!new)>(g: map<T, set<T>>, degrees: map<T, nat>, done: set<T>, id: T)
    requires Counts(g, degrees, done) && id in g && degrees[id] != 0 && g[id] <= g.Keys
    ensures HasParentIn(g, g.Keys - done, id)
  {
    assert g[id] - done != {};
    var y :| y in g[id] - done;
    assert y in g.Keys - done && y in Next(g, id);
  }

  lemma TopologicalOne<T(!new)>(g: map<T, set<T>>, order: seq<T>, id: T)
    requires Topological(g, order) && id in g && id !in order && forall p :: p in g[id] ==> p in order
    ensures Topological(g, order + [id])
  {
    var order' := order + [id];
    forall i | 0 <= i < |order'| ensures ParentsBefore(g, order', i) {
      if i < |order| {
        assert ParentsBefore(g, order, i) && order'[..i] == order[..i] && order'[i] == order[i];
      } else {
        assert order'[..i] == order;
      }
    }
    hide ParentsBefore;
  }

  lemma Finish<T(!new)>(g: map<T, set<T>>, order: seq<T>, done: set<T>, degrees: map<T, nat>)
    requires forall x :: x in g ==> g[x] <= g.Keys
    requires Topological(g, order) && Counts(g, degrees, done) && Queued(g, degrees, done, [])
    requires done <= g.Keys && |done| == |order| && forall x :: x in done <==> x in order
    ensures |order| <= |g|
    ensures |order| == |g| <==> Acyclic(g)
  {
    hide Topological, Acyclic, Counts, HasParentIn;
    SubsetSize(done, g.Keys);
    var left := g.Keys - done;
    if left == {} {
      forall x | x in g ensures x in done {
        assert x !in left;
      }
      assert done == g.Keys;
      TopologicalIsAcyclic(g, order);
    } else {
      assert g.Keys == done + left && |g.Keys| == |done| + |left|;
      forall x | x in left ensures HasParentIn(g, left, x) {
        SomeLeft(g, degrees, done, x);
      }
      EndlessIsCyclic(g, left);
    }
  }

  /** The objects without parents, in the arbitrary order of a hash map. */
  method Ready<T(==, !new)>(degrees: map<T, nat>) returns (queue: seq<T>)
    ensures Unique(queue) && forall x :: x in queue <==> x in degrees && degrees[x] == 0
  {
    queue := [];
    var rest := degrees.Keys;
    while rest != {}
      invariant rest <= degrees.Keys && Unique(queue)
      invariant forall x :: x in queue <==> x in degrees.Keys - rest && degrees[x] == 0
      decreases |rest|
    {
      var x :| x in rest;
      if degrees[x] == 0 {
        queue := queue + [x];
      }
      rest := rest - {x};
    }
  }

  /** The first queued object is visited: each of its children has one parent less to wait for. */
  method Release<T(==, !new)>(ghost g: map<T, set<T>>, before: map<T, nat>, children: map<T, seq<T>>,
          ghost done: set<T>, line: seq<T>)
    returns (degrees: map<T, nat>, queue: seq<T>)
    requires line != [] && Reversed(g, children) && Counts(g, before, done) && Queued(g, before, done, line)
    ensures Counts(g, degrees, done + {line[0]}) && Queued(g, degrees, done + {line[0]}, queue)
  {
    hide Counts, Reversed, Queued, Unique;
    var id := line[0];
    degrees, queue := before, line[1..];
    ghost var waiting := queue;
    LineFacts(g, before, done, line);
    var mine := if id in children then children[id] else [];
    MineFacts(g, children, id, mine);
    for k := 0 to |mine|
      invariant degrees.Keys == g.Keys
      invariant forall x :: x in g ==> degrees[x] + (if x in mine[..k] then 1 else 0) == before[x]
      invariant Unique(queue)
      invariant forall x :: x in queue <==> x in waiting || (x in mine[..k] && degrees[x] == 0)
    {
      var child := mine[k];
      assert mine[..k + 1] == mine[..k] + [child];
      UniqueAt(mine, k);
      Positive(g, before, done, id, child);
      assert child !in waiting;
      degrees := degrees[child := degrees[child] - 1];
      if degrees[child] == 0 {
        UniqueAppend(queue, child);
        queue := queue + [child];
      }
    }
    assert mine[..|mine|] == mine;
    Released(g, before, degrees, done, id);
    ReleasedQueue(g, before, degrees, done, line, queue);
  }

  lemma UniqueAppend<T(!new)>(s: seq<T>, x: T)
    requires Unique(s) && x !in s
    ensures Unique(s + [x])
  {
  }

  lemma UniqueAt<T(!new)>(s: seq<T>, k: nat)
    requires Unique(s) && k < |s|
    ensures s[k] !in s[..k]
  {
  }

  lemma LineFacts<T(!new)>(g: map<T, set<T>>, degrees: map<T, nat>, done: set<T>, line: seq<T>)
    requires line != [] && Queued(g, degrees, done, line)
    ensures degrees.Keys == g.Keys && line[0] in g && line[0] !in done && Unique(line[1..]) && line[0] !in line[1..]
    ensures forall x :: x in line <==> x == line[0] || x in line[1..]
    ensures forall x :: x in line ==> x in degrees && degrees[x] == 0
  {
    assert line == [line[0]] + line[1..];
    assert line[0] in line;
  }

  lemma MineFacts<T(!new)>(g: map<T, set<T>>, children: map<T, seq<T>>, id: T, mine: seq<T>)
    requires Reversed(g, children) && mine == if id in children then children[id] else []
    ensures Unique(mine) && forall c :: c in mine <==> c in g && id in g[c]
  {
  }

  lemma ReleasedQueue<T(!new)>(g: map<T, set<T>>, before: map<T, nat>, after: map<T, nat>, done: set<T>, line: seq<T>,
          queue: seq<T>)
    requires line != [] && Queued(g, before, done, line) && Counts(g, before, done) && after.Keys == g.Keys
      && Unique(queue)
    requires forall x :: x in g ==> after[x] + (if line[0] in g[x] then 1 else 0) == before[x]
    requires forall x :: x in queue <==> x in line[1..] || (x in g && line[0] in g[x] && after[x] == 0)
    ensures Queued(g, after, done + {line[0]}, queue)
  {
    var id := line[0];
    LineFacts(g, before, done, line);
    forall x | x in g && id in g[x] ensures before[x] >= 1 && x !in done && x !in line {
      Positive(g, before, done, id, x);
    }
  }

  lemma Positive<T(!new)>(g: map<T, set<T>>, degrees: map<T, nat>, done: set<T>, id: T, child: T)
    requires Counts(g, degrees, done) && child in g && id in g[child] && id !in done
    ensures degrees[child] >= 1
  {
    assert id in g[child] - done;
  }

  lemma Released<T(!new)>(g: map<T, set<T>>, before: map<T, nat>, after: map<T, nat>, done: set<T>, id: T)
    requires Counts(g, before, done) && after.Keys == g.Keys && id !in done
    requires forall x :: x in g ==> after[x] + (if id in g[x] then 1 else 0) == before[x]
    ensures Counts(g, after, done + {id})
  {
    forall x | x in g ensures after[x] == |g[x] - (done + {id})| {
      assert before[x] == |g[x] - done|;
      OneLess(g[x], done, id);
    }
  }

  lemma OneLess<T>(s: set<T>, done: set<T>, id: T)
    requires id !in done
    ensures |s - (done + {id})| + (if id in s then 1 else 0) == |s - done|
  {
    assert s - (done + {id}) == (s - done) - {id};
  }

  /** One more object, with all of its parents still to wait for. */
  lemma CountsOne<T(!new)>(g: map<T, set<T>>, degrees: map<T, nat>, name: T, above: set<T>)
    requires Counts(g, degrees, {}) && name !in g
    ensures Counts(g[name := above], degrees[name := |above|], {})
  {
    var g', degrees' := g[name := above], degrees[name := |above|];
    assert degrees'.Keys == g'.Keys;
    forall x | x in g' ensures degrees'[x] == |g'[x] - {}| {
      if x == name {
        MinusNone(above);
      } else {
        assert g'[x] == g[x] && degrees[x] == |g[x] - {}|;
      }
    }
  }

  lemma MinusNone<T>(s: set<T>)
    ensures s - {} == s
  {
  }
}
