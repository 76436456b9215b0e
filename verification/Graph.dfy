/**
 Directed graphs given by successor sets: paths, reachability and cycles, and the closure argument
 behind every worklist traversal.
 */
module Graph {

  function Next<T(==)>(g: map<T, set<T>>, at: T): set<T> {
    if at in g then g[at] else {}
  }

  ghost predicate Path<T(!new)>(g: map<T, set<T>>, p: seq<T>) {
    p != [] && forall i :: 0 <= i < |p| - 1 ==> p[i + 1] in Next(g, p[i])
  }

  ghost predicate Joins<T(!new)>(g: map<T, set<T>>, p: seq<T>, a: T, b: T) {
    Path(g, p) && p[0] == a && p[|p| - 1] == b
  }

  ghost predicate Reach<T(!new)>(g: map<T, set<T>>, a: T, b: T) {
    exists p :: Joins(g, p, a, b)
  }

  /** at can be reached again after at least one step. */
  ghost predicate OnCycle<T(!new)>(g: map<T, set<T>>, at: T) {
    exists n :: n in Next(g, at) && Reach(g, n, at)
  }

  ghost predicate Closed<T(!new)>(g: map<T, set<T>>, s: set<T>) {
    forall x :: x in s ==> Next(g, x) <= s
  }

  lemma ReachItself<T(!new)>(g: map<T, set<T>>, a: T)
    ensures Reach(g, a, a)
  {
    assert Joins(g, [a], a, a);
  }

  lemma ReachOneMore<T(!new)>(g: map<T, set<T>>, a: T, b: T, c: T)
    requires Reach(g, a, b) && c in Next(g, b)
    ensures Reach(g, a, c)
  {
    var p :| Joins(g, p, a, b);
    assert Joins(g, p + [c], a, c);
  }

  lemma {:induction false} PathStaysInside<T(!new)>(g: map<T, set<T>>, s: set<T>, p: seq<T>)
    requires Closed(g, s) && Path(g, p) && p[0] in s
    ensures p[|p| - 1] in s
    decreases |p|
  {
    if |p| > 1 {
      assert p[1] in Next(g, p[0]);
      assert Path(g, p[1..]) by {
        forall i | 0 <= i < |p[1..]| - 1 ensures p[1..][i + 1] in Next(g, p[1..][i]) {
          assert p[1..][i + 1] == p[i + 2] && p[1..][i] == p[i + 1];
        }
      }
      PathStaysInside(g, s, p[1..]);
    }
  }

  /** A closed set holds everything reachable from its members. */
  lemma ClosedReach<T(!new)>(g: map<T, set<T>>, s: set<T>, a: T, b: T)
    requires Closed(g, s) && a in s && Reach(g, a, b)
    ensures b in s
  {
    var p :| Joins(g, p, a, b);
    PathStaysInside(g, s, p);
  }

  /** The elements of a set, in some order. */
  method Elements<T(==)>(s: set<T>) returns (r: seq<T>)
    ensures forall x :: x in r <==> x in s
    ensures |r| == |s|
  {
    r := [];
    var rest := s;
    while rest != {}
      invariant rest <= s && |r| + |rest| == |s|
      invariant forall x :: x in r <==> x in s - rest
      decreases |rest|
    {
      var x :| x in rest;
      r, rest := r + [x], rest - {x};
    }
  }

  lemma SubsetSize<T>(a: set<T>, b: set<T>)
    requires a <= b
    ensures |a| <= |b|
  {
    if a != {} {
      var x :| x in a;
      SubsetSize(a - {x}, b - {x});
    }
  }
}
