/**
 The duration-weighted nearest-rank 95th percentile that server/src/detection.rs uses as the
 reference rate of a storage source.  The declarative meaning (IsP95) comes first; the sorting
 scan of the source is then proved to find exactly that rate.
 */
module NearestRank {
  import opened Wrappers

  /** One training interval as the percentile sees it: a rate and the nanoseconds it covers. */
  datatype Weighted = Weighted(rate: real, weight: nat)

  function Total(ws: seq<Weighted>): nat {
    if ws == [] then 0 else ws[0].weight + Total(ws[1..])
  }

  /** Time spent strictly below rate r. */
  function Below(ws: seq<Weighted>, r: real): nat {
    if ws == [] then 0 else (if ws[0].rate < r then ws[0].weight else 0) + Below(ws[1..], r)
  }

  /** Time spent at or below rate r. */
  function AtMost(ws: seq<Weighted>, r: real): nat {
    if ws == [] then 0 else (if ws[0].rate <= r then ws[0].weight else 0) + AtMost(ws[1..], r)
  }

  /** r is an observed rate with less than 95% of the time strictly below it and at least 95% at
      or below it. */
  ghost predicate IsP95(ws: seq<Weighted>, r: real) {
    && (exists i :: 0 <= i < |ws| && ws[i].rate == r)
    && Below(ws, r) * 100 < Total(ws) * 95
    && AtMost(ws, r) * 100 >= Total(ws) * 95
  }

  lemma {:induction false} AtMostBelow(ws: seq<Weighted>, r: real, r': real)
    requires r < r'
    ensures AtMost(ws, r) <= Below(ws, r')
  {
    if ws != [] {
      AtMostBelow(ws[1..], r, r');
    }
  }

  /** A weighted sample has at most one 95th percentile. */
  lemma P95Unique(ws: seq<Weighted>, r: real, r': real)
    requires IsP95(ws, r) && IsP95(ws, r')
    ensures r == r'
  {
    if r < r' {
      AtMostBelow(ws, r, r');
    } else if r' < r {
      AtMostBelow(ws, r', r);
    }
  }

  // ---- The three sums depend on the bag of intervals only, not on their order ----

  lemma {:induction false} SumsAppend(a: seq<Weighted>, b: seq<Weighted>, r: real)
    ensures Total(a + b) == Total(a) + Total(b)
    ensures Below(a + b, r) == Below(a, r) + Below(b, r)
    ensures AtMost(a + b, r) == AtMost(a, r) + AtMost(b, r)
  {
    if a == [] {
      assert a + b == b;
    } else {
      assert (a + b)[1..] == a[1..] + b;
      SumsAppend(a[1..], b, r);
    }
  }

  lemma SumsRemove(ws: seq<Weighted>, k: nat, r: real)
    requires k < |ws|
    ensures Total(ws) == ws[k].weight + Total(ws[..k] + ws[k + 1..])
    ensures Below(ws, r) == (if ws[k].rate < r then ws[k].weight else 0) + Below(ws[..k] + ws[k + 1..], r)
    ensures AtMost(ws, r) == (if ws[k].rate <= r then ws[k].weight else 0) + AtMost(ws[..k] + ws[k + 1..], r)
  {
    assert ws == ws[..k] + ws[k..];
    assert ws[k..][1..] == ws[k + 1..];
    SumsAppend(ws[..k], ws[k..], r);
    SumsAppend(ws[..k], ws[k + 1..], r);
  }

  lemma BagRemove(s: seq<Weighted>, k: nat)
    requires k < |s|
    ensures multiset(s[..k] + s[k + 1..]) == multiset(s) - multiset{s[k]}
  {
    assert s == s[..k] + ([s[k]] + s[k + 1..]);
  }

  lemma BagMatch(a: seq<Weighted>, b: seq<Weighted>) returns (k: nat)
    requires multiset(a) == multiset(b) && a != []
    ensures k < |b| && b[k] == a[0] && multiset(a[..0] + a[1..]) == multiset(b[..k] + b[k + 1..])
  {
    assert a[0] in multiset(b);
    k :| 0 <= k < |b| && b[k] == a[0];
    BagRemove(a, 0);
    BagRemove(b, k);
  }

  lemma {:induction false} SumsOfBag(a: seq<Weighted>, b: seq<Weighted>, r: real)
    requires multiset(a) == multiset(b)
    ensures Total(a) == Total(b) && Below(a, r) == Below(b, r) && AtMost(a, r) == AtMost(b, r)
  {
    hide Total, Below, AtMost;
    if a == [] {
      assert |multiset(b)| == 0;
      assert b == a;
    } else {
      var k := BagMatch(a, b);
      SumsOfBag(a[..0] + a[1..], b[..k] + b[k + 1..], r);
      SumsRemove(a, 0, r);
      SumsRemove(b, k, r);
    }
  }

  /** Training order is irrelevant: reordering the intervals leaves the percentile alone. */
  lemma P95OfBag(a: seq<Weighted>, b: seq<Weighted>, r: real)
    requires multiset(a) == multiset(b)
    ensures IsP95(a, r) <==> IsP95(b, r)
  {
    SumsOfBag(a, b, r);
    forall x: Weighted ensures (x in a) == (x in b) {
      assert (x in a) == (x in multiset(a));
    }
    if IsP95(a, r) {
      var i :| 0 <= i < |a| && a[i].rate == r;
      assert a[i] in b;
    }
    if IsP95(b, r) {
      var i :| 0 <= i < |b| && b[i].rate == r;
      assert b[i] in a;
    }
  }

  // ---- The sorting scan ----

  ghost predicate Ascending(ws: seq<Weighted>) {
    forall i :: 0 < i < |ws| ==> ws[i - 1].rate <= ws[i].rate
  }

  lemma {:induction false} AscendingAll(ws: seq<Weighted>, i: nat, j: nat)
    requires Ascending(ws) && i <= j < |ws|
    ensures ws[i].rate <= ws[j].rate
  {
    if i < j {
      AscendingAll(ws, i, j - 1);
    }
  }

  function InsertByRate(w: Weighted, ws: seq<Weighted>): (r: seq<Weighted>)
    requires Ascending(ws)
    ensures Ascending(r)
    ensures r != [] && (r[0] == w || (ws != [] && r[0] == ws[0]))
  {
    if ws == [] || w.rate <= ws[0].rate then [w] + ws else [ws[0]] + InsertByRate(w, ws[1..])
  }

  /** The library sort of line 584: ascending by rate. */
  function SortByRate(ws: seq<Weighted>): (r: seq<Weighted>)
    ensures Ascending(r)
  {
    if ws == [] then [] else InsertByRate(ws[0], SortByRate(ws[1..]))
  }

  lemma BagPrepend(w: Weighted, ws: seq<Weighted>)
    ensures multiset([w] + ws) == multiset{w} + multiset(ws)
  {
  }

  lemma BagSwap(a: multiset<Weighted>, x: Weighted, y: Weighted)
    ensures multiset{x} + (multiset{y} + a) == multiset{y} + (multiset{x} + a)
  {
  }

  lemma {:induction false} InsertBag(w: Weighted, ws: seq<Weighted>)
    requires Ascending(ws)
    ensures multiset(InsertByRate(w, ws)) == multiset{w} + multiset(ws)
  {
    if ws == [] || w.rate <= ws[0].rate {
      BagPrepend(w, ws);
    } else {
      InsertBag(w, ws[1..]);
      BagPrepend(ws[0], InsertByRate(w, ws[1..]));
      assert ws == [ws[0]] + ws[1..];
      BagPrepend(ws[0], ws[1..]);
      BagSwap(multiset(ws[1..]), w, ws[0]);
    }
  }

  /** Sorting keeps the bag. */
  lemma {:induction false} SortBag(ws: seq<Weighted>)
    ensures multiset(SortByRate(ws)) == multiset(ws)
  {
    if ws != [] {
      SortBag(ws[1..]);
      InsertBag(ws[0], SortByRate(ws[1..]));
      assert ws == [ws[0]] + ws[1..];
      BagPrepend(ws[0], ws[1..]);
    }
  }

  lemma {:induction false} SplitAtRank(ws: seq<Weighted>, k: nat)
    requires Ascending(ws) && k < |ws|
    ensures Below(ws, ws[k].rate) <= Total(ws[..k])
    ensures Total(ws[..k + 1]) <= AtMost(ws, ws[k].rate)
  {
    var r := ws[k].rate;
    assert ws == ws[..k] + ws[k..] == ws[..k + 1] + ws[k + 1..];
    SumsAppend(ws[..k], ws[k..], r);
    SumsAppend(ws[..k + 1], ws[k + 1..], r);
    forall i | 0 <= i < |ws| - k ensures ws[k..][i].rate >= r { AscendingAll(ws, k, k + i); }
    var head := ws[..k + 1];
    forall i | 0 <= i < |head| ensures head[i].rate <= r { AscendingAll(ws, i, k); }
    BelowIsZero(ws[k..], r);
    BelowAtMostTotal(ws[..k], r);
    AtMostIsTotal(ws[..k + 1], r);
  }

  lemma {:induction false} BelowIsZero(ws: seq<Weighted>, r: real)
    requires forall i :: 0 <= i < |ws| ==> ws[i].rate >= r
    ensures Below(ws, r) == 0
  {
    if ws != [] { BelowIsZero(ws[1..], r); }
  }

  lemma {:induction false} BelowAtMostTotal(ws: seq<Weighted>, r: real)
    ensures Below(ws, r) <= Total(ws)
  {
    if ws != [] { BelowAtMostTotal(ws[1..], r); }
  }

  lemma {:induction false} AtMostIsTotal(ws: seq<Weighted>, r: real)
    requires forall i :: 0 <= i < |ws| ==> ws[i].rate <= r
    ensures AtMost(ws, r) == Total(ws)
  {
    if ws != [] { AtMostIsTotal(ws[1..], r); }
  }

  lemma TotalTakeNext(ws: seq<Weighted>, k: nat)
    requires k < |ws|
    ensures Total(ws[..k + 1]) == Total(ws[..k]) + ws[k].weight
  {
    assert ws[..k + 1] == ws[..k] + [ws[k]];
    SumsAppend(ws[..k], [ws[k]], 0.0);
  }

  /** Sort, then accumulate until 95% of the time is covered (lines 584-591).  The rate found is
      the 95th percentile of the unsorted sample. */
  method FindP95(ws: seq<Weighted>) returns (reference: Option<real>)
    ensures Total(ws) > 0 ==> reference.Some? && IsP95(ws, reference.value)
    ensures ws == [] ==> reference == None
  {
    var sorted := SortByRate(ws);
    var total := Total(ws);
    SortBag(ws);
    SumsOfBag(ws, sorted, 0.0);
    assert sorted[..|sorted|] == sorted;
    assert |multiset(sorted)| == |multiset(ws)| == |ws|;
    var accumulated := 0;
    var k := 0;
    while k < |sorted|
      invariant 0 <= k <= |sorted|
      invariant accumulated == Total(sorted[..k])
      invariant k == 0 || accumulated * 100 < total * 95
    {
      TotalTakeNext(sorted, k);
      accumulated := accumulated + sorted[k].weight;
      if accumulated * 100 >= total * 95 {
        SplitAtRank(sorted, k);
        if total > 0 {
          assert IsP95(sorted, sorted[k].rate);
          P95OfBag(ws, sorted, sorted[k].rate);
        }
        return Some(sorted[k].rate);
      }
      k := k + 1;
    }
    if ws != [] {
      assert false;
    }
    return None;
  }

  lemma {:induction false} ScanFinds(sorted: seq<Weighted>, k: nat)
    requires Ascending(sorted) && k <= |sorted| && Total(sorted) > 0
    requires Total(sorted[..k]) * 100 < Total(sorted) * 95
    ensures exists r :: IsP95(sorted, r)
    decreases |sorted| - k
  {
    assert sorted[..|sorted|] == sorted;
    if k == |sorted| {
      assert false;
    } else {
      TotalTakeNext(sorted, k);
      if Total(sorted[..k + 1]) * 100 >= Total(sorted) * 95 {
        SplitAtRank(sorted, k);
        assert IsP95(sorted, sorted[k].rate);
      } else {
        ScanFinds(sorted, k + 1);
      }
    }
  }

  /** A sample that covers any time at all has a 95th percentile. */
  lemma P95Exists(ws: seq<Weighted>)
    requires Total(ws) > 0
    ensures exists r :: IsP95(ws, r)
  {
    var sorted := SortByRate(ws);
    SortBag(ws);
    SumsOfBag(ws, sorted, 0.0);
    ScanFinds(sorted, 0);
    var r :| IsP95(sorted, r);
    P95OfBag(ws, sorted, r);
  }
}
