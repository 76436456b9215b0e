/**
 Which samples and which rollup buckets there are after any run of insertions and maintenance passes
 (server/src/workers.rs:9-62), stated on their times.
 */
module RollupAnswers {
  import opened Wrappers
  import opened Rollup

  /** Five minutes and one hour, in milliseconds. */
  function Width(r: Resolution): int {
    if r.FiveMinutes? then 300_000 else 3_600_000
  }

  /** The bucket begins at a multiple of its width, and the sample is of its series and falls within it. */
  predicate Covers(b: Bucket, id: RowId) {
    b.series == id.series && b.start % Width(b.resolution) == 0 && b.start <= id.at < b.start + Width(b.resolution)
  }

  /** A pass keeps the samples of the last day, and those of the hour in which that day began. */
  ghost predicate Keeps(now: int, at: int) {
    exists hour :: BeganIn(now, hour) && hour * 3_600_000 <= at
  }

  predicate BeganIn(now: int, hour: int) {
    hour * 3_600_000 <= now - 86_400_000 < (hour + 1) * 3_600_000
  }

  /** A pass drops five-minute buckets after thirty days and hourly ones after a year. */
  predicate Lasts(b: Bucket, now: int) {
    if b.resolution.FiveMinutes? then now <= b.start + 2_592_000_000 else now <= b.start + 31_536_000_000
  }

  predicate Passes(run: seq<Event>, m: nat)
    requires m < |run|
  {
    run[m].Pass? && Enabled(At(run, m), run[m])
  }

  /** Pass m finds the sample stored, and its bucket over. */
  ghost predicate Finds(run: seq<Event>, m: nat, b: Bucket, id: RowId)
    requires m < |run|
  {
    && Passes(run, m) && id in At(run, m).t.rows && Covers(b, id) && Keeps(run[m].now, id.at)
    && b.start + Width(b.resolution) <= run[m].now
  }

  lemma Aligned(at: int, w: int, start: int)
    requires w > 0
    ensures at / w * w == start <==> start % w == 0 && start <= at < start + w
  {
    assert at / w * w <= at < at / w * w + w;
    if start % w == 0 && start <= at < start + w {
      Multiples(at / w, start / w, w);
      assert start == start / w * w;
    }
    if at / w * w == start {
      Multiple(at / w, w);
    }
  }

  lemma Multiple(k: int, w: int)
    requires w > 0
    ensures k * w % w == 0
  {
    assert k * w == w * k;
    Quotient(k, w);
  }

  lemma Quotient(k: int, w: int)
    requires w > 0
    ensures w * k / w == k && w * k % w == 0
  {
    var q, r := w * k / w, w * k % w;
    assert w * k == w * q + r && 0 <= r < w;
    assert w * (k - q) == r;
    if k - q >= 1 {
      Scale(1, k - q, w);
    } else if k - q <= -1 {
      Scale(k - q, -1, w);
    }
  }

  /** Two multiples less than one step apart are the same. */
  lemma Multiples(a: int, b: int, w: int)
    requires w > 0 && b * w < a * w + w && a * w < b * w + w
    ensures a == b
  {
    if a < b {
      Scale(a + 1, b, w);
    } else if b < a {
      Scale(b + 1, a, w);
    }
  }

  lemma CoversIs(b: Bucket, id: RowId)
    ensures Covers(b, id) <==> BucketOf(b.resolution, id) == b
  {
    Aligned(id.at, Width(b.resolution), b.start);
  }

  lemma KeepsIs(now: int, at: int)
    ensures Keeps(now, at) <==> Cutoff(now) <= at
  {
    var hours := (now - 86_400_000) / 3_600_000;
    assert BeganIn(now, hours) && Cutoff(now) == hours * 3_600_000;
    forall hour | BeganIn(now, hour) ensures hour == hours {
    }
  }

  lemma OverIs(b: Bucket, now: int, id: RowId)
    requires Covers(b, id)
    ensures b.start + Width(b.resolution) <= now <==> id.at < Upper(now, b.resolution)
  {
    CoversIs(b, id);
    UpperAligned(now, b.resolution, id.at);
    Over(b.start, Width(b.resolution), now);
  }

  lemma Over(start: int, w: int, now: int)
    requires w > 0 && start % w == 0
    ensures start + w <= now <==> start < now / w * w
  {
    assert start == start / w * w;
    assert now / w * w <= now < now / w * w + w;
    if start < now / w * w {
      if start / w + 1 > now / w {
        Scale(now / w, start / w, w);
      }
      Scale(start / w + 1, now / w, w);
    }
  }

  lemma LastsIs(b: Bucket, now: int)
    ensures Lasts(b, now) <==> Retained(b, now)
  {
  }

  lemma FindsIs(run: seq<Event>, m: nat, b: Bucket, id: RowId)
    requires m < |run|
    ensures Finds(run, m, b, id) <==> b == BucketOf(b.resolution, id) && Sees(run, m, b.resolution, id)
  {
    CoversIs(b, id);
    KeepsIs(run[m].now, id.at);
    if Covers(b, id) {
      OverIs(b, run[m].now, id);
    }
    hide At, Covers, Keeps, Cutoff, Upper;
  }

  // ---- Samples ----

  /** The sample was accepted and no pass since was past its day. */
  ghost predicate Stored(run: seq<Event>, n: nat, id: RowId)
    requires n <= |run|
  {
    exists k ::
      0 <= k < n && Accepts(run, k, id) && forall m :: k < m < n && Passes(run, m) ==> Keeps(run[m].now, id.at)
  }

  predicate Accepts(run: seq<Event>, k: nat, id: RowId)
    requires k < |run|
  {
    && run[k].Insert? && run[k].id == id && id !in At(run, k).t.rows && At(run, k).clock <= run[k].now
    && run[k].now - 86_400_000 <= id.at <= run[k].now + 300_000
  }

  lemma StoredStep(run: seq<Event>, n: nat, id: RowId)
    requires n < |run|
    ensures Stored(run, n + 1, id) <==>
      Accepts(run, n, id) || (Stored(run, n, id) && (Passes(run, n) ==> Keeps(run[n].now, id.at)))
  {
    hide Accepts, Passes, Keeps;
    if Accepts(run, n, id) {
      assert Stored(run, n + 1, id);
    }
  }

  lemma RowsStep(run: seq<Event>, n: nat, id: RowId)
    requires n < |run|
    ensures id in At(run, n + 1).t.rows <==>
      Accepts(run, n, id) || (id in At(run, n).t.rows && (Passes(run, n) ==> Keeps(run[n].now, id.at)))
  {
    KeepsIs(run[n].now, id.at);
    var s, e := At(run, n), run[n];
    assert At(run, n + 1) == Next(s, e);
    hide At, Keeps, Cutoff, Grouped;
  }

  /** In every run, which samples are stored. */
  lemma {:induction false} RowsInRuns(run: seq<Event>, n: nat, id: RowId)
    requires n <= |run|
    ensures id in At(run, n).t.rows <==> Stored(run, n, id)
    decreases n
  {
    if n > 0 {
      RowsInRuns(run, n - 1, id);
      RowsStep(run, n - 1, id);
      StoredStep(run, n - 1, id);
      hide At, Accepts, Passes, Keeps, Stored;
    }
  }

  // ---- Buckets ----

  /** Some pass found a sample for it, and neither that pass nor a later one found it too old. */
  ghost predicate Exists(run: seq<Event>, n: nat, b: Bucket)
    requires n <= |run|
  {
    exists m :: 0 <= m < n && FindsAny(run, m, b) && forall k :: m <= k < n && Passes(run, k) ==> Lasts(b, run[k].now)
  }

  ghost predicate FindsAny(run: seq<Event>, m: nat, b: Bucket)
    requires m < |run|
  {
    exists id :: Finds(run, m, b, id)
  }

  lemma ExistsStep(run: seq<Event>, n: nat, b: Bucket)
    requires n < |run|
    ensures Exists(run, n + 1, b) <==>
      (Passes(run, n) ==> Lasts(b, run[n].now)) && (Exists(run, n, b) || FindsAny(run, n, b))
  {
    hide Passes, FindsAny;
    if FindsAny(run, n, b) && (Passes(run, n) ==> Lasts(b, run[n].now)) {
      assert Exists(run, n + 1, b);
    }
  }

  lemma FindsAnyIs(run: seq<Event>, n: nat, b: Bucket)
    requires n < |run|
    ensures FindsAny(run, n, b) <==> Passes(run, n) && InWindow(At(run, n).t.rows, b, run[n].now) != map[]
  {
    forall id ensures Finds(run, n, b, id) <==> Passes(run, n) && id in InWindow(At(run, n).t.rows, b, run[n].now) {
      FindsIs(run, n, b, id);
      OneWindow(At(run, n).t.rows, b, run[n].now, id);
    }
    hide At, Finds, InWindow, Passes;
    if Passes(run, n) && InWindow(At(run, n).t.rows, b, run[n].now) != map[] {
      var id :| id in InWindow(At(run, n).t.rows, b, run[n].now);
      assert Finds(run, n, b, id);
    }
  }

  lemma OneWindow(rows: Rows, b: Bucket, now: int, id: RowId)
    ensures id in InWindow(rows, b, now) <==>
      id in rows && BucketOf(b.resolution, id) == b && Cutoff(now) <= id.at < Upper(now, b.resolution)
  {
    hide BucketOf, Cutoff, Upper;
  }

  lemma BucketStep(run: seq<Event>, n: nat, b: Bucket)
    requires n < |run|
    ensures b in At(run, n + 1).t.rollups <==>
      (Passes(run, n) ==> Lasts(b, run[n].now)) && (b in At(run, n).t.rollups || FindsAny(run, n, b))
  {
    FindsAnyIs(run, n, b);
    LastsIs(b, run[n].now);
    var s, e := At(run, n), run[n];
    assert At(run, n + 1) == Next(s, e);
    hide At, FindsAny, InWindow, Lasts, Retained;
    if Passes(run, n) {
      PassOn(s.t, e.now, b);
      hide Maintained;
    }
  }

  /** In every run, which rollup buckets there are. */
  lemma {:induction false} BucketsInRuns(run: seq<Event>, n: nat, b: Bucket)
    requires n <= |run|
    ensures b in At(run, n).t.rollups <==> Exists(run, n, b)
    decreases n
  {
    if n > 0 {
      BucketsInRuns(run, n - 1, b);
      BucketStep(run, n - 1, b);
      ExistsStep(run, n - 1, b);
      hide At, Passes, Lasts, Exists, FindsAny;
    }
  }

  /** In every run, what a bucket counts: exactly the samples that some pass found for it. */
  lemma CountedInRuns(run: seq<Event>, n: nat, b: Bucket, id: RowId)
    requires n <= |run| && b in At(run, n).t.rollups
    ensures id in At(run, n).t.rollups[b] <==> exists m :: 0 <= m < n && Finds(run, m, b, id)
  {
    forall m | 0 <= m < n ensures Finds(run, m, b, id) <==>
      b == BucketOf(b.resolution, id) && Sees(run, m, b.resolution, id) {
      FindsIs(run, m, b, id);
    }
    AlwaysOk(run, n);
    assert Counted(At(run, n), b);
    if BucketOf(b.resolution, id) == b {
      CountedWhen(run, n, b.resolution, id);
    }
    hide At, Finds, Sees, BucketOf;
  }
}
