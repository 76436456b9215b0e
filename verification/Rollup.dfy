/**
 Rollup and pruning (server/src/workers.rs:9-62): a bucket is only ever replaced by the aggregate of
 everything ever accepted in it, and is left alone once any of that may have been pruned.
 */
module Rollup {
  import opened Wrappers

  const HOUR_MS: int := 3_600_000
  const DAY_MS: int := 86_400_000
  const SKEW_MS: int := 300_000

  /** One stored row of one series. */
  datatype RowId = RowId(series: string, at: int)

  type Reading = Option<real>

  /** A rollup row.  Its columns (minimum, maximum, mean, counts) are functions of the readings it was
      aggregated from, so the readings themselves stand for them. */
  datatype Resolution = FiveMinutes | OneHour
  datatype Bucket = Bucket(resolution: Resolution, start: int, series: string)

  type Rows = map<RowId, Reading>
  type Rollups = map<Bucket, Rows>

  datatype Tables = Tables(rows: Rows, rollups: Rollups)

  // ---- Alignment ----

  function BucketMs(r: Resolution): int {
    if r.FiveMinutes? then 300_000 else 3_600_000
  }

  /** Truncating division; the clock is past the second day of 1970, so nothing here is negative. */
  function Cutoff(now: int): int {
    (now - DAY_MS) / HOUR_MS * HOUR_MS
  }

  function Upper(now: int, resolution: Resolution): int
  {
    now / BucketMs(resolution) * BucketMs(resolution)
  }

  function BucketOf(resolution: Resolution, id: RowId): Bucket
  {
    Bucket(resolution, id.at / BucketMs(resolution) * BucketMs(resolution), id.series)
  }

  lemma MultipleBound(x: int, m: int, k: int)
    requires m > 0
    ensures x >= k * m <==> x / m * m >= k * m
    ensures x < k * m <==> x / m * m < k * m
  {
    assert x / m * m <= x < x / m * m + m;
    if x >= k * m {
      assert x / m >= k by {
        if x / m < k {
          Scale(x / m + 1, k, m);
          assert false;
        }
      }
      Scale(k, x / m, m);
    } else {
      assert x / m < k by {
        if x / m >= k {
          Scale(k, x / m, m);
          assert false;
        }
      }
      Scale(x / m + 1, k, m);
    }
  }

  lemma Scale(a: int, b: int, m: int)
    requires a <= b && m > 0
    ensures a * m <= b * m
  {
  }

  /** The hour-aligned cutoff never cuts a bucket of either resolution. */
  lemma CutoffAligned(now: int, resolution: Resolution, at: int)
    ensures at >= Cutoff(now) <==> at / BucketMs(resolution) * BucketMs(resolution) >= Cutoff(now)
  {
    var hours := (now - DAY_MS) / HOUR_MS;
    if resolution.FiveMinutes? {
      MultipleBound(at, 300_000, hours * 12);
      assert hours * 12 * 300_000 == hours * HOUR_MS;
    } else {
      MultipleBound(at, 3_600_000, hours);
    }
  }

  lemma UpperAligned(now: int, resolution: Resolution, at: int)
    ensures at < Upper(now, resolution) <==> at / BucketMs(resolution) * BucketMs(resolution) < Upper(now, resolution)
  {
    MultipleBound(at, BucketMs(resolution), now / BucketMs(resolution));
  }

  // ---- One pass ----

  function Window(rows: Rows, from: int, to: int): Rows {
    map id | id in rows && from <= id.at < to :: rows[id]
  }

  function InBucket(rows: Rows, b: Bucket): Rows
  {
    map id | id in rows && BucketOf(b.resolution, id) == b :: rows[id]
  }

  /** SELECT ... GROUP BY bucket, series */
  function Grouped(rows: Rows, resolution: Resolution): Rollups
  {
    map b | b in (set id | id in rows :: BucketOf(resolution, id)) :: InBucket(rows, b)
  }

  function Aggregated(t: Tables, resolution: Resolution, now: int): Tables
  {
    t.(rollups := t.rollups + Grouped(Window(t.rows, Cutoff(now), Upper(now, resolution)), resolution))
  }

  predicate Retained(b: Bucket, now: int) {
    !(b.resolution.FiveMinutes? && b.start < now - 30 * DAY_MS)
      && !(b.resolution.OneHour? && b.start < now - 365 * DAY_MS)
  }

  function Maintained(t: Tables, now: int): Tables {
    var rolled := Aggregated(Aggregated(t, FiveMinutes, now), OneHour, now);
    Tables(map id | id in rolled.rows && id.at >= Cutoff(now) :: rolled.rows[id],
      map b | b in rolled.rollups && Retained(b, now) :: rolled.rollups[b])
  }

  class Store {
    var rows: Rows
    var rollups: Rollups

    function View(): Tables
      reads this
    {
      Tables(rows, rollups)
    }

    constructor ()
      ensures View() == Tables(map[], map[])
    {
      rows, rollups := map[], map[];
    }

    method Maintain(now: int)
      modifies this
      ensures View() == Maintained(old(View()), now)
    {
      var cutoff := (now - DAY_MS) / HOUR_MS * HOUR_MS;
      var resolutions := [FiveMinutes, OneHour];
      ghost var start := View();
      var i := 0;
      while i < |resolutions|
        invariant 0 <= i <= 2
        invariant View() == if i == 0 then start else if i == 1 then Aggregated(start, FiveMinutes, now)
          else Aggregated(Aggregated(start, FiveMinutes, now), OneHour, now)
      {
        var resolution := resolutions[i];
        var bucketMs := BucketMs(resolution);
        var upper := now / bucketMs * bucketMs;
        rollups := rollups + Grouped(Window(rows, cutoff, upper), resolution);
        i := i + 1;
      }
      rows := map id | id in rows && id.at >= cutoff :: rows[id];
      rollups := map b | b in rollups && Retained(b, now) :: rollups[b];
    }
  }

  // ---- Everything that changes the samples ----

  /** Samples arrive at most 24 h old and at most 300 s early; a late neighbour may repair a rate. */
  datatype Event =
    | Insert(id: RowId, reading: Reading, now: int)
    | Repair(id: RowId, reading: Reading, now: int)
    | Pass(now: int)

  /** ever and clock are histories: every row ever accepted, and the time of the last event. */
  datatype Sys = Sys(t: Tables, ever: set<RowId>, clock: int, cutoff: int)

  predicate Enabled(s: Sys, e: Event) {
    && e.now >= s.clock
    && (e.Insert? ==> -SKEW_MS <= e.now - e.id.at <= DAY_MS && e.id !in s.t.rows)
    && (e.Repair? ==> e.id in s.t.rows)
  }

  function Next(s: Sys, e: Event): Sys {
    if !Enabled(s, e) then s
    else
      match e
      case Insert(id, reading, now) => Sys(s.t.(rows := s.t.rows[id := reading]), s.ever + {id}, now, s.cutoff)
      case Repair(id, reading, now) => Sys(s.t.(rows := s.t.rows[id := reading]), s.ever, now, s.cutoff)
      case Pass(now) => Sys(Maintained(s.t, now), s.ever, now, Cutoff(now))
  }

  /** No pass has been made yet at the start. */
  function At(run: seq<Event>, n: nat): Sys
    requires n <= |run|
    decreases n
  {
    if n == 0 then Sys(Tables(map[], map[]), {}, DAY_MS, 0) else Next(At(run, n - 1), run[n - 1])
  }

  /** Everything ever accepted since the cutoff is still stored, nothing older is. */
  ghost predicate SysOk(s: Sys) {
    && s.clock >= DAY_MS && s.cutoff <= s.clock - DAY_MS && s.cutoff % HOUR_MS == 0
    && (forall id :: id in s.t.rows <==> id in s.ever && id.at >= s.cutoff)
    && (forall b :: b in s.t.rollups ==> Counted(s, b))
  }

  /** A bucket counts only rows of its own that were accepted. */
  ghost predicate Counted(s: Sys, b: Bucket)
    requires b in s.t.rollups
  {
    forall id :: id in s.t.rollups[b] ==> id in s.ever && BucketOf(b.resolution, id) == b
  }

  function InWindow(rows: Rows, b: Bucket, now: int): Rows
  {
    InBucket(Window(rows, Cutoff(now), Upper(now, b.resolution)), b)
  }

  /** What a pass leaves in a bucket. */
  lemma PassOn(t: Tables, now: int, b: Bucket)
    ensures var t', fresh' := Maintained(t, now), InWindow(t.rows, b, now);
      && (b in t'.rollups <==> Retained(b, now) && (b in t.rollups || fresh' != map[]))
      && (b in t'.rollups ==> t'.rollups[b] == if fresh' != map[] then fresh' else t.rollups[b])
  {
    var first := Aggregated(t, FiveMinutes, now);
    GroupedAt(Window(t.rows, Cutoff(now), Upper(now, FiveMinutes)), FiveMinutes, b);
    GroupedAt(Window(t.rows, Cutoff(now), Upper(now, OneHour)), OneHour, b);
    hide Grouped, Window, InBucket, Cutoff, Upper;
  }

  lemma GroupedAt(rows: Rows, resolution: Resolution, b: Bucket)
    ensures b in Grouped(rows, resolution) <==> b.resolution == resolution && InBucket(rows, b) != map[]
    ensures b in Grouped(rows, resolution) ==> Grouped(rows, resolution)[b] == InBucket(rows, b)
  {
    if b.resolution == resolution && InBucket(rows, b) != map[] {
      var id :| id in InBucket(rows, b);
      assert BucketOf(resolution, id) == b;
    }
    if b in Grouped(rows, resolution) {
      var id :| id in rows && BucketOf(resolution, id) == b;
      assert id in InBucket(rows, b);
    }
  }

  /** Above the cutoff a pass sees every row of a bucket or none, and every one ever accepted. */
  lemma WholeBucket(s: Sys, now: int, b: Bucket)
    requires SysOk(s) && now >= s.clock && InWindow(s.t.rows, b, now) != map[]
    ensures b.start >= Cutoff(now)
    ensures forall id :: id in InWindow(s.t.rows, b, now) <==> id in s.ever && BucketOf(b.resolution, id) == b
  {
    var one :| one in InWindow(s.t.rows, b, now);
    CutoffAligned(now, b.resolution, one.at);
    UpperAligned(now, b.resolution, one.at);
    CutoffGrows(s, now);
    hide SysOk, Cutoff, Upper, BucketMs;
    forall id ensures id in InWindow(s.t.rows, b, now) <==> id in s.ever && BucketOf(b.resolution, id) == b {
      CutoffAligned(now, b.resolution, id.at);
      UpperAligned(now, b.resolution, id.at);
      StillStored(s, id);
    }
  }

  lemma StillStored(s: Sys, id: RowId)
    requires SysOk(s)
    ensures id in s.t.rows <==> id in s.ever && id.at >= s.cutoff
  {
  }

  lemma CutoffGrows(s: Sys, now: int)
    requires s.cutoff <= s.clock - DAY_MS && s.cutoff % HOUR_MS == 0 && now >= s.clock
    ensures s.cutoff <= Cutoff(now) <= now - DAY_MS && Cutoff(now) % HOUR_MS == 0
  {
    MultipleBound(now - DAY_MS, HOUR_MS, s.cutoff / HOUR_MS);
  }

  // ---- Every event ----

  lemma PassOk(s: Sys, now: int)
    requires SysOk(s) && now >= s.clock
    ensures SysOk(Next(s, Pass(now)))
  {
    var s' := Next(s, Pass(now));
    assert s' == Sys(Maintained(s.t, now), s.ever, now, Cutoff(now));
    hide Next;
    CutoffGrows(s, now);
    forall b | b in s'.t.rollups ensures Counted(s', b) {
      PassCounts(s, now, b);
    }
    hide Counted, Cutoff;
    forall id ensures id in s'.t.rows <==> id in s'.ever && id.at >= s'.cutoff {
      StillStored(s, id);
    }
  }

  lemma PassCounts(s: Sys, now: int, b: Bucket)
    requires SysOk(s) && now >= s.clock && b in Maintained(s.t, now).rollups
    ensures forall id :: id in Maintained(s.t, now).rollups[b] ==> id in s.ever && BucketOf(b.resolution, id) == b
  {
    hide Maintained, InWindow, BucketOf;
    PassOn(s.t, now, b);
    if InWindow(s.t.rows, b, now) != map[] {
      WholeBucket(s, now, b);
    } else {
      assert Counted(s, b);
    }
    hide SysOk;
  }

  lemma InsertOk(s: Sys, e: Event)
    requires SysOk(s) && !e.Pass?
    ensures SysOk(Next(s, e))
  {
    var s' := Next(s, e);
    hide BucketOf;
    forall b | b in s'.t.rollups ensures Counted(s', b) {
      assert Counted(s, b);
    }
    hide Counted;
  }

  lemma {:induction false} AlwaysOk(run: seq<Event>, n: nat)
    requires n <= |run|
    ensures SysOk(At(run, n))
    decreases n
  {
    if n > 0 {
      AlwaysOk(run, n - 1);
      var s, e := At(run, n - 1), run[n - 1];
      assert At(run, n) == Next(s, e);
      if e.Pass? && Enabled(s, e) {
        PassOk(s, e.now);
      } else if !e.Pass? {
        InsertOk(s, e);
      }
      hide At, SysOk, Maintained;
    }
  }

  // ---- Main results ----

  /** In every run with a clock that does not go back, each event leaves a rollup bucket as it is, or is a
      pass that replaces it by the aggregate of every row ever accepted in it, which includes all the
      rows it had counted before. */
  lemma RollupNeverRegresses(run: seq<Event>, n: nat, b: Bucket)
    requires n < |run| && b in At(run, n).t.rollups && b in At(run, n + 1).t.rollups
    ensures var s, s' := At(run, n), At(run, n + 1);
      s'.t.rollups[b] == s.t.rollups[b]
      || (&& run[n].Pass? && b.start >= Cutoff(run[n].now) && s.t.rollups[b].Keys <= s'.t.rollups[b].Keys
          && (forall id :: id in s'.t.rollups[b] <==> id in s.ever && BucketOf(b.resolution, id) == b)
          && (forall id :: id in s'.t.rollups[b] ==> id in s.t.rows && s'.t.rollups[b][id] == s.t.rows[id]))
  {
    AlwaysOk(run, n);
    var s, e := At(run, n), run[n];
    assert At(run, n + 1) == Next(s, e);
    hide At;
    assert Counted(s, b);
    if e.Pass? && Enabled(s, e) {
      PassOn(s.t, e.now, b);
      if InWindow(s.t.rows, b, e.now) != map[] {
        WholeBucket(s, e.now, b);
      }
      hide SysOk, Maintained, BucketOf;
    }
  }

  /** A bucket one of whose rows may have been pruned is never written again. */
  lemma PrunedIsNeverRewritten(run: seq<Event>, n: nat, b: Bucket)
    requires n < |run| && b in At(run, n).t.rollups && b in At(run, n + 1).t.rollups
    requires exists id :: id in At(run, n).ever && id !in At(run, n).t.rows && BucketOf(b.resolution, id) == b
    ensures At(run, n + 1).t.rollups[b] == At(run, n).t.rollups[b]
  {
    RollupNeverRegresses(run, n, b);
    hide At, BucketOf, Cutoff;
  }

  /** Which stored rows a pass newly counts: those of complete buckets that the cutoff has not passed. */
  lemma CountedByPass(t: Tables, now: int, r: Resolution, id: RowId)
    requires id in t.rows && Retained(BucketOf(r, id), now)
    requires BucketOf(r, id) in t.rollups ==> id !in t.rollups[BucketOf(r, id)]
    ensures var b, t' := BucketOf(r, id), Maintained(t, now);
      (b in t'.rollups && id in t'.rollups[b]) <==> Cutoff(now) <= id.at < Upper(now, r)
  {
    var b := BucketOf(r, id);
    assert b.resolution == r;
    PassOn(t, now, b);
    hide Maintained, Cutoff, Upper, BucketOf;
    assert id in InWindow(t.rows, b, now) <==> Cutoff(now) <= id.at < Upper(now, r);
    if InWindow(t.rows, b, now) == map[] {
      assert id !in InWindow(t.rows, b, now);
    }
  }

  /** Pass m sees row id in a complete bucket that its cutoff has not passed. */
  predicate Sees(run: seq<Event>, m: nat, r: Resolution, id: RowId)
    requires m < |run|
  {
    && run[m].Pass? && Enabled(At(run, m), run[m]) && id in At(run, m).t.rows
    && Cutoff(run[m].now) <= id.at < Upper(run[m].now, r)
  }

  lemma {:induction false} EverGrows(run: seq<Event>, m: nat, n: nat)
    requires m <= n <= |run|
    ensures At(run, m).ever <= At(run, n).ever && At(run, m).cutoff <= At(run, n).cutoff
    decreases n
  {
    if m < n {
      EverGrows(run, m, n - 1);
      AlwaysOk(run, n - 1);
      var s, e := At(run, n - 1), run[n - 1];
      if e.Pass? && Enabled(s, e) {
        CutoffGrows(s, e.now);
      }
      hide Maintained, Cutoff;
    }
  }

  lemma SeenIsEver(run: seq<Event>, m: nat, n: nat, r: Resolution, id: RowId)
    requires m < n <= |run| && Sees(run, m, r, id)
    ensures id in At(run, n).ever
  {
    AlwaysOk(run, m);
    StillStored(At(run, m), id);
    EverGrows(run, m, n);
    hide At, SysOk;
  }

  lemma SeenNow(run: seq<Event>, n: nat, r: Resolution, id: RowId)
    requires n < |run| && run[n].Pass? && Enabled(At(run, n), run[n])
    ensures Sees(run, n, r, id) <==> id in InWindow(At(run, n).t.rows, BucketOf(r, id), run[n].now)
  {
    hide At, Cutoff, Upper;
  }

  /** In every run a rollup bucket counts exactly the rows that some pass saw: stored at the time, in a
      complete bucket and not yet past the cutoff.  A row that no pass saw is never counted, be it that
      it came too late or that no pass was made in time. */
  lemma {:induction false} CountedWhen(run: seq<Event>, n: nat, r: Resolution, id: RowId)
    requires n <= |run| && BucketOf(r, id) in At(run, n).t.rollups
    ensures id in At(run, n).t.rollups[BucketOf(r, id)] <==> exists m :: 0 <= m < n && Sees(run, m, r, id)
    decreases n
  {
    var b := BucketOf(r, id);
    if n > 0 {
      var s, e := At(run, n - 1), run[n - 1];
      assert At(run, n) == Next(s, e);
      if e.Pass? && Enabled(s, e) {
        AlwaysOk(run, n - 1);
        PassOn(s.t, e.now, b);
        SeenNow(run, n - 1, r, id);
        if InWindow(s.t.rows, b, e.now) != map[] {
          WholeBucket(s, e.now, b);
          if m :| 0 <= m < n - 1 && Sees(run, m, r, id) {
            SeenIsEver(run, m, n - 1, r, id);
          }
        } else {
          CountedWhen(run, n - 1, r, id);
        }
        hide At, Sees, InWindow, BucketOf, Maintained, SysOk;
      } else {
        assert !Sees(run, n - 1, r, id);
        CountedWhen(run, n - 1, r, id);
        hide At, Sees, BucketOf;
      }
    }
  }

  /** A row that was pruned never comes back, so a row pruned unseen stays uncounted for good. */
  lemma {:induction false} PrunedForGood(run: seq<Event>, n: nat, k: nat, id: RowId)
    requires n <= k <= |run| && id in At(run, n).ever && id !in At(run, n).t.rows
    ensures id !in At(run, k).t.rows
  {
    AlwaysOk(run, n);
    AlwaysOk(run, k);
    StillStored(At(run, n), id);
    StillStored(At(run, k), id);
    EverGrows(run, n, k);
    hide At, SysOk;
  }

  lemma LostForGood(run: seq<Event>, n: nat, k: nat, r: Resolution, id: RowId)
    requires n <= k <= |run| && id in At(run, n).ever && id !in At(run, n).t.rows
    requires forall m :: 0 <= m < n ==> !Sees(run, m, r, id)
    ensures BucketOf(r, id) in At(run, k).t.rollups ==> id !in At(run, k).t.rollups[BucketOf(r, id)]
  {
    if BucketOf(r, id) in At(run, k).t.rollups {
      CountedWhen(run, k, r, id);
      forall m | 0 <= m < k ensures !Sees(run, m, r, id) {
        if n <= m {
          PrunedForGood(run, n, m, id);
        }
      }
      hide At, Sees;
    }
  }

  /** So a row accepted when it is almost 24 h old can be pruned before any pass has counted it. */
  lemma LateRowLost(reading: Reading)
    ensures var id := RowId("series", HOUR_MS - 1);
      var run := [Insert(id, reading, DAY_MS + HOUR_MS - 1), Pass(DAY_MS + HOUR_MS)];
      id in At(run, 2).ever && id !in At(run, 2).t.rows && forall b ::
        b in At(run, 2).t.rollups ==> id !in At(run, 2).t.rollups[b]
  {
    var id := RowId("series", HOUR_MS - 1);
    var run := [Insert(id, reading, DAY_MS + HOUR_MS - 1), Pass(DAY_MS + HOUR_MS)];
    var s := At(run, 1);
    assert s == Next(At(run, 0), run[0]) && At(run, 2) == Next(s, run[1]);
    NothingCounted(s.t, DAY_MS + HOUR_MS);
  }

  /** And so can a fresh row, when no pass is made for a day. */
  lemma NoPassLost(reading: Reading)
    ensures var id := RowId("series", DAY_MS);
      var run := [Insert(id, reading, DAY_MS), Pass(2 * DAY_MS + HOUR_MS)];
      id in At(run, 2).ever && id !in At(run, 2).t.rows && forall b ::
        b in At(run, 2).t.rollups ==> id !in At(run, 2).t.rollups[b]
  {
    var id := RowId("series", DAY_MS);
    var run := [Insert(id, reading, DAY_MS), Pass(2 * DAY_MS + HOUR_MS)];
    var s := At(run, 1);
    assert s == Next(At(run, 0), run[0]) && At(run, 2) == Next(s, run[1]);
    NothingCounted(s.t, 2 * DAY_MS + HOUR_MS);
  }

  lemma NothingCounted(t: Tables, now: int)
    requires t.rollups == map[] && forall id :: id in t.rows ==> id.at < Cutoff(now)
    ensures Maintained(t, now).rollups == map[]
  {
    var t' := Maintained(t, now);
    hide Maintained;
    forall b | b in t'.rollups ensures b in t.rollups {
      PassOn(t, now, b);
    }
  }
}
