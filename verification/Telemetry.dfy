/**
 Telemetry ingestion (server/src/api.rs:437-617): a batch is stored as a whole or not at all, once,
 and late samples repair the rate of the row that follows them and of the latest view.
 */
module Telemetry {
  import opened Wrappers
  import opened CounterSeries

  /** What makes samples one metric of one object; the catalogue fixes which names are counters. */
  datatype Metric = Metric(objectId: string, name: string, counter: bool, source: string, scope: string, labels: string)

  /** A series belongs to one boot and one inventory generation. */
  datatype Key = Key(metric: Metric, boot: string, generation: int)

  datatype Latest = Latest(boot: string, generation: int, at: int, row: Row)

  datatype Tables = Tables(series: map<Key, Rows>, latest: map<Metric, Latest>)

  datatype Observation = Observation(metric: Metric, at: int, sample: Sample)

  function SeriesOf(t: Tables, k: Key): Rows {
    if k in t.series then t.series[k] else map[]
  }

  // ---- One sample (lines 509-583) ----

  /** The upsert of the latest view: newer, or of another boot or generation. */
  predicate Replaces(latest: map<Metric, Latest>, k: Key, at: int) {
    k.metric !in latest || at > latest[k.metric].at || latest[k.metric].boot != k.boot
      || latest[k.metric].generation != k.generation
  }

  /** The latest row of a metric shows the row of k at a time. */
  predicate Shows(latest: map<Metric, Latest>, k: Key, at: int) {
    k.metric in latest && latest[k.metric].at == at && latest[k.metric].boot == k.boot
      && latest[k.metric].generation == k.generation
  }

  ghost function LatestAfter(latest: map<Metric, Latest>, k: Key, at: int, rows: Rows,
          current: bool): map<Metric, Latest>
    requires at in rows
  {
    var shown := if current && Replaces(latest, k, at) then
      latest[k.metric := Latest(k.boot, k.generation, at, rows[at])] else latest;
    var next := Succ(rows.Keys, at);
    if k.metric.counter && next.Some? && Shows(shown, k, next.value)
    then shown[k.metric := shown[k.metric].(row := shown[k.metric].row.(rate := rows[next.value].rate))]
    else shown
  }

  /** None is the conflict that aborts the whole batch. */
  ghost function Store(t: Tables, k: Key, at: int, s: Sample, current: bool): Option<Tables> {
    var rows := SeriesOf(t, k);
    if at in rows then
      if rows[at].sample == s then Some(t) else None
    else
      var rows' := Extended(k.metric.name, k.metric.counter, rows, at, s);
      Some(Tables(t.series[k := rows'], LatestAfter(t.latest, k, at, rows', current)))
  }

  ghost function StoreAll(t: Tables, boot: string, generation: int, samples: seq<Observation>,
          current: bool): Option<Tables> {
    if samples == [] then Some(t)
    else
      var front := StoreAll(t, boot, generation, samples[..|samples| - 1], current);
      var o := samples[|samples| - 1];
      if front.None? then None else Store(front.value, Key(o.metric, boot, generation), o.at, o.sample, current)
  }

  // ---- The invariant ----

  /** Every stored counter row has the rate of its immediate predecessor, and the latest view shows a
      stored row exactly as it is stored. */
  ghost predicate LatestMirrors(t: Tables, m: Metric)
    requires m in t.latest
  {
    var l := t.latest[m];
    var rows := SeriesOf(t, Key(m, l.boot, l.generation));
    l.at in rows && rows[l.at] == l.row
  }

  ghost predicate TablesOk(t: Tables) {
    && (forall k :: k in t.series ==> SeriesOk(k.metric.name, k.metric.counter, t.series[k]))
    && (forall m :: m in t.latest ==> LatestMirrors(t, m))
  }

  lemma StoreOk(t: Tables, k: Key, at: int, s: Sample, current: bool)
    requires TablesOk(t) && Store(t, k, at, s, current).Some?
    ensures TablesOk(Store(t, k, at, s, current).value)
  {
    var rows := SeriesOf(t, k);
    if at !in rows {
      ExtendedOk(k.metric.name, k.metric.counter, rows, at, s);
      ExtendedRows(k.metric.name, k.metric.counter, rows, at, s);
      var t' := Store(t, k, at, s, current).value;
      hide Extended, SeriesOk, Samples, CounterRate, Before, LatestAfter, LatestMirrors;
      forall m | m in t'.latest ensures LatestMirrors(t', m) {
        if m == k.metric {
          ShownMirrors(t, k, at, s, current);
        } else {
          OthersMirror(t, k, at, s, current, m);
        }
      }
    }
  }

  lemma OthersMirror(t: Tables, k: Key, at: int, s: Sample, current: bool, m: Metric)
    requires TablesOk(t) && at !in SeriesOf(t, k) && m != k.metric
    ensures var t' := Store(t, k, at, s, current).value;
      (m in t'.latest <==> m in t.latest) && (m in t.latest ==> LatestMirrors(t', m))
  {
    assert m in t.latest ==> LatestMirrors(t, m);
    hide Extended, SeriesOk, Succ;
  }

  lemma ShownMirrors(t: Tables, k: Key, at: int, s: Sample, current: bool)
    requires TablesOk(t) && at !in SeriesOf(t, k)
    ensures var t' := Store(t, k, at, s, current).value; k.metric in t'.latest ==> LatestMirrors(t', k.metric)
  {
    assert k.metric in t.latest ==> LatestMirrors(t, k.metric);
    hide TablesOk, Extended, SeriesOk, Samples, CounterRate, Before, Succ, IsSucc;
    var rows := SeriesOf(t, k);
    ExtendedRows(k.metric.name, k.metric.counter, rows, at, s);
    SuccWith(rows.Keys, at);
  }

  lemma SuccWith(times: set<int>, t: int)
    ensures Succ(times + {t}, t) == Succ(times, t)
  {
    if Succ(times, t).Some? {
      var n := Succ(times, t).value;
      assert IsSucc(times + {t}, t, n);
      SuccIs(times + {t}, t, n);
    }
  }

  lemma {:induction false} StoreAllOk(t: Tables, boot: string, generation: int, samples: seq<Observation>,
          current: bool)
    requires TablesOk(t) && StoreAll(t, boot, generation, samples, current).Some?
    ensures TablesOk(StoreAll(t, boot, generation, samples, current).value)
    decreases |samples|
  {
    hide TablesOk, Store;
    if samples != [] {
      var front := samples[..|samples| - 1];
      var o := samples[|samples| - 1];
      StoreAllOk(t, boot, generation, front, current);
      StoreOk(StoreAll(t, boot, generation, front, current).value, Key(o.metric, boot, generation), o.at, o.sample,
        current);
    }
  }

  // ---- What a batch adds ----

  /** The samples of a batch that belong to a series. */
  function Mine(samples: seq<Observation>, m: Metric): map<int, Sample> {
    if samples == [] then map[]
    else
      var front := Mine(samples[..|samples| - 1], m);
      var o := samples[|samples| - 1];
      if o.metric == m then front[o.at := o.sample] else front
  }

  lemma StoreAdds(t: Tables, k: Key, at: int, s: Sample, current: bool, j: Key)
    requires TablesOk(t) && Store(t, k, at, s, current).Some?
    ensures Samples(SeriesOf(Store(t, k, at, s, current).value, j))
      == if j == k then Samples(SeriesOf(t, k))[at := s] else Samples(SeriesOf(t, j))
  {
    var rows := SeriesOf(t, k);
    if at in rows {
      assert Samples(rows)[at := s] == Samples(rows);
    } else {
      ExtendedRows(k.metric.name, k.metric.counter, rows, at, s);
    }
    hide Extended, LatestAfter;
  }

  /** An accepted batch adds exactly its own samples to its own series and touches no other. */
  lemma {:induction false} StoreAllAdds(t: Tables, boot: string, generation: int, samples: seq<Observation>,
          current: bool, j: Key)
    requires TablesOk(t) && StoreAll(t, boot, generation, samples, current).Some?
    ensures Samples(SeriesOf(StoreAll(t, boot, generation, samples, current).value, j))
      == Samples(SeriesOf(t, j)) + if j.boot == boot && j.generation == generation then Mine(samples, j.metric)
        else map[]
    decreases |samples|
  {
    hide TablesOk, Store, Samples, SeriesOf;
    if samples != [] {
      var front := samples[..|samples| - 1];
      var o := samples[|samples| - 1];
      var k := Key(o.metric, boot, generation);
      StoreAllAdds(t, boot, generation, front, current, j);
      StoreAllOk(t, boot, generation, front, current);
      StoreAdds(StoreAll(t, boot, generation, front, current).value, k, o.at, o.sample, current, j);
    }
  }

  // ---- The latest view within one boot and generation ----

  /** The latest row of the series is its newest sample. */
  ghost predicate LatestIsNewest(t: Tables, k: Key) {
    if SeriesOf(t, k) == map[] then k.metric !in t.latest
    else
      && k.metric in t.latest && t.latest[k.metric].boot == k.boot && t.latest[k.metric].generation == k.generation
      && t.latest[k.metric].at in SeriesOf(t, k)
      && forall u :: u in SeriesOf(t, k) ==> u <= t.latest[k.metric].at
  }

  lemma StoreNewest(t: Tables, k: Key, at: int, s: Sample, j: Key)
    requires LatestIsNewest(t, j) && Store(t, k, at, s, true).Some?
    requires k.metric == j.metric ==> k == j
    ensures LatestIsNewest(Store(t, k, at, s, true).value, j)
  {
    var rows := SeriesOf(t, k);
    if at !in rows {
      ExtendedRows(k.metric.name, k.metric.counter, rows, at, s);
    }
    hide Extended, Samples, CounterRate, Before;
  }

  lemma {:induction false} StoreAllNewest(t: Tables, boot: string, generation: int, samples: seq<Observation>, j: Key)
    requires LatestIsNewest(t, j) && StoreAll(t, boot, generation, samples, true).Some?
    requires j.boot == boot && j.generation == generation
    ensures LatestIsNewest(StoreAll(t, boot, generation, samples, true).value, j)
    decreases |samples|
  {
    hide LatestIsNewest, Store;
    if samples != [] {
      var front := samples[..|samples| - 1];
      var o := samples[|samples| - 1];
      StoreAllNewest(t, boot, generation, front, j);
      StoreNewest(StoreAll(t, boot, generation, front, true).value, Key(o.metric, boot, generation), o.at, o.sample, j);
    }
  }

  // ---- Batches (lines 446-508 and 591-612) ----

  const DAY_MS: int := 86_400_000
  const SKEW_MS: int := 300_000

  /** An event about an object of the node, or about the node itself. */
  datatype Notice = Notice(objectId: Option<string>, at: int)

  /** wellFormed is the part of the validation that does not look at the clock (lines 333-476). */
  datatype Batch = Batch(boot: string, sequence: nat, fingerprint: string, generation: int, observedAt: int,
    sentAt: int,
    samples: seq<Observation>, events: seq<Notice>, wellFormed: bool)

  datatype Receipt = Receipt(fingerprint: string, samples: nat, events: nat, receivedAt: int)

  datatype NodeState = NodeState(generation: int, boot: Option<string>, bootObservedAt: int, objects: set<string>)

  datatype Db = Db(node: NodeState, tables: Tables, batches: map<(string, nat), Receipt>)

  datatype Ack = Refused | Conflict | Stored(receipt: Receipt, duplicate: bool)

  /** validate_time: at most 24 h old and at most 300 s early. */
  predicate InTime(at: int, now: int) {
    -SKEW_MS <= now - at <= DAY_MS
  }

  /** validate_telemetry, which runs before anything is looked up. */
  predicate Validates(b: Batch, now: int) {
    && b.wellFormed && InTime(b.observedAt, now) && InTime(b.sentAt, now)
    && (forall i :: 0 <= i < |b.samples| ==> InTime(b.samples[i].at, now))
    && (forall i :: 0 <= i < |b.events| ==> InTime(b.events[i].at, now))
  }

  predicate CurrentBoot(n: NodeState, b: Batch) {
    n.boot.None? || n.boot == Some(b.boot) || b.observedAt >= n.bootObservedAt
  }

  /** A stable sort by observation time. */
  function Place(sorted: seq<Observation>, o: Observation): seq<Observation> {
    if sorted == [] || sorted[|sorted| - 1].at <= o.at then sorted + [o]
    else Place(sorted[..|sorted| - 1], o) + [sorted[|sorted| - 1]]
  }

  function ByTime(samples: seq<Observation>): seq<Observation> {
    if samples == [] then [] else Place(ByTime(samples[..|samples| - 1]), samples[|samples| - 1])
  }

  ghost predicate Sorted(s: seq<Observation>) {
    forall i, j :: 0 <= i < j < |s| ==> s[i].at <= s[j].at
  }

  lemma {:induction false} PlaceKeeps(sorted: seq<Observation>, o: Observation)
    ensures multiset(Place(sorted, o)) == multiset(sorted) + multiset{o}
  {
    if sorted != [] && sorted[|sorted| - 1].at > o.at {
      PlaceKeeps(sorted[..|sorted| - 1], o);
      assert sorted == sorted[..|sorted| - 1] + [sorted[|sorted| - 1]];
    }
  }

  ghost predicate UpTo(s: seq<Observation>, bound: int) {
    forall i :: 0 <= i < |s| ==> s[i].at <= bound
  }

  lemma {:induction false} PlaceUpTo(sorted: seq<Observation>, o: Observation, bound: int)
    requires UpTo(sorted, bound) && o.at <= bound
    ensures UpTo(Place(sorted, o), bound)
  {
    if sorted != [] && sorted[|sorted| - 1].at > o.at {
      PlaceUpTo(sorted[..|sorted| - 1], o, bound);
    }
  }

  lemma {:induction false} PlaceSorted(sorted: seq<Observation>, o: Observation)
    requires Sorted(sorted)
    ensures Sorted(Place(sorted, o))
  {
    if sorted != [] && sorted[|sorted| - 1].at > o.at {
      PlaceSorted(sorted[..|sorted| - 1], o);
      PlaceUpTo(sorted[..|sorted| - 1], o, sorted[|sorted| - 1].at);
    }
  }

  lemma {:induction false} ByTimeSorted(samples: seq<Observation>)
    ensures Sorted(ByTime(samples)) && multiset(ByTime(samples)) == multiset(samples)
  {
    hide Sorted, Place;
    if samples == [] {
      NoneSorted();
    } else {
      var front, last := samples[..|samples| - 1], samples[|samples| - 1];
      ByTimeSorted(front);
      PlaceSorted(ByTime(front), last);
      PlaceKeeps(ByTime(front), last);
      assert samples == front + [last];
    }
  }

  lemma NoneSorted()
    ensures Sorted([])
  {
  }

  predicate Listed(n: NodeState, b: Batch) {
    && (forall i :: 0 <= i < |b.samples| ==> b.samples[i].metric.objectId in n.objects)
    && (forall i :: 0 <= i < |b.events| && b.events[i].objectId.Some? ==> b.events[i].objectId.value in n.objects)
  }

  ghost function Seen(n: NodeState, b: Batch): NodeState {
    n.(boot := if b.observedAt >= n.bootObservedAt then Some(b.boot) else n.boot,
       bootObservedAt := if b.observedAt > n.bootObservedAt then b.observedAt else n.bootObservedAt)
  }

  /** How many samples are new: the overlaps that repeat a stored sample are not counted. */
  ghost function Fresh(t: Tables, boot: string, generation: int, samples: seq<Observation>, current: bool): nat
    requires StoreAll(t, boot, generation, samples, current).Some?
  {
    if samples == [] then 0
    else
      var front := samples[..|samples| - 1];
      var o := samples[|samples| - 1];
      var was := StoreAll(t, boot, generation, front, current).value;
      Fresh(t, boot, generation, front, current) + if o.at in SeriesOf(was, Key(o.metric, boot, generation)) then 0
        else 1
  }

  /** A batch is validated at one time and, once the writer is free, taken at another. */
  ghost function Accept(db: Db, b: Batch, checked: int, now: int): (Db, Ack) {
    var id := (b.boot, b.sequence);
    if !Validates(b, checked) then (db, Refused)
    else if id in db.batches then
      if db.batches[id].fingerprint != b.fingerprint then (db, Conflict) else (db, Stored(db.batches[id], true))
    else if b.generation != db.node.generation || !Listed(db.node, b) then
      (db, Conflict)
    else
      var current := CurrentBoot(db.node, b);
      var samples := ByTime(b.samples);
      var stored := StoreAll(db.tables, b.boot, b.generation, samples, current);
      if stored.None? then (db, Conflict)
      else
        var receipt := Receipt(b.fingerprint, Fresh(db.tables, b.boot, b.generation, samples, current), |b.events|,
          now);
        (Db(Seen(db.node, b), stored.value, db.batches[id := receipt]), Stored(receipt, false))
  }

  lemma AcceptOk(db: Db, b: Batch, checked: int, now: int)
    requires TablesOk(db.tables)
    ensures TablesOk(Accept(db, b, checked, now).0.tables)
    ensures !Accept(db, b, checked, now).1.Stored? ==> Accept(db, b, checked, now).0 == db
    ensures ReceiptsKept(db.batches, Accept(db, b, checked, now).0.batches)
  {
    hide TablesOk, StoreAll, ByTime, Fresh, Validates;
    var stored := StoreAll(db.tables, b.boot, b.generation, ByTime(b.samples), CurrentBoot(db.node, b));
    if stored.Some? {
      StoreAllOk(db.tables, b.boot, b.generation, ByTime(b.samples), CurrentBoot(db.node, b));
    }
  }

  ghost predicate ReceiptsKept(a: map<(string, nat), Receipt>, b: map<(string, nat), Receipt>) {
    forall id :: id in a ==> id in b && b[id] == a[id]
  }
}
