/**
 Whole runs of telemetry ingestion and daily maintenance (server/src/api.rs:437-617,
 server/src/workers.rs:9-66): batches arrive late, twice and in any order, and old samples and receipts
 are deleted underneath them.
 */
module TelemetryRuns {
  import opened Wrappers
  import opened CounterSeries
  import opened Telemetry
  import Rollup

  const RECEIPT_MS: int := 30 * DAY_MS

  /** In between, anything else may change the node's row. */
  datatype Event = Deliver(b: Batch, checked: int, now: int) | NodeChanged(node: NodeState, now: int) | Pass(now: int)

  /** What maintenance deletes: samples past the cutoff and receipts older than 30 days. */
  function Maintained(db: Db, now: int): Db {
    db.(tables := db.tables.(series := map k | k in db.tables.series :: Since(db.tables.series[k], Rollup.Cutoff(now))),
        batches := map id | id in db.batches && db.batches[id].receivedAt >= now - RECEIPT_MS :: db.batches[id])
  }

  ghost function Step(db: Db, e: Event): Db {
    match e
    case Deliver(b, checked, now) => Accept(db, b, checked, now).0
    case NodeChanged(node, now) => db.(node := node)
    case Pass(now) => Maintained(db, now)
  }

  ghost function Run(db: Db, events: seq<Event>): Db {
    if events == [] then db else Step(Run(db, events[..|events| - 1]), events[|events| - 1])
  }

  const EMPTY: Tables := Tables(map[], map[])

  function New(node: NodeState): Db {
    Db(node, EMPTY, map[])
  }

  // ---- Rates ----

  ghost predicate RatesOk(t: Tables) {
    forall k :: k in t.series ==> PredOk(k.metric.name, k.metric.counter, t.series[k])
  }

  ghost predicate Grows(t: Tables, t': Tables, k: Key) {
    GrownTo(k.metric.name, k.metric.counter, SeriesOf(t, k), SeriesOf(t', k))
  }

  lemma NoRows(k: Key)
    ensures PredOk(k.metric.name, k.metric.counter, map[])
  {
  }

  lemma StoreGrows(t: Tables, k: Key, at: int, s: Sample, current: bool)
    requires RatesOk(t) && Store(t, k, at, s, current).Some?
    ensures RatesOk(Store(t, k, at, s, current).value)
    ensures forall j :: Grows(t, Store(t, k, at, s, current).value, j)
  {
    var t', rows := Store(t, k, at, s, current).value, SeriesOf(t, k);
    NoRows(k);
    assert PredOk(k.metric.name, k.metric.counter, rows);
    if at !in rows {
      ExtendedGrows(k.metric.name, k.metric.counter, rows, at, s);
    }
    forall j ensures Grows(t, t', j) && PredOk(j.metric.name, j.metric.counter, SeriesOf(t', j)) {
      NoRows(j);
      if at in rows || j != k {
        assert SeriesOf(t', j) == SeriesOf(t, j) && PredOk(j.metric.name, j.metric.counter, SeriesOf(t, j));
        GrownItself(j.metric.name, j.metric.counter, SeriesOf(t, j));
      }
    }
    hide PredOk, GrownTo, Extended, LatestAfter, Store;
  }

  lemma {:induction false} StoreAllGrows(t: Tables, boot: string, generation: int, samples: seq<Observation>,
          current: bool)
    requires RatesOk(t) && StoreAll(t, boot, generation, samples, current).Some?
    ensures RatesOk(StoreAll(t, boot, generation, samples, current).value)
    ensures forall j :: Grows(t, StoreAll(t, boot, generation, samples, current).value, j)
    decreases |samples|
  {
    if samples == [] {
      SameGrows(t);
    } else {
      hide RatesOk, Store, Grows;
      var front, o := samples[..|samples| - 1], samples[|samples| - 1];
      StoreAllGrows(t, boot, generation, front, current);
      var was := StoreAll(t, boot, generation, front, current).value;
      StoreGrows(was, Key(o.metric, boot, generation), o.at, o.sample, current);
      var now := StoreAll(t, boot, generation, samples, current).value;
      forall j ensures Grows(t, now, j) {
        GrowsOn(t, was, now, j);
      }
    }
  }

  lemma SameGrows(t: Tables)
    requires RatesOk(t)
    ensures forall j :: Grows(t, t, j)
  {
    forall j ensures Grows(t, t, j) {
      NoRows(j);
      GrownItself(j.metric.name, j.metric.counter, SeriesOf(t, j));
    }
    hide GrownTo, PredOk;
  }

  lemma GrowsOn(a: Tables, b: Tables, c: Tables, k: Key)
    requires Grows(a, b, k) && Grows(b, c, k)
    ensures Grows(a, c, k)
  {
    GrownTransitive(k.metric.name, k.metric.counter, SeriesOf(a, k), SeriesOf(b, k), SeriesOf(c, k));
    hide GrownTo;
  }

  lemma PrunedRates(db: Db, now: int)
    requires RatesOk(db.tables)
    ensures RatesOk(Maintained(db, now).tables)
  {
    forall k | k in db.tables.series
      ensures PredOk(k.metric.name, k.metric.counter, Since(db.tables.series[k], Rollup.Cutoff(now)))
    {
      SinceKeeps(k.metric.name, k.metric.counter, db.tables.series[k], Rollup.Cutoff(now));
    }
    hide PredOk, Rollup.Cutoff;
  }

  /** A delivery leaves everything as it was, or makes every series grow. */
  lemma Delivered(db: Db, b: Batch, checked: int, now: int)
    requires RatesOk(db.tables)
    ensures RatesOk(Accept(db, b, checked, now).0.tables)
    ensures forall k :: Grows(db.tables, Accept(db, b, checked, now).0.tables, k)
  {
    SameGrows(db.tables);
    hide RatesOk, StoreAll, ByTime, Fresh, Validates, Grows;
    var stored := StoreAll(db.tables, b.boot, b.generation, ByTime(b.samples), CurrentBoot(db.node, b));
    if stored.Some? {
      StoreAllGrows(db.tables, b.boot, b.generation, ByTime(b.samples), CurrentBoot(db.node, b));
    }
  }

  // ---- What each rate is against ----

  function RowsAfter(db: Db, k: Key): Rows {
    SeriesOf(db.tables, k)
  }

  /** The predecessor that a row has or, when it was pruned, the last one that it had. */
  ghost function LastBefore(db: Db, events: seq<Event>, k: Key, at: int): Option<(int, Sample)>
    decreases |events|
  {
    var rows := RowsAfter(Run(db, events), k);
    if at !in rows then None
    else if Before(rows, at).Some? then Before(rows, at)
    else if events == [] then None
    else LastBefore(db, events[..|events| - 1], k, at)
  }

  ghost function RateAgainst(k: Key, s: Sample, at: int, before: Option<(int, Sample)>): Rate {
    if k.metric.counter then CounterRate(k.metric.name, s, at, before) else Unavailable
  }

  ghost predicate RatedBy(db: Db, events: seq<Event>, k: Key, at: int)
    requires at in RowsAfter(Run(db, events), k)
  {
    var row := RowsAfter(Run(db, events), k)[at];
    row.rate == RateAgainst(k, row.sample, at, LastBefore(db, events, k, at))
  }

  lemma RatedByStored(db: Db, events: seq<Event>, k: Key, at: int)
    requires at in RowsAfter(Run(db, events), k) && RatesOk(Run(db, events).tables)
    requires Before(RowsAfter(Run(db, events), k), at).Some?
    ensures RatedBy(db, events, k, at)
  {
    assert PredOk(k.metric.name, k.metric.counter, RowsAfter(Run(db, events), k));
    hide Run, Before, RatesOk, CounterRate;
  }

  /** The last event left the row as it was, without a stored predecessor before and after. */
  lemma RatedByOn(db: Db, events: seq<Event>, k: Key, at: int)
    requires events != [] && at in RowsAfter(Run(db, events), k) && Before(RowsAfter(Run(db, events), k), at).None?
    requires var front := events[..|events| - 1];
      at in RowsAfter(Run(db, front), k) && RatedBy(db, front, k, at)
      && RowsAfter(Run(db, front), k)[at] == RowsAfter(Run(db, events), k)[at]
    ensures RatedBy(db, events, k, at)
  {
    hide Run, Before, CounterRate, RowsAfter;
  }

  lemma RatedByNew(db: Db, events: seq<Event>, k: Key, at: int)
    requires at in RowsAfter(Run(db, events), k) && Before(RowsAfter(Run(db, events), k), at).None?
    requires events == [] || at !in RowsAfter(Run(db, events[..|events| - 1]), k)
    requires RowsAfter(Run(db, events), k)[at].rate ==
      RateAt(k.metric.name, k.metric.counter, RowsAfter(Run(db, events), k), at)
    ensures RatedBy(db, events, k, at) && LastBefore(db, events, k, at).None?
  {
    hide Run, CounterRate, RowsAfter;
    assert events != [] ==> LastBefore(db, events[..|events| - 1], k, at).None?;
    assert LastBefore(db, events, k, at).None?;
    assert Before(RowsAfter(Run(db, events), k), at).None?;
  }

  lemma {:induction false} RatesAlwaysOk(node: NodeState, events: seq<Event>)
    ensures RatesOk(Run(New(node), events).tables)
    decreases |events|
  {
    if events != [] {
      var front, last := events[..|events| - 1], events[|events| - 1];
      RatesAlwaysOk(node, front);
      hide RatesOk, Accept, Maintained;
      match last
      case Deliver(b, checked, now) => Delivered(Run(New(node), front), b, checked, now);
      case NodeChanged(node', now) => SameTables(Run(New(node), front), node');
      case Pass(now) => PrunedRates(Run(New(node), front), now);
    }
  }

  lemma SameTables(db: Db, node: NodeState)
    requires RatesOk(db.tables)
    ensures RatesOk(db.(node := node).tables)
  {
  }

  /** After any run, pruning included, every counter row has the rate against its stored predecessor or,
      when that was pruned, against the last one it had; a row that never had one since it was stored has
      the rate of a first sample. */
  lemma {:induction false} RatesInRuns(node: NodeState, events: seq<Event>, k: Key, at: int)
    requires at in RowsAfter(Run(New(node), events), k)
    ensures RatedBy(New(node), events, k, at)
    decreases |events|
  {
    RatesAlwaysOk(node, events);
    hide RatesOk;
    if Before(RowsAfter(Run(New(node), events), k), at).Some? {
      RatedByStored(New(node), events, k, at);
    } else if events != [] {
      var front := events[..|events| - 1];
      LastStep(node, events, k, at);
      hide Run, RowsAfter, RatedBy, LastBefore;
      if at in RowsAfter(Run(New(node), front), k) {
        RatesInRuns(node, front, k, at);
        RatedByOn(New(node), events, k, at);
      } else {
        RatedByNew(New(node), events, k, at);
      }
    }
  }

  /** What the last event did to a row that has no stored predecessor after it. */
  lemma LastStep(node: NodeState, events: seq<Event>, k: Key, at: int)
    requires events != [] && at in RowsAfter(Run(New(node), events), k)
    requires Before(RowsAfter(Run(New(node), events), k), at).None?
    ensures var before, after :=
      RowsAfter(Run(New(node), events[..|events| - 1]), k), RowsAfter(Run(New(node), events), k);
      if at in before then after[at] == before[at]
        else after[at].rate == RateAt(k.metric.name, k.metric.counter, after, at)
  {
    var front, last := events[..|events| - 1], events[|events| - 1];
    RatesAlwaysOk(node, front);
    var was := Run(New(node), front);
    assert Run(New(node), events) == Step(was, last);
    hide RatesOk, Accept, Run, Before, CounterRate, Rollup.Cutoff;
    match last
    case Deliver(b, checked, now) =>
      Delivered(was, b, checked, now);
      assert Grows(was.tables, Step(was, last).tables, k);
    case NodeChanged(node', now) =>
    case Pass(now) =>
  }

  /** While nothing is pruned a row without a predecessor never had one. */
  lemma {:induction false} NeverHadOne(node: NodeState, events: seq<Event>, k: Key, at: int)
    requires at in RowsAfter(Run(New(node), events), k) && Before(RowsAfter(Run(New(node), events), k), at).None?
    requires forall i :: 0 <= i < |events| ==> !events[i].Pass?
    ensures LastBefore(New(node), events, k, at).None?
    decreases |events|
  {
    if events != [] {
      var front, last := events[..|events| - 1], events[|events| - 1];
      RatesAlwaysOk(node, front);
      var was := Run(New(node), front);
      assert Run(New(node), events) == Step(was, last);
      hide RatesOk, Accept, Run, Before, CounterRate;
      if last.Deliver? {
        Delivered(was, last.b, last.checked, last.now);
        assert Grows(was.tables, Step(was, last).tables, k);
      }
      if at in RowsAfter(was, k) {
        NeverHadOne(node, front, k, at);
      }
    }
  }

  /** Incremental repair equals recomputation: whatever batches arrived in whatever order, two runs that
      store the same samples of a series store the same rows, rates included; only the oldest row may
      remember a predecessor that one of them has pruned. */
  lemma ArrivalOrderIsIrrelevant(node: NodeState, other: NodeState, events: seq<Event>, events': seq<Event>, k: Key,
          at: int)
    requires var a, b := RowsAfter(Run(New(node), events), k), RowsAfter(Run(New(other), events'), k);
      Samples(a) == Samples(b) && at in a
    ensures var a, b := RowsAfter(Run(New(node), events), k), RowsAfter(Run(New(other), events'), k);
      && at in b && a[at].sample == b[at].sample && Before(a, at) == Before(b, at)
      && (Before(a, at).Some? || LastBefore(New(node), events, k, at) == LastBefore(New(other), events', k, at) ==>
           a[at] == b[at])
  {
    var a, b := RowsAfter(Run(New(node), events), k), RowsAfter(Run(New(other), events'), k);
    SameSamples(a, b, at);
    RatesInRuns(node, events, k, at);
    RatesInRuns(other, events', k, at);
    hide Run, RowsAfter, Before, Samples, CounterRate;
  }

  lemma SameSamples(a: Rows, b: Rows, at: int)
    requires Samples(a) == Samples(b) && at in a
    ensures a.Keys == b.Keys && a[at].sample == b[at].sample && Before(a, at) == Before(b, at)
  {
    assert a.Keys == Samples(a).Keys && b.Keys == Samples(b).Keys;
    forall t | t in a ensures a[t].sample == b[t].sample {
      assert Samples(a)[t] == Samples(b)[t];
    }
    hide Samples;
  }

  /** So without pruning they store the same rows altogether. */
  lemma ArrivalOrderLeavesNoTrace(node: NodeState, other: NodeState, events: seq<Event>, events': seq<Event>, k: Key)
    requires Samples(RowsAfter(Run(New(node), events), k)) == Samples(RowsAfter(Run(New(other), events'), k))
    requires forall i :: 0 <= i < |events| ==> !events[i].Pass?
    requires forall i :: 0 <= i < |events'| ==> !events'[i].Pass?
    ensures RowsAfter(Run(New(node), events), k) == RowsAfter(Run(New(other), events'), k)
  {
    var a, b := RowsAfter(Run(New(node), events), k), RowsAfter(Run(New(other), events'), k);
    assert a.Keys == Samples(a).Keys && b.Keys == Samples(b).Keys;
    forall at | at in a ensures a[at] == b[at] {
      ArrivalOrderIsIrrelevant(node, other, events, events', k, at);
      if Before(a, at).None? {
        NeverHadOne(node, events, k, at);
        NeverHadOne(other, events', k, at);
      }
    }
    hide Run, RowsAfter, Samples;
  }

  // ---- Replay ----

  function TimeOf(e: Event): int {
    e.now
  }

  /** The clock does not go back, and a batch is validated before it is taken. */
  predicate Clocked(events: seq<Event>, start: int) {
    && (forall i :: 0 <= i < |events| ==> start <= TimeOf(events[i]))
    && (forall i, j :: 0 <= i < j < |events| ==> TimeOf(events[i]) <= TimeOf(events[j]))
    && (forall i :: 0 <= i < |events| && events[i].Deliver? ==> events[i].checked <= events[i].now)
  }

  /** No maintenance pass came more than 30 days after the receipt. */
  predicate NoPassAfter(events: seq<Event>, receivedAt: int) {
    forall i :: 0 <= i < |events| && events[i].Pass? ==> receivedAt >= events[i].now - RECEIPT_MS
  }

  lemma StepReceipt(db: Db, e: Event, id: (string, nat))
    requires id in db.batches && (e.Pass? ==> db.batches[id].receivedAt >= e.now - RECEIPT_MS)
    ensures id in Step(db, e).batches && Step(db, e).batches[id] == db.batches[id]
  {
    hide StoreAll, ByTime, Fresh, Validates;
  }

  lemma {:induction false} ReceiptStays(db: Db, events: seq<Event>, id: (string, nat))
    requires id in db.batches && NoPassAfter(events, db.batches[id].receivedAt)
    ensures id in Run(db, events).batches && Run(db, events).batches[id] == db.batches[id]
    decreases |events|
  {
    hide Step;
    if events != [] {
      var front, last := events[..|events| - 1], events[|events| - 1];
      assert NoPassAfter(front, db.batches[id].receivedAt);
      ReceiptStays(db, front, id);
      StepReceipt(Run(db, front), last, id);
    }
  }

  /** A receipt outlives every time at which its batch still validates, unless a request waits four weeks
      for the writer. */
  lemma ReceiptOutlives(b: Batch, checked: int, now: int, events: seq<Event>, checked': int, now': int)
    requires Validates(b, checked) && checked <= now && Validates(b, checked') && now' - checked' <= 28 * DAY_MS
    requires forall i :: 0 <= i < |events| ==> TimeOf(events[i]) <= now'
    ensures NoPassAfter(events, now)
  {
    assert InTime(b.observedAt, checked) && InTime(b.observedAt, checked');
    hide Validates;
  }

  /** A batch sent again changes nothing, whatever happened since; and it gets its first receipt exactly
      when all its times still validate, else it is refused. */
  lemma ReplayIsIdempotent(db: Db, b: Batch, checked: int, now: int, events: seq<Event>, checked': int, now': int)
    requires checked <= now && Accept(db, b, checked, now).1.Stored? && !Accept(db, b, checked, now).1.duplicate
    requires Clocked(events, now) && forall i :: 0 <= i < |events| ==> TimeOf(events[i]) <= now'
    requires checked' <= now' && now' - checked' <= 28 * DAY_MS
    ensures var after := Run(Accept(db, b, checked, now).0, events);
      Accept(after, b, checked', now') == (after,
        if Validates(b, checked') then Stored(Accept(db, b, checked, now).1.receipt, true) else Refused)
  {
    var (first, ack) := Accept(db, b, checked, now);
    var id := (b.boot, b.sequence);
    assert Validates(b, checked);
    assert id in first.batches && first.batches[id] == ack.receipt
      && ack.receipt.receivedAt == now && ack.receipt.fingerprint == b.fingerprint;
    hide Validates, StoreAll, ByTime, Fresh, Run, Clocked;
    if Validates(b, checked') {
      ReceiptOutlives(b, checked, now, events, checked', now');
      ReceiptStays(first, events, id);
    }
  }

  // ---- The latest view ----

  /** A batch is validated after every maintenance pass that precedes it: none waits for the writer across one. */
  predicate Prompt(events: seq<Event>) {
    forall i, j :: 0 <= i < j < |events| && events[i].Pass? && events[j].Deliver? ==> events[j].checked >= events[i].now
  }

  /** The latest row of a metric is its stored row, or that row was pruned. */
  ghost predicate Mirrors(t: Tables, m: Metric)
    requires m in t.latest
  {
    var l := t.latest[m];
    var rows := SeriesOf(t, Key(m, l.boot, l.generation));
    l.at in rows ==> rows[l.at] == l.row
  }

  /** The cutoff of the last maintenance pass, if there was one. */
  function CutoffOf(events: seq<Event>): Option<int> {
    if events == [] then None
    else if events[|events| - 1].Pass? then Some(Rollup.Cutoff(events[|events| - 1].now))
    else CutoffOf(events[..|events| - 1])
  }

  predicate Past(cutoff: Option<int>, at: int) {
    cutoff.Some? && at < cutoff.value
  }

  ghost predicate ShownOk(t: Tables, m: Metric, cutoff: Option<int>)
    requires m in t.latest
  {
    && Mirrors(t, m)
    && (t.latest[m].at in SeriesOf(t, Key(m, t.latest[m].boot, t.latest[m].generation)) || Past(cutoff, t.latest[m].at))
  }

  /** Whatever is shown is stored just so, or is past the cutoff. */
  ghost predicate LatestOk(t: Tables, cutoff: Option<int>) {
    forall m :: m in t.latest ==> ShownOk(t, m, cutoff)
  }

  lemma StoreShows(t: Tables, k: Key, at: int, s: Sample, current: bool, cutoff: Option<int>)
    requires LatestOk(t, cutoff) && !Past(cutoff, at) && Store(t, k, at, s, current).Some?
    ensures LatestOk(Store(t, k, at, s, current).value, cutoff)
  {
    var t' := Store(t, k, at, s, current).value;
    hide Extended, LatestAfter;
    if at !in SeriesOf(t, k) {
      forall m | m in t'.latest ensures ShownOk(t', m, cutoff) {
        if m == k.metric {
          StoredShown(t, k, at, s, current, cutoff);
        } else {
          OtherShown(t, k, at, s, current, cutoff, m);
        }
      }
    }
  }

  lemma OtherShown(t: Tables, k: Key, at: int, s: Sample, current: bool, cutoff: Option<int>, m: Metric)
    requires LatestOk(t, cutoff) && at !in SeriesOf(t, k) && m != k.metric
    ensures var t' := Store(t, k, at, s, current).value;
      (m in t'.latest <==> m in t.latest) && (m in t.latest ==> ShownOk(t', m, cutoff))
  {
    assert m in t.latest ==> ShownOk(t, m, cutoff);
    hide Extended, Succ;
  }

  lemma StoredShown(t: Tables, k: Key, at: int, s: Sample, current: bool, cutoff: Option<int>)
    requires LatestOk(t, cutoff) && at !in SeriesOf(t, k) && !Past(cutoff, at)
    ensures var t' := Store(t, k, at, s, current).value; k.metric in t'.latest ==> ShownOk(t', k.metric, cutoff)
  {
    var rows := SeriesOf(t, k);
    ExtendedRows(k.metric.name, k.metric.counter, rows, at, s);
    SuccWith(rows.Keys, at);
    assert k.metric in t.latest ==> ShownOk(t, k.metric, cutoff);
    hide LatestOk, Extended, Samples, CounterRate, Before;
  }

  lemma {:induction false} StoreAllShows(t: Tables, boot: string, generation: int, samples: seq<Observation>,
          current: bool, cutoff: Option<int>)
    requires LatestOk(t, cutoff) && StoreAll(t, boot, generation, samples, current).Some?
    requires forall i :: 0 <= i < |samples| ==> !Past(cutoff, samples[i].at)
    ensures LatestOk(StoreAll(t, boot, generation, samples, current).value, cutoff)
    decreases |samples|
  {
    hide LatestOk, Store;
    if samples != [] {
      var front, o := samples[..|samples| - 1], samples[|samples| - 1];
      StoreAllShows(t, boot, generation, front, current, cutoff);
      StoreShows(StoreAll(t, boot, generation, front, current).value, Key(o.metric, boot, generation), o.at, o.sample,
        current, cutoff);
    }
  }

  lemma DeliveredShows(db: Db, b: Batch, checked: int, now: int, cutoff: Option<int>)
    requires LatestOk(db.tables, cutoff) && (cutoff.Some? ==> cutoff.value <= checked - DAY_MS)
    ensures LatestOk(Accept(db, b, checked, now).0.tables, cutoff)
  {
    hide LatestOk, StoreAll, ByTime, Fresh;
    var samples := ByTime(b.samples);
    var stored := StoreAll(db.tables, b.boot, b.generation, samples, CurrentBoot(db.node, b));
    if Validates(b, checked) {
      InBatch(b);
      if stored.Some? {
        StoreAllShows(db.tables, b.boot, b.generation, samples, CurrentBoot(db.node, b), cutoff);
      }
    }
    hide Validates, CurrentBoot, Listed, Seen;
  }

  lemma InBatch(b: Batch)
    ensures forall i :: 0 <= i < |ByTime(b.samples)| ==> ByTime(b.samples)[i] in b.samples
  {
    ByTimeSorted(b.samples);
    hide ByTime, Sorted;
    var samples := ByTime(b.samples);
    forall i | 0 <= i < |samples| ensures samples[i] in b.samples {
      assert samples[i] in multiset(samples);
    }
  }

  lemma PrunedShows(db: Db, now: int, cutoff: Option<int>)
    requires LatestOk(db.tables, cutoff) && (cutoff.Some? ==> cutoff.value <= Rollup.Cutoff(now))
    ensures LatestOk(Maintained(db, now).tables, Some(Rollup.Cutoff(now)))
  {
    var t' := Maintained(db, now).tables;
    hide Rollup.Cutoff;
    forall m | m in t'.latest ensures ShownOk(t', m, Some(Rollup.Cutoff(now))) {
      assert ShownOk(db.tables, m, cutoff);
    }
  }

  lemma CutoffBounds(now: int)
    ensures now - DAY_MS - Rollup.HOUR_MS < Rollup.Cutoff(now) <= now - DAY_MS
  {
  }

  lemma CutoffRises(a: int, b: int)
    requires a <= b
    ensures Rollup.Cutoff(a) <= Rollup.Cutoff(b)
  {
    Rollup.Scale((a - DAY_MS) / Rollup.HOUR_MS, (b - DAY_MS) / Rollup.HOUR_MS, Rollup.HOUR_MS);
  }

  /** The last cutoff is that of a pass, and of the latest one. */
  lemma {:induction false} CutoffIsOfPass(events: seq<Event>) returns (i: nat)
    requires CutoffOf(events).Some?
    ensures i < |events| && events[i].Pass? && CutoffOf(events) == Some(Rollup.Cutoff(events[i].now))
    decreases |events|
  {
    if events[|events| - 1].Pass? {
      i := |events| - 1;
    } else {
      i := CutoffIsOfPass(events[..|events| - 1]);
    }
  }

  /** In every run the latest row of a metric is its stored row, rate included, or that row is past the
      cutoff of the last maintenance pass. */
  lemma {:induction false} LatestInRuns(node: NodeState, events: seq<Event>, start: int)
    requires Clocked(events, start) && Prompt(events)
    ensures LatestOk(Run(New(node), events).tables, CutoffOf(events))
    decreases |events|
  {
    if events != [] {
      var front, last := events[..|events| - 1], events[|events| - 1];
      LatestInRuns(node, front, start);
      var was := Run(New(node), front);
      if CutoffOf(front).Some? {
        var i := CutoffIsOfPass(front);
        assert front[i] == events[i];
        CutoffBounds(front[i].now);
        if last.Pass? {
          CutoffRises(front[i].now, last.now);
        }
      }
      hide LatestOk, Accept, Maintained, Rollup.Cutoff;
      match last
      case Deliver(b, checked, now) => DeliveredShows(was, b, checked, now, CutoffOf(front));
      case NodeChanged(node', now) => NodeShows(was, node', CutoffOf(front));
      case Pass(now) => PrunedShows(was, now, CutoffOf(front));
    }
  }

  lemma NodeShows(db: Db, node: NodeState, cutoff: Option<int>)
    requires LatestOk(db.tables, cutoff)
    ensures LatestOk(db.(node := node).tables, cutoff)
  {
  }

  /** The latest view while a node stays on one boot and inventory generation. */
  lemma {:induction false} LatestFollowsNewest(db: Db, events: seq<Event>, k: Key)
    requires LatestIsNewest(db.tables, k)
    requires db.node.boot.None? || db.node.boot == Some(k.boot)
    requires forall i :: 0 <= i < |events| ==>
      events[i].Deliver? && events[i].b.boot == k.boot && events[i].b.generation == k.generation
    ensures LatestIsNewest(Run(db, events).tables, k)
    ensures Run(db, events).node.boot.None? || Run(db, events).node.boot == Some(k.boot)
    decreases |events|
  {
    hide LatestIsNewest, StoreAll, ByTime, Fresh, Validates;
    if events != [] {
      var front, last := events[..|events| - 1], events[|events| - 1];
      LatestFollowsNewest(db, front, k);
      var was := Run(db, front);
      var stored := StoreAll(was.tables, last.b.boot, last.b.generation, ByTime(last.b.samples), true);
      if stored.Some? {
        StoreAllNewest(was.tables, last.b.boot, last.b.generation, ByTime(last.b.samples), k);
      }
    }
  }
}
