/**
 What deliveries make of the tables (server/src/api.rs:437-617, server/src/store.rs:198-231), stated on the
 samples, the batches and the answers themselves.
 */
module TelemetryAnswers {
  import opened Wrappers
  import opened CounterSeries
  import opened Telemetry
  import opened TelemetryRuns
  import Rollup

  // ---- What a stored rate says ----

  /** Swap and NFS counters are read less often. */
  function Limit(name: string): int {
    if "node_swap_" <= name || "nfs_" <= name then 90_000 else 15_000
  }

  /** Both samples are valid and the later one follows within the limit. */
  predicate Comparable(name: string, s: Sample, at: int, p: Sample, was: int) {
    s.state == "ok" && p.state == "ok" && was < at <= was + Limit(name)
  }

  /** The counter rose by delta in ms milliseconds. */
  predicate Rose(name: string, s: Sample, at: int, p: Sample, was: int, delta: nat, ms: nat) {
    && Comparable(name, s, at, p, was) && at == was + ms
    && s.value.counter.Some? && p.value.counter.Some? && s.value.counter.value == p.value.counter.value + delta
  }

  /** Both samples are valid, but the counter is missing or went back. */
  predicate Restarted(name: string, s: Sample, at: int, p: Sample, was: int) {
    && Comparable(name, s, at, p, was)
    && (s.value.counter.None? || p.value.counter.None? || s.value.counter.value < p.value.counter.value)
  }

  /** The rate of a counter row, told from its sample and the one before it. */
  ghost predicate RateSays(name: string, rate: Rate, s: Sample, at: int, before: Option<(int, Sample)>) {
    && (forall delta, ms :: rate == Known(delta, ms) <==>
          before.Some? && Rose(name, s, at, before.value.1, before.value.0, delta, ms))
    && (rate.Reset? <==> before.Some? && Restarted(name, s, at, before.value.1, before.value.0))
    && (rate.Insufficient? <==> before.None? && s.state == "ok")
    && (rate.Unavailable? <==> if before.None? then s.state != "ok"
          else !Comparable(name, s, at, before.value.1, before.value.0))
  }

  lemma LimitIs(name: string)
    ensures Limit(name) == MaxGap(name)
  {
  }

  lemma RateIs(name: string, s: Sample, at: int, before: Option<(int, Sample)>)
    ensures RateSays(name, CounterRate(name, s, at, before), s, at, before)
  {
    LimitIs(name);
    hide Limit, MaxGap;
  }

  /** A sample of the series is stored at p, before at, and none between them. */
  ghost predicate Precedes(rows: Rows, p: int, at: int) {
    p in rows && p < at && forall q :: q in rows && p < q ==> at <= q
  }

  /** After these events the row at this time has this predecessor. */
  ghost predicate Preceded(db: Db, events: seq<Event>, k: Key, at: int, before: Option<(int, Sample)>) {
    var rows := RowsAfter(Run(db, events), k);
    && at in rows
    && if before.None? then forall q :: q in rows ==> at <= q
       else Precedes(rows, before.value.0, at) && rows[before.value.0].sample == before.value.1
  }

  lemma BeforeIs(rows: Rows, at: int)
    ensures Before(rows, at).None? <==> forall q :: q in rows ==> at <= q
    ensures Before(rows, at).Some? ==> Precedes(rows, Before(rows, at).value.0, at)
    ensures Before(rows, at).Some? ==> rows[Before(rows, at).value.0].sample == Before(rows, at).value.1
  {
  }

  /** Which predecessor that is: the one it has, or else the last it had since it was stored. */
  ghost predicate LastHad(db: Db, events: seq<Event>, k: Key, at: int, before: Option<(int, Sample)>, n: nat)
    requires n <= |events|
  {
    && Preceded(db, events[..n], k, at, before)
    && (forall i :: n < i <= |events| ==> Preceded(db, events[..i], k, at, None))
    && (before.None? ==> n == 0 || at !in RowsAfter(Run(db, events[..n - 1]), k))
  }

  lemma {:induction false} LastBeforeIs(db: Db, events: seq<Event>, k: Key, at: int) returns (n: nat)
    requires at in RowsAfter(Run(db, events), k)
    ensures n <= |events| && LastHad(db, events, k, at, LastBefore(db, events, k, at), n)
    decreases |events|
  {
    var rows := RowsAfter(Run(db, events), k);
    BeforeIs(rows, at);
    assert events[..|events|] == events;
    hide Run, RowsAfter, Before;
    n := |events|;
    if Before(rows, at).None? && events != [] {
      var front := events[..|events| - 1];
      if at in RowsAfter(Run(db, front), k) {
        n := LastBeforeIs(db, front, k, at);
        forall i | 0 <= i <= |front| ensures front[..i] == events[..i] {
        }
      } else {
        assert LastBefore(db, front, k, at).None?;
      }
    }
  }

  /** After any run of batches and deletions a row holds the rate against the sample before it or, when
      that was deleted, against the last one it had; a gauge holds none. */
  lemma RatesSay(node: NodeState, events: seq<Event>, k: Key, at: int) returns (n: nat, before: Option<(int, Sample)>)
    requires at in RowsAfter(Run(New(node), events), k)
    ensures n <= |events| && LastHad(New(node), events, k, at, before, n)
    ensures var row := RowsAfter(Run(New(node), events), k)[at];
      if k.metric.counter then RateSays(k.metric.name, row.rate, row.sample, at, before) else row.rate.Unavailable?
  {
    before := LastBefore(New(node), events, k, at);
    n := LastBeforeIs(New(node), events, k, at);
    RatesInRuns(node, events, k, at);
    RateIs(k.metric.name, RowsAfter(Run(New(node), events), k)[at].sample, at, before);
    hide Run, RowsAfter, LastBefore, CounterRate, RateSays;
  }

  // ---- Which batches are taken ----

  /** Not more than a day old and not more than five minutes early. */
  predicate Timely(at: int, now: int) {
    at <= now + 300_000 && now <= at + 86_400_000
  }

  predicate AllTimely(b: Batch, now: int) {
    && Timely(b.observedAt, now) && Timely(b.sentAt, now)
    && (forall o :: o in b.samples ==> Timely(o.at, now)) && (forall e :: e in b.events ==> Timely(e.at, now))
  }

  /** Some object of a sample or an event is not in the node's inventory. */
  predicate NamesUnknown(n: NodeState, b: Batch) {
    || (exists o :: o in b.samples && o.metric.objectId !in n.objects)
    || (exists e :: e in b.events && e.objectId.Some? && e.objectId.value !in n.objects)
  }

  ghost predicate Stores(t: Tables, k: Key, at: int, s: Sample) {
    at in SeriesOf(t, k) && SeriesOf(t, k)[at].sample == s
  }

  /** A sample of the batch differs from the stored one of its time, or from another of the batch. */
  ghost predicate Contradicts(t: Tables, boot: string, generation: int, samples: seq<Observation>) {
    exists i :: 0 <= i < |samples| && ContradictsAt(t, boot, generation, samples, i)
  }

  ghost predicate ContradictsAt(t: Tables, boot: string, generation: int, samples: seq<Observation>, i: nat)
    requires i < |samples|
  {
    var o := samples[i];
    || (o.at in SeriesOf(t, Key(o.metric, boot, generation)) && !Stores(t, Key(o.metric, boot, generation), o.at,
          o.sample))
    || exists j :: 0 <= j < |samples| && Clash(o, samples[j])
  }

  predicate Clash(o: Observation, other: Observation) {
    other.metric == o.metric && other.at == o.at && other.sample != o.sample
  }

  ghost predicate Brings(samples: seq<Observation>, m: Metric, at: int) {
    exists i :: 0 <= i < |samples| && samples[i].metric == m && samples[i].at == at
  }

  /** After the samples are stored: the old ones, and those of the batch. */
  ghost predicate Added(t: Tables, t': Tables, boot: string, generation: int, samples: seq<Observation>, j: Key) {
    && (forall at :: at in SeriesOf(t', j) <==>
          at in SeriesOf(t, j) || (j.boot == boot && j.generation == generation && Brings(samples, j.metric, at)))
    && (forall at :: at in SeriesOf(t, j) ==> Stores(t', j, at, SeriesOf(t, j)[at].sample))
    && (forall i :: 0 <= i < |samples| && j == Key(samples[i].metric, boot, generation) ==>
          Stores(t', j, samples[i].at, samples[i].sample))
  }

  ghost predicate AllAdded(t: Tables, t': Tables, boot: string, generation: int, samples: seq<Observation>) {
    forall j :: Added(t, t', boot, generation, samples, j)
  }

  lemma StoreAddsOne(t: Tables, k: Key, at: int, s: Sample, current: bool)
    ensures Store(t, k, at, s, current).None? <==> at in SeriesOf(t, k) && !Stores(t, k, at, s)
    ensures Store(t, k, at, s, current).Some? ==>
      forall j :: AddedOne(t, Store(t, k, at, s, current).value, k, at, s, j)
  {
    if at !in SeriesOf(t, k) {
      forall j ensures AddedOne(t, Store(t, k, at, s, current).value, k, at, s, j) {
        StoreAddsTo(t, k, at, s, current, j);
      }
    }
    hide Extended, LatestAfter;
  }

  lemma StoreAddsTo(t: Tables, k: Key, at: int, s: Sample, current: bool, j: Key)
    requires at !in SeriesOf(t, k)
    ensures AddedOne(t, Store(t, k, at, s, current).value, k, at, s, j)
  {
    var rows := SeriesOf(t, k);
    ExtendedKeys(k.metric.name, k.metric.counter, rows, at, s);
    ExtendedSamples(k.metric.name, k.metric.counter, rows, at, s);
    hide Extended, LatestAfter;
  }

  lemma ExtendedKeys(name: string, counter: bool, rows: Rows, t: int, s: Sample)
    requires t !in rows
    ensures Extended(name, counter, rows, t, s).Keys == rows.Keys + {t}
  {
    ExtendedRows(name, counter, rows, t, s);
    hide Extended, CounterRate, Before, Samples;
  }

  ghost predicate AddedOne(t: Tables, t': Tables, k: Key, at: int, s: Sample, j: Key) {
    && (forall u :: u in SeriesOf(t', j) <==> u in SeriesOf(t, j) || (j == k && u == at))
    && (forall u :: u in SeriesOf(t, j) ==> Stores(t', j, u, SeriesOf(t, j)[u].sample))
    && (j == k ==> Stores(t', j, at, s))
  }

  lemma AddedMore(t: Tables, was: Tables, t': Tables, boot: string, generation: int, samples: seq<Observation>,
          j: Key)
    requires samples != [] && Added(t, was, boot, generation, samples[..|samples| - 1], j)
    requires var o := samples[|samples| - 1];
      AddedOne(was, t', Key(o.metric, boot, generation), o.at, o.sample, j)
    ensures Added(t, t', boot, generation, samples, j)
  {
    var front, o := samples[..|samples| - 1], samples[|samples| - 1];
    hide SeriesOf;
    forall at ensures Brings(samples, j.metric, at) <==>
      Brings(front, j.metric, at) || (o.metric == j.metric && o.at == at) {
      BringsMore(samples, j.metric, at);
    }
    hide Brings;
    forall i | 0 <= i < |samples| && j == Key(samples[i].metric, boot, generation)
      ensures Stores(t', j, samples[i].at, samples[i].sample) {
      if i < |front| {
        assert front[i] == samples[i];
        assert Stores(was, j, front[i].at, front[i].sample);
      }
    }
  }

  lemma BringsMore(samples: seq<Observation>, m: Metric, at: int)
    requires samples != []
    ensures var front, o := samples[..|samples| - 1], samples[|samples| - 1];
      Brings(samples, m, at) <==> Brings(front, m, at) || (o.metric == m && o.at == at)
  {
    var front := samples[..|samples| - 1];
    if i :| 0 <= i < |samples| && samples[i].metric == m && samples[i].at == at {
      assert i < |front| ==> front[i] == samples[i];
    }
    if i :| 0 <= i < |front| && front[i].metric == m && front[i].at == at {
      assert samples[i] == front[i];
    }
  }

  lemma {:induction false} StoreAllHolds(t: Tables, boot: string, generation: int, samples: seq<Observation>,
          current: bool)
    requires StoreAll(t, boot, generation, samples, current).Some?
    ensures AllAdded(t, StoreAll(t, boot, generation, samples, current).value, boot, generation, samples)
    decreases |samples|
  {
    if samples != [] {
      hide Store, Added, AddedOne;
      var front, o := samples[..|samples| - 1], samples[|samples| - 1];
      StoreAllHolds(t, boot, generation, front, current);
      var was := StoreAll(t, boot, generation, front, current).value;
      var now := StoreAll(t, boot, generation, samples, current).value;
      StoreAddsOne(was, Key(o.metric, boot, generation), o.at, o.sample, current);
      forall j ensures Added(t, now, boot, generation, samples, j) {
        AddedMore(t, was, now, boot, generation, samples, j);
      }
    }
  }

  /** The samples cannot be stored exactly when one contradicts a stored one or another. */
  lemma {:induction false} StoreAllFails(t: Tables, boot: string, generation: int, samples: seq<Observation>,
          current: bool)
    ensures StoreAll(t, boot, generation, samples, current).None? <==> Contradicts(t, boot, generation, samples)
    decreases |samples|
  {
    hide Store, ContradictsAt;
    if samples != [] {
      var front, o := samples[..|samples| - 1], samples[|samples| - 1];
      StoreAllFails(t, boot, generation, front, current);
      if Contradicts(t, boot, generation, front) {
        ContradictsFront(t, boot, generation, samples);
      }
      if !Contradicts(t, boot, generation, front) {
        StoreAllHolds(t, boot, generation, front, current);
        var was := StoreAll(t, boot, generation, front, current).value;
        StoreAddsOne(was, Key(o.metric, boot, generation), o.at, o.sample, current);
        ContradictsLast(t, was, boot, generation, samples);
      }
    }
  }

  lemma ContradictsFront(t: Tables, boot: string, generation: int, samples: seq<Observation>)
    requires samples != [] && Contradicts(t, boot, generation, samples[..|samples| - 1])
    ensures Contradicts(t, boot, generation, samples)
  {
    var front := samples[..|samples| - 1];
    var i :| 0 <= i < |front| && ContradictsAt(t, boot, generation, front, i);
    assert ContradictsAt(t, boot, generation, samples, i) by {
      hide Stores, Clash;
      if j :| 0 <= j < |front| && Clash(front[i], front[j]) {
        assert Clash(samples[i], samples[j]);
      }
    }
  }

  /** When nothing before it contradicts, the last sample does exactly when it differs from what is stored by
      then. */
  lemma ContradictsLast(t: Tables, was: Tables, boot: string, generation: int, samples: seq<Observation>)
    requires samples != [] && !Contradicts(t, boot, generation, samples[..|samples| - 1])
    requires AllAdded(t, was, boot, generation, samples[..|samples| - 1])
    ensures var o := samples[|samples| - 1];
      var k := Key(o.metric, boot, generation);
      Contradicts(t, boot, generation, samples) <==> o.at in SeriesOf(was, k) && !Stores(was, k, o.at, o.sample)
  {
    var n, front := |samples| - 1, samples[..|samples| - 1];
    var o := samples[n];
    var k := Key(o.metric, boot, generation);
    assert Added(t, was, boot, generation, front, k);
    if o.at in SeriesOf(was, k) && !Stores(was, k, o.at, o.sample) {
      if o.at !in SeriesOf(t, k) {
        var j :| 0 <= j < |front| && front[j].metric == o.metric && front[j].at == o.at;
        assert Clash(o, samples[j]);
      }
      assert ContradictsAt(t, boot, generation, samples, n);
    }
    if i :| 0 <= i < |samples| && ContradictsAt(t, boot, generation, samples, i) {
      LastDiffers(t, was, boot, generation, samples, i);
    }
  }

  lemma LastDiffers(t: Tables, was: Tables, boot: string, generation: int, samples: seq<Observation>, i: nat)
    requires i < |samples| && !Contradicts(t, boot, generation, samples[..|samples| - 1])
    requires AllAdded(t, was, boot, generation, samples[..|samples| - 1])
    requires ContradictsAt(t, boot, generation, samples, i)
    ensures var o := samples[|samples| - 1];
      var k := Key(o.metric, boot, generation);
      o.at in SeriesOf(was, k) && !Stores(was, k, o.at, o.sample)
  {
    var n, front := |samples| - 1, samples[..|samples| - 1];
    var o := samples[n];
    var k := Key(o.metric, boot, generation);
    assert Added(t, was, boot, generation, front, k);
    if i < n {
      assert front[i] == samples[i] && !ContradictsAt(t, boot, generation, front, i);
      assert forall j :: 0 <= j < n ==> front[j] == samples[j];
      assert Clash(samples[i], o);
      assert Stores(was, k, front[i].at, front[i].sample);
    } else if j :| 0 <= j < |samples| && Clash(o, samples[j]) {
      assert front[j] == samples[j] && Stores(was, k, front[j].at, front[j].sample);
    }
  }

  lemma ValidatesIs(b: Batch, checked: int)
    ensures Validates(b, checked) <==> b.wellFormed && AllTimely(b, checked)
  {
    forall at ensures InTime(at, checked) <==> Timely(at, checked) {
    }
    hide InTime, Timely;
    if AllTimely(b, checked) {
      forall i | 0 <= i < |b.samples| ensures InTime(b.samples[i].at, checked) {
        assert b.samples[i] in b.samples;
      }
      forall i | 0 <= i < |b.events| ensures InTime(b.events[i].at, checked) {
        assert b.events[i] in b.events;
      }
    }
  }

  lemma ListedIs(n: NodeState, b: Batch)
    ensures Listed(n, b) <==> !NamesUnknown(n, b)
  {
    if !NamesUnknown(n, b) {
      forall i | 0 <= i < |b.samples| ensures b.samples[i].metric.objectId in n.objects {
        assert b.samples[i] in b.samples;
      }
      forall i | 0 <= i < |b.events| && b.events[i].objectId.Some? ensures b.events[i].objectId.value in n.objects {
        assert b.events[i] in b.events;
      }
    }
  }

  /** The batch was stored before, with this content. */
  predicate Repeats(db: Db, b: Batch) {
    (b.boot, b.sequence) in db.batches && db.batches[(b.boot, b.sequence)].fingerprint == b.fingerprint
  }

  /** Nothing was stored under its boot and sequence, and it fits the node and the stored samples. */
  ghost predicate Fits(db: Db, b: Batch) {
    && (b.boot, b.sequence) !in db.batches && b.generation == db.node.generation && !NamesUnknown(db.node, b)
    && !Contradicts(db.tables, b.boot, b.generation, b.samples)
  }

  lemma OrderIsNothing(t: Tables, boot: string, generation: int, a: seq<Observation>, b: seq<Observation>)
    requires multiset(a) == multiset(b) && Contradicts(t, boot, generation, a)
    ensures Contradicts(t, boot, generation, b)
  {
    var i :| 0 <= i < |a| && ContradictsAt(t, boot, generation, a, i);
    var o := a[i];
    assert o in multiset(a);
    var n :| 0 <= n < |b| && b[n] == o;
    if j :| 0 <= j < |a| && Clash(o, a[j]) {
      assert a[j] in multiset(a);
      var m :| 0 <= m < |b| && b[m] == a[j];
      assert Clash(o, b[m]);
    }
    assert ContradictsAt(t, boot, generation, b, n);
  }

  /** Exactly which answer a batch gets; only a new one that fits changes anything. */
  lemma AnswersExactly(db: Db, b: Batch, checked: int, now: int)
    ensures var (db', ack) := Accept(db, b, checked, now);
      && (ack == Refused <==> !b.wellFormed || !AllTimely(b, checked))
      && (ack.Stored? && ack.duplicate <==> b.wellFormed && AllTimely(b, checked) && Repeats(db, b))
      && (ack.Stored? && !ack.duplicate <==> b.wellFormed && AllTimely(b, checked) && Fits(db, b))
      && (ack.Stored? && ack.duplicate ==> ack.receipt == db.batches[(b.boot, b.sequence)])
      && ((ack.Stored? && !ack.duplicate) || db' == db)
  {
    ValidatesIs(b, checked);
    ListedIs(db.node, b);
    Contradicted(db.tables, b, CurrentBoot(db.node, b));
    hide Validates, AllTimely, Listed, NamesUnknown, Contradicts, StoreAll, ByTime, Fresh, CurrentBoot, Seen;
  }

  lemma Contradicted(t: Tables, b: Batch, current: bool)
    ensures StoreAll(t, b.boot, b.generation, ByTime(b.samples), current).None? <==>
      Contradicts(t, b.boot, b.generation, b.samples)
  {
    var samples := ByTime(b.samples);
    ByTimeSorted(b.samples);
    StoreAllFails(t, b.boot, b.generation, samples, current);
    hide Contradicts, StoreAll, ByTime, Sorted;
    if Contradicts(t, b.boot, b.generation, b.samples) {
      OrderIsNothing(t, b.boot, b.generation, b.samples, samples);
    }
    if Contradicts(t, b.boot, b.generation, samples) {
      OrderIsNothing(t, b.boot, b.generation, samples, b.samples);
    }
  }

  // ---- What a batch that is taken leaves ----

  /** The samples that were not stored before. */
  ghost function News(t: Tables, boot: string, generation: int, samples: seq<Observation>): set<(Metric, int)> {
    set i | 0 <= i < |samples| && samples[i].at !in SeriesOf(t, Key(samples[i].metric, boot, generation)) ::
      (samples[i].metric, samples[i].at)
  }

  lemma NewsMore(t: Tables, boot: string, generation: int, samples: seq<Observation>)
    requires samples != []
    ensures var front, o := samples[..|samples| - 1], samples[|samples| - 1];
      News(t, boot, generation, samples) == News(t, boot, generation, front)
        + if o.at in SeriesOf(t, Key(o.metric, boot, generation)) then {} else {(o.metric, o.at)}
  {
    var front := samples[..|samples| - 1];
    hide SeriesOf;
    forall x | x in News(t, boot, generation, front) ensures x in News(t, boot, generation, samples) {
      var i :| 0 <= i < |front| && front[i].at !in SeriesOf(t, Key(front[i].metric, boot, generation))
        && x == (front[i].metric, front[i].at);
      assert samples[i] == front[i];
    }
    forall x | x in News(t, boot, generation, samples) && x !in News(t, boot, generation, front)
      ensures x == (samples[|front|].metric, samples[|front|].at)
        && samples[|front|].at !in SeriesOf(t, Key(samples[|front|].metric, boot, generation)) {
      var i :| 0 <= i < |samples| && samples[i].at !in SeriesOf(t, Key(samples[i].metric, boot, generation))
        && x == (samples[i].metric, samples[i].at);
      assert i < |front| ==> front[i] == samples[i];
    }
  }

  /** Stored before the last sample is reached: stored already, or new. */
  lemma StoredByThen(t: Tables, was: Tables, boot: string, generation: int, front: seq<Observation>, m: Metric, at: int)
    requires AllAdded(t, was, boot, generation, front)
    ensures at in SeriesOf(was, Key(m, boot, generation)) <==>
      at in SeriesOf(t, Key(m, boot, generation)) || (m, at) in News(t, boot, generation, front)
  {
    var k := Key(m, boot, generation);
    assert Added(t, was, boot, generation, front, k);
    hide SeriesOf;
    if at in SeriesOf(was, k) && at !in SeriesOf(t, k) {
      var i :| 0 <= i < |front| && front[i].metric == m && front[i].at == at;
      assert (front[i].metric, front[i].at) in News(t, boot, generation, front);
    }
  }

  /** Exactly the new samples are counted. */
  lemma {:induction false} CountsNews(t: Tables, boot: string, generation: int, samples: seq<Observation>,
          current: bool)
    requires StoreAll(t, boot, generation, samples, current).Some?
    ensures Fresh(t, boot, generation, samples, current) == |News(t, boot, generation, samples)|
    decreases |samples|
  {
    hide Store, AllAdded, News;
    if samples == [] {
      assert News(t, boot, generation, samples) == {} by { NoNews(t, boot, generation); }
    } else {
      var front, o := samples[..|samples| - 1], samples[|samples| - 1];
      CountsNews(t, boot, generation, front, current);
      StoreAllHolds(t, boot, generation, front, current);
      var was := StoreAll(t, boot, generation, front, current).value;
      StoredByThen(t, was, boot, generation, front, o.metric, o.at);
      NewsMore(t, boot, generation, samples);
      NewsAreNew(t, boot, generation, front, o.metric, o.at);
      var news := News(t, boot, generation, front);
      if (o.metric, o.at) in news {
        assert news + {(o.metric, o.at)} == news;
      }
      assert News(t, boot, generation, samples) ==
        if o.at in SeriesOf(was, Key(o.metric, boot, generation)) then news else news + {(o.metric, o.at)};
    }
  }

  lemma NoNews(t: Tables, boot: string, generation: int)
    ensures News(t, boot, generation, []) == {}
  {
  }

  lemma NewsAreNew(t: Tables, boot: string, generation: int, samples: seq<Observation>, m: Metric, at: int)
    ensures (m, at) in News(t, boot, generation, samples) ==> at !in SeriesOf(t, Key(m, boot, generation))
  {
  }

  /** The latest row of m is of this boot and generation. */
  predicate ShownFor(t: Tables, m: Metric, boot: string, generation: int) {
    m in t.latest && t.latest[m].boot == boot && t.latest[m].generation == generation
  }

  /** The same latest sample; its rate may have been rederived. */
  predicate SameShown(t: Tables, t': Tables, m: Metric) {
    && (m in t'.latest <==> m in t.latest)
    && (m in t.latest ==> t'.latest[m] == t.latest[m].(row := t.latest[m].row.(rate := t'.latest[m].row.rate)))
  }

  /** What is shown of a metric after new samples at some times: the newest of this boot and generation,
      if it may be shown at all. */
  ghost predicate ShownNext(t: Tables, t': Tables, m: Metric, boot: string, generation: int, current: bool,
          news: set<(Metric, int)>) {
    if current && exists at :: (m, at) in news then
      && ShownFor(t', m, boot, generation)
      && ((m, t'.latest[m].at) in news || (ShownFor(t, m, boot, generation) && t'.latest[m].at == t.latest[m].at))
      && (forall at :: (m, at) in news ==> at <= t'.latest[m].at)
      && (ShownFor(t, m, boot, generation) ==> t.latest[m].at <= t'.latest[m].at)
    else SameShown(t, t', m)
  }

  lemma StoreShown(t: Tables, k: Key, at: int, s: Sample, current: bool, m: Metric)
    requires Store(t, k, at, s, current).Some?
    ensures ShownNext(t, Store(t, k, at, s, current).value, m, k.boot, k.generation, current,
      if at in SeriesOf(t, k) then {} else {(k.metric, at)})
  {
    hide Extended, Succ;
    if m == k.metric {
      assert at !in SeriesOf(t, k) ==> (m, at) in {(k.metric, at)};
    }
  }

  lemma ShownOnward(t: Tables, was: Tables, t': Tables, m: Metric, boot: string, generation: int, current: bool,
          a: set<(Metric, int)>, b: set<(Metric, int)>)
    requires ShownNext(t, was, m, boot, generation, current, a) && ShownNext(was, t', m, boot, generation, current, b)
    ensures ShownNext(t, t', m, boot, generation, current, a + b)
  {
    if current && exists at :: (m, at) in b {
      var at :| (m, at) in b;
      assert (m, at) in a + b;
    } else if current && exists at :: (m, at) in a {
      var at :| (m, at) in a;
      assert (m, at) in a + b;
    } else {
      assert current ==> forall at :: (m, at) !in a + b;
    }
  }

  lemma {:induction false} StoreAllShown(t: Tables, boot: string, generation: int, samples: seq<Observation>,
          current: bool, m: Metric)
    requires StoreAll(t, boot, generation, samples, current).Some?
    ensures ShownNext(t, StoreAll(t, boot, generation, samples, current).value, m, boot, generation, current,
      News(t, boot, generation, samples))
    decreases |samples|
  {
    if samples == [] {
      NoNews(t, boot, generation);
    } else {
      hide Store, AllAdded, News, ShownNext;
      var front, o := samples[..|samples| - 1], samples[|samples| - 1];
      var k := Key(o.metric, boot, generation);
      StoreAllShown(t, boot, generation, front, current, m);
      StoreAllHolds(t, boot, generation, front, current);
      var was := StoreAll(t, boot, generation, front, current).value;
      StoreShown(was, k, o.at, o.sample, current, m);
      StoredByThen(t, was, boot, generation, front, o.metric, o.at);
      NewsMore(t, boot, generation, samples);
      NewsAreNew(t, boot, generation, front, o.metric, o.at);
      var a := News(t, boot, generation, front);
      var b := if o.at in SeriesOf(was, k) then {} else {(k.metric, o.at)};
      assert News(t, boot, generation, samples) == a + b;
      ShownOnward(t, was, StoreAll(t, boot, generation, samples, current).value, m, boot, generation, current, a, b);
    }
  }

  /** A boot that started later, or the one already known. */
  predicate OfPresentBoot(n: NodeState, b: Batch) {
    n.boot.None? || n.boot.value == b.boot || n.bootObservedAt <= b.observedAt
  }

  lemma NewsAnyOrder(t: Tables, boot: string, generation: int, a: seq<Observation>, b: seq<Observation>)
    requires multiset(a) == multiset(b)
    ensures News(t, boot, generation, a) <= News(t, boot, generation, b)
  {
    forall i | 0 <= i < |a| && a[i].at !in SeriesOf(t, Key(a[i].metric, boot, generation))
      ensures (a[i].metric, a[i].at) in News(t, boot, generation, b) {
      assert a[i] in multiset(a);
      var n :| 0 <= n < |b| && b[n] == a[i];
      assert b[n].at !in SeriesOf(t, Key(b[n].metric, boot, generation));
    }
  }

  lemma AddedAnyOrder(t: Tables, t': Tables, boot: string, generation: int, a: seq<Observation>, b: seq<Observation>,
          j: Key)
    requires multiset(a) == multiset(b) && Added(t, t', boot, generation, a, j)
    ensures Added(t, t', boot, generation, b, j)
  {
    hide Stores;
    forall i | 0 <= i < |b| ensures b[i] in a {
      assert b[i] in multiset(b);
    }
    forall i | 0 <= i < |a| ensures a[i] in b {
      assert a[i] in multiset(a);
    }
  }

  lemma AllAddedAnyOrder(t: Tables, t': Tables, boot: string, generation: int, a: seq<Observation>,
          b: seq<Observation>)
    requires multiset(a) == multiset(b) && AllAdded(t, t', boot, generation, a)
    ensures AllAdded(t, t', boot, generation, b)
  {
    hide Added;
    forall j ensures Added(t, t', boot, generation, b, j) {
      AddedAnyOrder(t, t', boot, generation, a, b, j);
    }
  }

  lemma SameNews(t: Tables, boot: string, generation: int, a: seq<Observation>, b: seq<Observation>)
    requires multiset(a) == multiset(b)
    ensures News(t, boot, generation, a) == News(t, boot, generation, b)
  {
    NewsAnyOrder(t, boot, generation, a, b);
    NewsAnyOrder(t, boot, generation, b, a);
    hide News;
  }

  ghost predicate AllShown(t: Tables, t': Tables, boot: string, generation: int, current: bool,
          news: set<(Metric, int)>) {
    forall m :: ShownNext(t, t', m, boot, generation, current, news)
  }

  /** The node's boot is that of the newest batch. */
  predicate BootNext(n: NodeState, n': NodeState, b: Batch) {
    && n' == n.(boot := n'.boot, bootObservedAt := n'.bootObservedAt)
    && if n.bootObservedAt <= b.observedAt then n'.boot == Some(b.boot) && n'.bootObservedAt == b.observedAt
       else n'.boot == n.boot && n'.bootObservedAt == n.bootObservedAt
  }

  lemma TakenTables(t: Tables, b: Batch, current: bool)
    requires StoreAll(t, b.boot, b.generation, ByTime(b.samples), current).Some?
    ensures var t', news := StoreAll(t, b.boot, b.generation, ByTime(b.samples), current).value,
        News(t, b.boot, b.generation, b.samples);
      && AllAdded(t, t', b.boot, b.generation, b.samples)
      && AllShown(t, t', b.boot, b.generation, current, news)
      && Fresh(t, b.boot, b.generation, ByTime(b.samples), current) == |news|
  {
    hide StoreAll, ByTime, Sorted, Fresh, News, AllAdded, ShownNext;
    var samples := ByTime(b.samples);
    ByTimeSorted(b.samples);
    SameNews(t, b.boot, b.generation, samples, b.samples);
    CountsNews(t, b.boot, b.generation, samples, current);
    StoreAllHolds(t, b.boot, b.generation, samples, current);
    var t' := StoreAll(t, b.boot, b.generation, samples, current).value;
    AllAddedAnyOrder(t, t', b.boot, b.generation, samples, b.samples);
    forall m ensures ShownNext(t, t', m, b.boot, b.generation, current, News(t, b.boot, b.generation, samples)) {
      StoreAllShown(t, b.boot, b.generation, samples, current, m);
    }
  }

  /** What a batch that is taken leaves: its samples in their series, the newest of each metric shown if the
      batch is of the present boot, the node's boot, and a receipt that counts what was new. */
  lemma TakenExactly(db: Db, b: Batch, checked: int, now: int)
    requires Accept(db, b, checked, now).1.Stored? && !Accept(db, b, checked, now).1.duplicate
    ensures var (db', ack) := Accept(db, b, checked, now);
      var news := News(db.tables, b.boot, b.generation, b.samples);
      && ack.receipt == Receipt(b.fingerprint, |news|, |b.events|, now)
      && db'.batches == db.batches[(b.boot, b.sequence) := ack.receipt]
      && BootNext(db.node, db'.node, b)
      && AllAdded(db.tables, db'.tables, b.boot, b.generation, b.samples)
      && AllShown(db.tables, db'.tables, b.boot, b.generation, OfPresentBoot(db.node, b), news)
  {
    hide Validates, Listed, StoreAll, ByTime, Fresh, News, AllAdded, AllShown;
    TakenTables(db.tables, b, CurrentBoot(db.node, b));
  }

  // ---- A maintenance pass ----

  /** What a pass deletes: the samples before the hour that lies a day back, and the receipts more than thirty
      days old; nothing else, the shown samples included. */
  lemma PassExactly(db: Db, now: int)
    ensures var db' := Maintained(db, now);
      && db'.node == db.node && db'.tables.latest == db.tables.latest
      && (forall k, at :: at in SeriesOf(db'.tables, k) <==>
            at in SeriesOf(db.tables, k) && at / 3_600_000 >= (now - 86_400_000) / 3_600_000)
      && (forall k, at :: at in SeriesOf(db'.tables, k) ==> SeriesOf(db'.tables, k)[at] == SeriesOf(db.tables, k)[at])
      && (forall id :: id in db'.batches <==> id in db.batches && now - db.batches[id].receivedAt <= 2_592_000_000)
      && (forall id :: id in db'.batches ==> db'.batches[id] == db.batches[id])
  {
    forall at: int ensures at >= Rollup.Cutoff(now) <==> at / 3_600_000 >= (now - 86_400_000) / 3_600_000 {
      WithinHour(at, (now - 86_400_000) / 3_600_000);
    }
    hide Rollup.Cutoff;
  }

  lemma WithinHour(at: int, hour: int)
    ensures at >= hour * 3_600_000 <==> at / 3_600_000 >= hour
  {
  }
}
