/**
 The telemetry handler as it runs: one transaction over the sample, latest and batch tables, proved
 to commit exactly what Telemetry.Accept says, or nothing.
 */
module TelemetryStore {
  import opened Wrappers
  import opened CounterSeries
  import opened Graph
  import opened Telemetry
  import opened TelemetryRuns
  import Rollup

  class Ingest {
    var node: NodeState
    var series: map<Key, Rows>
    var latest: map<Metric, Latest>
    var batches: map<(string, nat), Receipt>

    function View(): Db
      reads this
    {
      Db(node, Tables(series, latest), batches)
    }

    constructor (n: NodeState)
      ensures View() == New(n)
    {
      node, series, latest, batches := n, map[], map[], map[];
    }

    /** SELECT ... observed_at < ? ORDER BY observed_at DESC LIMIT 1 */
    static method Previous(times: set<int>, at: int) returns (p: Option<int>)
      ensures p == Pred(times, at)
    {
      p := None;
      var list := Elements(times);
      for i := 0 to |list|
        invariant p.Some? ==> p.value in times && p.value < at
        invariant forall j :: 0 <= j < i && list[j] < at ==> p.Some? && list[j] <= p.value
      {
        assert list[i] in times;
        if list[i] < at && (p.None? || list[i] > p.value) {
          p := Some(list[i]);
        }
      }
      if p.Some? {
        PredIs(times, at, p.value);
      }
    }

    /** SELECT ... observed_at > ? ORDER BY observed_at LIMIT 1 */
    static method Following(times: set<int>, at: int) returns (n: Option<int>)
      ensures n == Succ(times, at)
    {
      n := None;
      var list := Elements(times);
      for i := 0 to |list|
        invariant n.Some? ==> n.value in times && at < n.value
        invariant forall j :: 0 <= j < i && at < list[j] ==> n.Some? && n.value <= list[j]
      {
        assert list[i] in times;
        if at < list[i] && (n.None? || list[i] < n.value) {
          n := Some(list[i]);
        }
      }
      if n.Some? {
        SuccIs(times, at, n.value);
      }
    }

    /** One turn of the sample loop; false is the conflict that abandons the transaction. */
    static method StoreSample(t: Tables, k: Key, at: int, s: Sample, current: bool)
      returns (ok: bool, t': Tables, added: bool)
      ensures Store(t, k, at, s, current) == if ok then Some(t') else None
      ensures added <==> at !in SeriesOf(t, k)
    {
      var rows := SeriesOf(t, k);
      if at in rows {
        return rows[at].sample == s, t, false;
      }
      var previous := Previous(rows.Keys, at);
      hide CounterRate;
      var rate := Unavailable;
      if k.metric.counter {
        rate := CounterRate(k.metric.name, s, at,
          if previous.Some? then Some((previous.value, rows[previous.value].sample)) else None);
      }
      ghost var before := rows;
      rows := rows[at := Row(s, rate)];
      assert rows == Inserted(k.metric.name, k.metric.counter, before, at, s);
      var latest := t.latest;
      if current && Replaces(latest, k, at) {
        latest := latest[k.metric := Latest(k.boot, k.generation, at, rows[at])];
      }
      if k.metric.counter {
        var next := Following(rows.Keys, at);
        assert rows.Keys == before.Keys + {at};
        SuccWith(before.Keys, at);
        if next.Some? {
          var derived := CounterRate(k.metric.name, rows[next.value].sample, next.value, Some((at, rows[at].sample)));
          rows := rows[next.value := rows[next.value].(rate := derived)];
          if Shows(latest, k, next.value) {
            latest := latest[k.metric := latest[k.metric].(row := latest[k.metric].row.(rate := derived))];
          }
        }
      }
      assert rows == Extended(k.metric.name, k.metric.counter, before, at, s);
      SameKeys(before, at, rows);
      return true, Tables(t.series[k := rows], latest), true;
    }

    static lemma SameKeys(before: Rows, at: int, rows: Rows)
      requires rows.Keys == before.Keys + {at}
      ensures Succ(rows.Keys, at) == Succ(before.Keys, at)
    {
      SuccWith(before.Keys, at);
    }

    /** checked is the time of validation, now the time once the writer is free. */
    method Receive(b: Batch, checked: int, now: int) returns (ack: Ack)
      modifies this
      ensures (View(), ack) == Accept(old(View()), b, checked, now)
    {
      hide Store, CurrentBoot, ByTime, Seen, Validates;
      if !Validates(b, checked) {
        return Refused;
      }
      var id := (b.boot, b.sequence);
      if id in batches {
        if batches[id].fingerprint != b.fingerprint {
          return Conflict;
        }
        return Stored(batches[id], true);
      }
      if b.generation != node.generation || !Listed(node, b) {
        return Conflict;
      }
      var current := CurrentBoot(node, b);
      var ordered := ByTime(b.samples);
      var tx := Tables(series, latest);
      var count := 0;
      assert StoreAll(tx, b.boot, b.generation, ordered[..0], current) == Some(tx);
      for i := 0 to |ordered|
        invariant View() == old(View())
        invariant StoreAll(Tables(series, latest), b.boot, b.generation, ordered[..i], current) == Some(tx)
        invariant count == Fresh(Tables(series, latest), b.boot, b.generation, ordered[..i], current)
      {
        var o := ordered[i];
        StoreOneMore(Tables(series, latest), b.boot, b.generation, ordered, current, i);
        var ok, next, added := StoreSample(tx, Key(o.metric, b.boot, b.generation), o.at, o.sample, current);
        if !ok {
          StoreAborts(Tables(series, latest), b.boot, b.generation, ordered, current, i + 1);
          return Conflict;
        }
        tx := next;
        count := count + if added then 1 else 0;
      }
      assert ordered[..|ordered|] == ordered;
      var receipt := Receipt(b.fingerprint, count, |b.events|, now);
      series, latest := tx.series, tx.latest;
      var seen := Witness(node, b);
      node := seen;
      batches := batches[id := receipt];
      return Stored(receipt, false);
    }

    /** The deletions of maintenance. */
    method Prune(now: int)
      modifies this
      ensures View() == Maintained(old(View()), now)
    {
      var cutoff := (now - DAY_MS) / Rollup.HOUR_MS * Rollup.HOUR_MS;
      series := map k | k in series :: Since(series[k], cutoff);
      batches := map id | id in batches && batches[id].receivedAt >= now - RECEIPT_MS :: batches[id];
    }

    static method Witness(n: NodeState, b: Batch) returns (seen: NodeState)
      ensures seen == Seen(n, b)
    {
      seen := n;
      if b.observedAt >= seen.bootObservedAt {
        seen := seen.(boot := Some(b.boot), bootObservedAt := b.observedAt);
      }
    }
  }

  lemma StoreOneMore(t: Tables, boot: string, generation: int, samples: seq<Observation>, current: bool, i: nat)
    requires i < |samples| && StoreAll(t, boot, generation, samples[..i], current).Some?
    ensures var was, o := StoreAll(t, boot, generation, samples[..i], current).value, samples[i];
      && StoreAll(t, boot, generation, samples[..i + 1], current) ==
           Store(was, Key(o.metric, boot, generation), o.at, o.sample, current)
      && (StoreAll(t, boot, generation, samples[..i + 1], current).Some? ==>
            Fresh(t, boot, generation, samples[..i + 1], current) == Fresh(t, boot, generation, samples[..i], current)
              + if o.at in SeriesOf(was, Key(o.metric, boot, generation)) then 0 else 1)
  {
    assert samples[..i + 1][..i] == samples[..i];
    hide Store;
  }

  /** Once a sample conflicts the batch is lost. */
  lemma {:induction false} StoreAborts(t: Tables, boot: string, generation: int, samples: seq<Observation>,
          current: bool, i: nat)
    requires i <= |samples| && StoreAll(t, boot, generation, samples[..i], current).None?
    ensures StoreAll(t, boot, generation, samples, current).None?
    decreases |samples| - i
  {
    if i == |samples| {
      assert samples[..i] == samples;
    } else {
      assert samples[..i + 1][..i] == samples[..i];
      StoreAborts(t, boot, generation, samples, current, i + 1);
    }
  }
}
