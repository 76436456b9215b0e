/**
 One stored series of samples (server/src/api.rs:509-590, server/src/store.rs:198-231): the rate of
 every counter row against its immediate predecessor, kept right while samples arrive in any order.
 */
module CounterSeries {
  import opened Wrappers

  /** A JSON value as stored text, with the unsigned 64-bit counter it denotes, if any. */
  datatype Value = Value(text: string, counter: Option<nat>)

  datatype Sample = Sample(state: string, value: Value)

  /** delta counts in ms milliseconds; the stored rate is delta * 1000 / ms. */
  datatype Rate = Unavailable | Insufficient | Reset | Known(delta: nat, ms: nat)

  datatype Row = Row(sample: Sample, rate: Rate)

  /** The rows of one series by observation time in milliseconds. */
  type Rows = map<int, Row>

  predicate StartsWith(s: string, prefix: string) {
    |prefix| <= |s| && s[..|prefix|] == prefix
  }

  function MaxGap(name: string): int {
    if StartsWith(name, "node_swap_") || StartsWith(name, "nfs_") then 90_000 else 15_000
  }

  function CounterDelta(now: Value, before: Value): Option<nat> {
    if now.counter.Some? && before.counter.Some? && now.counter.value >= before.counter.value
    then Some(now.counter.value - before.counter.value) else None
  }

  /** counter_rate: a rate needs two valid observations close enough in time. */
  function CounterRate(name: string, s: Sample, at: int, previous: Option<(int, Sample)>): Rate {
    if s.state != "ok" then Unavailable
    else if previous.None? then Insufficient
    else if previous.value.1.state != "ok" then Unavailable
    else
      var ms := at - previous.value.0;
      if ms <= 0 || ms > MaxGap(name) then Unavailable
      else
        var delta := CounterDelta(s.value, previous.value.1.value);
        if delta.None? then Reset else Known(delta.value, ms)
  }

  // ---- Neighbours in time ----

  ghost predicate IsPred(times: set<int>, t: int, p: int) {
    p in times && p < t && forall q :: q in times && q < t ==> q <= p
  }

  ghost predicate IsSucc(times: set<int>, t: int, n: int) {
    n in times && t < n && forall q :: q in times && t < q ==> n <= q
  }

  lemma {:induction false} PredExists(times: set<int>, t: int)
    requires exists q :: q in times && q < t
    ensures exists p :: IsPred(times, t, p)
    decreases |times|
  {
    var q :| q in times && q < t;
    var rest := times - {q};
    if exists r :: r in rest && r < t {
      PredExists(rest, t);
      var p :| IsPred(rest, t, p);
      var best := if p < q then q else p;
      forall x | x in times && x < t ensures x <= best {
        assert x == q || x in rest;
      }
      assert IsPred(times, t, best);
    } else {
      forall x | x in times && x < t ensures x <= q {
        assert x == q || x in rest;
      }
      assert IsPred(times, t, q);
    }
  }

  ghost function Pred(times: set<int>, t: int): (p: Option<int>)
    ensures p.Some? ==> IsPred(times, t, p.value)
    ensures p.None? ==> forall q :: q in times ==> q >= t
  {
    if exists q :: q in times && q < t then
      PredExists(times, t);
      var p :| IsPred(times, t, p);
      Some(p)
    else None
  }

  lemma PredIs(times: set<int>, t: int, p: int)
    requires IsPred(times, t, p)
    ensures Pred(times, t) == Some(p)
  {
  }

  /** A new time t matters to its successor only. */
  lemma PredWith(times: set<int>, t: int, u: int)
    requires u != t
    ensures Pred(times + {t}, u) == if t < u && !(exists q :: q in times && t < q < u) then Some(t) else Pred(times, u)
  {
    if t < u && !(exists q :: q in times && t < q < u) {
      assert IsPred(times + {t}, u, t);
      PredIs(times + {t}, u, t);
    } else if Pred(times, u).Some? {
      var p := Pred(times, u).value;
      assert IsPred(times + {t}, u, p);
      PredIs(times + {t}, u, p);
    }
  }

  lemma PredOfNew(times: set<int>, t: int)
    ensures Pred(times + {t}, t) == Pred(times, t)
  {
    if Pred(times, t).Some? {
      var p := Pred(times, t).value;
      assert IsPred(times + {t}, t, p);
      PredIs(times + {t}, t, p);
    }
  }

  // ---- What a series must look like ----

  ghost function Before(rows: Rows, t: int): Option<(int, Sample)> {
    var p := Pred(rows.Keys, t);
    if p.Some? then Some((p.value, rows[p.value].sample)) else None
  }

  /** The rate recomputed from the immediate predecessor in the time-sorted series. */
  ghost function RateAt(name: string, counter: bool, rows: Rows, t: int): Rate
    requires t in rows
  {
    if counter then CounterRate(name, rows[t].sample, t, Before(rows, t)) else Unavailable
  }

  ghost predicate SeriesOk(name: string, counter: bool, rows: Rows) {
    forall t :: t in rows ==> rows[t].rate == RateAt(name, counter, rows, t)
  }

  function Samples(rows: Rows): map<int, Sample> {
    map t | t in rows :: rows[t].sample
  }

  /** A series is determined by its samples: the order in which they arrived leaves no trace. */
  lemma SameSamplesSameRows(name: string, counter: bool, a: Rows, b: Rows)
    requires SeriesOk(name, counter, a) && SeriesOk(name, counter, b) && Samples(a) == Samples(b)
    ensures a == b
  {
    assert a.Keys == Samples(a).Keys && b.Keys == Samples(b).Keys;
    forall t | t in a ensures a[t] == b[t] {
      assert Samples(a)[t] == Samples(b)[t];
      assert a[t].rate == RateAt(name, counter, a, t) && b[t].rate == RateAt(name, counter, b, t);
      var p := Pred(a.Keys, t);
      if p.Some? {
        assert Samples(a)[p.value] == Samples(b)[p.value];
      }
    }
  }

  // ---- One more sample ----

  ghost function Succ(times: set<int>, t: int): (n: Option<int>)
    ensures n.Some? ==> IsSucc(times, t, n.value)
    ensures n.None? ==> forall q :: q in times ==> q <= t
  {
    if exists q :: q in times && t < q then
      SuccExists(times, t);
      var n :| IsSucc(times, t, n);
      Some(n)
    else None
  }

  lemma {:induction false} SuccExists(times: set<int>, t: int)
    requires exists q :: q in times && t < q
    ensures exists n :: IsSucc(times, t, n)
    decreases |times|
  {
    var q :| q in times && t < q;
    var rest := times - {q};
    if exists r :: r in rest && t < r {
      SuccExists(rest, t);
      var n :| IsSucc(rest, t, n);
      var best := if n < q then n else q;
      forall x | x in times && t < x ensures best <= x {
        assert x == q || x in rest;
      }
      assert IsSucc(times, t, best);
    } else {
      forall x | x in times && t < x ensures q <= x {
        assert x == q || x in rest;
      }
      assert IsSucc(times, t, q);
    }
  }

  lemma SuccIs(times: set<int>, t: int, n: int)
    requires IsSucc(times, t, n)
    ensures Succ(times, t) == Some(n)
  {
  }

  ghost function Inserted(name: string, counter: bool, rows: Rows, t: int, s: Sample): Rows {
    rows[t := Row(s, if counter then CounterRate(name, s, t, Before(rows, t)) else Unavailable)]
  }

  /** The new row, and the following counter row rederived. */
  ghost function Extended(name: string, counter: bool, rows: Rows, t: int, s: Sample): Rows {
    var inserted := Inserted(name, counter, rows, t, s);
    var next := Succ(rows.Keys, t);
    if counter && next.Some? then
      inserted[next.value := rows[next.value].(rate := CounterRate(name, rows[next.value].sample, next.value,
        Some((t, s))))]
    else inserted
  }

  /** The times of the extended series, and its rows other than the new one and its successor. */
  lemma ExtendedRows(name: string, counter: bool, rows: Rows, t: int, s: Sample)
    requires t !in rows
    ensures var rows', next := Extended(name, counter, rows, t, s), Succ(rows.Keys, t);
      && rows'.Keys == rows.Keys + {t} && Samples(rows') == Samples(rows)[t := s]
      && rows'[t] == Row(s, if counter then CounterRate(name, s, t, Before(rows, t)) else Unavailable)
      && (forall u :: u in rows && !(counter && next == Some(u)) ==> rows'[u] == rows[u])
      && (counter && next.Some? ==>
            rows'[next.value] == rows[next.value].(rate := CounterRate(name, rows[next.value].sample, next.value,
              Some((t, s)))))
  {
    hide CounterRate, Before;
  }

  lemma ExtendedOk(name: string, counter: bool, rows: Rows, t: int, s: Sample)
    requires SeriesOk(name, counter, rows) && t !in rows
    ensures var rows' := Extended(name, counter, rows, t, s);
      SeriesOk(name, counter, rows') && Samples(rows') == Samples(rows)[t := s]
  {
    ExtendedRows(name, counter, rows, t, s);
    var rows' := Extended(name, counter, rows, t, s);
    hide Extended, CounterRate, Before, Samples;
    forall u | u in rows' ensures rows'[u].rate == RateAt(name, counter, rows', u) {
      assert u in rows ==> rows[u].rate == RateAt(name, counter, rows, u);
      ExtendedRow(name, counter, rows, t, s, u);
    }
  }

  /** What an insertion does to each row: its rate is against its predecessor, or both stay as they were. */
  lemma ExtendedRow(name: string, counter: bool, rows: Rows, t: int, s: Sample, u: int)
    requires t !in rows && (u in rows || u == t)
    ensures var rows' := Extended(name, counter, rows, t, s);
      && u in rows'
      && (rows'[u].rate == RateAt(name, counter, rows', u)
          || (u != t && rows'[u] == rows[u] && (counter ==> Before(rows', u) == Before(rows, u))))
      && (u != t && Before(rows', u).None? ==> rows'[u] == rows[u] && Before(rows, u).None?)
  {
    ExtendedRows(name, counter, rows, t, s);
    var rows' := Extended(name, counter, rows, t, s);
    ExtendedSamples(name, counter, rows, t, s);
    hide CounterRate, Extended, Samples, Pred, Succ;
    if u == t {
      PredOfNew(rows.Keys, t);
      assert Before(rows', t) == Before(rows, t);
    } else {
      PredWith(rows.Keys, t, u);
      if t < u && !(exists q :: q in rows.Keys && t < q < u) {
        assert IsSucc(rows.Keys, t, u);
        SuccIs(rows.Keys, t, u);
        assert Before(rows', u) == Some((t, s));
      } else {
        assert Succ(rows.Keys, t) != Some(u);
        assert Before(rows', u) == Before(rows, u);
      }
    }
  }

  lemma ExtendedSamples(name: string, counter: bool, rows: Rows, t: int, s: Sample)
    requires t !in rows
    ensures var rows' := Extended(name, counter, rows, t, s);
      && rows'[t].sample == s && forall u :: u in rows ==> rows'[u].sample == rows[u].sample
  {
    hide CounterRate, Before;
  }

  // ---- A series whose oldest rows are pruned from time to time ----

  /** A row with a stored predecessor has the rate against it; a gauge has none. */
  ghost predicate PredOk(name: string, counter: bool, rows: Rows) {
    forall t :: t in rows && (!counter || Before(rows, t).Some?) ==> rows[t].rate == RateAt(name, counter, rows, t)
  }

  /** The rows after more samples have come in: what is against a stored predecessor is right, a row that
      still has none is as it was, and a new one that has none is against nothing. */
  ghost predicate GrownTo(name: string, counter: bool, rows: Rows, rows': Rows) {
    && rows.Keys <= rows'.Keys
    && PredOk(name, counter, rows')
    && (forall u :: u in rows ==> rows'[u].sample == rows[u].sample)
    && (forall u :: u in rows' && Before(rows', u).None? ==>
          if u in rows then rows'[u] == rows[u] && Before(rows, u).None?
            else rows'[u].rate == RateAt(name, counter, rows', u))
  }

  lemma GrownItself(name: string, counter: bool, rows: Rows)
    requires PredOk(name, counter, rows)
    ensures GrownTo(name, counter, rows, rows)
  {
  }

  lemma ExtendedGrows(name: string, counter: bool, rows: Rows, t: int, s: Sample)
    requires PredOk(name, counter, rows) && t !in rows
    ensures GrownTo(name, counter, rows, Extended(name, counter, rows, t, s))
  {
    ExtendedRows(name, counter, rows, t, s);
    ExtendedSamples(name, counter, rows, t, s);
    var rows' := Extended(name, counter, rows, t, s);
    hide Extended, CounterRate, Before, Samples;
    forall u | u in rows'
      ensures !counter || Before(rows', u).Some? ==> rows'[u].rate == RateAt(name, counter, rows', u)
      ensures Before(rows', u).None? ==>
        if u in rows then rows'[u] == rows[u] && Before(rows, u).None?
          else rows'[u].rate == RateAt(name, counter, rows', u)
    {
      ExtendedRow(name, counter, rows, t, s, u);
    }
  }

  lemma GrownTransitive(name: string, counter: bool, a: Rows, b: Rows, c: Rows)
    requires GrownTo(name, counter, a, b) && GrownTo(name, counter, b, c)
    ensures GrownTo(name, counter, a, c)
  {
    hide CounterRate, Pred;
    forall u | u in c && Before(c, u).None?
      ensures if u in a then c[u] == a[u] && Before(a, u).None? else c[u].rate == RateAt(name, counter, c, u)
    {
      if u in b {
        assert c[u] == b[u] && Before(b, u).None?;
      }
    }
  }

  /** DELETE ... observed_at < ? */
  function Since(rows: Rows, cutoff: int): Rows {
    map t | t in rows && t >= cutoff :: rows[t]
  }

  lemma SinceKeeps(name: string, counter: bool, rows: Rows, cutoff: int)
    requires PredOk(name, counter, rows)
    ensures PredOk(name, counter, Since(rows, cutoff))
    ensures forall u :: u in Since(rows, cutoff) && Before(Since(rows, cutoff), u).Some? ==>
      Before(Since(rows, cutoff), u) == Before(rows, u)
  {
    var rows' := Since(rows, cutoff);
    hide CounterRate;
    forall u | u in rows' && Before(rows', u).Some? ensures Before(rows', u) == Before(rows, u) {
      var p := Pred(rows'.Keys, u).value;
      forall q | q in rows && q < u ensures q <= p {
        assert q >= cutoff ==> q in rows';
      }
      PredIs(rows.Keys, u, p);
    }
    hide Before;
  }
}
