/**
 One metric series of a collector (server/src/cider_api.rs:622-703): the latest attempt recorded in it,
 kept for counter continuity, and the reading that is shown.  Which attempts are recorded in which
 series is the subject of MetricRouting.
 */
module RetainedReading {
  import opened Wrappers

  const SECOND_NS: nat := 1_000_000_000

  /** One collected field: number is the unsigned value, if the text denotes one. */
  datatype Attempt = Attempt(
    clock: string, mono: nat, observedAt: int, boot: string, generation: int, counter: bool,
    epoch: Option<string>, available: bool, live: bool, text: string, number: Option<nat>, staleAfter: nat)

  /** delta counts in ns nanoseconds. */
  datatype Rate = Unavailable | Insufficient | Reset | Known(delta: nat, ns: nat)

  datatype Sample = Sample(attempt: Attempt, rate: Rate)

  /** What the uniqueness of a stored sample leaves of it within one series. */
  datatype Key = Key(boot: string, generation: int, clock: string, epoch: Option<string>, observedAt: int)

  datatype Series = Series(prior: Option<Attempt>, shown: Option<Sample>, samples: map<Key, Sample>)

  const EMPTY: Series := Series(None, None, map[])

  function KeyOf(a: Attempt): Key {
    Key(a.boot, a.generation, a.clock, a.epoch, a.observedAt)
  }

  predicate Usable(a: Attempt) {
    a.available && a.live
  }

  predicate IsLatest(prior: Option<Attempt>, a: Attempt) {
    prior.None? || prior.value.clock != a.clock || a.mono > prior.value.mono
  }

  function Elapsed(prior: Attempt, a: Attempt): Option<nat> {
    if a.mono > prior.mono && a.mono - prior.mono <= a.staleAfter * SECOND_NS then Some(a.mono - prior.mono) else None
  }

  function Delta(prior: Attempt, a: Attempt): Option<nat> {
    if a.number.Some? && prior.number.Some? && a.number.value >= prior.number.value
    then Some(a.number.value - prior.number.value) else None
  }

  function RateOf(prior: Option<Attempt>, a: Attempt): Rate {
    if !a.counter || !Usable(a) then Unavailable
    else match prior
      case None => Insufficient
      case Some(p) =>
        if p.clock != a.clock || p.epoch != a.epoch then Reset
        else if !Usable(p) || Elapsed(p, a).None? then Unavailable
        else if Delta(p, a).None? then Reset
        else Known(Delta(p, a).value, Elapsed(p, a).value)
  }

  /** The transaction; None is the conflict that rolls the heartbeat back. */
  function Projected(s: Series, a: Attempt): Option<Series> {
    if KeyOf(a) in s.samples then None
    else
      var sample := Sample(a, RateOf(s.prior, a));
      var stored := s.(samples := s.samples[KeyOf(a) := sample]);
      if !IsLatest(s.prior, a) then Some(stored)
      else
        Some(stored.(prior := Some(a),
          shown := if s.shown.None? || Usable(a) || !Usable(s.shown.value.attempt) then Some(sample) else s.shown))
  }

  // ---- Runs ----

  /** An attempt recorded in the series, the monthly expiry of the continuity row, or the pruning of old samples. */
  datatype Event = Attempted(a: Attempt) | PriorExpired | SamplesPruned(pruned: set<Key>)

  function Next(s: Series, e: Event): Series {
    match e
    case Attempted(a) => if Projected(s, a).Some? then Projected(s, a).value else s
    case PriorExpired => s.(prior := None)
    case SamplesPruned(pruned) => s.(samples := s.samples - pruned)
  }

  function At(run: seq<Event>, n: nat): Series
    requires n <= |run|
    decreases n
  {
    if n == 0 then EMPTY else Next(At(run, n - 1), run[n - 1])
  }

  predicate StoredAt(run: seq<Event>, n: nat)
    requires n < |run|
  {
    run[n].Attempted? && KeyOf(run[n].a) !in At(run, n).samples
  }

  /** Event n is an attempt that was stored and was the newest of its clock. */
  predicate TakenAt(run: seq<Event>, n: nat)
    requires n < |run|
  {
    StoredAt(run, n) && IsLatest(At(run, n).prior, run[n].a)
  }

  /** i is the last usable attempt taken before n or, when there was none, the last one taken. */
  ghost predicate IsShown(run: seq<Event>, n: nat, i: nat)
    requires n <= |run|
  {
    && i < n && TakenAt(run, i)
    && (forall j :: i < j < n && TakenAt(run, j) ==> Usable(run[i].a) && !Usable(run[j].a))
    && (!Usable(run[i].a) ==> forall j :: 0 <= j < n && TakenAt(run, j) ==> !Usable(run[j].a))
  }

  /** One more event: it is shown itself, or what was shown stays. */
  lemma ShownNext(run: seq<Event>, n: nat)
    requires n < |run|
    ensures var was, now := At(run, n).shown, At(run, n + 1).shown;
      now == if TakenAt(run, n) && (was.None? || Usable(run[n].a) || !Usable(was.value.attempt))
             then Some(Sample(run[n].a, RateOf(At(run, n).prior, run[n].a))) else was
  {
    hide Usable, IsLatest, RateOf;
  }

  lemma ShownByLast(run: seq<Event>, n: nat)
    requires n < |run| && TakenAt(run, n)
    requires Usable(run[n].a) || forall j :: 0 <= j < n && TakenAt(run, j) ==> !Usable(run[j].a)
    ensures IsShown(run, n + 1, n)
  {
    hide TakenAt, Usable;
  }

  lemma ShownStays(run: seq<Event>, n: nat, i: nat)
    requires n < |run| && IsShown(run, n, i) && (TakenAt(run, n) ==> Usable(run[i].a) && !Usable(run[n].a))
    ensures IsShown(run, n + 1, i)
  {
    hide TakenAt, Usable;
  }

  /** What a series shows after any run is the last usable reading ever taken in it, however many failed
      attempts were recorded after it; only while none was usable is it the last attempt. */
  lemma {:induction false} ShownIsLastUsable(run: seq<Event>, n: nat)
    requires n <= |run|
    ensures At(run, n).shown.None? <==> forall i :: 0 <= i < n ==> !TakenAt(run, i)
    ensures At(run, n).shown.Some? ==>
      exists i: nat :: IsShown(run, n, i)
        && At(run, n).shown.value == Sample(run[i].a, RateOf(At(run, i).prior, run[i].a))
    decreases n
  {
    if n > 0 {
      ShownIsLastUsable(run, n - 1);
      ShownNext(run, n - 1);
      var was := At(run, n - 1).shown;
      hide At, TakenAt, Usable, RateOf;
      if was.None? {
        if TakenAt(run, n - 1) {
          ShownByLast(run, n - 1);
        }
      } else {
        var i: nat :| IsShown(run, n - 1, i) && was.value == Sample(run[i].a, RateOf(At(run, i).prior, run[i].a));
        if TakenAt(run, n - 1) && (Usable(run[n - 1].a) || !Usable(run[i].a)) {
          ShownByLast(run, n - 1);
        } else {
          ShownStays(run, n - 1, i);
        }
      }
    }
  }

  /** A usable reading stays shown, unchanged, until another usable one is taken in its series. */
  lemma {:induction false} RetainedAcrossFailures(run: seq<Event>, n: nat, m: nat)
    requires n <= m <= |run| && At(run, n).shown.Some? && Usable(At(run, n).shown.value.attempt)
    requires forall i :: n <= i < m && TakenAt(run, i) ==> !Usable(run[i].a)
    ensures At(run, m).shown == At(run, n).shown
    decreases m
  {
    if n < m {
      RetainedAcrossFailures(run, n, m - 1);
    }
  }

  /** The continuity row is the last attempt taken since it last expired. */
  ghost predicate IsPrior(run: seq<Event>, n: nat, i: nat)
    requires n <= |run|
  {
    && i < n && TakenAt(run, i)
    && forall j :: i < j < n ==> !TakenAt(run, j) && !run[j].PriorExpired?
  }

  lemma {:induction false} PriorIsLastTaken(run: seq<Event>, n: nat) returns (i: nat)
    requires n <= |run| && At(run, n).prior.Some?
    ensures IsPrior(run, n, i) && At(run, n).prior == Some(run[i].a)
    decreases n
  {
    if TakenAt(run, n - 1) {
      i := n - 1;
    } else {
      i := PriorIsLastTaken(run, n - 1);
    }
  }

  predicate RatedAt(run: seq<Event>, n: nat)
    requires n < |run|
  {
    StoredAt(run, n) && RateOf(At(run, n).prior, run[n].a).Known?
  }

  /** A stored rate is measured between two usable readings of one clock and one counter epoch, with
      no other attempt taken in this series between them.  An attempt recorded in another series, or in
      none, does not count as one: see MetricRouting.RateSpansFailures. */
  lemma RateEndpoints(run: seq<Event>, n: nat) returns (i: nat)
    requires n < |run| && RatedAt(run, n)
    ensures TakenAt(run, n) && IsPrior(run, n, i)
    ensures var a, p, rate := run[n].a, run[i].a, RateOf(At(run, n).prior, run[n].a);
      && Usable(a) && Usable(p) && a.clock == p.clock && a.epoch == p.epoch
      && a.mono == p.mono + rate.ns && 0 < rate.ns <= a.staleAfter * SECOND_NS
      && a.number.Some? && p.number.Some? && a.number.value == p.number.value + rate.delta
  {
    i := PriorIsLastTaken(run, n);
  }

  /** From event i up to event n the series stayed on one clock. */
  predicate OneClock(run: seq<Event>, i: nat, n: nat, clock: string)
    requires i <= n <= |run|
  {
    forall k :: i <= k < n ==> !run[k].PriorExpired? && (TakenAt(run, k) ==> run[k].a.clock == clock)
  }

  lemma {:induction false} PriorAdvances(run: seq<Event>, i: nat, n: nat)
    requires i < n <= |run| && TakenAt(run, i) && OneClock(run, i, n, run[i].a.clock)
    ensures At(run, n).prior.Some? && At(run, n).prior.value.clock == run[i].a.clock
    ensures At(run, n).prior.value.mono >= run[i].a.mono
    decreases n
  {
    if i < n - 1 {
      PriorAdvances(run, i, n - 1);
    }
  }

  /** No stretch of time is counted in two rates: on one clock the measured intervals are disjoint and
      in order, whatever delayed or failed attempts were recorded between. */
  lemma RatesNeverOverlap(run: seq<Event>, i: nat, n: nat)
    requires i < n < |run| && RatedAt(run, i) && RatedAt(run, n)
    requires OneClock(run, i, n, run[i].a.clock)
    ensures run[n].a.mono - RateOf(At(run, n).prior, run[n].a).ns >= run[i].a.mono
  {
    var k := RateEndpoints(run, i);
    PriorAdvances(run, i, n);
  }
}
