/**
 The bounded sliding window of ordinary activity that one storage source learns from
 (server/src/detection.rs, prune_baseline and baseline_summary).
 Times are nanoseconds on one monotonic clock, rates are exact bytes per second.
 */
module TrainingRing {
  import opened Wrappers
  import opened NearestRank

  const HORIZON_NS: nat := 1_800_000_000_000
  const REQUIRED_NS: nat := 600_000_000_000
  const REQUIRED_INTERVALS: nat := 60
  const MAX_INTERVALS: nat := 1800
  const MAX_BYTES: nat := 256 * 1024

  datatype Interval = Interval(start: nat, end: nat, rate: real, observedMs: int)

  /** The length of one interval's JSON text.  Nothing is assumed about it. */
  type Encoder = Interval -> nat

  function Cutoff(endNs: nat): nat {
    if endNs <= HORIZON_NS then 0 else endNs - HORIZON_NS
  }

  /** Non-empty, disjoint intervals in time order with measured rates. */
  ghost predicate Ordered(ring: seq<Interval>) {
    && (forall i :: 0 <= i < |ring| ==> ring[i].start < ring[i].end && ring[i].rate >= 0.0)
    && (forall i, j :: 0 <= i < j < |ring| ==> ring[i].end <= ring[j].start)
  }

  ghost predicate Inside(ring: seq<Interval>, lo: nat, hi: nat) {
    forall i :: 0 <= i < |ring| ==> lo <= ring[i].start && ring[i].end <= hi
  }

  function Bytes(enc: Encoder, ring: seq<Interval>): nat {
    if ring == [] then 0 else enc(ring[0]) + Bytes(enc, ring[1..])
  }

  /** Brackets, items and commas of the ring's JSON array. */
  function JsonLength(enc: Encoder, ring: seq<Interval>): nat {
    2 + Bytes(enc, ring) + if ring == [] then 0 else |ring| - 1
  }

  /** The whole ring invariant at a watermark: order, window, count and byte bounds. */
  ghost predicate RingOk(enc: Encoder, ring: seq<Interval>, watermark: nat) {
    && Ordered(ring)
    && Inside(ring, Cutoff(watermark), watermark)
    && |ring| <= MAX_INTERVALS
    && JsonLength(enc, ring) <= MAX_BYTES
  }

  function Covered(ring: seq<Interval>): nat {
    if ring == [] then 0 else
      (if ring[0].end > ring[0].start then ring[0].end - ring[0].start else 0) + Covered(ring[1..])
  }

  lemma {:induction false} CoveredWithin(ring: seq<Interval>, lo: nat, hi: nat)
    requires Ordered(ring) && Inside(ring, lo, hi) && lo <= hi
    ensures Covered(ring) <= hi - lo
  {
    if ring != [] {
      CoveredWithin(ring[1..], ring[0].end, hi);
    }
  }

  /** A ring never covers more than the 1800 second horizon. */
  lemma RingCoversAtMostHorizon(enc: Encoder, ring: seq<Interval>, watermark: nat)
    requires RingOk(enc, ring, watermark)
    ensures Covered(ring) <= HORIZON_NS
  {
    CoveredWithin(ring, Cutoff(watermark), watermark);
  }

  // ---- What pruning means ----

  /** The part of each interval that lies after the cutoff; intervals wholly before it vanish. */
  function Windowed(ring: seq<Interval>, cutoff: nat): seq<Interval> {
    if ring == [] then []
    else if ring[0].end <= cutoff then Windowed(ring[1..], cutoff)
    else [ring[0].(start := if ring[0].start < cutoff then cutoff else ring[0].start)] + Windowed(ring[1..], cutoff)
  }

  predicate Fits(enc: Encoder, ring: seq<Interval>) {
    |ring| <= MAX_INTERVALS && JsonLength(enc, ring) <= MAX_BYTES
  }

  /** The longest suffix within the count and byte budgets: the newest training is kept. */
  function NewestFitting(enc: Encoder, ring: seq<Interval>): seq<Interval> {
    if ring == [] || Fits(enc, ring) then ring else NewestFitting(enc, ring[1..])
  }

  function Pruned(enc: Encoder, ring: seq<Interval>, endNs: nat): seq<Interval> {
    NewestFitting(enc, Windowed(ring, Cutoff(endNs)))
  }

  lemma {:induction false} WindowedOk(ring: seq<Interval>, cutoff: nat, hi: nat)
    requires Ordered(ring) && Inside(ring, 0, hi)
    ensures var w := Windowed(ring, cutoff); Ordered(w) && Inside(w, cutoff, hi)
  {
    if ring != [] {
      WindowedOk(ring[1..], cutoff, hi);
      assert Inside(ring[1..], ring[0].end, hi);
    }
  }

  lemma {:induction false} NewestFittingIsLongest(enc: Encoder, ring: seq<Interval>) returns (k: nat)
    ensures k <= |ring| && NewestFitting(enc, ring) == ring[k..] && Fits(enc, ring[k..])
    ensures forall j :: 0 <= j < k ==> !Fits(enc, ring[j..])
  {
    if ring == [] || Fits(enc, ring) {
      k := 0;
    } else {
      var k' := NewestFittingIsLongest(enc, ring[1..]);
      k := k' + 1;
      forall j | 0 <= j < k ensures !Fits(enc, ring[j..]) {
        assert j > 0 ==> ring[j..] == ring[1..][j - 1..];
      }
    }
  }

  /** Pruning at a new watermark re-establishes the ring invariant. */
  lemma PrunedOk(enc: Encoder, ring: seq<Interval>, watermark: nat)
    requires Ordered(ring) && Inside(ring, 0, watermark)
    ensures RingOk(enc, Pruned(enc, ring, watermark), watermark)
  {
    WindowedOk(ring, Cutoff(watermark), watermark);
    var k := NewestFittingIsLongest(enc, Windowed(ring, Cutoff(watermark)));
  }

  /** A ring that already meets the invariant is not touched by another pruning at the same time. */
  lemma {:induction false} WindowedIdentity(ring: seq<Interval>, cutoff: nat)
    requires forall i :: 0 <= i < |ring| ==> cutoff <= ring[i].start < ring[i].end
    ensures Windowed(ring, cutoff) == ring
  {
    if ring != [] {
      WindowedIdentity(ring[1..], cutoff);
    }
  }

  lemma PrunedIdempotent(enc: Encoder, ring: seq<Interval>, watermark: nat)
    requires RingOk(enc, ring, watermark)
    ensures Pruned(enc, ring, watermark) == ring
  {
    WindowedIdentity(ring, Cutoff(watermark));
  }

  // ---- Facts the stepwise pruning of the source needs ----

  lemma {:induction false} BytesSplit(enc: Encoder, a: seq<Interval>, b: seq<Interval>)
    ensures Bytes(enc, a + b) == Bytes(enc, a) + Bytes(enc, b)
  {
    if a == [] {
      assert a + b == b;
    } else {
      assert (a + b)[1..] == a[1..] + b;
      BytesSplit(enc, a[1..], b);
    }
  }

  /** Dropping the expired prefix and clipping the first survivor is the whole window. */
  lemma {:induction false} WindowedIsDropAndClip(ring: seq<Interval>, cutoff: nat, n: nat)
    requires Ordered(ring) && n <= |ring|
    requires forall i :: 0 <= i < n ==> ring[i].end <= cutoff
    requires forall i :: n <= i < |ring| ==> ring[i].end > cutoff
    ensures n == |ring| ==> Windowed(ring, cutoff) == []
    ensures n < |ring| ==>
      Windowed(ring, cutoff)
      == [ring[n].(start := if ring[n].start < cutoff then cutoff else ring[n].start)] + ring[n + 1..]
  {
    if n > 0 {
      WindowedIsDropAndClip(ring[1..], cutoff, n - 1);
      assert n < |ring| ==> ring[1..][n - 1 + 1..] == ring[n + 1..];
    } else if ring != [] {
      var rest := ring[1..];
      forall i | 0 <= i < |rest| ensures cutoff <= rest[i].start < rest[i].end {
        assert rest[i] == ring[i + 1] && ring[0].end <= ring[i + 1].start;
      }
      WindowedIdentity(rest, cutoff);
    }
  }

  lemma {:induction false} NewestFittingSkips(enc: Encoder, ring: seq<Interval>, n: nat)
    requires n <= |ring| && (n == 0 || |ring| - n >= MAX_INTERVALS)
    ensures NewestFitting(enc, ring) == NewestFitting(enc, ring[n..])
  {
    if n > 0 {
      NewestFittingSkips(enc, ring[1..], n - 1);
      assert ring[1..][n - 1..] == ring[n..];
    }
  }

  // ---- The frozen reference ----

  datatype Summary = Summary(
    ready: bool, coveredNs: nat, count: nat,
    reference: Option<real>, high: Option<real>, low: Option<real>)

  function Max(a: real, b: real): real {
    if a >= b then a else b
  }

  function HighThreshold(b: real): real {
    Max(3.0 * b, b + 1_000_000.0)
  }

  function LowThreshold(b: real): real {
    Max(2.0 * b, b + 500_000.0)
  }

  function MapOption(f: real -> real, o: Option<real>): Option<real> {
    match o case None => None case Some(v) => Some(f(v))
  }

  /** The time each interval contributes after the cutoff (lines 571-578). */
  function Weights(ring: seq<Interval>, cutoff: nat): seq<Weighted> {
    if ring == [] then []
    else
      var from := if ring[0].start < cutoff then cutoff else ring[0].start;
      var rest := Weights(ring[1..], cutoff);
      if ring[0].end > from then [Weighted(ring[0].rate, ring[0].end - from)] + rest else rest
  }

  predicate IsReady(ws: seq<Weighted>) {
    Total(ws) >= REQUIRED_NS && |ws| >= REQUIRED_INTERVALS
  }

  /** What a baseline summary at time now says about a ring. */
  ghost predicate Summarises(s: Summary, ring: seq<Interval>, now: nat) {
    var ws := Weights(ring, Cutoff(now));
    && s.ready == IsReady(ws)
    && s.coveredNs == Total(ws)
    && s.count == |ws|
    && (if s.ready then s.reference.Some? && IsP95(ws, s.reference.value) else s.reference == None)
    && s.high == MapOption(HighThreshold, s.reference)
    && s.low == MapOption(LowThreshold, s.reference)
  }

  /** There is exactly one summary, so a reference is determined by the bag of training alone. */
  lemma SummaryUnique(s: Summary, s': Summary, ring: seq<Interval>, now: nat)
    requires Summarises(s, ring, now) && Summarises(s', ring, now)
    ensures s == s'
  {
    if s.ready {
      P95Unique(Weights(ring, Cutoff(now)), s.reference.value, s'.reference.value);
    }
  }

  lemma SummaryExists(ring: seq<Interval>, now: nat)
    ensures exists s :: Summarises(s, ring, now)
  {
    var ws := Weights(ring, Cutoff(now));
    var reference: Option<real> := None;
    if IsReady(ws) {
      P95Exists(ws);
      var r :| IsP95(ws, r);
      reference := Some(r);
    }
    var s := Summary(IsReady(ws), Total(ws), |ws|, reference,
      MapOption(HighThreshold, reference), MapOption(LowThreshold, reference));
    assert Summarises(s, ring, now);
  }

  /** The summary of a ring at a time. */
  ghost function Summarise(ring: seq<Interval>, now: nat): (s: Summary)
    ensures Summarises(s, ring, now)
  {
    SummaryExists(ring, now);
    var s :| Summarises(s, ring, now);
    s
  }

  lemma {:induction false} WeightsRates(ring: seq<Interval>, cutoff: nat)
    requires forall i :: 0 <= i < |ring| ==> ring[i].rate >= 0.0
    ensures forall i :: 0 <= i < |Weights(ring, cutoff)| ==> Weights(ring, cutoff)[i].rate >= 0.0
  {
    if ring != [] {
      var rest := ring[1..];
      forall i | 0 <= i < |rest| ensures rest[i].rate >= 0.0 { assert rest[i] == ring[i + 1]; }
      WeightsRates(rest, cutoff);
    }
  }

  /** Both thresholds exist exactly when the training is ready, and then recovery lies strictly
      below onset: the `expect`s on a frozen reference cannot fail. */
  lemma ThresholdsOrdered(s: Summary, ring: seq<Interval>, now: nat)
    requires Summarises(s, ring, now) && Ordered(ring)
    ensures s.ready == s.reference.Some? == s.high.Some? == s.low.Some?
    ensures s.ready ==> 0.0 <= s.reference.value < s.low.value < s.high.value
  {
    WeightsRates(ring, Cutoff(now));
    if s.ready {
      var ws := Weights(ring, Cutoff(now));
      var i :| 0 <= i < |ws| && ws[i].rate == s.reference.value;
      assert ws[i].rate >= 0.0;
    }
  }

  method CollectWeights(ring: seq<Interval>, cutoff: nat) returns (weighted: seq<Weighted>)
    ensures weighted == Weights(ring, cutoff)
  {
    weighted := [];
    assert ring[0..] == ring;
    WeightsOfNone(cutoff);
    hide Weights;
    for i := 0 to |ring|
      invariant weighted + Weights(ring[i..], cutoff) == Weights(ring, cutoff)
    {
      var from := if ring[i].start < cutoff then cutoff else ring[i].start;
      NextWeight(weighted, ring, i, cutoff);
      if ring[i].end > from {
        weighted := weighted + [Weighted(ring[i].rate, ring[i].end - from)];
      }
    }
    assert ring[|ring|..] == [];
  }

  lemma WeightsOfNone(cutoff: nat)
    ensures Weights([], cutoff) == []
  {
  }

  lemma NextWeight(weighted: seq<Weighted>, ring: seq<Interval>, i: nat, cutoff: nat)
    requires i < |ring|
    ensures var from := if ring[i].start < cutoff then cutoff else ring[i].start;
      weighted + Weights(ring[i..], cutoff) ==
        (if ring[i].end > from then weighted + [Weighted(ring[i].rate, ring[i].end - from)] else weighted)
        + Weights(ring[i + 1..], cutoff)
  {
    assert ring[i..][1..] == ring[i + 1..];
  }

  /** One pass of filter_map, the total, and the sorted scan (lines 569-607). */
  method BaselineSummary(ring: seq<Interval>, now: nat) returns (s: Summary)
    ensures Summarises(s, ring, now)
  {
    var weighted := CollectWeights(ring, Cutoff(now));
    var total := Total(weighted);
    var ready := total >= REQUIRED_NS && |weighted| >= REQUIRED_INTERVALS;
    var reference: Option<real> := None;
    if ready {
      reference := FindP95(weighted);
    }
    s := Summary(ready, total, |weighted|, reference,
      MapOption(HighThreshold, reference), MapOption(LowThreshold, reference));
  }
}
