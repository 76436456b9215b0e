/**
 The training of a source in numbers (server/src/detection.rs:540-607): what is kept of it, when it is
 ready, and what reference it gives, told from the intervals alone.
 */
module TrainingSummary {
  import opened Wrappers
  import opened NearestRank
  import opened TrainingRing

  /** Half an hour before a time. */
  function HalfHourBefore(now: nat): nat {
    if now <= 1_800_000_000_000 then 0 else now - 1_800_000_000_000
  }

  function Clipped(i: Interval, from: nat): Interval {
    if i.start < from then i.(start := from) else i
  }

  // ---- What is kept ----

  function Items(text: Interval -> string, ring: seq<Interval>): string {
    if ring == [] then ""
    else if |ring| == 1 then text(ring[0])
    else text(ring[0]) + "," + Items(text, ring[1..])
  }

  /** The JSON array a ring is stored as. */
  function Json(text: Interval -> string, ring: seq<Interval>): string {
    "[" + Items(text, ring) + "]"
  }

  ghost predicate Measures(enc: Encoder, text: Interval -> string) {
    forall i :: enc(i) == |text(i)|
  }

  lemma {:induction false} ItemsLength(text: Interval -> string, enc: Encoder, ring: seq<Interval>)
    requires Measures(enc, text)
    ensures |Items(text, ring)| == Bytes(enc, ring) + if ring == [] then 0 else |ring| - 1
  {
    if ring != [] {
      ItemsLength(text, enc, ring[1..]);
    }
  }

  /** What of a ring in order is after a time: all but its first n intervals, the first of them clipped. */
  ghost predicate Remains(ring: seq<Interval>, from: nat, n: nat, window: seq<Interval>) {
    && n <= |ring| && |window| == |ring| - n
    && (forall i :: 0 <= i < n ==> ring[i].end <= from)
    && (forall i :: n <= i < |ring| ==> ring[i].end > from)
    && (forall i :: 0 <= i < |window| ==> window[i] == Clipped(ring[n + i], from))
  }

  /** How many intervals of a ring in order are over by a time. */
  lemma Over(ring: seq<Interval>, from: nat) returns (n: nat)
    requires Ordered(ring)
    ensures n <= |ring| && forall i :: 0 <= i < n ==> ring[i].end <= from
    ensures forall i :: n <= i < |ring| ==> ring[i].end > from && (i > n ==> ring[i].start > from)
  {
    n := 0;
    while n < |ring| && ring[n].end <= from
      invariant n <= |ring| && forall i :: 0 <= i < n ==> ring[i].end <= from
    {
      n := n + 1;
    }
    forall i | n < i < |ring| ensures ring[i].start > from && ring[i].end > from {
      assert ring[n].end <= ring[i].start;
    }
  }

  lemma WindowedIs(ring: seq<Interval>, from: nat) returns (n: nat)
    requires Ordered(ring)
    ensures Remains(ring, from, n, Windowed(ring, from)) && n + |Windowed(ring, from)| == |ring|
  {
    n := Over(ring, from);
    WindowedIsDropAndClip(ring, from, n);
    hide Windowed, Ordered;
  }

  lemma FitsIs(text: Interval -> string, enc: Encoder, ring: seq<Interval>)
    requires Measures(enc, text)
    ensures Fits(enc, ring) <==> |ring| <= 1800 && |Json(text, ring)| <= 262_144
  {
    ItemsLength(text, enc, ring);
  }

  /** A ring small enough to be stored. */
  predicate Small(text: Interval -> string, ring: seq<Interval>) {
    |ring| <= 1800 && |Json(text, ring)| <= 262_144
  }

  lemma NewestIs(text: Interval -> string, enc: Encoder, window: seq<Interval>) returns (k: nat)
    requires Measures(enc, text)
    ensures k <= |window| && NewestFitting(enc, window) == window[k..] && Small(text, window[k..])
    ensures k > 0 ==> !Small(text, window[k - 1..])
  {
    k := NewestFittingIsLongest(enc, window);
    hide NewestFitting;
    FitsIs(text, enc, window[k..]);
    if k > 0 {
      assert !Fits(enc, window[k - 1..]);
      FitsIs(text, enc, window[k - 1..]);
    }
  }

  /** The intervals of a ring from the k-th on, as far as they are after a time. */
  ghost predicate NewestOf(ring: seq<Interval>, from: nat, k: nat, kept: seq<Interval>) {
    && k <= |ring| && |kept| == |ring| - k
    && (forall i :: 0 <= i < |kept| ==> kept[i] == Clipped(ring[k + i], from))
    && (forall i :: k <= i < |ring| ==> ring[i].end > from)
  }

  lemma RestRemains(ring: seq<Interval>, from: nat, n: nat, window: seq<Interval>, k: nat)
    requires Remains(ring, from, n, window) && k <= |window|
    ensures NewestOf(ring, from, n + k, window[k..])
    ensures k > 0 ==> window[k - 1..] == [Clipped(ring[n + k - 1], from)] + window[k..]
    ensures k == 0 && n > 0 ==> ring[n - 1].end <= from
  {
    hide Clipped;
  }

  lemma NewestRemain(text: Interval -> string, enc: Encoder, ring: seq<Interval>, from: nat, n: nat,
          window: seq<Interval>) returns (k: nat)
    requires Measures(enc, text) && Remains(ring, from, n, window)
    ensures var kept := NewestFitting(enc, window);
      && NewestOf(ring, from, k, kept) && Small(text, kept)
      && (k > 0 && ring[k - 1].end > from ==> !Small(text, [Clipped(ring[k - 1], from)] + kept))
  {
    var skipped := NewestIs(text, enc, window);
    k := n + skipped;
    hide Measures, NewestFitting, Small, Clipped, NewestOf;
    RestRemains(ring, from, n, window, skipped);
    hide Remains;
  }

  /** What pruning keeps of a ring in order: its newest intervals, clipped to the last half hour, as many as
      are in it, are no more than 1800 and make no more than 256 KiB of JSON. */
  lemma PrunedInNumbers(text: Interval -> string, enc: Encoder, ring: seq<Interval>, now: nat) returns (k: nat)
    requires Ordered(ring) && Measures(enc, text)
    ensures var kept, from := Pruned(enc, ring, now), HalfHourBefore(now);
      && NewestOf(ring, from, k, kept) && Small(text, kept)
      && (k > 0 && ring[k - 1].end > from ==> !Small(text, [Clipped(ring[k - 1], from)] + kept))
  {
    var n := WindowedIs(ring, HalfHourBefore(now));
    hide Windowed, NewestFitting, Small, Ordered, Clipped, Remains, Measures;
    k := NewestRemain(text, enc, ring, HalfHourBefore(now), n, Windowed(ring, HalfHourBefore(now)));
  }

  // ---- What it gives ----

  /** The time of an interval after another time. */
  function TimeAfter(i: Interval, from: nat): nat {
    var start := if i.start < from then from else i.start;
    if start < i.end then i.end - start else 0
  }

  function Time(ring: seq<Interval>, from: nat): nat {
    if ring == [] then 0 else TimeAfter(ring[0], from) + Time(ring[1..], from)
  }

  function Count(ring: seq<Interval>, from: nat): nat {
    if ring == [] then 0 else (if TimeAfter(ring[0], from) > 0 then 1 else 0) + Count(ring[1..], from)
  }

  /** The time spent above a rate. */
  function Above(ring: seq<Interval>, from: nat, rate: real): nat {
    if ring == [] then 0
    else (if ring[0].rate > rate then TimeAfter(ring[0], from) else 0) + Above(ring[1..], from, rate)
  }

  /** The time spent at a rate or above it. */
  function AtLeast(ring: seq<Interval>, from: nat, rate: real): nat {
    if ring == [] then 0
    else (if ring[0].rate >= rate then TimeAfter(ring[0], from) else 0) + AtLeast(ring[1..], from, rate)
  }

  predicate Seen(ring: seq<Interval>, from: nat, rate: real) {
    exists i :: 0 <= i < |ring| && ring[i].rate == rate && TimeAfter(ring[i], from) > 0
  }

  lemma {:induction false} SumsAre(ring: seq<Interval>, from: nat, rate: real)
    ensures var ws := Weights(ring, from);
      && Total(ws) == Time(ring, from) && |ws| == Count(ring, from)
      && AtMost(ws, rate) + Above(ring, from, rate) == Time(ring, from)
      && Below(ws, rate) + AtLeast(ring, from, rate) == Time(ring, from)
  {
    if ring != [] {
      SumsAre(ring[1..], from, rate);
      var ws, rest := Weights(ring, from), Weights(ring[1..], from);
      if TimeAfter(ring[0], from) > 0 {
        assert ws[1..] == rest;
      }
    }
  }

  lemma {:induction false} SeenIs(ring: seq<Interval>, from: nat, rate: real)
    ensures Seen(ring, from, rate) <==>
      exists i :: 0 <= i < |Weights(ring, from)| && Weights(ring, from)[i].rate == rate
  {
    if ring != [] {
      var ws, rest := Weights(ring, from), Weights(ring[1..], from);
      SeenIs(ring[1..], from, rate);
      if i :| 0 <= i < |ring| && ring[i].rate == rate && TimeAfter(ring[i], from) > 0 {
        if i > 0 {
          assert ring[1..][i - 1] == ring[i];
          assert Seen(ring[1..], from, rate);
          var j :| 0 <= j < |rest| && rest[j].rate == rate;
          assert ws[|ws| - |rest| + j] == rest[j];
        } else {
          assert ws[0].rate == rate;
        }
      }
      if j :| 0 <= j < |ws| && ws[j].rate == rate {
        if TimeAfter(ring[0], from) > 0 && j == 0 {
          assert ring[0].rate == rate;
        } else {
          assert rest[j - (|ws| - |rest|)].rate == rate;
          var i :| 0 <= i < |ring[1..]| && ring[1..][i].rate == rate && TimeAfter(ring[1..][i], from) > 0;
          assert ring[i + 1] == ring[1..][i];
        }
      }
    }
  }

  /** Training is ready if and only if at least 60 intervals and ten minutes of it are in the last half hour;
      the thresholds are three times the reference and a megabyte per second above it, whichever is more, and
      twice the reference and half a megabyte above it. */
  lemma ReadyExactly(s: Summary, ring: seq<Interval>, now: nat, speed: real)
    requires Summarises(s, ring, now)
    ensures var from := HalfHourBefore(now);
      && (s.ready <==> Count(ring, from) >= 60 && Time(ring, from) >= 600_000_000_000)
      && (s.ready <==> s.reference.Some?) && (s.ready <==> s.high.Some?) && (s.ready <==> s.low.Some?)
    ensures s.ready ==>
      && (speed > s.high.value <==>
            speed > 3.0 * s.reference.value && speed > s.reference.value + 1_000_000.0)
      && (speed <= s.low.value <==>
            speed <= 2.0 * s.reference.value || speed <= s.reference.value + 500_000.0)
  {
    SumsAre(ring, HalfHourBefore(now), 0.0);
    hide Weights, Total, IsP95, Count, Time;
  }

  /** The reference is the one rate of an interval such that at most a twentieth of the time was spent above
      it and more than a twentieth at it or above. */
  lemma ReferenceExactly(s: Summary, ring: seq<Interval>, now: nat, rate: real)
    requires Summarises(s, ring, now)
    ensures var from := HalfHourBefore(now);
      s.reference == Some(rate) <==>
        && s.ready && Seen(ring, from, rate)
        && 20 * Above(ring, from, rate) <= Time(ring, from) < 20 * AtLeast(ring, from, rate)
  {
    var from := HalfHourBefore(now);
    var ws := Weights(ring, from);
    SumsAre(ring, from, rate);
    SeenIs(ring, from, rate);
    assert s.ready ==> s.reference.Some? && IsP95(ws, s.reference.value);
    hide Weights, Total, Below, AtMost, Time, Above, AtLeast, Seen, Summarises;
    if s.ready && IsP95(ws, rate) {
      P95Unique(ws, rate, s.reference.value);
    }
  }
}
