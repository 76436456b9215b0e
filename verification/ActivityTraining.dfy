/**
 What the activity detector learns from (server/src/detection.rs:391-476 and 540-607): which intervals
 enter the training ring, and when the training is ready.  Stated on the observations.
 */
module ActivityTraining {
  import opened Wrappers
  import opened NearestRank
  import opened TrainingRing
  import opened ActivityDetector
  import opened ActivityRuns

  /** Bytes per second between two endpoints. */
  function Speed(a: Observation, b: Observation): real
    requires a.counter.Some? && b.counter.Some? && a.finishedNs < b.finishedNs
  {
    (b.counter.value - a.counter.value) as real * 1_000_000_000.0 / (b.finishedNs - a.finishedNs) as real
  }

  function Lesson(a: Observation, b: Observation): Interval
    requires a.counter.Some? && b.counter.Some? && b.observedAt.Some? && a.finishedNs < b.finishedNs
  {
    Interval(a.finishedNs, b.finishedNs, Speed(a, b), b.observedAt.value)
  }

  /** More than three times the reference, and at least a megabyte per second above it. */
  predicate Elevated(reference: Option<real>, speed: real) {
    reference.Some? && speed > 3.0 * reference.value && speed > reference.value + 1_000_000.0
  }

  predicate Subsided(reference: Option<real>, speed: real) {
    reference.Some? && (speed <= 2.0 * reference.value || speed <= reference.value + 500_000.0)
  }

  lemma LinkedFacts(a: Observation, b: Observation)
    requires Linked(a, b)
    ensures a.counter.Some? && b.counter.Some? && b.observedAt.Some? && a.finishedNs < b.finishedNs
    ensures a.finishedNs + 1_000_000_000 <= b.finishedNs <= a.finishedNs + 15_000_000_000
  {
  }

  /** The ring as it has aged when event n is taken. */
  ghost function Aged(enc: Encoder, run: seq<Event>, n: nat): seq<Interval>
    requires n < |run| && run[n].Observe?
  {
    Pruned(enc, At(enc, run, n).ring, run[n].o.finishedNs)
  }

  ghost function Reference(enc: Encoder, run: seq<Event>, n: nat): Option<real>
    requires n < |run| && run[n].Observe?
  {
    Summarise(Aged(enc, run, n), run[n].o.finishedNs).reference
  }

  // ---- Pruning keeps what is new ----

  lemma {:induction false} WindowedAppend(a: seq<Interval>, b: seq<Interval>, cutoff: nat)
    ensures Windowed(a + b, cutoff) == Windowed(a, cutoff) + Windowed(b, cutoff)
  {
    if a == [] {
      assert a + b == b;
    } else {
      assert (a + b)[1..] == a[1..] + b;
      WindowedAppend(a[1..], b, cutoff);
    }
  }

  /** Whatever fits and lies within the window stays at the end. */
  lemma PrunedKeepsNewest(enc: Encoder, front: seq<Interval>, newest: seq<Interval>, now: nat)
    returns (kept: seq<Interval>)
    requires forall i :: 0 <= i < |newest| ==> Cutoff(now) <= newest[i].start < newest[i].end
    requires Fits(enc, newest)
    ensures Pruned(enc, front + newest, now) == kept + newest
  {
    WindowedAppend(front, newest, Cutoff(now));
    WindowedIdentity(newest, Cutoff(now));
    var before := Windowed(front, Cutoff(now));
    var k := NewestFittingIsLongest(enc, before + newest);
    hide NewestFitting, Windowed, Fits, Cutoff;
    assert (before + newest)[|before|..] == newest;
    assert k <= |before|;
    kept := before[k..];
    assert (before + newest)[k..] == kept + newest;
  }

  // ---- One interval ----

  /** Outside an episode an interval that is not elevated is learned from, as the newest of the ring; one
      that is begins an episode; and inside an episode nothing is learned. */
  lemma ClosingTeaches(enc: Encoder, run: seq<Event>, n: nat, j: nat)
    requires n < |run| && Closes(enc, run, n, j)
    ensures Endpoints(run[j].o, run[n].o)
    ensures var s, s' := At(enc, run, n), At(enc, run, n + 1);
      if s.episode.Some? then s'.ring == Aged(enc, run, n)
      else if Elevated(Reference(enc, run, n), Speed(run[j].o, run[n].o)) then
        s'.episode.Some? && s'.ring == Aged(enc, run, n)
      else
        && s'.episode.None?
        && s'.ring == Pruned(enc, Aged(enc, run, n) + [Lesson(run[j].o, run[n].o)], run[n].o.finishedNs)
        && (2 + enc(Lesson(run[j].o, run[n].o)) <= 262_144 ==>
              s'.ring != [] && s'.ring[|s'.ring| - 1] == Lesson(run[j].o, run[n].o))
  {
    hide At, Step, DetectorOk, Pruned, Summarise;
    ClosingStep(enc, run, n, j);
    LinkedFacts(run[j].o, run[n].o);
    SummaryNumbers(Aged(enc, run, n), run[n].o.finishedNs);
    if 2 + enc(Lesson(run[j].o, run[n].o)) <= 262_144 {
      OneFits(enc, run[j].o, run[n].o);
      var kept := PrunedKeepsNewest(enc, Aged(enc, run, n), [Lesson(run[j].o, run[n].o)], run[n].o.finishedNs);
    }
    hide Linked;
  }

  lemma OneFits(enc: Encoder, a: Observation, b: Observation)
    requires Linked(a, b) && Endpoints(a, b) && 2 + enc(Lesson(a, b)) <= 262_144
    ensures Fits(enc, [Lesson(a, b)]) && Cutoff(b.finishedNs) <= a.finishedNs < b.finishedNs
  {
    LinkedFacts(a, b);
    assert Bytes(enc, [Lesson(a, b)]) == enc(Lesson(a, b));
    hide Linked;
  }

  predicate Endpoints(a: Observation, b: Observation) {
    a.counter.Some? && b.counter.Some? && b.observedAt.Some? && a.finishedNs < b.finishedNs
  }

  lemma SummaryNumbers(ring: seq<Interval>, now: nat)
    ensures var s := Summarise(ring, now);
      && s.high.Some? == s.low.Some? == s.reference.Some? == s.ready
      && forall speed: real :: (s.high.Some? && speed > s.high.value <==> Elevated(s.reference, speed))
           && (s.low.Some? && speed <= s.low.value <==> Subsided(s.reference, speed))
  {
    hide IsP95, Weights;
  }

  // ---- Chains ----

  /** The intervals between the observations of a chain. */
  ghost function Lessons(run: seq<Event>, idx: seq<nat>): seq<Interval>
    requires forall k :: 0 <= k < |idx| ==> idx[k] < |run| && run[idx[k]].Observe?
  {
    if |idx| <= 1 then []
    else
      var a, b := run[idx[|idx| - 2]].o, run[idx[|idx| - 1]].o;
      Lessons(run, idx[..|idx| - 1]) + if Endpoints(a, b) then [Lesson(a, b)] else []
  }

  /** No episode began or went on at any link of the chain: all of them are learned from. */
  ghost predicate Calm(enc: Encoder, run: seq<Event>, idx: seq<nat>)
    requires Chain(enc, run, idx)
  {
    forall k :: 0 < k < |idx| ==> At(enc, run, idx[k]).episode.None? && At(enc, run, idx[k] + 1).episode.None?
  }

  /** No interval's text is longer than 144 bytes, so that 1800 of them fit into 256 KiB. */
  ghost predicate Compact(enc: Encoder) {
    forall i :: enc(i) <= 144
  }

  lemma {:induction false} CompactFits(enc: Encoder, ring: seq<Interval>)
    requires Compact(enc) && |ring| <= 1800
    ensures Bytes(enc, ring) <= 144 * |ring| && Fits(enc, ring)
  {
    if ring != [] {
      CompactFits(enc, ring[1..]);
    }
  }

  lemma PrefixChain(enc: Encoder, run: seq<Event>, idx: seq<nat>)
    requires Chain(enc, run, idx) && |idx| >= 2
    ensures Chain(enc, run, idx[..|idx| - 1])
  {
    var front := idx[..|idx| - 1];
    forall k | 0 < k < |front|
      ensures front[k - 1] < front[k] && Linked(run[front[k - 1]].o, run[front[k]].o)
        && Undisturbed(enc, run, front[k - 1], front[k])
    {
      assert front[k - 1] == idx[k - 1] && front[k] == idx[k];
    }
    hide Linked, Undisturbed;
  }

  /** Each link lasts 1 to 15 s, so a chain of half an hour has at most 1800 of them. */
  lemma {:induction false} ChainLength(enc: Encoder, run: seq<Event>, idx: seq<nat>)
    requires Chain(enc, run, idx) && |idx| >= 1
    ensures (|idx| - 1) * 1_000_000_000 <= Span(run, idx)
    decreases |idx|
  {
    if |idx| > 1 {
      PrefixChain(enc, run, idx);
      ChainLength(enc, run, idx[..|idx| - 1]);
      LinkedFacts(run[idx[|idx| - 2]].o, run[idx[|idx| - 1]].o);
    }
    hide Linked, Undisturbed;
  }

  lemma LastLesson(enc: Encoder, run: seq<Event>, idx: seq<nat>)
    requires Chain(enc, run, idx) && |idx| >= 2
    ensures var a, b := run[idx[|idx| - 2]].o, run[idx[|idx| - 1]].o;
      Endpoints(a, b) && Lessons(run, idx) == Lessons(run, idx[..|idx| - 1]) + [Lesson(a, b)]
  {
    LinkedFacts(run[idx[|idx| - 2]].o, run[idx[|idx| - 1]].o);
    hide Linked, Undisturbed;
  }

  lemma NoLessons(run: seq<Event>, idx: seq<nat>)
    requires |idx| == 1 && idx[0] < |run| && run[idx[0]].Observe?
    ensures Lessons(run, idx) == []
  {
  }

  lemma {:induction false} LessonsInside(enc: Encoder, run: seq<Event>, idx: seq<nat>)
    requires Chain(enc, run, idx) && |idx| >= 1
    ensures |Lessons(run, idx)| == |idx| - 1
    ensures forall i :: 0 <= i < |idx| - 1 ==>
      run[idx[0]].o.finishedNs <= Lessons(run, idx)[i].start < Lessons(run, idx)[i].end
    ensures run[idx[0]].o.finishedNs <= run[idx[|idx| - 1]].o.finishedNs
    decreases |idx|
  {
    if |idx| > 1 {
      PrefixChain(enc, run, idx);
      LessonsInside(enc, run, idx[..|idx| - 1]);
      LastLesson(enc, run, idx);
      LinkedFacts(run[idx[|idx| - 2]].o, run[idx[|idx| - 1]].o);
      assert Lesson(run[idx[|idx| - 2]].o, run[idx[|idx| - 1]].o).start == run[idx[|idx| - 2]].o.finishedNs;
    } else {
      NoLessons(run, idx);
    }
    hide Linked, Undisturbed, Lesson, Lessons, Endpoints;
  }

  lemma {:induction false} WeightsAppend(a: seq<Interval>, b: seq<Interval>, cutoff: nat)
    ensures Weights(a + b, cutoff) == Weights(a, cutoff) + Weights(b, cutoff)
  {
    if a == [] {
      assert a + b == b;
    } else {
      assert (a + b)[1..] == a[1..] + b;
      WeightsAppend(a[1..], b, cutoff);
    }
  }

  /** Within the window a chain weighs exactly the time it spans. */
  lemma {:induction false} ChainWeight(enc: Encoder, run: seq<Event>, idx: seq<nat>, cutoff: nat)
    requires Chain(enc, run, idx) && |idx| >= 1 && cutoff <= run[idx[0]].o.finishedNs
    ensures |Weights(Lessons(run, idx), cutoff)| == |idx| - 1
    ensures Total(Weights(Lessons(run, idx), cutoff)) == Span(run, idx)
    decreases |idx|
  {
    if |idx| > 1 {
      var front := idx[..|idx| - 1];
      PrefixChain(enc, run, idx);
      ChainWeight(enc, run, front, cutoff);
      LastLesson(enc, run, idx);
      LessonsInside(enc, run, idx);
      var last := Lessons(run, idx)[|idx| - 2];
      WeightsAppend(Lessons(run, front), [last], cutoff);
      OneWeight(last, cutoff);
      SumsAppend(Weights(Lessons(run, front), cutoff), Weights([last], cutoff), 0.0);
    }
    hide Linked, Undisturbed, Weights, Lessons;
  }

  lemma OneWeight(i: Interval, cutoff: nat)
    requires cutoff <= i.start < i.end
    ensures Weights([i], cutoff) == [Weighted(i.rate, i.end - i.start)]
    ensures Total(Weights([i], cutoff)) == i.end - i.start
  {
  }

  // ---- The main results ----

  /** The first observation of the chain was taken as an endpoint. */
  ghost predicate Begins(enc: Encoder, run: seq<Event>, idx: seq<nat>)
    requires Chain(enc, run, idx) && |idx| >= 1
  {
    At(enc, run, idx[0] + 1).previous == Some(run[idx[0]].o)
  }

  /** What one calm link adds to a ring that ends with the lessons so far. */
  lemma OneMoreLesson(enc: Encoder, run: seq<Event>, n: nat, j: nat, front: seq<Interval>, lessons: seq<Interval>)
    returns (front': seq<Interval>)
    requires j < n < |run| && run[j].Observe? && run[n].Observe? && Closes(enc, run, n, j)
    requires Compact(enc) && |lessons| < 1800
    requires At(enc, run, n).episode.None? && At(enc, run, n + 1).episode.None?
    requires At(enc, run, n).ring == front + lessons
    requires forall i :: 0 <= i < |lessons| ==>
      Cutoff(run[n].o.finishedNs) <= lessons[i].start < lessons[i].end
    ensures Endpoints(run[j].o, run[n].o)
    ensures At(enc, run, n + 1).ring == front' + (lessons + [Lesson(run[j].o, run[n].o)])
  {
    hide At, Compact, Linked, Closes;
    ClosingTeaches(enc, run, n, j);
    var more := lessons + [Lesson(run[j].o, run[n].o)];
    CompactFits(enc, lessons);
    CompactFits(enc, more);
    RecentStart(enc, run, n, j);
    var kept := PrunedKeepsNewest(enc, front, lessons, run[n].o.finishedNs);
    assert (kept + lessons) + [Lesson(run[j].o, run[n].o)] == kept + more;
    front' := PrunedKeepsNewest(enc, kept, more, run[n].o.finishedNs);
    hide Pruned, Fits, Cutoff;
  }

  lemma RecentStart(enc: Encoder, run: seq<Event>, n: nat, j: nat)
    requires j < n < |run| && run[j].Observe? && Closes(enc, run, n, j)
    ensures Cutoff(run[n].o.finishedNs) <= run[j].o.finishedNs < run[n].o.finishedNs
  {
    LinkedFacts(run[j].o, run[n].o);
    hide At, Linked;
  }

  lemma PrefixRecent(enc: Encoder, run: seq<Event>, idx: seq<nat>)
    requires Chain(enc, run, idx) && |idx| >= 2 && Span(run, idx) <= 1_800_000_000_000
    ensures var prefix := idx[..|idx| - 1];
      && Chain(enc, run, prefix) && Span(run, prefix) <= 1_800_000_000_000 && |Lessons(run, prefix)| < 1800
      && forall i :: 0 <= i < |Lessons(run, prefix)| ==>
           Cutoff(run[idx[|idx| - 1]].o.finishedNs) <= Lessons(run, prefix)[i].start < Lessons(run, prefix)[i].end
  {
    hide At, Linked, Undisturbed;
    PrefixChain(enc, run, idx);
    LinkedFacts(run[idx[|idx| - 2]].o, run[idx[|idx| - 1]].o);
    LessonsInside(enc, run, idx[..|idx| - 1]);
    ChainLength(enc, run, idx);
    hide Lessons;
  }

  /** The last link of a chain whose second to last observation was taken as an endpoint. */
  lemma LastLinkCloses(enc: Encoder, run: seq<Event>, idx: seq<nat>)
    requires Chain(enc, run, idx) && |idx| >= 2
    requires At(enc, run, idx[|idx| - 2] + 1).previous == Some(run[idx[|idx| - 2]].o)
    ensures Closes(enc, run, idx[|idx| - 1], idx[|idx| - 2]) && idx[|idx| - 2] < idx[|idx| - 1]
    ensures At(enc, run, idx[|idx| - 1]) == At(enc, run, idx[|idx| - 2] + 1)
    ensures At(enc, run, idx[|idx| - 1] + 1).previous == Some(run[idx[|idx| - 1]].o)
  {
    hide At, Linked, Undisturbed, Closes, LastEndpoint;
    NextLinkCloses(enc, run, idx, |idx| - 1);
    TrackEndpoint(enc, run, idx[|idx| - 1], idx[|idx| - 2]);
  }

  lemma OneMoreLink(enc: Encoder, run: seq<Event>, idx: seq<nat>, before: seq<Interval>)
    returns (front: seq<Interval>)
    requires Chain(enc, run, idx) && |idx| >= 2 && Compact(enc) && Span(run, idx) <= 1_800_000_000_000
    requires Chain(enc, run, idx[..|idx| - 1])
    requires At(enc, run, idx[|idx| - 1]).episode.None? && At(enc, run, idx[|idx| - 1] + 1).episode.None?
    requires At(enc, run, idx[|idx| - 2] + 1).previous == Some(run[idx[|idx| - 2]].o)
    requires At(enc, run, idx[|idx| - 2] + 1).ring == before + Lessons(run, idx[..|idx| - 1])
    ensures At(enc, run, idx[|idx| - 1] + 1).ring == front + Lessons(run, idx)
    ensures At(enc, run, idx[|idx| - 1] + 1).previous == Some(run[idx[|idx| - 1]].o)
  {
    hide At, Compact, Linked, Undisturbed, Closes;
    PrefixRecent(enc, run, idx);
    LastLinkCloses(enc, run, idx);
    LastLesson(enc, run, idx);
    hide Lessons, Cutoff;
    front := OneMoreLesson(enc, run, idx[|idx| - 1], idx[|idx| - 2], before, Lessons(run, idx[..|idx| - 1]));
  }

  /** A calm chain of at most half an hour ends the ring with all of its intervals. */
  lemma {:induction false} RingEndsWithChain(enc: Encoder, run: seq<Event>, idx: seq<nat>)
    returns (front: seq<Interval>)
    requires Chain(enc, run, idx) && |idx| >= 1 && Begins(enc, run, idx) && Calm(enc, run, idx) && Compact(enc)
    requires Span(run, idx) <= 1_800_000_000_000
    ensures At(enc, run, idx[|idx| - 1] + 1).ring == front + Lessons(run, idx)
    ensures At(enc, run, idx[|idx| - 1] + 1).previous == Some(run[idx[|idx| - 1]].o)
    decreases |idx|
  {
    hide At, Compact, Linked, Undisturbed, Lessons, Calm;
    if |idx| == 1 {
      NoLessons(run, idx);
      front := At(enc, run, idx[0] + 1).ring;
    } else {
      PrefixChain(enc, run, idx);
      PrefixCalm(enc, run, idx);
      PrefixSpan(enc, run, idx);
      var before := RingEndsWithChain(enc, run, idx[..|idx| - 1]);
      front := OneMoreLink(enc, run, idx, before);
    }
  }

  lemma PrefixSpan(enc: Encoder, run: seq<Event>, idx: seq<nat>)
    requires Chain(enc, run, idx) && |idx| >= 2 && Begins(enc, run, idx) && Chain(enc, run, idx[..|idx| - 1])
    ensures Span(run, idx[..|idx| - 1]) <= Span(run, idx) && Begins(enc, run, idx[..|idx| - 1])
  {
    LinkedFacts(run[idx[|idx| - 2]].o, run[idx[|idx| - 1]].o);
    hide At, Linked, Undisturbed;
  }

  lemma PrefixCalm(enc: Encoder, run: seq<Event>, idx: seq<nat>)
    requires Chain(enc, run, idx) && |idx| >= 2 && Calm(enc, run, idx)
    requires Chain(enc, run, idx[..|idx| - 1])
    ensures Calm(enc, run, idx[..|idx| - 1])
    ensures At(enc, run, idx[|idx| - 1]).episode.None? && At(enc, run, idx[|idx| - 1] + 1).episode.None?
  {
    hide At, Chain;
  }

  /** After a calm chain of at least 60 intervals that covers ten minutes within the last half hour the
      training is ready, whatever happened before. */
  lemma TrainingBecomesReady(enc: Encoder, run: seq<Event>, idx: seq<nat>)
    requires Chain(enc, run, idx) && |idx| >= 61 && Begins(enc, run, idx) && Calm(enc, run, idx) && Compact(enc)
    requires 600_000_000_000 <= Span(run, idx) <= 1_800_000_000_000
    ensures Summarise(At(enc, run, idx[|idx| - 1] + 1).ring, run[idx[|idx| - 1]].o.finishedNs).reference.Some?
  {
    var front := RingEndsWithChain(enc, run, idx);
    ReadyFrom(enc, run, idx, front, run[idx[|idx| - 1]].o.finishedNs);
    hide Chain, Lessons, Summarise, At;
  }

  lemma ReadyFrom(enc: Encoder, run: seq<Event>, idx: seq<nat>, front: seq<Interval>, now: nat)
    requires Chain(enc, run, idx) && |idx| >= 61 && Span(run, idx) >= 600_000_000_000
    requires now <= run[idx[0]].o.finishedNs + 1_800_000_000_000
    ensures Summarise(front + Lessons(run, idx), now).reference.Some?
  {
    hide At, Linked, Undisturbed, Lessons, Weights;
    ChainWeight(enc, run, idx, Cutoff(now));
    WeightsAppend(front, Lessons(run, idx), Cutoff(now));
    SumsAppend(Weights(front, Cutoff(now)), Weights(Lessons(run, idx), Cutoff(now)), 0.0);
    hide Total, Chain;
  }

  /** What a calm chain taught still counts for the next observation within the same half hour. */
  lemma TaughtReference(enc: Encoder, run: seq<Event>, idx: seq<nat>, n: nat)
    requires Chain(enc, run, idx) && |idx| >= 61 && Begins(enc, run, idx) && Calm(enc, run, idx) && Compact(enc)
    requires Span(run, idx) >= 600_000_000_000 && n < |run| && run[n].Observe?
    requires run[idx[|idx| - 1]].o.finishedNs <= run[n].o.finishedNs <= run[idx[0]].o.finishedNs + 1_800_000_000_000
    requires At(enc, run, n) == At(enc, run, idx[|idx| - 1] + 1)
    ensures Reference(enc, run, n).Some?
  {
    hide At, Linked, Undisturbed, Calm, Begins, Compact, Lessons;
    var front := RingEndsWithChain(enc, run, idx);
    LessonsInside(enc, run, idx);
    ChainLength(enc, run, idx);
    CompactFits(enc, Lessons(run, idx));
    var kept := PrunedKeepsNewest(enc, front, Lessons(run, idx), run[n].o.finishedNs);
    ReadyFrom(enc, run, idx, kept, run[n].o.finishedNs);
    hide Fits, Pruned, Summarise;
  }

  /** The links of a chain above the threshold of its first link. */
  ghost predicate AllElevated(enc: Encoder, run: seq<Event>, idx: seq<nat>)
    requires Chain(enc, run, idx) && |idx| >= 2
  {
    forall k :: 0 < k < |idx| ==>
      Endpoints(run[idx[k - 1]].o, run[idx[k]].o)
      && Elevated(Reference(enc, run, idx[1]), Speed(run[idx[k - 1]].o, run[idx[k]].o))
  }

  lemma ElevatedIsAbove(enc: Encoder, run: seq<Event>, idx: seq<nat>)
    requires Chain(enc, run, idx) && |idx| >= 2 && AllElevated(enc, run, idx)
    ensures var s := Summarise(Aged(enc, run, idx[1]), run[idx[1]].o.finishedNs);
      s.high.Some? && AllAbove(enc, run, idx, s.high.value)
  {
    var s := Summarise(Aged(enc, run, idx[1]), run[idx[1]].o.finishedNs);
    hide At, Aged, Summarise, Undisturbed;
    SummaryNumbers(Aged(enc, run, idx[1]), run[idx[1]].o.finishedNs);
    assert Elevated(s.reference, Speed(run[idx[0]].o, run[idx[1]].o));
    hide Elevated, RateAt, Speed;
    forall k | 0 < k < |idx| ensures RateAt(run, idx, k) > s.high.value {
      RateIsSpeed(run, idx, k);
      assert Elevated(s.reference, Speed(run[idx[k - 1]].o, run[idx[k]].o));
    }
  }

  lemma RateIsSpeed(run: seq<Event>, idx: seq<nat>, k: nat)
    requires 0 < k < |idx| && idx[k - 1] < |run| && idx[k] < |run|
    requires run[idx[k - 1]].Observe? && run[idx[k]].Observe? && Linked(run[idx[k - 1]].o, run[idx[k]].o)
    ensures Endpoints(run[idx[k - 1]].o, run[idx[k]].o)
    ensures RateAt(run, idx, k) == Speed(run[idx[k - 1]].o, run[idx[k]].o)
  {
  }

  /** End to end: after ten calm minutes within the last half hour there is a reference, and two minutes
      above three times it and a megabyte per second above it open a finding. */
  lemma TrainedThenHighOpens(enc: Encoder, run: seq<Event>, idx: seq<nat>, high: seq<nat>)
    requires Chain(enc, run, idx) && |idx| >= 61 && Begins(enc, run, idx) && Calm(enc, run, idx) && Compact(enc)
    requires Chain(enc, run, high) && |high| >= 3 && high[0] == idx[|idx| - 1] && Span(run, idx) >= 600_000_000_000
    requires run[high[1]].o.finishedNs <= run[idx[0]].o.finishedNs + 1_800_000_000_000
    requires forall i :: 0 < i < |high| - 1 ==>
      run[high[i]].o.finishedNs - run[high[0]].o.finishedNs < 120_000_000_000
    requires Span(run, high) >= 120_000_000_000
    ensures Reference(enc, run, high[1]).Some?
    ensures AllElevated(enc, run, high) ==> Opens(enc, run, high[|high| - 1])
  {
    hide At, Step, DetectorOk, Linked, Begins, Calm, Compact, Opens, AllElevated;
    FirstLinkAt(enc, run, high);
    LastIsEndpoint(enc, run, idx);
    TaughtReference(enc, run, idx, high[1]);
    if AllElevated(enc, run, high) {
      ElevatedIsAbove(enc, run, high);
      SustainedHighOpens(enc, run, high, Summarise(Aged(enc, run, high[1]), run[high[1]].o.finishedNs));
    }
    hide Pruned, Summarise;
  }

  lemma LastIsEndpoint(enc: Encoder, run: seq<Event>, idx: seq<nat>)
    requires Chain(enc, run, idx) && |idx| >= 61 && Begins(enc, run, idx) && Calm(enc, run, idx) && Compact(enc)
    requires Span(run, idx) <= 1_800_000_000_000
    ensures At(enc, run, idx[|idx| - 1] + 1).previous == Some(run[idx[|idx| - 1]].o)
    ensures At(enc, run, idx[|idx| - 1] + 1).episode.None?
  {
    hide At, Chain, Compact;
    var _ := RingEndsWithChain(enc, run, idx);
  }

  lemma FirstLinkAt(enc: Encoder, run: seq<Event>, idx: seq<nat>)
    requires Chain(enc, run, idx) && |idx| >= 2
    ensures At(enc, run, idx[1]) == At(enc, run, idx[0] + 1)
    ensures run[idx[0]].o.finishedNs <= run[idx[1]].o.finishedNs
  {
    hide At;
    SameUntil(enc, run, idx[0], idx[0] + 1, idx[1]);
    LinkedFacts(run[idx[0]].o, run[idx[1]].o);
  }

  /** A finding opens only on observations each above three times the reference and a megabyte per second
      above it, for 120 to 135 s; the reference is the percentile of the training at the first of them. */
  lemma OpeningInNumbers(enc: Encoder, run: seq<Event>, n: nat) returns (idx: seq<nat>)
    requires n < |run| && Opens(enc, run, n)
    ensures |idx| >= 2 && Chain(enc, run, idx) && idx[|idx| - 1] == n
    ensures 120_000_000_000 <= Span(run, idx) < 135_000_000_000
    ensures var b := At(enc, run, n + 1).episode.value.baseline;
      && Summarises(b, At(enc, run, idx[1] + 1).ring, run[idx[1]].o.finishedNs)
      && forall k :: 0 < k < |idx| ==>
           Endpoints(run[idx[k - 1]].o, run[idx[k]].o) && Elevated(b.reference, Speed(run[idx[k - 1]].o, run[idx[k]].o))
  {
    hide At, Step, DetectorOk, Undisturbed, Summarises;
    idx := OpeningNeedsSustainedHigh(enc, run, n);
    var e := At(enc, run, n + 1).episode.value;
    hide Linked, RateAt, Elevated, Speed;
    forall k | 0 < k < |idx|
      ensures Endpoints(run[idx[k - 1]].o, run[idx[k]].o)
        && Elevated(e.baseline.reference, Speed(run[idx[k - 1]].o, run[idx[k]].o))
    {
      RateIsSpeed(run, idx, k);
      FrozenNumbers(e, RateAt(run, idx, k));
    }
  }

  lemma FrozenNumbers(e: Episode, speed: real)
    requires Frozen(e)
    ensures speed > e.baseline.high.value <==> Elevated(e.baseline.reference, speed)
    ensures speed <= e.baseline.low.value <==> Subsided(e.baseline.reference, speed)
  {
  }

  /** A finding resolves only on observations each at most twice that reference or at most half a megabyte
      per second above it, for 60 to 75 s. */
  lemma ResolutionInNumbers(enc: Encoder, run: seq<Event>, n: nat) returns (idx: seq<nat>)
    requires n < |run| && Resolves(enc, run, n)
    ensures |idx| >= 2 && Chain(enc, run, idx) && idx[|idx| - 1] == n && At(enc, run, n).episode.Some?
    ensures 60_000_000_000 <= Span(run, idx) < 75_000_000_000
    ensures var b := At(enc, run, n).episode.value.baseline;
      forall k :: 0 < k < |idx| ==>
        Endpoints(run[idx[k - 1]].o, run[idx[k]].o) && Subsided(b.reference, Speed(run[idx[k - 1]].o, run[idx[k]].o))
  {
    hide At, Step, DetectorOk, Undisturbed;
    idx := ResolutionNeedsSustainedLow(enc, run, n);
    var e := At(enc, run, n).episode.value;
    hide Linked, RateAt, Subsided, Speed;
    forall k | 0 < k < |idx|
      ensures Endpoints(run[idx[k - 1]].o, run[idx[k]].o)
        && Subsided(e.baseline.reference, Speed(run[idx[k - 1]].o, run[idx[k]].o))
    {
      RateIsSpeed(run, idx, k);
      FrozenNumbers(e, RateAt(run, idx, k));
    }
  }
}
