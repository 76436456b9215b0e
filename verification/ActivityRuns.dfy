/**
 Whole runs of the activity detector: what must have been observed before a finding opens, and
 what must have been observed before it resolves.  A run is any sequence of observations (delayed,
 duplicated, failed, on any clock), interruptions, rebaselines and re-activations.
 */
module ActivityRuns {
  import opened Wrappers
  import opened TrainingRing
  import opened ActivityDetector

  datatype Event =
    | Observe(o: Observation)
    | Interrupt(reason: string, now: int)
    | Rebaseline(reason: string, now: int)
    | Activate

  ghost function Step(enc: Encoder, s: State, e: Event): (r: Outcome)
    requires DetectorOk(enc, s)
    ensures DetectorOk(enc, r.state)
  {
    match e
    case Observe(o) => ObservedOk(enc, s, o); Observed(enc, s, o)
    case Interrupt(reason, now) => Stopped(s, reason, now)
    case Rebaseline(reason, now) => Rebaselined(s, reason, now)
    case Activate => Outcome(s.(active := true), [])
  }

  /** The persisted state before event n of a run. */
  ghost function At(enc: Encoder, run: seq<Event>, n: nat): (s: State)
    requires n <= |run|
    ensures DetectorOk(enc, s)
    decreases n
  {
    if n == 0 then INITIAL else Step(enc, At(enc, run, n - 1), run[n - 1]).state
  }

  ghost function Emitted(enc: Encoder, run: seq<Event>, n: nat): seq<Finding>
    requires n < |run|
  {
    Step(enc, At(enc, run, n), run[n]).findings
  }

  // ---- Gap-free chains, stated on the observations alone ----

  /** Two usable endpoints of one continuity domain: different collections, 1-15 s apart on the
      monotonic clock, received in order within 15 s, counter not falling. */
  predicate Linked(a: Observation, b: Observation) {
    && Endpoint(a) && Endpoint(b)
    && a.collectionId != b.collectionId
    && a.continuity == b.continuity
    && SpacingUsable(a, b)
    && a.counter.value <= b.counter.value
  }

  /** The events strictly between i and j left the detector exactly as it was. */
  ghost predicate Undisturbed(enc: Encoder, run: seq<Event>, i: nat, j: nat)
    requires j <= |run|
  {
    forall m :: i < m < j ==> At(enc, run, m + 1) == At(enc, run, m)
  }

  ghost predicate Chain(enc: Encoder, run: seq<Event>, idx: seq<nat>) {
    && (forall k :: 0 <= k < |idx| ==> idx[k] < |run| && run[idx[k]].Observe?)
    && (forall k :: 0 < k < |idx| ==>
          && idx[k - 1] < idx[k]
          && Linked(run[idx[k - 1]].o, run[idx[k]].o)
          && Undisturbed(enc, run, idx[k - 1], idx[k]))
  }

  function RateAt(run: seq<Event>, idx: seq<nat>, k: nat): real
    requires 0 < k < |idx| && idx[k - 1] < |run| && idx[k] < |run|
    requires run[idx[k - 1]].Observe? && run[idx[k]].Observe? && Linked(run[idx[k - 1]].o, run[idx[k]].o)
  {
    LinkOf(run[idx[k - 1]].o, run[idx[k]].o).rate
  }

  ghost predicate AllAbove(enc: Encoder, run: seq<Event>, idx: seq<nat>, high: real)
    requires Chain(enc, run, idx)
  {
    forall k :: 0 < k < |idx| ==> RateAt(run, idx, k) > high
  }

  ghost predicate AllAtMost(enc: Encoder, run: seq<Event>, idx: seq<nat>, low: real)
    requires Chain(enc, run, idx)
  {
    forall k :: 0 < k < |idx| ==> RateAt(run, idx, k) <= low
  }

  /** Last end minus first start. */
  function Span(run: seq<Event>, idx: seq<nat>): int
    requires |idx| > 0 && idx[0] < |run| && idx[|idx| - 1] < |run|
    requires run[idx[0]].Observe? && run[idx[|idx| - 1]].Observe?
  {
    run[idx[|idx| - 1]].o.finishedNs - run[idx[0]].o.finishedNs
  }

  predicate HasFinding(s: State) {
    s.episode.Some? && s.episode.value.finding.Some?
  }

  // ---- What the state remembers of the run ----

  datatype Witness = Witness(last: nat, high: seq<nat>, low: seq<nat>)

  ghost predicate LastEndpoint(enc: Encoder, run: seq<Event>, n: nat, j: nat)
    requires n <= |run|
  {
    && j < n && run[j].Observe?
    && At(enc, run, n).previous == Some(run[j].o)
    && Undisturbed(enc, run, j, n)
  }

  /** high is a chain above the onset threshold frozen from the training at its first link. */
  ghost predicate HighWitness(enc: Encoder, run: seq<Event>, high: seq<nat>, last: nat, e: Episode) {
    && |high| >= 2 && Chain(enc, run, high) && high[|high| - 1] == last
    && Frozen(e) && AllAbove(enc, run, high, e.baseline.high.value)
    && e.evidence.elevatedNs == Span(run, high)
    && e.evidence.first == LinkOf(run[high[0]].o, run[high[1]].o)
    && e.baseline == Summarise(At(enc, run, high[1] + 1).ring, run[high[1]].o.finishedNs)
  }

  /** low is a chain at or below the frozen recovery threshold; up to event n the finding was open
      with that same baseline. */
  ghost predicate LowWitness(enc: Encoder, run: seq<Event>, n: nat, low: seq<nat>, last: nat, baseline: Summary,
          recoveryNs: nat)
    requires n <= |run|
  {
    && |low| >= 2 && Chain(enc, run, low) && low[|low| - 1] == last && low[0] < n
    && baseline.low.Some? && AllAtMost(enc, run, low, baseline.low.value)
    && recoveryNs == Span(run, low)
    && (forall m :: low[0] < m <= n ==> OpenWith(At(enc, run, m), baseline))
  }

  predicate OpenWith(s: State, baseline: Summary) {
    HasFinding(s) && s.episode.value.baseline == baseline
  }

  ghost predicate Tracks(enc: Encoder, run: seq<Event>, n: nat, w: Witness)
    requires n <= |run|
  {
    var s := At(enc, run, n);
    && (!s.active ==> s.previous.None? && s.episode.None?)
    && (s.previous.Some? ==> LastEndpoint(enc, run, n, w.last))
    && EpisodeTracked(enc, run, n, w)
  }

  ghost predicate EpisodeTracked(enc: Encoder, run: seq<Event>, n: nat, w: Witness)
    requires n <= |run|
  {
    At(enc, run, n).episode.Some? ==>
      var e := At(enc, run, n).episode.value;
      && (e.finding.None? ==> HighWitness(enc, run, w.high, w.last, e))
      && (e.evidence.recoveryNs > 0 ==> LowWitness(enc, run, n, w.low, w.last, e.baseline, e.evidence.recoveryNs))
  }

  lemma ExtendChain(enc: Encoder, run: seq<Event>, idx: seq<nat>, n: nat)
    requires Chain(enc, run, idx) && |idx| >= 1 && n < |run| && run[n].Observe?
    requires idx[|idx| - 1] < n && Undisturbed(enc, run, idx[|idx| - 1], n)
    requires Linked(run[idx[|idx| - 1]].o, run[n].o)
    ensures Chain(enc, run, idx + [n])
    ensures Span(run, idx + [n]) == Span(run, idx) + run[n].o.finishedNs - run[idx[|idx| - 1]].o.finishedNs
    ensures RateAt(run, idx + [n], |idx|) == LinkOf(run[idx[|idx| - 1]].o, run[n].o).rate
    ensures forall k :: 0 < k < |idx| ==> RateAt(run, idx + [n], k) == RateAt(run, idx, k)
  {
    var next := idx + [n];
    forall k | 0 < k < |next|
      ensures next[k - 1] < next[k] && Linked(run[next[k - 1]].o, run[next[k]].o)
        && Undisturbed(enc, run, next[k - 1], next[k])
    {
      if k < |idx| {
        assert next[k - 1] == idx[k - 1] && next[k] == idx[k];
      }
    }
    hide Linked, Undisturbed, LinkOf;
  }

  lemma ExtendAtMost(enc: Encoder, run: seq<Event>, idx: seq<nat>, n: nat, low: real)
    requires Chain(enc, run, idx) && Chain(enc, run, idx + [n]) && AllAtMost(enc, run, idx, low)
    requires |idx| >= 1 && RateAt(run, idx + [n], |idx|) <= low
    ensures AllAtMost(enc, run, idx + [n], low)
  {
    var next := idx + [n];
    forall k | 0 < k < |next| ensures RateAt(run, next, k) <= low {
      if k < |idx| {
        assert next[k - 1] == idx[k - 1] && next[k] == idx[k];
        assert RateAt(run, idx, k) <= low;
      }
    }
    hide Linked, Undisturbed, LinkOf;
  }

  lemma SpanPositive(enc: Encoder, run: seq<Event>, idx: seq<nat>)
    requires Chain(enc, run, idx) && |idx| >= 1
    ensures 0 <= Span(run, idx) <= MAX_U128
    decreases |idx|
  {
    if |idx| > 1 {
      var front := idx[..|idx| - 1];
      forall k | 0 < k < |front|
        ensures front[k - 1] < front[k] && Linked(run[front[k - 1]].o, run[front[k]].o)
          && Undisturbed(enc, run, front[k - 1], front[k])
      {
        assert front[k - 1] == idx[k - 1] && front[k] == idx[k];
      }
      SpanPositive(enc, run, front);
      assert Linked(run[idx[|idx| - 2]].o, run[idx[|idx| - 1]].o);
    }
  }

  /** An event that changes nothing keeps every witness. */
  lemma TrackIgnored(enc: Encoder, run: seq<Event>, n: nat, w: Witness)
    requires n < |run| && Tracks(enc, run, n, w) && At(enc, run, n + 1) == At(enc, run, n)
    ensures Tracks(enc, run, n + 1, w)
  {
    hide DetectorOk, Step;
  }

  /** A witness of one endpoint followed by the interval that event n closes. */
  lemma StartChain(enc: Encoder, run: seq<Event>, j: nat, n: nat)
    requires j < n < |run| && run[j].Observe? && run[n].Observe?
    requires Undisturbed(enc, run, j, n) && Linked(run[j].o, run[n].o)
    ensures Chain(enc, run, [j, n])
    ensures RateAt(run, [j, n], 1) == LinkOf(run[j].o, run[n].o).rate
  {
    assert [j] + [n] == [j, n];
    ExtendChain(enc, run, [j], n);
  }

  /** The interval that event n closes, when the detector could measure one. */
  ghost predicate Closes(enc: Encoder, run: seq<Event>, n: nat, j: nat)
    requires n < |run|
  {
    && run[n].Observe? && LastEndpoint(enc, run, n, j)
    && Admit(At(enc, run, n), run[n].o).Accept?
    && Linked(run[j].o, run[n].o)
  }

  ghost function Before(enc: Encoder, run: seq<Event>, n: nat): State
    requires n < |run| && run[n].Observe?
  {
    var s := At(enc, run, n);
    s.(active := true, watermark := Some(run[n].o), previous := Some(run[n].o),
      ring := Pruned(enc, s.ring, run[n].o.finishedNs))
  }

  lemma NormalEndpoint(o: Observation)
    requires Endpoint(o)
    ensures Normalized(o) == o
  {
  }

  /** What an interval-closing event does: exactly one episode step on the measured link. */
  lemma ClosingStep(enc: Encoder, run: seq<Event>, n: nat, j: nat)
    requires n < |run| && Closes(enc, run, n, j)
    ensures At(enc, run, n).episode.Some? ==> Frozen(At(enc, run, n).episode.value)
    ensures At(enc, run, n + 1) == Step(enc, At(enc, run, n), run[n]).state
    ensures var link := LinkOf(run[j].o, run[n].o);
      Step(enc, At(enc, run, n), run[n])
      == Advanced(enc, Before(enc, run, n).(lastRate := Some(link.rate), reason := None), link)
  {
    NormalEndpoint(run[n].o);
    hide DetectorOk, Advanced;
  }

  /** No pending candidate and no recovery streak. */
  predicate NoStreak(s: State) {
    s.episode.Some? ==> s.episode.value.finding.Some? && s.episode.value.evidence.recoveryNs == 0
  }

  lemma OtherAccepted(enc: Encoder, s: State, o: Observation)
    requires DetectorOk(enc, s) && Forward(s, o)
    requires s.previous.None? || !Linked(s.previous.value, o) || !Endpoint(o)
    requires s.previous.Some? ==>
      s.previous.value.continuity == o.continuity && s.previous.value.collectionId != o.collectionId
    ensures var r := Accepted(enc, s, o);
      && NoStreak(r.state) && r.state.active
      && (r.state.previous.None? || r.state.previous == Some(o))
      && (forall f :: f in r.findings ==> f.status == Open)
      && (HasFinding(r.state) <==> HasFinding(s))
  {
    hide Pruned, RingOk, Advanced, LinkOf;
    if Endpoint(o) {
      NormalEndpoint(o);
    }
  }

  /** Nothing changes, or no streak is left; nothing is resolved or opened. */
  ghost predicate Quiet(s: State, r: Outcome, e: Event) {
    && (r != Outcome(s, []) ==>
          && NoStreak(r.state)
          && (!r.state.active ==> r.state.episode.None? && r.state.previous.None?)
          && (r.state.previous.None? || (e.Observe? && r.state.previous == Some(e.o))))
    && (forall f :: f in r.findings ==> f.status != Resolved)
    && (HasFinding(r.state) ==> HasFinding(s))
  }

  lemma OtherSwitch(enc: Encoder, s: State, o: Observation)
    requires DetectorOk(enc, s)
    ensures Quiet(s, Switched(enc, s, o), Observe(o))
  {
    var stopped := Stopped(s, "identity_changed", o.receivedAtMs);
    StoppedOk(enc, s, "identity_changed", o.receivedAtMs);
    if s.revision < MAX_U64 {
      OtherAccepted(enc, stopped.state.(revision := s.revision + 1), o);
    }
    hide Accepted, RingOk, EpisodeOk;
  }

  lemma OtherObserved(enc: Encoder, s: State, o: Observation)
    requires DetectorOk(enc, s) && (!s.active ==> s.previous.None? && s.episode.None?)
    requires Admit(s, o).Accept? && s.previous.Some? ==> !Linked(s.previous.value, o) || !Endpoint(o)
    ensures Quiet(s, Observed(enc, s, o), Observe(o))
  {
    match Admit(s, o)
    case Ignore =>
    case Unproven =>
    case Accept =>
      OtherAccepted(enc, s, o);
      hide Accepted;
    case SwitchDomain =>
      OtherSwitch(enc, s, o);
      hide Switched;
  }

  /** Every event that does not close an interval either changes nothing or leaves no streak behind:
      it can neither open a finding nor resolve one. */
  lemma OtherSteps(enc: Encoder, run: seq<Event>, n: nat, w: Witness)
    requires n < |run| && Tracks(enc, run, n, w) && !Closes(enc, run, n, w.last)
    ensures At(enc, run, n + 1) == Step(enc, At(enc, run, n), run[n]).state
    ensures Quiet(At(enc, run, n), Step(enc, At(enc, run, n), run[n]), run[n])
  {
    var s := At(enc, run, n);
    hide Observed, EpisodeTracked, RingOk, EpisodeOk;
    match run[n]
    case Observe(o) =>
      OtherObserved(enc, s, o);
    case Interrupt(reason, now) =>
    case Rebaseline(reason, now) =>
    case Activate =>
  }

  lemma TrackOther(enc: Encoder, run: seq<Event>, n: nat, w: Witness) returns (w': Witness)
    requires n < |run| && Tracks(enc, run, n, w) && !Closes(enc, run, n, w.last)
    ensures Tracks(enc, run, n + 1, w')
  {
    OtherSteps(enc, run, n, w);
    hide DetectorOk, Step;
    if At(enc, run, n + 1) == At(enc, run, n) {
      TrackIgnored(enc, run, n, w);
      w' := w;
    } else {
      w' := w.(last := n);
    }
  }

  /** The endpoint moves to event n; whatever the episode became must be tracked by w'. */
  lemma TrackEndpoint(enc: Encoder, run: seq<Event>, n: nat, j: nat)
    requires n < |run| && Closes(enc, run, n, j)
    ensures var t := At(enc, run, n + 1);
      t.active && t.previous == Some(run[n].o) && LastEndpoint(enc, run, n + 1, n)
  {
    hide DetectorOk, Step, Admit, Pruned, Summarise, Summarises;
    ClosingStep(enc, run, n, j);
  }

  lemma FrozenAt(enc: Encoder, run: seq<Event>, n: nat)
    requires n <= |run|
    ensures At(enc, run, n).episode.Some? ==> Frozen(At(enc, run, n).episode.value)
  {
  }

  lemma TrackStart(enc: Encoder, run: seq<Event>, n: nat, w: Witness) returns (w': Witness)
    requires n < |run| && Tracks(enc, run, n, w) && Closes(enc, run, n, w.last)
    requires At(enc, run, n).episode.None?
    ensures w'.last == n && EpisodeTracked(enc, run, n + 1, w')
  {
    hide DetectorOk, Step, At, Pruned, Summarise, Summarises, Undisturbed;
    ClosingStep(enc, run, n, w.last);
    StartChain(enc, run, w.last, n);
    FrozenAt(enc, run, n + 1);
    w' := Witness(n, [w.last, n], w.low);
  }

  lemma TrackPending(enc: Encoder, run: seq<Event>, n: nat, w: Witness) returns (w': Witness)
    requires n < |run| && Tracks(enc, run, n, w) && Closes(enc, run, n, w.last)
    requires At(enc, run, n).episode.Some? && At(enc, run, n).episode.value.finding.None?
    ensures w'.last == n && EpisodeTracked(enc, run, n + 1, w')
    ensures At(enc, run, n + 1).episode.Some? ==> HighWitness(enc, run, w'.high, n, At(enc, run, n + 1).episode.value)
  {
    hide DetectorOk, Step, At, Pruned, Trained, Summarise, Summarises, Undisturbed;
    ClosingStep(enc, run, n, w.last);
    ExtendChain(enc, run, w.high, n);
    SpanPositive(enc, run, w.high + [n]);
    hide Chain;
    w' := Witness(n, w.high + [n], w.low);
  }

  lemma LowBegins(enc: Encoder, run: seq<Event>, n: nat, j: nat)
    requires n < |run| && Closes(enc, run, n, j) && HasFinding(At(enc, run, n)) && Frozen(At(enc, run, n).episode.value)
    requires LinkOf(run[j].o, run[n].o).rate <= At(enc, run, n).episode.value.baseline.low.value
    ensures var dt := run[n].o.finishedNs - run[j].o.finishedNs;
      0 <= dt <= MAX_U128 && LowWitness(enc, run, n, [j, n], n, At(enc, run, n).episode.value.baseline, dt)
  {
    hide DetectorOk, Step, At;
    StartChain(enc, run, j, n);
    forall m | j < m <= n ensures At(enc, run, m) == At(enc, run, n) {
      SameUntil(enc, run, j, m, n);
    }
  }

  lemma LowContinues(enc: Encoder, run: seq<Event>, n: nat, w: Witness)
    requires n < |run| && Closes(enc, run, n, w.last) && HasFinding(At(enc, run, n))
      && Frozen(At(enc, run, n).episode.value)
    requires LinkOf(run[w.last].o, run[n].o).rate <= At(enc, run, n).episode.value.baseline.low.value
    requires At(enc, run, n).episode.value.evidence.recoveryNs > 0 && EpisodeTracked(enc, run, n, w)
    ensures var e := At(enc, run, n).episode.value;
      var total := e.evidence.recoveryNs + run[n].o.finishedNs - run[w.last].o.finishedNs;
      0 <= total <= MAX_U128 && LowWitness(enc, run, n, w.low + [n], n, e.baseline, total)
  {
    hide DetectorOk, Step, At;
    ExtendChain(enc, run, w.low, n);
    ExtendAtMost(enc, run, w.low, n, At(enc, run, n).episode.value.baseline.low.value);
    SpanPositive(enc, run, w.low + [n]);
    hide Chain, AllAtMost, OpenWith, LinkOf, Linked, Undisturbed;
  }

  lemma TrackLow(enc: Encoder, run: seq<Event>, n: nat, w: Witness) returns (low: seq<nat>)
    requires n < |run| && Tracks(enc, run, n, w) && Closes(enc, run, n, w.last) && HasFinding(At(enc, run, n))
    requires Frozen(At(enc, run, n).episode.value)
    requires LinkOf(run[w.last].o, run[n].o).rate <= At(enc, run, n).episode.value.baseline.low.value
    ensures var e := At(enc, run, n).episode.value;
      var total := e.evidence.recoveryNs + run[n].o.finishedNs - run[w.last].o.finishedNs;
      0 <= total <= MAX_U128 && LowWitness(enc, run, n, low, n, e.baseline, total)
  {
    hide DetectorOk, Step, At, EpisodeTracked, LowWitness;
    if At(enc, run, n).episode.value.evidence.recoveryNs > 0 {
      LowContinues(enc, run, n, w);
      low := w.low + [n];
    } else {
      LowBegins(enc, run, n, w.last);
      low := [w.last, n];
    }
  }

  lemma SameUntil(enc: Encoder, run: seq<Event>, j: nat, m: nat, n: nat)
    requires j < m <= n <= |run| && Undisturbed(enc, run, j, n)
    ensures At(enc, run, m) == At(enc, run, n)
    decreases n - m
  {
    hide DetectorOk, Step;
    if m < n {
      SameUntil(enc, run, j, m + 1, n);
    }
  }

  lemma LowWitnessStep(enc: Encoder, run: seq<Event>, n: nat, low: seq<nat>, last: nat, baseline: Summary,
          recoveryNs: nat)
    requires n < |run| && LowWitness(enc, run, n, low, last, baseline, recoveryNs)
    requires OpenWith(At(enc, run, n + 1), baseline)
    ensures LowWitness(enc, run, n + 1, low, last, baseline, recoveryNs)
  {
    hide DetectorOk, Step, At, Chain, OpenWith;
  }

  lemma TrackOpen(enc: Encoder, run: seq<Event>, n: nat, w: Witness) returns (w': Witness)
    requires n < |run| && Tracks(enc, run, n, w) && Closes(enc, run, n, w.last) && HasFinding(At(enc, run, n))
    ensures w'.last == n && EpisodeTracked(enc, run, n + 1, w')
  {
    hide DetectorOk, Step, At, Pruned, Summarise, Summarises, Tracks, LowWitness, HighWitness;
    var e := At(enc, run, n).episode.value;
    FrozenAt(enc, run, n);
    ClosingStep(enc, run, n, w.last);
    w' := Witness(n, w.high, w.low);
    var link := LinkOf(run[w.last].o, run[n].o);
    if link.rate <= e.baseline.low.value {
      var low := TrackLow(enc, run, n, w);
      w' := w'.(low := low);
      if At(enc, run, n + 1).episode.Some? {
        LowWitnessStep(enc, run, n, low, n, e.baseline, e.evidence.recoveryNs + link.endNs - link.startNs);
      }
    }
  }

  lemma TrackClosing(enc: Encoder, run: seq<Event>, n: nat, w: Witness) returns (w': Witness)
    requires n < |run| && Tracks(enc, run, n, w) && Closes(enc, run, n, w.last)
    ensures Tracks(enc, run, n + 1, w')
  {
    hide DetectorOk, Step, At, EpisodeTracked;
    TrackEndpoint(enc, run, n, w.last);
    if At(enc, run, n).episode.None? {
      w' := TrackStart(enc, run, n, w);
    } else if HasFinding(At(enc, run, n)) {
      w' := TrackOpen(enc, run, n, w);
    } else {
      w' := TrackPending(enc, run, n, w);
    }
  }

  lemma TrackInitial(enc: Encoder, run: seq<Event>)
    ensures Tracks(enc, run, 0, Witness(0, [], []))
  {
  }

  /** At every moment of every run the episode's bookkeeping is witnessed by observations. */
  lemma {:induction false} TrackAll(enc: Encoder, run: seq<Event>, n: nat) returns (w: Witness)
    requires n <= |run|
    ensures Tracks(enc, run, n, w)
    decreases n
  {
    hide DetectorOk, Step, At, Closes, Tracks;
    if n == 0 {
      w := Witness(0, [], []);
      TrackInitial(enc, run);
    } else {
      var w0 := TrackAll(enc, run, n - 1);
      if Closes(enc, run, n - 1, w0.last) {
        w := TrackClosing(enc, run, n - 1, w0);
      } else {
        w := TrackOther(enc, run, n - 1, w0);
      }
    }
  }

  // ---- The main results ----

  /** A finding is open after event n that was not open before it. */
  ghost predicate Opens(enc: Encoder, run: seq<Event>, n: nat)
    requires n < |run|
  {
    !HasFinding(At(enc, run, n)) && HasFinding(At(enc, run, n + 1))
  }

  ghost predicate Resolves(enc: Encoder, run: seq<Event>, n: nat)
    requires n < |run|
  {
    exists f :: f in Emitted(enc, run, n) && f.status == Resolved
  }

  /** A finding opens only at the end of a gap-free chain of observations in one continuity domain,
      every link above the onset threshold that was frozen from the training at the chain's first
      link, for at least 120 s and less than 135 s, and that duration is what the evidence reports. */
  lemma OpeningNeedsSustainedHigh(enc: Encoder, run: seq<Event>, n: nat) returns (idx: seq<nat>)
    requires n < |run| && Opens(enc, run, n)
    ensures |idx| >= 2 && Chain(enc, run, idx) && idx[|idx| - 1] == n
    ensures var e := At(enc, run, n + 1).episode.value;
      && Frozen(e) && AllAbove(enc, run, idx, e.baseline.high.value)
      && e.baseline == Summarise(At(enc, run, idx[1] + 1).ring, run[idx[1]].o.finishedNs)
      && e.evidence.elevatedNs == Span(run, idx)
      && e.evidence.first == LinkOf(run[idx[0]].o, run[idx[1]].o)
    ensures OPENING_NS <= Span(run, idx) < OPENING_NS + 15 * SECOND
  {
    hide Step, At, Chain, Tracks, Pruned, Summarise, Summarises;
    var w := TrackAll(enc, run, n);
    if !Closes(enc, run, n, w.last) {
      OtherSteps(enc, run, n, w);
      assert false;
    }
    ClosingStep(enc, run, n, w.last);
    var s := At(enc, run, n);
    if s.episode.None? {
      assert false;
    }
    var w' := TrackPending(enc, run, n, w);
    idx := w'.high;
  }

  /** A finding resolves only at the end of a gap-free chain of observations at or below its frozen
      recovery threshold, for at least 60 s and less than 75 s, during all of which it was open.
      A failure, a gap, a counter reset, a clock change or a rebaseline therefore never resolves it. */
  lemma ResolutionNeedsSustainedLow(enc: Encoder, run: seq<Event>, n: nat) returns (idx: seq<nat>)
    requires n < |run| && Resolves(enc, run, n)
    ensures |idx| >= 2 && Chain(enc, run, idx) && idx[|idx| - 1] == n
    ensures HasFinding(At(enc, run, n)) && Frozen(At(enc, run, n).episode.value)
    ensures AllAtMost(enc, run, idx, At(enc, run, n).episode.value.baseline.low.value)
    ensures RECOVERY_NS <= Span(run, idx) < RECOVERY_NS + 15 * SECOND
    ensures forall m :: idx[0] < m <= n ==>
      HasFinding(At(enc, run, m)) && At(enc, run, m).episode.value.baseline == At(enc, run, n).episode.value.baseline
    ensures At(enc, run, n + 1).episode.None?
  {
    hide Step, At, Chain, Tracks, Pruned, Summarise, Summarises;
    var w := TrackAll(enc, run, n);
    if !Closes(enc, run, n, w.last) {
      OtherSteps(enc, run, n, w);
      assert false;
    }
    ClosingStep(enc, run, n, w.last);
    var s := At(enc, run, n);
    if !HasFinding(s) || LinkOf(run[w.last].o, run[n].o).rate > s.episode.value.baseline.low.value {
      assert false;
    }
    idx := TrackLow(enc, run, n, w);
  }

  /** The detector after k + 1 links of a chain that stays above the threshold frozen at its start. */
  ghost predicate PendingAfter(enc: Encoder, run: seq<Event>, idx: seq<nat>, k: nat, baseline: Summary)
    requires Chain(enc, run, idx) && 0 < k < |idx|
  {
    var s := At(enc, run, idx[k] + 1);
    && s.previous == Some(run[idx[k]].o)
    && s.episode.Some? && s.episode.value.finding.None? && s.episode.value.baseline == baseline
    && s.episode.value.evidence.elevatedNs == run[idx[k]].o.finishedNs - run[idx[0]].o.finishedNs
  }

  lemma NextLinkCloses(enc: Encoder, run: seq<Event>, idx: seq<nat>, k: nat)
    requires Chain(enc, run, idx) && 0 < k < |idx|
    requires At(enc, run, idx[k - 1] + 1).previous == Some(run[idx[k - 1]].o)
    ensures At(enc, run, idx[k]) == At(enc, run, idx[k - 1] + 1)
    ensures Closes(enc, run, idx[k], idx[k - 1])
  {
    hide At, Step, DetectorOk, Endpoint, SpacingUsable;
    SameUntil(enc, run, idx[k - 1], idx[k - 1] + 1, idx[k]);
    WatermarkIsPrevious(enc, run, idx[k]);
    assert Linked(run[idx[k - 1]].o, run[idx[k]].o) && run[idx[k - 1]].o.finishedNs < run[idx[k]].o.finishedNs by {
      Later(run[idx[k - 1]].o, run[idx[k]].o);
    }
  }

  lemma Later(a: Observation, b: Observation)
    requires Linked(a, b)
    ensures a.finishedNs < b.finishedNs
  {
  }

  lemma WatermarkIsPrevious(enc: Encoder, run: seq<Event>, n: nat)
    requires n <= |run|
    ensures At(enc, run, n).previous.Some? ==> At(enc, run, n).watermark == At(enc, run, n).previous
  {
  }

  lemma FirstLinkPends(enc: Encoder, run: seq<Event>, idx: seq<nat>, baseline: Summary)
    requires Chain(enc, run, idx) && |idx| >= 2
    requires At(enc, run, idx[0] + 1).previous == Some(run[idx[0]].o) && At(enc, run, idx[0] + 1).episode.None?
    requires baseline == Summarise(Before(enc, run, idx[1]).ring, run[idx[1]].o.finishedNs)
    requires baseline.high.Some? && RateAt(run, idx, 1) > baseline.high.value
    ensures PendingAfter(enc, run, idx, 1, baseline)
  {
    hide Step, DetectorOk, Pruned, Summarise, Summarises;
    NextLinkCloses(enc, run, idx, 1);
    ClosingStep(enc, run, idx[1], idx[0]);
    hide At, Chain;
  }

  lemma NextLinkPends(enc: Encoder, run: seq<Event>, idx: seq<nat>, k: nat, baseline: Summary)
    requires Chain(enc, run, idx) && 0 < k < |idx| - 1 && PendingAfter(enc, run, idx, k, baseline)
    requires baseline.high.Some? && RateAt(run, idx, k + 1) > baseline.high.value
    ensures var span := run[idx[k + 1]].o.finishedNs - run[idx[0]].o.finishedNs;
      if span < OPENING_NS then PendingAfter(enc, run, idx, k + 1, baseline) else Opens(enc, run, idx[k + 1])
  {
    hide Step, DetectorOk, Pruned, Summarise, Summarises;
    NextLinkCloses(enc, run, idx, k + 1);
    ClosingStep(enc, run, idx[k + 1], idx[k]);
    hide At, Chain;
  }

  lemma {:induction false} StaysPending(enc: Encoder, run: seq<Event>, idx: seq<nat>, k: nat, baseline: Summary)
    requires Chain(enc, run, idx) && 0 < k < |idx|
    requires At(enc, run, idx[0] + 1).previous == Some(run[idx[0]].o) && At(enc, run, idx[0] + 1).episode.None?
    requires baseline == Summarise(Before(enc, run, idx[1]).ring, run[idx[1]].o.finishedNs)
    requires baseline.high.Some? && AllAbove(enc, run, idx, baseline.high.value)
    requires forall i :: 0 < i <= k ==> run[idx[i]].o.finishedNs - run[idx[0]].o.finishedNs < OPENING_NS
    ensures PendingAfter(enc, run, idx, k, baseline)
    decreases k
  {
    hide At, Step, DetectorOk, PendingAfter;
    if k == 1 {
      FirstLinkPends(enc, run, idx, baseline);
    } else {
      StaysPending(enc, run, idx, k - 1, baseline);
      NextLinkPends(enc, run, idx, k - 1, baseline);
    }
  }

  /** Conversely: from a quiet endpoint with ready training, a chain above the frozen threshold opens
      a finding exactly at the observation that completes 120 s. */
  lemma SustainedHighOpens(enc: Encoder, run: seq<Event>, idx: seq<nat>, baseline: Summary)
    requires Chain(enc, run, idx) && |idx| >= 3
    requires At(enc, run, idx[0] + 1).previous == Some(run[idx[0]].o) && At(enc, run, idx[0] + 1).episode.None?
    requires baseline == Summarise(Before(enc, run, idx[1]).ring, run[idx[1]].o.finishedNs)
    requires baseline.high.Some? && AllAbove(enc, run, idx, baseline.high.value)
    requires forall i :: 0 < i < |idx| - 1 ==> run[idx[i]].o.finishedNs - run[idx[0]].o.finishedNs < OPENING_NS
    requires Span(run, idx) >= OPENING_NS
    ensures Opens(enc, run, idx[|idx| - 1])
  {
    hide At, Step, DetectorOk, PendingAfter;
    StaysPending(enc, run, idx, |idx| - 2, baseline);
    NextLinkPends(enc, run, idx, |idx| - 2, baseline);
  }
}
