/**
 Which observations the activity detector uses and what the others do to it
 (server/src/detection.rs:238-360, 405-538), stated on the observations.
 */
module ActivityGate {
  import opened Wrappers
  import opened TrainingRing
  import opened ActivityDetector
  import opened ActivityRuns
  import opened ActivityTraining

  /** Its age is known, and neither above its own limit nor above fifteen seconds. */
  predicate Timely(o: Observation) {
    && o.observedAt.Some? && o.age.Some? && o.stale.Some?
    && 0.0 <= o.age.value <= 15.0 && o.age.value <= o.stale.value && 0.0 < o.stale.value
  }

  /** A counter value of a known epoch, under the present policy. */
  predicate Measurable(o: Observation) {
    && o.unavailable.None? && Timely(o) && o.counter.Some? && o.continuity.counterEpoch != ""
    && o.continuity.policyVersion == "1"
  }

  /** What an observation that cannot be used is said to lack. */
  predicate Lacks(o: Observation, reason: string) {
    if o.unavailable.Some? then reason == o.unavailable.value
    else if !Timely(o) then reason == "timing_unknown"
    else if o.counter.None? then reason == "field_unavailable"
    else if o.continuity.counterEpoch == "" then reason == "counter_epoch_unknown"
    else reason == "policy_version_unknown"
  }

  /** One to fifteen seconds apart, received in order within fifteen seconds. */
  predicate Spaced(a: Observation, b: Observation) {
    && a.finishedNs + 1_000_000_000 <= b.finishedNs <= a.finishedNs + 15_000_000_000
    && a.receivedAtMs <= b.receivedAtMs <= a.receivedAtMs + 15_000
  }

  lemma MeasurableIs(o: Observation)
    ensures Measurable(o) <==> Endpoint(o)
    ensures !Measurable(o) ==> Failure(o).Some? && Lacks(o, Failure(o).value)
    ensures Measurable(o) ==> Normalized(o) == o
  {
  }

  lemma SpacedIs(a: Observation, b: Observation)
    ensures Spaced(a, b) <==> SpacingUsable(a, b)
  {
  }

  /** Two observations of one domain make an interval of the chains in every run. */
  lemma LinkedExactly(a: Observation, b: Observation)
    ensures Linked(a, b) <==>
      && Measurable(a) && Measurable(b) && a.collectionId != b.collectionId && a.continuity == b.continuity
      && Spaced(a, b) && a.counter.value <= b.counter.value
  {
    MeasurableIs(a);
    MeasurableIs(b);
    SpacedIs(a, b);
    hide Measurable, Endpoint, Spaced, SpacingUsable, Normalized, Failure, Lacks;
  }

  /** Seen already, or not later than what was seen. */
  predicate Overtaken(last: Observation, o: Observation) {
    || o.collectionId == last.collectionId
    || (o.continuity == last.continuity && o.finishedNs <= last.finishedNs)
    || (o.continuity != last.continuity
        && (o.receivedAtMs < last.receivedAtMs
            || (o.observedAt.Some? && last.observedAt.Some? && o.observedAt.value <= last.observedAt.value)))
  }

  predicate Ignored(s: State, o: Observation) {
    s.watermark.Some? && Overtaken(s.watermark.value, o)
  }

  /** The first of its domain. */
  predicate Foreign(s: State, o: Observation) {
    s.watermark.None? || s.watermark.value.continuity != o.continuity
  }

  // ---- What is lost ----

  /** An interval is missing: a candidate is given up, an open finding only starts its recovery again. */
  predicate Breaks(s: State, r: Outcome, reason: string, now: int) {
    && r.state == s.(lastRate := None, reason := Some(reason), episode := r.state.episode)
    && (s.episode.None? || s.episode.value.finding.None? ==> r.state.episode.None? && r.findings == [])
    && (s.episode.Some? && s.episode.value.finding.Some? ==>
          && r.state.episode.Some? && r.state.episode.value.baseline == s.episode.value.baseline
          && r.state.episode.value.evidence == s.episode.value.evidence.(recoveryNs := 0)
          && r.state.episode.value.finding.Some? && r.findings == [r.state.episode.value.finding.value]
          && r.findings[0] == s.episode.value.finding.value.(updatedAtMs := now,
               evidence := s.episode.value.evidence.(recoveryNs := 0)))
  }

  /** Everything learned is forgotten; an open finding ends unresolved. */
  predicate Ends(s: State, r: Outcome, reason: string, now: int) {
    && r.state.previous.None? && r.state.ring == [] && r.state.episode.None? && r.state.lastRate.None?
    && r.state.reason == Some(reason) && r.state.watermark == s.watermark
    && (s.episode.Some? && s.episode.value.finding.Some? ==>
          r.findings == [s.episode.value.finding.value.(status := Interrupted, reason := Some(reason),
            endedAtMs := Some(now), updatedAtMs := now)])
    && (s.episode.None? || s.episode.value.finding.None? ==> r.findings == [])
  }

  lemma BrokenBreaks(s: State, reason: string, now: int)
    ensures Breaks(s, Broken(s, reason, now), reason, now)
  {
  }

  lemma StoppedEnds(s: State, reason: string, now: int)
    ensures Ends(s, Stopped(s, reason, now), reason, now)
    ensures !Stopped(s, reason, now).state.active && Stopped(s, reason, now).state.revision == s.revision
  {
  }

  /** An administrator's rebaseline ends what was open and starts the next revision, for the two reasons there are
      and while there are revisions left. */
  lemma RebaselineExactly(s: State, reason: string, now: int)
    ensures var r := Rebaselined(s, reason, now);
      if (reason == "planned_workload_change" || reason == "operator_reassessment")
         && s.revision != 0xFFFF_FFFF_FFFF_FFFF then
        Ends(s, r, "administrator_rebaseline", now) && r.state.revision == s.revision + 1 && r.state.active == s.active
      else r == Outcome(s, [])
  {
  }

  // ---- What is taken ----

  /** An observation of the present domain, taken; the interval it closes, if any, is measured. */
  ghost predicate Takes(enc: Encoder, s: State, o: Observation, r: Outcome) {
    var aged := s.(active := true, watermark := Some(Normalized(o)), ring := Pruned(enc, s.ring, o.finishedNs));
    if !Measurable(o) then
      exists reason :: Lacks(o, reason) && Breaks(aged.(previous := None), r, reason, o.receivedAtMs)
    else
      var next := aged.(watermark := Some(o), previous := Some(o));
      if s.previous.None? then Breaks(next, r, "insufficient_endpoints", o.receivedAtMs)
      else if !Spaced(s.previous.value, o) then Breaks(next, r, "interval_unusable", o.receivedAtMs)
      else if s.previous.value.counter.Some? && o.counter.value < s.previous.value.counter.value then
        Breaks(next, r, "counter_decreased", o.receivedAtMs)
      else r.state.previous == Some(o) && r.state.watermark == Some(o) && r.state.active && r.state.reason.None?
  }

  lemma AcceptedTakes(enc: Encoder, s: State, o: Observation)
    requires s.episode.Some? ==> Frozen(s.episode.value)
    requires s.previous.Some? ==> Endpoint(s.previous.value)
    ensures Takes(enc, s, o, Accepted(enc, s, o))
  {
    MeasurableIs(o);
    var moved := Moved(enc, s, Normalized(o));
    var next := moved.(previous := Some(o));
    if !Measurable(o) {
      BrokenBreaks(moved, Failure(o).value, o.receivedAtMs);
    } else if s.previous.None? {
      BrokenBreaks(next, "insufficient_endpoints", o.receivedAtMs);
    } else {
      SpacedIs(s.previous.value, o);
      MeasurableIs(s.previous.value);
      BrokenBreaks(next, "interval_unusable", o.receivedAtMs);
      BrokenBreaks(next, "counter_decreased", o.receivedAtMs);
      if Spaced(s.previous.value, o) && s.previous.value.counter.value <= o.counter.value {
        var link := LinkOf(s.previous.value, o);
        AdvancedKeeps(enc, next.(lastRate := Some(link.rate), reason := None), link);
      }
    }
    hide Failure, Lacks, Breaks, Broken, Spaced, SpacingUsable, Pruned, Advanced, Measurable, Endpoint;
  }

  lemma AdvancedKeeps(enc: Encoder, s: State, link: Link)
    requires s.episode.Some? ==> Frozen(s.episode.value)
    requires link.startNs <= link.endNs
    ensures var s' := Advanced(enc, s, link).state;
      && s'.previous == s.previous && s'.watermark == s.watermark && s'.active == s.active && s'.reason == s.reason
      && s'.lastRate == s.lastRate && s'.revision == s.revision
  {
    hide Pruned, Summarise;
  }

  /** A proven change of domain ends everything and starts the next revision with this observation. */
  ghost predicate Switches(enc: Encoder, s: State, o: Observation, r: Outcome) {
    exists ended: Outcome, taken: Outcome ::
      && Ends(s, ended, "identity_changed", o.receivedAtMs) && ended.state.revision == s.revision
      && if s.revision >= 0xFFFF_FFFF_FFFF_FFFF then
           r.findings == ended.findings && r.state == ended.state.(reason := Some("baseline_revision_exhausted"))
         else
           && Takes(enc, ended.state.(revision := s.revision + 1), o, taken)
           && r.state == taken.state && r.findings == ended.findings + taken.findings
  }

  lemma SwitchedSwitches(enc: Encoder, s: State, o: Observation)
    ensures Switches(enc, s, o, Switched(enc, s, o))
  {
    var ended := Stopped(s, "identity_changed", o.receivedAtMs);
    StoppedEnds(s, "identity_changed", o.receivedAtMs);
    var taken := ended;
    if s.revision < MAX_U64 {
      taken := Accepted(enc, ended.state.(revision := s.revision + 1), o);
      AcceptedTakes(enc, ended.state.(revision := s.revision + 1), o);
    }
    hide Ends, Takes, Accepted;
    assert Ends(s, ended, "identity_changed", o.receivedAtMs);
  }

  /** What any observation does: nothing when it was overtaken; a break when it cannot prove that its domain is
      the present one; else it is taken, after a change of domain if it belongs to another one. */
  lemma ObservationExactly(enc: Encoder, s: State, o: Observation)
    requires DetectorOk(enc, s)
    ensures var r := Observed(enc, s, o);
      if Ignored(s, o) then r == Outcome(s, [])
      else if Foreign(s, o) && !Timely(o) then
        Breaks(s.(previous := None), r, if o.unavailable.Some? then o.unavailable.value else "timing_unknown",
          o.receivedAtMs)
      else if Foreign(s, o) && s.watermark.Some? then Switches(enc, s, o, r)
      else Takes(enc, s, o, r)
  {
    assert TimingUsable(o) <==> Timely(o);
    DetectorParts(enc, s);
    hide Timely, TimingUsable, Ignored, Foreign, DetectorOk;
    AdmitIs(s, o);
    BrokenBreaks(s.(previous := None), if o.unavailable.Some? then o.unavailable.value else "timing_unknown",
      o.receivedAtMs);
    SwitchedSwitches(enc, s, o);
    AcceptedTakes(enc, s, o);
    hide Admit, Broken, Switched, Accepted, Breaks, Switches, Takes;
  }

  lemma DetectorParts(enc: Encoder, s: State)
    requires DetectorOk(enc, s)
    ensures s.episode.Some? ==> Frozen(s.episode.value)
    ensures s.previous.Some? ==> Endpoint(s.previous.value)
  {
    hide RingOk, Endpoint, Frozen;
  }

  lemma AdmitIs(s: State, o: Observation)
    requires TimingUsable(o) <==> Timely(o)
    ensures Admit(s, o) ==
      if Ignored(s, o) then Ignore
      else if Foreign(s, o) && !Timely(o) then Unproven
      else if Foreign(s, o) && s.watermark.Some? then SwitchDomain
      else Accept
  {
    hide Timely, TimingUsable;
  }

  // ---- What an episode records ----

  /** The interval between two observations, as evidence. */
  predicate IsLink(link: Link, a: Observation, b: Observation) {
    && link.previousCollectionId == a.collectionId && link.collectionId == b.collectionId
    && a.counter == Some(link.counterStart) && b.counter == Some(link.counterEnd)
    && link.startNs == a.finishedNs && link.endNs == b.finishedNs
    && (a.counter.Some? && b.counter.Some? && a.finishedNs < b.finishedNs ==> link.rate == Speed(a, b))
    && b.observedAt == Some(link.observedMs) && link.receivedMs == b.receivedAtMs && link.continuity == b.continuity
  }

  lemma LinkIs(a: Observation, b: Observation)
    requires Linked(a, b)
    ensures a.counter.Some? && b.counter.Some? && a.finishedNs < b.finishedNs
    ensures IsLink(LinkOf(a, b), a, b) && LinkOf(a, b).rate == Speed(a, b)
  {
    LinkedFacts(a, b);
  }

  /** The evidence after one more interval: the first stays, the latest is this one, the peak is the faster, and
      the times above the threshold and of the recovery are added up. */
  predicate Gathers(e: Episode, evidence: Evidence, a: Observation, b: Observation)
    requires a.counter.Some? && b.counter.Some? && a.finishedNs < b.finishedNs
  {
    var was, speed, ns := e.evidence, Speed(a, b), b.finishedNs - a.finishedNs;
    && evidence.first == was.first && IsLink(evidence.latest, a, b)
    && evidence.peak == (if was.peak.rate < speed then evidence.latest else was.peak)
    && evidence.elevatedNs == (if !Elevated(e.baseline.reference, speed) then was.elevatedNs
         else if was.elevatedNs + ns <= MAX_U128 then was.elevatedNs + ns else MAX_U128)
    && evidence.recoveryNs == (if e.finding.Some? && Subsided(e.baseline.reference, speed) then was.recoveryNs + ns
         else 0)
  }

  /** What becomes of an open finding. */
  predicate Reports(f: Finding, f': Finding, evidence: Evidence, b: Observation)
    requires b.observedAt.Some?
  {
    f' == f.(evidence := evidence, lastSeenMs := b.observedAt.value, updatedAtMs := b.receivedAtMs, status := f'.status,
      reason := f'.reason, endedAtMs := f'.endedAtMs)
    && if evidence.recoveryNs >= 60_000_000_000 then
         f'.status.Resolved? && f'.reason == Some("returned_below_recovery_threshold")
         && f'.endedAtMs == Some(b.receivedAtMs)
       else f'.status == f.status && f'.reason == f.reason && f'.endedAtMs == f.endedAtMs
  }

  /** The finding that two minutes above the threshold open. */
  predicate OpensAs(f: Finding, revision: nat, e: Episode, evidence: Evidence, b: Observation) {
    && f.id == FindingId(revision, evidence.first.collectionId) && f.status.Open? && f.reason.None?
    && f.openedAtMs == b.receivedAtMs && f.updatedAtMs == b.receivedAtMs && f.endedAtMs.None?
    && b.observedAt == Some(f.lastSeenMs) && f.baseline == e.baseline && f.evidence == evidence
  }

  /** Inside an episode: a candidate ends with the first interval that is not elevated; otherwise the evidence grows,
      and a finding opens, goes on or is resolved. */
  ghost predicate Continues(revision: nat, e: Episode, r: Outcome, a: Observation, b: Observation)
    requires a.counter.Some? && b.counter.Some? && a.finishedNs < b.finishedNs && b.observedAt.Some?
  {
    if e.finding.None? && !Elevated(e.baseline.reference, Speed(a, b)) then r.state.episode.None? && r.findings == []
    else exists evidence :: Gathers(e, evidence, a, b) && Judges(revision, e, r, evidence, b)
  }

  predicate Judges(revision: nat, e: Episode, r: Outcome, evidence: Evidence, b: Observation)
    requires b.observedAt.Some?
  {
    if e.finding.Some? then
      && |r.findings| == 1 && Reports(e.finding.value, r.findings[0], evidence, b)
      && r.state.episode == (if evidence.recoveryNs >= 60_000_000_000 then None
           else Some(Episode(e.baseline, evidence, Some(r.findings[0]))))
    else if evidence.elevatedNs >= 120_000_000_000 then
      && |r.findings| == 1 && OpensAs(r.findings[0], revision, e, evidence, b)
      && r.state.episode == Some(Episode(e.baseline, evidence, Some(r.findings[0])))
    else r.findings == [] && r.state.episode == Some(Episode(e.baseline, evidence, None))
  }

  /** Outside one: an elevated interval begins a candidate, with the training's summary as its baseline. */
  ghost predicate Starts(baseline: Summary, r: Outcome, a: Observation, b: Observation)
    requires a.counter.Some? && b.counter.Some? && a.finishedNs < b.finishedNs
  {
    && r.findings == []
    && if Elevated(baseline.reference, Speed(a, b)) then
         && r.state.episode.Some? && r.state.episode.value.baseline == baseline
         && r.state.episode.value.finding.None?
         && var v := r.state.episode.value.evidence;
            && IsLink(v.first, a, b) && v.latest == v.first && v.peak == v.first
            && v.elevatedNs == b.finishedNs - a.finishedNs && v.recoveryNs == 0
       else r.state.episode.None?
  }

  lemma ContinuedContinues(s: State, a: Observation, b: Observation)
    requires s.episode.Some? && Frozen(s.episode.value) && Linked(a, b) && b.observedAt.Some?
    requires a.counter.Some? && b.counter.Some? && a.finishedNs < b.finishedNs
    requires s.episode.value.evidence.recoveryNs < RECOVERY_NS
    ensures Continues(s.revision, s.episode.value, Continued(s, LinkOf(a, b)), a, b)
  {
    var e, link := s.episode.value, LinkOf(a, b);
    LinkIs(a, b);
    LinkedFacts(a, b);
    FrozenNumbers(e, link.rate);
    hide Elevated, Subsided, Speed, Linked, Frozen, HighThreshold, LowThreshold;
    var evidence := Extended(e, link);
    assert Gathers(e, evidence, a, b);
    hide IsLink, Gathers;
  }

  /** What the interval closed by an event does to the episode. */
  lemma EvidenceExactly(enc: Encoder, run: seq<Event>, n: nat, j: nat)
    requires n < |run| && Closes(enc, run, n, j)
    ensures run[j].o.counter.Some? && run[n].o.counter.Some? && run[n].o.observedAt.Some?
    ensures run[j].o.finishedNs < run[n].o.finishedNs
    ensures var s, r := At(enc, run, n), Step(enc, At(enc, run, n), run[n]);
      if s.episode.Some? then Continues(s.revision, s.episode.value, r, run[j].o, run[n].o)
      else Starts(Summarise(Aged(enc, run, n), run[n].o.finishedNs), r, run[j].o, run[n].o)
  {
    var a, b, s := run[j].o, run[n].o, At(enc, run, n);
    ClosingStep(enc, run, n, j);
    LinkIs(a, b);
    LinkedFacts(a, b);
    SummaryNumbers(Aged(enc, run, n), b.finishedNs);
    var next := Before(enc, run, n).(lastRate := Some(LinkOf(a, b).rate), reason := None);
    if s.episode.Some? {
      RecoveryBounded(enc, s);
      ContinuedContinues(next, a, b);
    }
    hide At, Step, DetectorOk, Pruned, Summarise, Continued, Continues, Linked, Elevated, Speed, LinkOf;
  }

  lemma RecoveryBounded(enc: Encoder, s: State)
    requires DetectorOk(enc, s) && s.episode.Some?
    ensures s.episode.value.evidence.recoveryNs < RECOVERY_NS
  {
    hide RingOk;
  }
}
