/**
 The per-driver activity detector of server/src/detection.rs: admission of observations, the
 pending/open/resolved/interrupted episode, and the class whose methods update it in place.
 The functions say what each operation does to the persisted state; the class SourceState is the
 field-by-field implementation, proved to do exactly that.
 */
module ActivityDetector {
  import opened Wrappers
  import opened TrainingRing

  const MAX_U64: nat := 0xFFFF_FFFF_FFFF_FFFF
  const MAX_U128: nat := 0xFFFF_FFFF_FFFF_FFFF_FFFF_FFFF_FFFF_FFFF
  const SECOND: nat := 1_000_000_000
  const OPENING_NS: nat := 120 * SECOND
  const RECOVERY_NS: nat := 60 * SECOND
  const POLICY_VERSION: string := "1"

  type U128 = n: nat | n <= MAX_U128

  function SaturatingAdd(a: nat, b: nat): nat {
    if a + b > MAX_U128 then MAX_U128 else a + b
  }

  /** i64 subtraction that saturates instead of wrapping. */
  function SaturatingSub64(a: int, b: int): int {
    if a - b > 0x7FFF_FFFF_FFFF_FFFF then 0x7FFF_FFFF_FFFF_FFFF
    else if a - b < -0x8000_0000_0000_0000 then -0x8000_0000_0000_0000
    else a - b
  }

  datatype Continuity = Continuity(
    bootId: string, agentGeneration: string, agentSessionId: string, clockId: string,
    counterEpoch: string, sourceVersion: string, adapterVersion: string, policyVersion: string)

  /** observedAt is None when the date does not parse; age and stale are None when not finite. */
  datatype Observation = Observation(
    collectionId: string, continuity: Continuity, finishedNs: U128, observedAt: Option<int>,
    receivedAtMs: int, counter: Option<U128>, unavailable: Option<string>,
    age: Option<real>, stale: Option<real>)

  /** IntervalEvidence: two consecutive accepted endpoints of one clock and the rate between them. */
  datatype Link = Link(
    collectionId: string, previousCollectionId: string, counterStart: nat, counterEnd: nat,
    startNs: nat, endNs: nat, rate: real, observedMs: int, receivedMs: int, continuity: Continuity)

  datatype Evidence = Evidence(first: Link, latest: Link, peak: Link, elevatedNs: nat, recoveryNs: nat)

  datatype Status = Open | Resolved | Interrupted

  /** The arguments of the source's name-based UUID: equal arguments, equal identity. */
  datatype FindingId = FindingId(revision: nat, firstCollectionId: string)

  datatype Finding = Finding(
    id: FindingId, status: Status, reason: Option<string>, openedAtMs: int, updatedAtMs: int,
    endedAtMs: Option<int>, lastSeenMs: int, baseline: Summary, evidence: Evidence)

  datatype Episode = Episode(baseline: Summary, evidence: Evidence, finding: Option<Finding>)

  /** What is persisted for a source; the cached byte count is not. */
  datatype State = State(
    revision: nat, active: bool, watermark: Option<Observation>, previous: Option<Observation>,
    ring: seq<Interval>, episode: Option<Episode>, lastRate: Option<real>, reason: Option<string>)

  datatype Outcome = Outcome(state: State, findings: seq<Finding>)

  const INITIAL: State := State(1, true, None, None, [], None, None, Some("no_observations"))

  // ---- Admission ----

  predicate TimingUsable(o: Observation) {
    && o.age.Some? && o.age.value >= 0.0
    && o.stale.Some? && o.stale.value > 0.0
    && o.age.value <= (if o.stale.value < 15.0 then o.stale.value else 15.0)
    && o.observedAt.Some?
  }

  datatype Gate = Ignore | Unproven | SwitchDomain | Accept

  /** Lines 238-295: duplicates, delayed domains and unprovable transitions never move the watermark. */
  function Admit(s: State, o: Observation): Gate {
    match s.watermark
    case None => if TimingUsable(o) then Accept else Unproven
    case Some(last) =>
      if o.collectionId == last.collectionId then Ignore
      else if o.continuity == last.continuity then
        if o.finishedNs <= last.finishedNs then Ignore else Accept
      else if o.receivedAtMs < last.receivedAtMs
           || (o.observedAt.Some? && last.observedAt.Some? && o.observedAt.value <= last.observedAt.value) then Ignore
      else if !TimingUsable(o) then Unproven
      else SwitchDomain
  }

  /** Lines 300-307: a stored attempt is JSON-safe. */
  function Normalized(o: Observation): Observation {
    o.(age := if o.age.None? then Some(0.0) else o.age,
       stale := if o.stale.None? || o.stale.value <= 0.0 then Some(15.0) else o.stale)
  }

  /** Lines 311-328: why an accepted attempt cannot be an endpoint of an interval. */
  function Failure(o: Observation): Option<string> {
    if o.unavailable.Some? then o.unavailable
    else if !TimingUsable(o) then Some("timing_unknown")
    else if o.counter.None? then Some("field_unavailable")
    else if o.continuity.counterEpoch == "" then Some("counter_epoch_unknown")
    else if o.continuity.policyVersion != POLICY_VERSION then Some("policy_version_unknown")
    else None
  }

  predicate Endpoint(o: Observation) {
    Failure(o) == None
  }

  /** Lines 342-352, on exact nanoseconds. */
  predicate SpacingUsable(p: Observation, o: Observation) {
    && p.finishedNs + SECOND <= o.finishedNs <= p.finishedNs + 15 * SECOND
    && 0 <= SaturatingSub64(o.receivedAtMs, p.receivedAtMs) <= 15_000
  }

  function LinkOf(p: Observation, o: Observation): Link
    requires Endpoint(p) && Endpoint(o) && p.finishedNs < o.finishedNs && p.counter.value <= o.counter.value
  {
    Link(o.collectionId, p.collectionId, p.counter.value, o.counter.value, p.finishedNs, o.finishedNs,
      (o.counter.value - p.counter.value) as real * SECOND as real / (o.finishedNs - p.finishedNs) as real,
      o.observedAt.value, o.receivedAtMs, o.continuity)
  }

  // ---- What each operation does ----

  /** break_interval: a pending episode is dropped, an open one loses only its recovery streak. */
  function Broken(s: State, reason: string, now: int): Outcome {
    var s' := s.(lastRate := None, reason := Some(reason));
    match s.episode
    case None => Outcome(s', [])
    case Some(e) =>
      match e.finding
      case None => Outcome(s'.(episode := None), [])
      case Some(f) =>
        var evidence := e.evidence.(recoveryNs := 0);
        var f' := f.(evidence := evidence, updatedAtMs := now);
        Outcome(s'.(episode := Some(Episode(e.baseline, evidence, Some(f')))), [f'])
  }

  /** interrupt: training and episode are discarded, an open finding ends without recovery. */
  function Stopped(s: State, reason: string, now: int): Outcome {
    Outcome(
      s.(active := false, previous := None, ring := [], episode := None, lastRate := None, reason := Some(reason)),
      if s.episode.Some? && s.episode.value.finding.Some? then
        [s.episode.value.finding.value.(status := Interrupted, reason := Some(reason), endedAtMs := Some(now),
          updatedAtMs := now)]
      else [])
  }

  predicate RebaselineReason(reason: string) {
    reason == "planned_workload_change" || reason == "operator_reassessment"
  }

  function Rebaselined(s: State, reason: string, now: int): Outcome {
    if !RebaselineReason(reason) || s.revision == MAX_U64 then Outcome(s, [])
    else
      var stopped := Stopped(s, "administrator_rebaseline", now);
      Outcome(stopped.state.(revision := s.revision + 1, active := s.active), stopped.findings)
  }

  /** An episode always carries the thresholds that were frozen when it began. */
  ghost predicate Frozen(e: Episode) {
    && e.baseline.high.Some? && e.baseline.low.Some? && e.baseline.reference.Some?
    && 0.0 <= e.baseline.low.value < e.baseline.high.value
    && e.baseline.high.value == HighThreshold(e.baseline.reference.value)
    && e.baseline.low.value == LowThreshold(e.baseline.reference.value)
  }

  function NewFinding(s: State, e: Episode, now: int): Finding {
    Finding(FindingId(s.revision, e.evidence.first.collectionId), Open, None, now, now, None,
      e.evidence.latest.observedMs, e.baseline, e.evidence)
  }

  /** Lines 405-426: one more usable interval inside an episode. */
  function Extended(e: Episode, link: Link): Evidence
    requires e.baseline.high.Some? && e.baseline.low.Some? && link.startNs <= link.endNs
  {
    var ns := link.endNs - link.startNs;
    Evidence(e.evidence.first, link, if link.rate > e.evidence.peak.rate then link else e.evidence.peak,
      if link.rate > e.baseline.high.value then SaturatingAdd(e.evidence.elevatedNs, ns) else e.evidence.elevatedNs,
      if e.finding.Some? && link.rate <= e.baseline.low.value then SaturatingAdd(e.evidence.recoveryNs, ns) else 0)
  }

  /** Lines 405-476: inside an episode. */
  function Continued(s: State, link: Link): Outcome
    requires s.episode.Some? && Frozen(s.episode.value) && link.startNs <= link.endNs
  {
    var e := s.episode.value;
    if e.finding == None && link.rate <= e.baseline.high.value then
      Outcome(s.(episode := None), [])
    else
      var evidence := Extended(e, link);
      match e.finding
      case Some(f) =>
        var f1 := f.(evidence := evidence, lastSeenMs := link.observedMs, updatedAtMs := link.receivedMs);
        if evidence.recoveryNs >= RECOVERY_NS then
          Outcome(s.(episode := None),
            [f1.(status := Resolved, reason := Some("returned_below_recovery_threshold"),
              endedAtMs := Some(link.receivedMs))])
        else
          Outcome(s.(episode := Some(Episode(e.baseline, evidence, Some(f1)))), [f1])
      case None =>
        if evidence.elevatedNs >= OPENING_NS then
          var f := NewFinding(s, Episode(e.baseline, evidence, None), link.receivedMs);
          Outcome(s.(episode := Some(Episode(e.baseline, evidence, Some(f)))), [f])
        else
          Outcome(s.(episode := Some(Episode(e.baseline, evidence, None))), [])
  }

  /** Lines 391-404: outside one, an interval above the threshold begins an episode, any other trains. */
  ghost function Trained(enc: Encoder, s: State, link: Link): Outcome
    requires link.startNs <= link.endNs
  {
    var reference := Summarise(s.ring, link.endNs);
    if reference.high.Some? && link.rate > reference.high.value then
      Outcome(s.(episode := Some(Episode(reference,
        Evidence(link, link, link, link.endNs - link.startNs, 0), None))), [])
    else
      Outcome(s.(ring := Pruned(enc, s.ring + [Interval(link.startNs, link.endNs, link.rate, link.observedMs)],
        link.endNs)), [])
  }

  ghost function Advanced(enc: Encoder, s: State, link: Link): Outcome
    requires s.episode.Some? ==> Frozen(s.episode.value)
    requires link.startNs <= link.endNs
  {
    if s.episode.Some? then Continued(s, link) else Trained(enc, s, link)
  }

  /** Lines 342-477: the interval between two endpoints, if it is usable. */
  ghost function Measured(enc: Encoder, s: State, p: Observation, o: Observation): Outcome
    requires s.episode.Some? ==> Frozen(s.episode.value)
    requires Endpoint(p) && Endpoint(o)
  {
    if !SpacingUsable(p, o) then Broken(s, "interval_unusable", o.receivedAtMs)
    else if o.counter.value < p.counter.value then Broken(s, "counter_decreased", o.receivedAtMs)
    else
      var link := LinkOf(p, o);
      Advanced(enc, s.(lastRate := Some(link.rate), reason := None), link)
  }

  /** Lines 296-310: the watermark moves and the ring ages. */
  function Moved(enc: Encoder, s: State, o: Observation): State {
    s.(active := true, previous := None, watermark := Some(o), ring := Pruned(enc, s.ring, o.finishedNs))
  }

  /** Lines 296-477: an observation past the admission gate. */
  ghost function Accepted(enc: Encoder, s: State, raw: Observation): Outcome
    requires s.episode.Some? ==> Frozen(s.episode.value)
    requires s.previous.Some? ==> Endpoint(s.previous.value)
  {
    var o := Normalized(raw);
    var moved := Moved(enc, s, o);
    if !Endpoint(raw) then Broken(moved, Failure(raw).value, o.receivedAtMs)
    else if s.previous.None? then Broken(moved.(previous := Some(o)), "insufficient_endpoints", o.receivedAtMs)
    else Measured(enc, moved.(previous := Some(o)), s.previous.value, o)
  }

  /** Lines 273-477: a proven change of identity starts over, unless no revision is left. */
  ghost function Switched(enc: Encoder, s: State, o: Observation): Outcome {
    var stopped := Stopped(s, "identity_changed", o.receivedAtMs);
    if s.revision >= MAX_U64 then
      Outcome(stopped.state.(reason := Some("baseline_revision_exhausted")), stopped.findings)
    else
      var next := Accepted(enc, stopped.state.(revision := s.revision + 1), o);
      Outcome(next.state, stopped.findings + next.findings)
  }

  ghost function Observed(enc: Encoder, s: State, o: Observation): Outcome
    requires DetectorOk(enc, s)
  {
    match Admit(s, o)
    case Ignore => Outcome(s, [])
    case Unproven =>
      Broken(s.(previous := None), if o.unavailable.Some? then o.unavailable.value else "timing_unknown",
        o.receivedAtMs)
    case Accept => Accepted(enc, s, o)
    case SwitchDomain => Switched(enc, s, o)
  }

  // ---- The invariant of every reachable state ----

  ghost predicate EpisodeOk(e: Episode, previous: Option<Observation>) {
    && Frozen(e)
    && e.evidence.recoveryNs < RECOVERY_NS
    && (e.finding.None? ==> e.evidence.elevatedNs < OPENING_NS && e.evidence.recoveryNs == 0 && previous.Some?)
    && (e.finding.Some? ==> e.finding.value.status == Open)
    && (e.evidence.recoveryNs > 0 ==> previous.Some?)
  }

  ghost predicate DetectorOk(enc: Encoder, s: State) {
    && s.revision <= MAX_U64
    && (s.previous.Some? ==> s.watermark == s.previous && Endpoint(s.previous.value))
    && (s.watermark.None? ==> s.ring == [] && s.episode.None?)
    && (s.watermark.Some? ==> RingOk(enc, s.ring, s.watermark.value.finishedNs))
    && (s.episode.Some? ==> EpisodeOk(s.episode.value, s.previous))
  }

  lemma RingAppend(ring: seq<Interval>, i: Interval, lo: nat, mid: nat)
    requires Ordered(ring) && Inside(ring, lo, mid) && mid <= i.start < i.end && i.rate >= 0.0
    ensures Ordered(ring + [i]) && Inside(ring + [i], 0, i.end)
  {
  }

  lemma ContinuedOk(enc: Encoder, s: State, link: Link)
    requires DetectorOk(enc, s) && s.previous.Some? && s.episode.Some? && link.startNs <= link.endNs
    ensures DetectorOk(enc, Continued(s, link).state)
  {
    hide RingOk, Endpoint;
  }

  lemma TrainedOk(enc: Encoder, s: State, link: Link, last: nat)
    requires DetectorOk(enc, s) && s.previous.Some? && s.previous.value.finishedNs == link.endNs && s.episode.None?
    requires last <= link.startNs < link.endNs <= link.startNs + 15 * SECOND && link.rate >= 0.0
      && Inside(s.ring, 0, last)
    ensures DetectorOk(enc, Trained(enc, s, link).state)
  {
    var i := Interval(link.startNs, link.endNs, link.rate, link.observedMs);
    ThresholdsOrdered(Summarise(s.ring, link.endNs), s.ring, link.endNs);
    RingAppend(s.ring, i, Cutoff(link.endNs), last);
    PrunedOk(enc, s.ring + [i], link.endNs);
    hide Endpoint, Pruned;
  }

  lemma AdvancedOk(enc: Encoder, s: State, p: Observation, o: Observation)
    requires DetectorOk(enc, s) && s.previous == Some(o)
    requires Endpoint(p) && Endpoint(o) && SpacingUsable(p, o) && p.counter.value <= o.counter.value
    requires Inside(s.ring, 0, p.finishedNs)
    ensures DetectorOk(enc, Advanced(enc, s, LinkOf(p, o)).state)
  {
    hide Continued, Trained;
    if s.episode.Some? {
      ContinuedOk(enc, s, LinkOf(p, o));
    } else {
      TrainedOk(enc, s, LinkOf(p, o), p.finishedNs);
    }
  }

  /** An observation may enter when it is later on the ring's clock, or when there is no training. */
  ghost predicate Forward(s: State, raw: Observation) {
    s.watermark.Some? && s.watermark.value.finishedNs >= raw.finishedNs ==> s.ring == [] && s.previous.None?
  }

  lemma PruneForward(enc: Encoder, s: State, raw: Observation)
    requires DetectorOk(enc, s) && (Forward(s, raw) || Admit(s, raw).Accept?)
    ensures s.previous.Some? ==> Endpoint(s.previous.value)
    ensures s.episode.Some? ==> Frozen(s.episode.value)
    ensures Ordered(s.ring) && Inside(s.ring, 0, raw.finishedNs)
    ensures RingOk(enc, Pruned(enc, s.ring, raw.finishedNs), raw.finishedNs)
    ensures s.previous.Some? ==> Inside(Pruned(enc, s.ring, raw.finishedNs), 0, s.previous.value.finishedNs)
  {
    var bound := if s.previous.None? then raw.finishedNs else s.previous.value.finishedNs;
    WindowedOk(s.ring, Cutoff(raw.finishedNs), bound);
    PrunedOk(enc, s.ring, raw.finishedNs);
    var k := NewestFittingIsLongest(enc, Windowed(s.ring, Cutoff(raw.finishedNs)));
  }

  /** What an observation past the gate relies on. */
  ghost predicate Admissible(enc: Encoder, s: State, raw: Observation) {
    && Ordered(s.ring) && (s.episode.Some? ==> Frozen(s.episode.value))
    && (s.previous.Some? ==>
          && Endpoint(s.previous.value)
          && Ordered(Pruned(enc, s.ring, raw.finishedNs))
          && Inside(Pruned(enc, s.ring, raw.finishedNs), 0, s.previous.value.finishedNs))
  }

  lemma UntrainedIsAdmissible(enc: Encoder, s: State, raw: Observation)
    requires s.ring == [] && s.previous.None? && s.episode.None?
    ensures Admissible(enc, s, raw)
  {
  }

  lemma AcceptIsAdmissible(enc: Encoder, s: State, raw: Observation)
    requires DetectorOk(enc, s) && Admit(s, raw).Accept?
    ensures Admissible(enc, s, raw)
  {
    PruneForward(enc, s, raw);
  }

  lemma BrokenOk(enc: Encoder, s: State, reason: string, now: int)
    requires DetectorOk(enc, s.(episode := None)) && (s.watermark.None? ==> s.episode.None?)
    requires s.episode.Some? && s.episode.value.finding.Some? ==>
      Frozen(s.episode.value) && s.episode.value.finding.value.status == Open
    ensures DetectorOk(enc, Broken(s, reason, now).state)
  {
  }

  lemma AcceptedOk(enc: Encoder, s: State, raw: Observation)
    requires DetectorOk(enc, s) && Forward(s, raw)
    ensures DetectorOk(enc, Accepted(enc, s, raw).state)
  {
    var o := Normalized(raw);
    PruneForward(enc, s, raw);
    var moved := Moved(enc, s, o);
    if !Endpoint(raw) {
      BrokenOk(enc, moved, Failure(raw).value, o.receivedAtMs);
    } else {
      var next := moved.(previous := Some(o));
      if s.previous.None? {
        BrokenOk(enc, next, "insufficient_endpoints", o.receivedAtMs);
      } else if !SpacingUsable(s.previous.value, o) {
        BrokenOk(enc, next, "interval_unusable", o.receivedAtMs);
      } else if o.counter.value < s.previous.value.counter.value {
        BrokenOk(enc, next, "counter_decreased", o.receivedAtMs);
      } else {
        var link := LinkOf(s.previous.value, o);
        AdvancedOk(enc, next.(lastRate := Some(link.rate), reason := None), s.previous.value, o);
      }
    }
  }

  lemma StoppedOk(enc: Encoder, s: State, reason: string, now: int)
    requires DetectorOk(enc, s)
    ensures DetectorOk(enc, Stopped(s, reason, now).state)
  {
  }

  lemma SwitchedOk(enc: Encoder, s: State, o: Observation)
    requires DetectorOk(enc, s)
    ensures DetectorOk(enc, Switched(enc, s, o).state)
  {
    var stopped := Stopped(s, "identity_changed", o.receivedAtMs).state;
    StoppedOk(enc, s, "identity_changed", o.receivedAtMs);
    if s.revision < MAX_U64 {
      AcceptedOk(enc, stopped.(revision := s.revision + 1), o);
    }
    hide Accepted, RingOk, EpisodeOk;
  }

  /** Every observation keeps the invariant: the ring bounds, the frozen thresholds, the endpoint. */
  lemma ObservedOk(enc: Encoder, s: State, o: Observation)
    requires DetectorOk(enc, s)
    ensures DetectorOk(enc, Observed(enc, s, o).state)
  {
    match Admit(s, o)
    case Ignore =>
    case Unproven =>
      BrokenOk(enc, s.(previous := None), if o.unavailable.Some? then o.unavailable.value else "timing_unknown",
        o.receivedAtMs);
    case Accept =>
      AcceptedOk(enc, s, o);
    case SwitchDomain => SwitchedOk(enc, s, o);
  }

  // ---- The source's object ----

  class SourceState {
    const encode: Encoder
    var revision: nat
    var active: bool
    var watermark: Option<Observation>
    var previous: Option<Observation>
    var baseline: seq<Interval>
    var baselineBytes: nat
    var episode: Option<Episode>
    var lastRate: Option<real>
    var unavailableReason: Option<string>

    function View(): State
      reads this
    {
      State(revision, active, watermark, previous, baseline, episode, lastRate, unavailableReason)
    }

    /** The cached byte count is exact, or zero because it has not been computed since a restore. */
    ghost predicate BytesOk()
      reads this
    {
      baselineBytes == Bytes(encode, baseline) || baselineBytes == 0
    }

    ghost predicate Valid()
      reads this
    {
      DetectorOk(encode, View()) && BytesOk()
    }

    constructor (enc: Encoder)
      ensures Valid() && View() == INITIAL && encode == enc
    {
      encode := enc;
      revision, active := 1, true;
      watermark, previous, episode, lastRate := None, None, None, None;
      baseline, baselineBytes := [], 0;
      unavailableReason := Some("no_observations");
    }

    /** A persisted state read back: the byte cache is skipped and starts at zero. */
    constructor Restore(enc: Encoder, s: State)
      requires DetectorOk(enc, s)
      ensures Valid() && View() == s && encode == enc
    {
      encode := enc;
      revision, active, watermark, previous := s.revision, s.active, s.watermark, s.previous;
      baseline, baselineBytes := s.ring, 0;
      episode, lastRate, unavailableReason := s.episode, s.lastRate, s.reason;
    }

    /** Remove the n oldest intervals and their bytes. */
    method Drain(n: nat)
      requires n <= |baseline| && baselineBytes == Bytes(encode, baseline)
      modifies this`baseline, this`baselineBytes
      ensures baseline == old(baseline)[n..] && baselineBytes == Bytes(encode, baseline)
    {
      var k := 0;
      while k < n
        invariant 0 <= k <= n
        invariant baseline == old(baseline)
        invariant baselineBytes == Bytes(encode, baseline[k..])
      {
        assert baseline[k..] == [baseline[k]] + baseline[k + 1..];
        baselineBytes := baselineBytes - encode(baseline[k]);
        k := k + 1;
      }
      baseline := baseline[n..];
    }

    method PartitionPoint(cutoff: nat) returns (n: nat)
      requires Ordered(baseline)
      ensures n <= |baseline|
      ensures forall i :: 0 <= i < n ==> baseline[i].end <= cutoff
      ensures forall i :: n <= i < |baseline| ==> baseline[i].end > cutoff
    {
      var lo, hi := 0, |baseline|;
      while lo < hi
        invariant 0 <= lo <= hi <= |baseline|
        invariant forall i :: 0 <= i < lo ==> baseline[i].end <= cutoff
        invariant forall i :: hi <= i < |baseline| ==> baseline[i].end > cutoff
      {
        var mid := (lo + hi) / 2;
        if baseline[mid].end <= cutoff {
          forall i | 0 <= i <= mid ensures baseline[i].end <= cutoff {
            assert i < mid ==> baseline[i].end <= baseline[mid].start;
          }
          lo := mid + 1;
        } else {
          forall i | mid <= i < |baseline| ensures baseline[i].end > cutoff {
            assert mid < i ==> baseline[mid].end <= baseline[i].start;
          }
          hi := mid;
        }
      }
      n := lo;
    }

    /** Lines 544-555: drop expired intervals and clip the first survivor, leaving the window. */
    method ExpireAndClip(cutoff: nat)
      requires Ordered(baseline) && baselineBytes == Bytes(encode, baseline)
      modifies this`baseline, this`baselineBytes
      ensures baseline == Windowed(old(baseline), cutoff) && baselineBytes == Bytes(encode, baseline)
    {
      var expired := PartitionPoint(cutoff);
      WindowedIsDropAndClip(baseline, cutoff, expired);
      Drain(expired);
      if |baseline| > 0 {
        var first := baseline[0];
        assert baseline == [first] + baseline[1..];
        if first.start < cutoff {
          baselineBytes := baselineBytes - encode(first);
          baseline := [first.(start := cutoff)] + baseline[1..];
          baselineBytes := baselineBytes + encode(baseline[0]);
        }
      }
    }

    /** Lines 560-566: drop the oldest until the JSON fits. */
    method DropToFit()
      requires baselineBytes == Bytes(encode, baseline) && |baseline| <= MAX_INTERVALS
      modifies this`baseline, this`baselineBytes
      ensures baseline == NewestFitting(encode, old(baseline)) && baselineBytes == Bytes(encode, baseline)
    {
      while 2 + baselineBytes + (if |baseline| > 0 then |baseline| - 1 else 0) > MAX_BYTES
        invariant baselineBytes == Bytes(encode, baseline) && |baseline| <= MAX_INTERVALS
        invariant NewestFitting(encode, baseline) == NewestFitting(encode, old(baseline))
        decreases |baseline|
      {
        if |baseline| == 0 {
          break;
        }
        Drain(1);
      }
    }

    /** Expire, clip, cap the count, then drop the oldest until the JSON fits (lines 540-567):
        exactly the newest part of the window that fits, with an exact byte count. */
    method PruneBaseline(endNs: nat)
      requires BytesOk() && Ordered(baseline)
      modifies this`baseline, this`baselineBytes
      ensures baseline == Pruned(encode, old(baseline), endNs)
      ensures baselineBytes == Bytes(encode, baseline)
    {
      if baselineBytes == 0 {
        baselineBytes := Bytes(encode, baseline);
      }
      ExpireAndClip(Cutoff(endNs));
      var excess := if |baseline| > MAX_INTERVALS then |baseline| - MAX_INTERVALS else 0;
      NewestFittingSkips(encode, baseline, excess);
      Drain(excess);
      DropToFit();
    }

    method BreakInterval(reason: string, now: int) returns (changes: seq<Finding>)
      modifies this
      ensures View() == Broken(old(View()), reason, now).state
      ensures changes == Broken(old(View()), reason, now).findings
      ensures baseline == old(baseline) && baselineBytes == old(baselineBytes)
    {
      changes := [];
      lastRate := None;
      unavailableReason := Some(reason);
      if episode.Some? {
        var e := episode.value;
        episode := None;
        if e.finding.Some? {
          var evidence := e.evidence.(recoveryNs := 0);
          var finding := e.finding.value.(evidence := evidence, updatedAtMs := now);
          changes := [finding];
          episode := Some(Episode(e.baseline, evidence, Some(finding)));
        }
      }
    }

    method Interrupt(reason: string, now: int) returns (finding: Option<Finding>)
      requires Valid()
      modifies this
      ensures Valid() && View() == Stopped(old(View()), reason, now).state
      ensures Stopped(old(View()), reason, now).findings == if finding.Some? then [finding.value] else []
    {
      finding := None;
      if episode.Some? && episode.value.finding.Some? {
        finding := Some(episode.value.finding.value.(
          status := Interrupted, reason := Some(reason), endedAtMs := Some(now), updatedAtMs := now));
      }
      episode := None;
      active := false;
      baseline, baselineBytes := [], 0;
      previous := None;
      lastRate := None;
      unavailableReason := Some(reason);
    }

    method Rebaseline(reason: string, now: int) returns (result: Result<Option<Finding>, string>)
      requires Valid()
      modifies this
      ensures Valid() && View() == Rebaselined(old(View()), reason, now).state
      ensures result.Ok? <==> RebaselineReason(reason) && old(revision) < MAX_U64
      ensures result.Err? ==> View() == old(View())
      ensures result.Ok? ==>
        Rebaselined(old(View()), reason, now).findings == if result.value.Some? then [result.value.value] else []
    {
      if !(reason == "planned_workload_change" || reason == "operator_reassessment") {
        return Err("unsupported rebaseline reason");
      }
      if revision >= MAX_U64 {
        return Err("baseline revision exhausted");
      }
      var next := revision + 1;
      var wasActive := active;
      var finding := Interrupt("administrator_rebaseline", now);
      revision := next;
      active := wasActive;
      return Ok(finding);
    }

    /** The episode arithmetic for one usable interval inside an episode (lines 405-476). */
    method Continue(e0: Episode, link: Link) returns (changes: seq<Finding>)
      requires episode == Some(e0) && Frozen(e0) && link.startNs < link.endNs
      modifies this`episode
      ensures View() == Continued(old(View()), link).state
      ensures changes == Continued(old(View()), link).findings
    {
      changes := [];
      var elapsed := link.endNs - link.startNs;
      var e := e0;
      episode := None;
      var high, low := e.baseline.high.value, e.baseline.low.value;
      if e.finding.None? && link.rate <= high {
        return;
      }
      var evidence := e.evidence.(latest := link);
      if link.rate > evidence.peak.rate {
        evidence := evidence.(peak := link);
      }
      if link.rate > high {
        evidence := evidence.(elevatedNs := SaturatingAdd(evidence.elevatedNs, elapsed));
      }
      if e.finding.Some? && link.rate <= low {
        evidence := evidence.(recoveryNs := SaturatingAdd(evidence.recoveryNs, elapsed));
      } else {
        evidence := evidence.(recoveryNs := 0);
      }
      assert evidence == Extended(e0, link);
      e := e.(evidence := evidence);
      if e.finding.Some? {
        var finding := e.finding.value.(evidence := evidence, lastSeenMs := link.observedMs,
          updatedAtMs := link.receivedMs);
        if evidence.recoveryNs >= RECOVERY_NS {
          finding := finding.(status := Resolved, reason := Some("returned_below_recovery_threshold"),
            endedAtMs := Some(link.receivedMs));
          return [finding];
        }
        changes := [finding];
        e := e.(finding := Some(finding));
      } else if evidence.elevatedNs >= OPENING_NS {
        var finding := NewFinding(View(), e, link.receivedMs);
        changes := [finding];
        e := e.(finding := Some(finding));
      }
      episode := Some(e);
    }

    /** A usable interval outside an episode (lines 391-404). */
    method Train(link: Link)
      requires episode.None? && link.startNs < link.endNs && link.rate >= 0.0
      requires Ordered(baseline) && Inside(baseline, 0, link.startNs) && baselineBytes == Bytes(encode, baseline)
      modifies this`episode, this`baseline, this`baselineBytes
      ensures Outcome(View(), []) == Trained(encode, old(View()), link)
      ensures baselineBytes == Bytes(encode, baseline)
    {
      var reference := BaselineSummary(baseline, link.endNs);
      SummaryUnique(reference, Summarise(baseline, link.endNs), baseline, link.endNs);
      if reference.high.Some? && link.rate > reference.high.value {
        episode := Some(Episode(reference, Evidence(link, link, link, link.endNs - link.startNs, 0), None));
      } else {
        var training := Interval(link.startNs, link.endNs, link.rate, link.observedMs);
        BytesSplit(encode, baseline, [training]);
        RingAppend(baseline, training, 0, link.startNs);
        baselineBytes := baselineBytes + encode(training);
        baseline := baseline + [training];
        PruneBaseline(link.endNs);
      }
    }

    method Advance(link: Link) returns (changes: seq<Finding>)
      requires episode.Some? ==> Frozen(episode.value)
      requires link.startNs < link.endNs && link.rate >= 0.0
      requires Ordered(baseline) && Inside(baseline, 0, link.startNs) && baselineBytes == Bytes(encode, baseline)
      modifies this
      ensures View() == Advanced(encode, old(View()), link).state
      ensures changes == Advanced(encode, old(View()), link).findings
      ensures baselineBytes == Bytes(encode, baseline)
    {
      hide Continued, Trained;
      if episode.Some? {
        changes := Continue(episode.value, link);
      } else {
        Train(link);
        changes := [];
      }
    }

    /** Lines 342-477 on the fields. */
    method Measure(p: Observation, o: Observation) returns (changes: seq<Finding>)
      requires Endpoint(p) && Endpoint(o)
      requires episode.Some? ==> Frozen(episode.value)
      requires Ordered(baseline) && Inside(baseline, 0, p.finishedNs) && baselineBytes == Bytes(encode, baseline)
      modifies this
      ensures View() == Measured(encode, old(View()), p, o).state
      ensures changes == Measured(encode, old(View()), p, o).findings
      ensures baselineBytes == Bytes(encode, baseline)
    {
      if !SpacingUsable(p, o) {
        changes := BreakInterval("interval_unusable", o.receivedAtMs);
        return;
      }
      if o.counter.value < p.counter.value {
        changes := BreakInterval("counter_decreased", o.receivedAtMs);
        return;
      }
      var link := LinkOf(p, o);
      lastRate := Some(link.rate);
      unavailableReason := None;
      changes := Advance(link);
    }

    /** Lines 296-341: an observation past the admission gate. */
    method Accept(raw: Observation) returns (changes: seq<Finding>)
      requires BytesOk() && Admissible(encode, View(), raw)
      modifies this
      ensures View() == Accepted(encode, old(View()), raw).state
      ensures changes == Accepted(encode, old(View()), raw).findings
      ensures BytesOk()
    {
      active := true;
      var o := Normalized(raw);
      var before := previous;
      previous := None;
      watermark := Some(o);
      PruneBaseline(o.finishedNs);
      assert View() == Moved(encode, old(View()), o);
      var failure := Failure(raw);
      if failure.Some? {
        changes := BreakInterval(failure.value, o.receivedAtMs);
        return;
      }
      previous := Some(o);
      if before.None? {
        changes := BreakInterval("insufficient_endpoints", o.receivedAtMs);
        return;
      }
      changes := Measure(before.value, o);
    }

    /** Lines 273-280: a proven identity change starts a new baseline revision, unless none is left. */
    method ChangeDomain(now: int) returns (changes: seq<Finding>, proceed: bool)
      requires Valid()
      modifies this
      ensures Valid() && previous.None? && episode.None? && baseline == []
      ensures var stopped := Stopped(old(View()), "identity_changed", now);
        && changes == stopped.findings
        && proceed == (old(revision) < MAX_U64)
        && View() == if proceed then stopped.state.(revision := old(revision) + 1)
                     else stopped.state.(reason := Some("baseline_revision_exhausted"))
    {
      var ended := Interrupt("identity_changed", now);
      changes := if ended.Some? then [ended.value] else [];
      proceed := revision < MAX_U64;
      if !proceed {
        unavailableReason := Some("baseline_revision_exhausted");
        return;
      }
      revision := revision + 1;
    }

    /** Lines 273-341: the observation that proves the change belongs to the new baseline. */
    method EnterDomain(raw: Observation) returns (changes: seq<Finding>)
      requires Valid()
      modifies this
      ensures BytesOk() && Outcome(View(), changes) == Switched(encode, old(View()), raw)
    {
      var proceed;
      changes, proceed := ChangeDomain(raw.receivedAtMs);
      hide DetectorOk, Accepted, Admissible, Bytes;
      if proceed {
        UntrainedIsAdmissible(encode, View(), raw);
        var more := Accept(raw);
        changes := changes + more;
      }
    }

    /** Lines 230-478: one observation. */
    method Observe(raw: Observation) returns (changes: seq<Finding>)
      requires Valid()
      modifies this
      ensures Valid()
      ensures Outcome(View(), changes) == Observed(encode, old(View()), raw)
    {
      ObservedOk(encode, View(), raw);
      hide DetectorOk, Accepted, Switched, Broken, Admissible, Admit, Bytes;
      changes := [];
      match Admit(View(), raw) {
        case Ignore =>
        case Unproven =>
          previous := None;
          changes := BreakInterval(if raw.unavailable.Some? then raw.unavailable.value else "timing_unknown",
            raw.receivedAtMs);
        case SwitchDomain =>
          changes := EnterDomain(raw);
        case Accept =>
          AcceptIsAdmissible(encode, View(), raw);
          changes := Accept(raw);
      }
    }
  }
}
