/**
 How heartbeats drive the USB watches of a node (server/src/device_watch.rs:419-631): which snapshot
 counts as a continuation of the one before, and what every watch makes of it.
 */
module WatchIngest {
  import opened Wrappers
  import opened DeviceWatch
  import opened WatchRuns
  import Graph

  const STALE_MS: int := 15_000
  const SECOND_NS: nat := 1_000_000_000
  const MAX_NODE: nat := 128
  const MAX_GLOBAL: nat := 8192

  type Id = string

  /** A device of a complete snapshot, under the identity of its watch. */
  datatype Sighting = Sighting(strong: bool, device: Device)

  /** The host's latest attempt.  snapshot is None when it is missing, invalid, partial or unresolved. */
  datatype Attempt = Attempt(
    collection: string, clock: string, mono: nat, finishedAt: Option<int>, ok: bool,
      snapshot: Option<map<Id, Sighting>>)

  datatype Beat = Beat(context: Context, mono: nat, createdAt: Option<int>, graphKnown: bool, attempt: Option<Attempt>)

  datatype NodeState = NodeState(acquisition: Acquisition, context: Context, limited: bool)

  /** A watch with everything that ever happened to it. */
  datatype Tracked = Tracked(state: WatchState, start: WatchState, steps: seq<Step>)

  datatype Node = Node(last: Option<NodeState>, watches: map<Id, Tracked>)

  function Take(t: Tracked, s: Step): Tracked {
    Tracked(Next(t.state, s), t.start, t.steps + [s])
  }

  // ---- A change of clock or session (lines 435-457) ----

  function Unsettled(n: Node, c: Context): Node {
    if n.last.Some? && n.last.value.context != c then
      Node(Some(n.last.value.(context := c)),
        map id | id in n.watches :: Take(n.watches[id], Disarm(n.watches[id].state.acquisition, false)))
    else n
  }

  // ---- The attempt (lines 483-552) ----

  function ContextOf(b: Beat, c: Attempt): Context {
    b.context.(clock := c.clock)
  }

  predicate Same(last: Option<NodeState>, b: Beat, c: Attempt) {
    c.clock == b.context.clock && last.Some? && last.value.acquisition.context == ContextOf(b, c)
  }

  /** Already processed, or older than what was. */
  predicate Repeats(last: Option<NodeState>, b: Beat, c: Attempt) {
    && Same(last, b, c)
    && (last.value.acquisition.collection == c.collection || c.mono <= last.value.acquisition.mono)
  }

  predicate Subsecond(last: Option<NodeState>, b: Beat, c: Attempt) {
    Same(last, b, c) && c.mono - last.value.acquisition.mono < SECOND_NS
  }

  function Gap(a: int, b: int): int {
    if a < b then b - a else a - b
  }

  /** Age at receipt, with the clock skew of the message added. */
  function AgeMs(b: Beat, c: Attempt, now: int): int {
    if b.mono < c.mono || b.createdAt.None? then STALE_MS + 1
    else (b.mono - c.mono) / 1_000_000 + Gap(now, b.createdAt.value)
  }

  /** The attempt may be used at all. */
  predicate Usable(last: Option<NodeState>, b: Beat, c: Attempt, now: int) {
    && c.clock == b.context.clock && AgeMs(b, c, now) <= STALE_MS
    && c.finishedAt.Some? && Gap(now, c.finishedAt.value) <= STALE_MS
    && c.ok && c.snapshot.Some? && !Subsecond(last, b, c)
  }

  function AcquisitionOf(last: Option<NodeState>, b: Beat, c: Attempt, now: int): Acquisition {
    Acquisition(ContextOf(b, c), c.collection, c.mono, now, AgeMs(b, c, now), Usable(last, b, c, now))
  }

  predicate Continuous(last: Option<NodeState>, b: Beat, c: Attempt) {
    && Same(last, b, c) && last.value.context == b.context && last.value.acquisition.current
    && c.mono - last.value.acquisition.mono <= 15 * SECOND_NS
  }

  // ---- What every watch makes of it (lines 577-612) ----

  /** room is how many more watches fit under both limits; new ones are admitted in id order. */
  function StepOf(last: Option<NodeState>, b: Beat, c: Attempt, now: int, id: Id, w: WatchState, uuid: nat): Step {
    var a := AcquisitionOf(last, b, c, now);
    if !a.current then Blind(a)
    else if !w.strong && w.context != b.context then Blind(a)
    else if id !in c.snapshot.value
      && (exists other :: other in c.snapshot.value && c.snapshot.value[other].device.driver == w.driver) then
      Disarm(a, true)
    else Look(if id in c.snapshot.value then Some(c.snapshot.value[id].device) else None, a, Continuous(last, b, c),
      uuid)
  }

  datatype Admission = Admission(added: set<Id>, limited: bool)

  /** New watches are admitted in the order of their ids while both limits leave room. */
  function Admit(order: seq<Id>, known: set<Id>, total: nat): Admission {
    if order == [] then Admission({}, false)
    else
      var front := Admit(order[..|order| - 1], known, total);
      var id := order[|order| - 1];
      if id in known + front.added then front
      else if |known| + |front.added| >= MAX_NODE || total + |front.added| >= MAX_GLOBAL then front.(limited := true)
      else front.(added := front.added + {id})
  }

  function Newcomers(known: set<Id>, last: Option<NodeState>, b: Beat, c: Attempt, now: int,
          added: set<Id>): map<Id, Tracked> {
    if Usable(last, b, c, now) then
      map id | id in c.snapshot.value && id in added && id !in known ::
        Newcomer(c.snapshot.value[id], AcquisitionOf(last, b, c, now))
    else map[]
  }

  function Newcomer(s: Sighting, a: Acquisition): Tracked {
    Tracked(NewWatch(s.strong, s.device.driver, a), NewWatch(s.strong, s.device.driver, a), [])
  }

  /** order lists the snapshot's ids, total counts the watches of all nodes. */
  function Processed(n: Node, before: Option<NodeState>, b: Beat, c: Attempt, now: int, order: seq<Id>, total: nat,
          uuids: map<Id, nat>): Node {
    var admission := Admit(order, n.watches.Keys, total);
    var current := Usable(before, b, c, now);
    var watches := n.watches + Newcomers(n.watches.Keys, before, b, c, now, admission.added);
    Node(Some(NodeState(AcquisitionOf(before, b, c, now), b.context,
        if current then admission.limited else before.Some? && before.value.limited)),
      map id | id in watches ::
        Take(watches[id], StepOf(before, b, c, now, id, watches[id].state, if id in uuids then uuids[id] else 0)))
  }

  /** One accepted heartbeat.  Everything compares with the node's state before the heartbeat. */
  function Ingest(n: Node, b: Beat, now: int, order: seq<Id>, total: nat, uuids: map<Id, nat>): Node {
    var settled := Unsettled(n, b.context);
    if !b.graphKnown || b.attempt.None? || Repeats(n.last, b, b.attempt.value) then settled
    else Processed(settled, n.last, b, b.attempt.value, now, order, total, uuids)
  }

  // ---- What every heartbeat keeps ----

  predicate Spaced(a: Acquisition, b: Acquisition) {
    a.context == b.context && SECOND_NS <= b.mono - a.mono <= 15 * SECOND_NS
  }

  /** An observation is made from a current acquisition no older than 15 s, and one that continues
      another was acquired 1 to 15 s after it. */
  predicate StepTimed(steps: seq<Step>, i: nat)
    requires i < |steps|
  {
    steps[i].Look? ==>
      && steps[i].a.current && steps[i].a.ageMs <= STALE_MS
      && (Consecutive(steps, i) ==> Spaced(steps[i - 1].a, steps[i].a))
  }

  ghost predicate TrackedOk(t: Tracked, last: NodeState) {
    && WatchRuns.Fresh(t.start) && t.steps != []
    && t.state == At(t.start, t.steps, |t.steps|)
    && (forall i :: 0 <= i < |t.steps| ==> StepTimed(t.steps, i))
    && (var s := t.steps[|t.steps| - 1]; s.Look? ==> s.a == last.acquisition)
  }

  ghost predicate NodeOk(n: Node) {
    && |n.watches| <= MAX_NODE
    && (n.last.None? ==> n.watches == map[])
    && (forall id :: id in n.watches ==> TrackedOk(n.watches[id], n.last.value))
  }

  lemma {:induction false} AtPrefix(start: WatchState, steps: seq<Step>, s: Step, n: nat)
    requires n <= |steps|
    ensures At(start, steps + [s], n) == At(start, steps, n)
    decreases n
  {
    hide Next;
    if n > 0 {
      AtPrefix(start, steps, s, n - 1);
    }
  }

  lemma TimedPrefix(steps: seq<Step>, s: Step, i: nat)
    requires i < |steps| && StepTimed(steps, i)
    ensures StepTimed(steps + [s], i)
  {
  }

  lemma TakeOk(t: Tracked, last: NodeState, s: Step, now: NodeState)
    requires TrackedOk(t, last) && StepTimed(t.steps + [s], |t.steps|)
    requires s.Look? ==> s.a == now.acquisition
    ensures TrackedOk(Take(t, s), now)
  {
    hide Next, StepTimed;
    AtPrefix(t.start, t.steps, s, |t.steps|);
    assert At(t.start, t.steps + [s], |t.steps + [s]|) == Next(t.state, s);
    hide At;
    forall i | 0 <= i < |t.steps + [s]| ensures StepTimed(t.steps + [s], i) {
      if i < |t.steps| {
        TimedPrefix(t.steps, s, i);
      }
    }
  }

  lemma FirstTakeOk(start: WatchState, s: Step, now: NodeState)
    requires WatchRuns.Fresh(start) && StepTimed([s], 0) && (s.Look? ==> s.a == now.acquisition)
    ensures TrackedOk(Take(Tracked(start, start, []), s), now)
  {
    assert [] + [s] == [s];
    assert At(start, [s], 0) == start;
    assert At(start, [s], 1) == Next(start, s);
    hide Next;
  }

  lemma UnsettledOk(n: Node, c: Context)
    requires NodeOk(n)
    ensures NodeOk(Unsettled(n, c))
  {
    hide TrackedOk, Take;
    if n.last.Some? && n.last.value.context != c {
      assert Unsettled(n, c).watches.Keys == n.watches.Keys;
      assert |Unsettled(n, c).watches| == |n.watches|;
      forall id | id in n.watches
        ensures TrackedOk(Take(n.watches[id], Disarm(n.watches[id].state.acquisition, false)),
          n.last.value.(context := c))
      {
        TakeOk(n.watches[id], n.last.value, Disarm(n.watches[id].state.acquisition, false),
          n.last.value.(context := c));
      }
    }
  }

  /** The step of a watch that already has a history is properly timed. */
  lemma StepTimedAfter(t: Tracked, last: NodeState, b: Beat, c: Attempt, now: int, id: Id, uuid: nat)
    requires TrackedOk(t, last) && !Repeats(Some(last), b, c)
    ensures StepTimed(t.steps + [StepOf(Some(last), b, c, now, id, t.state, uuid)], |t.steps|)
  {
  }

  /** After the context was unsettled no step continues the one before. */
  lemma StepTimedUnsettled(t: Tracked, last: NodeState, b: Beat, c: Attempt, now: int, id: Id, uuid: nat)
    requires t.steps != [] && !t.steps[|t.steps| - 1].Look?
    ensures StepTimed(t.steps + [StepOf(Some(last), b, c, now, id, t.state, uuid)], |t.steps|)
  {
  }

  lemma {:induction false} AdmitBounded(order: seq<Id>, known: set<Id>, total: nat)
    ensures Admit(order, known, total).added !! known
    ensures |known| <= MAX_NODE ==> |known| + |Admit(order, known, total).added| <= MAX_NODE
    ensures total <= MAX_GLOBAL ==> total + |Admit(order, known, total).added| <= MAX_GLOBAL
  {
    if order != [] {
      AdmitBounded(order[..|order| - 1], known, total);
    }
  }

  lemma ProcessedBounded(n: Node, before: Option<NodeState>, b: Beat, c: Attempt, now: int, order: seq<Id>, total: nat,
          uuids: map<Id, nat>)
    requires |n.watches| <= MAX_NODE
    ensures var n' := Processed(n, before, b, c, now, order, total, uuids);
      |n'.watches| <= MAX_NODE && n'.last.Some?
  {
    hide Admit, AcquisitionOf, Take, StepOf;
    AdmitBounded(order, n.watches.Keys, total);
    var added := Admit(order, n.watches.Keys, total).added;
    var fresh' := Newcomers(n.watches.Keys, before, b, c, now, added);
    var n' := Processed(n, before, b, c, now, order, total, uuids);
    assert n'.watches.Keys == n.watches.Keys + fresh'.Keys;
    Graph.SubsetSize(fresh'.Keys, added);
    assert |n.watches.Keys + fresh'.Keys| <= |n.watches.Keys| + |fresh'.Keys|;
    assert |n'.watches| == |n'.watches.Keys|;
  }

  lemma IngestOk(n: Node, b: Beat, now: int, order: seq<Id>, total: nat, uuids: map<Id, nat>)
    requires NodeOk(n)
    ensures NodeOk(Ingest(n, b, now, order, total, uuids))
  {
    hide NodeOk, Unsettled, Repeats, Processed;
    UnsettledOk(n, b.context);
    if b.graphKnown && b.attempt.Some? && !Repeats(n.last, b, b.attempt.value) {
      ProcessedOk(n, b, now, order, total, uuids);
    }
  }

  lemma ProcessedOk(n: Node, b: Beat, now: int, order: seq<Id>, total: nat, uuids: map<Id, nat>)
    requires NodeOk(n) && NodeOk(Unsettled(n, b.context))
    requires b.graphKnown && b.attempt.Some? && !Repeats(n.last, b, b.attempt.value)
    ensures NodeOk(Processed(Unsettled(n, b.context), n.last, b, b.attempt.value, now, order, total, uuids))
  {
    hide TrackedOk, Unsettled, Repeats, Processed;
    var n' := Processed(Unsettled(n, b.context), n.last, b, b.attempt.value, now, order, total, uuids);
    ProcessedBounded(Unsettled(n, b.context), n.last, b, b.attempt.value, now, order, total, uuids);
    forall id | id in n'.watches ensures TrackedOk(n'.watches[id], n'.last.value) {
      WatchOk(n, b, now, order, total, uuids, id);
    }
  }

  lemma WatchOk(n: Node, b: Beat, now: int, order: seq<Id>, total: nat, uuids: map<Id, nat>, id: Id)
    requires NodeOk(n) && b.graphKnown && b.attempt.Some? && !Repeats(n.last, b, b.attempt.value)
    requires id in Ingest(n, b, now, order, total, uuids).watches
    ensures TrackedOk(Ingest(n, b, now, order, total, uuids).watches[id],
      Ingest(n, b, now, order, total, uuids).last.value)
  {
    var c := b.attempt.value;
    var settled := Unsettled(n, b.context);
    var last := Ingest(n, b, now, order, total, uuids).last.value;
    var uuid := if id in uuids then uuids[id] else 0;
    var added := Admit(order, settled.watches.Keys, total).added;
    hide TrackedOk, Usable, Same, Repeats, Continuous, Next, Admit, StepOf, Take, Unsettled;
    if id in Newcomers(settled.watches.Keys, n.last, b, c, now, added) {
      NewcomerOk(n.last, b, c, now, id, uuid, last);
    } else {
      TrackedStepOk(n, b, c, now, id, uuid, last);
    }
  }

  lemma NewcomerOk(before: Option<NodeState>, b: Beat, c: Attempt, now: int, id: Id, uuid: nat, last: NodeState)
    requires c.snapshot.Some? && id in c.snapshot.value && last.acquisition == AcquisitionOf(before, b, c, now)
    ensures var t := Newcomer(c.snapshot.value[id], AcquisitionOf(before, b, c, now));
      TrackedOk(Take(t, StepOf(before, b, c, now, id, t.state, uuid)), last)
  {
    var t := Newcomer(c.snapshot.value[id], AcquisitionOf(before, b, c, now));
    FirstStep(before, b, c, now, id, t.state, uuid);
    hide TrackedOk, StepTimed, Usable, StepOf, Next, Take, AcquisitionOf;
    FirstTakeOk(t.start, StepOf(before, b, c, now, id, t.state, uuid), last);
  }

  lemma TrackedStepOk(n: Node, b: Beat, c: Attempt, now: int, id: Id, uuid: nat, last: NodeState)
    requires NodeOk(n) && !Repeats(n.last, b, c) && last.acquisition == AcquisitionOf(n.last, b, c, now)
    requires id in Unsettled(n, b.context).watches
    ensures var t := Unsettled(n, b.context).watches[id];
      TrackedOk(Take(t, StepOf(n.last, b, c, now, id, t.state, uuid)), last)
  {
    UnsettledOk(n, b.context);
    var settled := Unsettled(n, b.context);
    var t := settled.watches[id];
    var s := StepOf(n.last, b, c, now, id, t.state, uuid);
    assert id in n.watches && n.last.Some?;
    StepAcquired(n.last, b, c, now, id, t.state, uuid);
    hide TrackedOk, StepTimed, Usable, Same, Repeats, Continuous, Next, StepOf, Take, AcquisitionOf;
    if n.last.value.context != b.context {
      UnsettledLast(n, b.context, id);
      StepTimedUnsettled(t, n.last.value, b, c, now, id, uuid);
    } else {
      StepTimedAfter(t, n.last.value, b, c, now, id, uuid);
    }
    TakeOk(t, settled.last.value, s, last);
  }

  lemma UnsettledLast(n: Node, c: Context, id: Id)
    requires n.last.Some? && n.last.value.context != c && id in n.watches
    ensures var t := Unsettled(n, c).watches[id]; t.steps != [] && !t.steps[|t.steps| - 1].Look?
  {
    hide Next;
  }

  lemma StepAcquired(last: Option<NodeState>, b: Beat, c: Attempt, now: int, id: Id, w: WatchState, uuid: nat)
    ensures var s := StepOf(last, b, c, now, id, w, uuid); s.Look? ==> s.a == AcquisitionOf(last, b, c, now)
  {
  }

  lemma FirstStep(last: Option<NodeState>, b: Beat, c: Attempt, now: int, id: Id, w: WatchState, uuid: nat)
    ensures var s := StepOf(last, b, c, now, id, w, uuid);
      StepTimed([s], 0) && (s.Look? ==> s.a == AcquisitionOf(last, b, c, now))
  {
  }

  // ---- Whole runs ----

  datatype Event = Heard(b: Beat, now: int, order: seq<Id>, total: nat, uuids: map<Id, nat>)

  ghost function Run(events: seq<Event>): Node {
    if events == [] then Node(None, map[])
    else
      var e := events[|events| - 1];
      Ingest(Run(events[..|events| - 1]), e.b, e.now, e.order, e.total, e.uuids)
  }

  lemma {:induction false} RunOk(events: seq<Event>)
    ensures NodeOk(Run(events))
  {
    if events != [] {
      var e := events[|events| - 1];
      RunOk(events[..|events| - 1]);
      IngestOk(Run(events[..|events| - 1]), e.b, e.now, e.order, e.total, e.uuids);
      hide Ingest, NodeOk;
    }
  }

  /** In every run, whatever a watch concluded rests on acquisitions that were current, at most 15 s old
      and, where two of them count together, 1 to 15 s apart in one context. */
  lemma EvidenceIsTimed(events: seq<Event>, id: Id, i: nat)
    requires id in Run(events).watches && i < |Run(events).watches[id].steps|
    ensures StepTimed(Run(events).watches[id].steps, i)
  {
    RunOk(events);
    hide Run, StepTimed;
    assert TrackedOk(Run(events).watches[id], Run(events).last.value);
  }
}
