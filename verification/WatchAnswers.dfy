/**
 What each heartbeat makes every watch do (server/src/device_watch.rs:419-631), stated on the heartbeats of
 whole runs.
 */
module WatchAnswers {
  import opened Wrappers
  import opened DeviceWatch
  import opened WatchRuns
  import opened WatchIngest
  import Graph

  // ---- Which attempts count ----

  /** An attempt that was processed, the heartbeat that brought it, and whether it could be used. */
  datatype Past = Past(b: Beat, c: Attempt, now: int, current: bool)

  /** Of the same boot, session and clock as the attempt processed before. */
  predicate Sequel(before: Option<Past>, b: Beat, c: Attempt) {
    && before.Some? && c.clock == b.context.clock && before.value.c.clock == c.clock
    && before.value.b.context.boot == b.context.boot && before.value.b.context.generation == b.context.generation
    && before.value.b.context.session == b.context.session
  }

  /** Neither missing, nor known already, nor older than what is known. */
  predicate Counts(before: Option<Past>, b: Beat) {
    && b.graphKnown && b.attempt.Some?
    && (Sequel(before, b, b.attempt.value) ==>
          && b.attempt.value.collection != before.value.c.collection
          && b.attempt.value.mono > before.value.c.mono)
  }

  /** At most so many milliseconds apart. */
  predicate Within(a: int, b: int, ms: int) {
    a <= b + ms && b <= a + ms
  }

  /** Its age when the message was made, in whole milliseconds, and the message's clock skew are at most
      fifteen seconds together. */
  predicate Young(b: Beat, c: Attempt, now: int) {
    && c.mono <= b.mono && b.createdAt.Some?
    && b.mono - c.mono < (15_001 - (now - b.createdAt.value)) * 1_000_000
    && b.mono - c.mono < (15_001 - (b.createdAt.value - now)) * 1_000_000
  }

  predicate UsableNow(before: Option<Past>, b: Beat, c: Attempt, now: int) {
    && c.clock == b.context.clock && Young(b, c, now)
    && c.finishedAt.Some? && Within(now, c.finishedAt.value, 15_000)
    && c.ok && c.snapshot.Some?
    && (Sequel(before, b, c) ==> c.mono >= before.value.c.mono + 1_000_000_000)
  }

  /** Not more than fifteen seconds after a usable one, with no heartbeat of another context in between. */
  predicate Continues(before: Option<Past>, context: Context, b: Beat, c: Attempt) {
    && Sequel(before, b, c) && context == b.context && before.value.current
    && c.mono <= before.value.c.mono + 15_000_000_000
  }

  function PastOf(before: Option<Past>, e: Event): Past
    requires Counts(before, e.b)
  {
    Past(e.b, e.b.attempt.value, e.now, UsableNow(before, e.b, e.b.attempt.value, e.now))
  }

  /** The last attempt that counted. */
  ghost function LastPast(events: seq<Event>): Option<Past> {
    if events == [] then None
    else
      var before, e := LastPast(events[..|events| - 1]), events[|events| - 1];
      if Counts(before, e.b) then Some(PastOf(before, e)) else before
  }

  // ---- What the node remembers ----

  /** The acquisition made of an attempt. */
  predicate AcquiredFrom(a: Acquisition, p: Past) {
    && a.context == p.b.context.(clock := p.c.clock) && a.collection == p.c.collection && a.mono == p.c.mono
    && a.receivedAt == p.now && a.current == p.current
    && (p.c.mono <= p.b.mono && p.b.createdAt.Some? ==>
          AgedBy(a.ageMs, p.b.mono - p.c.mono, p.b.createdAt.value, p.now))
    && (!(p.c.mono <= p.b.mono && p.b.createdAt.Some?) ==> a.ageMs > 15_000)
  }

  /** The nanoseconds in whole milliseconds, plus the skew. */
  predicate AgedBy(ageMs: int, ns: int, createdAt: int, now: int) {
    var skew := if createdAt <= now then now - createdAt else createdAt - now;
    (ageMs - skew) * 1_000_000 <= ns < (ageMs - skew + 1) * 1_000_000
  }

  predicate Remembers(last: Option<NodeState>, past: Option<Past>, context: Context) {
    && (last.None? <==> past.None?)
    && (last.Some? ==> AcquiredFrom(last.value.acquisition, past.value) && last.value.context == context)
  }

  lemma SequelIs(last: Option<NodeState>, past: Option<Past>, context: Context, b: Beat, c: Attempt)
    requires Remembers(last, past, context)
    ensures Sequel(past, b, c) <==> Same(last, b, c)
    ensures Continues(past, context, b, c) <==> Continuous(last, b, c)
  {
    hide AgedBy;
  }

  lemma CountsIs(last: Option<NodeState>, past: Option<Past>, context: Context, b: Beat)
    requires Remembers(last, past, context)
    ensures Counts(past, b) <==> b.graphKnown && b.attempt.Some? && !Repeats(last, b, b.attempt.value)
  {
    if b.attempt.Some? {
      SequelIs(last, past, context, b, b.attempt.value);
    }
    hide Sequel, Same;
  }

  lemma AgeIs(b: Beat, c: Attempt, now: int)
    ensures c.mono <= b.mono && b.createdAt.Some? ==>
      AgedBy(AgeMs(b, c, now), b.mono - c.mono, b.createdAt.value, now)
    ensures !(c.mono <= b.mono && b.createdAt.Some?) ==> AgeMs(b, c, now) > 15_000
    ensures AgeMs(b, c, now) <= STALE_MS <==> Young(b, c, now)
  {
  }

  lemma UsableIs(last: Option<NodeState>, past: Option<Past>, context: Context, b: Beat, c: Attempt, now: int)
    requires Remembers(last, past, context)
    ensures UsableNow(past, b, c, now) <==> Usable(last, b, c, now)
  {
    SequelIs(last, past, context, b, c);
    AgeIs(b, c, now);
    hide Sequel, Same, AgeMs, Young;
  }

  lemma AcquisitionIs(last: Option<NodeState>, past: Option<Past>, context: Context, b: Beat, c: Attempt, now: int)
    requires Remembers(last, past, context)
    ensures AcquiredFrom(AcquisitionOf(last, b, c, now), Past(b, c, now, UsableNow(past, b, c, now)))
  {
    UsableIs(last, past, context, b, c, now);
    AgeIs(b, c, now);
    hide Usable, UsableNow, AgeMs, AgedBy;
  }

  /** The node after a heartbeat remembers it. */
  lemma IngestRemembers(n: Node, past: Option<Past>, context: Context, e: Event)
    requires Remembers(n.last, past, context)
    ensures Remembers(Ingest(n, e.b, e.now, e.order, e.total, e.uuids).last,
      if Counts(past, e.b) then Some(PastOf(past, e)) else past, e.b.context)
  {
    CountsIs(n.last, past, context, e.b);
    if Counts(past, e.b) {
      AcquisitionIs(n.last, past, context, e.b, e.b.attempt.value, e.now);
    }
    hide Counts, UsableNow, AcquiredFrom, Repeats, AcquisitionOf, Admit, StepOf, Take;
  }

  /** The context of the last heartbeat. */
  function ContextNow(events: seq<Event>): Context {
    if events == [] then Context("", "", "", "") else events[|events| - 1].b.context
  }

  lemma {:induction false} RunRemembers(events: seq<Event>)
    ensures Remembers(Run(events).last, LastPast(events), ContextNow(events))
  {
    if events != [] {
      var front, e := events[..|events| - 1], events[|events| - 1];
      RunRemembers(front);
      IngestRemembers(Run(front), LastPast(front), ContextNow(front), e);
      hide Ingest, Counts, UsableNow, Remembers;
    }
  }

  // ---- What a watch does ----

  predicate InSnapshot(c: Attempt, id: Id) {
    c.snapshot.Some? && id in c.snapshot.value
  }

  /** Some device of the snapshot is behind this driver. */
  predicate DriverSeen(c: Attempt, driver: string) {
    c.snapshot.Some? && exists id :: id in c.snapshot.value && c.snapshot.value[id].device.driver == driver
  }

  /** The watch looks at the snapshot: it can be used, and does not show the watch's driver under another name. */
  predicate Looks(p: Past, id: Id, w: WatchState) {
    && p.current && (w.strong || w.context == p.b.context)
    && (InSnapshot(p.c, id) || !DriverSeen(p.c, w.driver))
  }

  predicate Disowns(p: Past, id: Id, w: WatchState) {
    p.current && (w.strong || w.context == p.b.context) && !InSnapshot(p.c, id) && DriverSeen(p.c, w.driver)
  }

  /** The step of a watch for an attempt that counts. */
  predicate StepSays(s: Step, p: Past, id: Id, w: WatchState, continues: bool) {
    && AcquiredFrom(s.a, p)
    && (s.Look? <==> Looks(p, id, w)) && (s.Disarm? <==> Disowns(p, id, w)) && (s.Disarm? ==> s.disown)
    && (s.Look? ==> (s.continuous <==> continues))
    && (s.Look? && InSnapshot(p.c, id) ==> s.d == Some(p.c.snapshot.value[id].device))
    && (s.Look? && !InSnapshot(p.c, id) ==> s.d == None)
  }

  /** A change of boot, session or clock. */
  predicate Unsettles(before: Option<Past>, context: Context, e: Event) {
    before.Some? && context != e.b.context
  }

  /** The watch as it meets the attempt. */
  predicate Settled(t: Tracked, t': Tracked, unsettled: bool) {
    if unsettled then
      t'.start == t.start && |t'.steps| == |t.steps| + 1 && t'.steps[..|t.steps|] == t.steps
      && t'.steps[|t.steps|] == Disarm(t.state.acquisition, false) && t'.state == Next(t.state, t'.steps[|t.steps|])
    else t' == t
  }

  /** It then takes one step. */
  predicate Stepped(t: Tracked, t': Tracked, p: Past, id: Id, continues: bool) {
    && t'.start == t.start && |t'.steps| == |t.steps| + 1 && t'.steps[..|t.steps|] == t.steps
    && t'.state == Next(t.state, t'.steps[|t.steps|])
    && StepSays(t'.steps[|t.steps|], p, id, t.state, continues)
  }

  /** A watch that was there: disarmed by a change of context, then one step if the attempt counts. */
  ghost predicate WatchNext(t: Tracked, t': Tracked, id: Id, before: Option<Past>, context: Context, e: Event) {
    exists s :: WatchBy(t, s, t', id, before, context, e)
  }

  predicate WatchBy(t: Tracked, s: Tracked, t': Tracked, id: Id, before: Option<Past>, context: Context, e: Event) {
    && Settled(t, s, Unsettles(before, context, e))
    && if Counts(before, e.b) then
         Stepped(s, t', PastOf(before, e), id, Continues(before, context, e.b, e.b.attempt.value))
       else t' == s
  }

  lemma StepIs(last: Option<NodeState>, before: Option<Past>, context: Context, e: Event, id: Id, w: WatchState,
          uuid: nat)
    requires Remembers(last, before, context) && Counts(before, e.b)
    ensures StepSays(StepOf(last, e.b, e.b.attempt.value, e.now, id, w, uuid), PastOf(before, e), id, w,
      Continues(before, context, e.b, e.b.attempt.value))
  {
    var c := e.b.attempt.value;
    AcquisitionIs(last, before, context, e.b, c, e.now);
    SequelIs(last, before, context, e.b, c);
    UsableIs(last, before, context, e.b, c, e.now);
    assert Usable(last, e.b, c, e.now) ==> c.snapshot.Some?;
    hide Remembers, Counts, UsableNow, Continues, Continuous, Usable, AcquiredFrom;
  }

  lemma TakeSteps(t: Tracked, p: Past, id: Id, continues: bool, s: Step)
    requires StepSays(s, p, id, t.state, continues)
    ensures Stepped(t, Take(t, s), p, id, continues)
  {
    hide StepSays, Next;
  }

  lemma UnsettledIs(n: Node, before: Option<Past>, context: Context, e: Event, id: Id)
    requires Remembers(n.last, before, context) && id in n.watches
    ensures id in Unsettled(n, e.b.context).watches
    ensures Settled(n.watches[id], Unsettled(n, e.b.context).watches[id], Unsettles(before, context, e))
  {
    hide AcquiredFrom, Next;
  }

  /** Every watch makes of a heartbeat exactly what it says. */
  lemma WatchesStep(n: Node, before: Option<Past>, context: Context, e: Event, id: Id)
    requires Remembers(n.last, before, context) && id in n.watches
    ensures var n' := Ingest(n, e.b, e.now, e.order, e.total, e.uuids);
      id in n'.watches && WatchNext(n.watches[id], n'.watches[id], id, before, context, e)
  {
    UnsettledIs(n, before, context, e, id);
    CountsIs(n.last, before, context, e.b);
    hide Remembers, Counts, PastOf, Continues, Unsettled, Settled, Stepped, Repeats, Processed, Unsettles;
    if Counts(before, e.b) {
      ProcessedSteps(Unsettled(n, e.b.context), n.last, before, context, e, id);
    }
    var n' := Ingest(n, e.b, e.now, e.order, e.total, e.uuids);
    assert WatchBy(n.watches[id], Unsettled(n, e.b.context).watches[id], n'.watches[id], id, before, context, e);
  }

  lemma ProcessedSteps(s: Node, last: Option<NodeState>, before: Option<Past>, context: Context, e: Event, id: Id)
    requires Remembers(last, before, context) && id in s.watches && Counts(before, e.b)
    ensures var n' := Processed(s, last, e.b, e.b.attempt.value, e.now, e.order, e.total, e.uuids);
      && id in n'.watches
      && Stepped(s.watches[id], n'.watches[id], PastOf(before, e), id,
           Continues(before, context, e.b, e.b.attempt.value))
  {
    var c := e.b.attempt.value;
    var uuid := if id in e.uuids then e.uuids[id] else 0;
    StepIs(last, before, context, e, id, s.watches[id].state, uuid);
    hide Remembers, Counts, PastOf, Continues, StepOf, Take, StepSays, Usable, Admit, AcquisitionOf, Stepped;
    TakeSteps(s.watches[id], PastOf(before, e), id, Continues(before, context, e.b, c),
      StepOf(last, e.b, c, e.now, id, s.watches[id].state, uuid));
    hide Counts;
  }

  lemma WatchesInRuns(events: seq<Event>, id: Id)
    requires events != [] && id in Run(events[..|events| - 1]).watches
    ensures var front, e := events[..|events| - 1], events[|events| - 1];
      && id in Run(events).watches
      && WatchNext(Run(front).watches[id], Run(events).watches[id], id, LastPast(front), ContextNow(front), e)
  {
    var front, e := events[..|events| - 1], events[|events| - 1];
    RunRemembers(front);
    WatchesStep(Run(front), LastPast(front), ContextNow(front), e, id);
    hide Ingest, WatchNext, Remembers;
  }

  // ---- Which devices are watched ----

  /** The ids of a listing that are not watched yet. */
  function NewIds(order: seq<Id>, known: set<Id>): seq<Id> {
    if order == [] then []
    else
      var id := order[|order| - 1];
      NewIds(order[..|order| - 1], known) + if id in known then [] else [id]
  }

  /** How many more watches there may be. */
  function Room(known: nat, total: nat): nat {
    var own := if known < 128 then 128 - known else 0;
    var all := if total < 8192 then 8192 - total else 0;
    if own < all then own else all
  }

  predicate Distinct(order: seq<Id>) {
    forall i, j :: 0 <= i < j < |order| ==> order[i] != order[j]
  }

  /** The first new ids are admitted, as many as there is room for; the node is limited exactly when some id
      is left out. */
  predicate AdmitsSo(news: seq<Id>, room: nat, a: Admission) {
    && (if |news| <= room then a.added == (set id | id in news) else a.added == (set id | id in news[..room]))
    && (a.limited <==> |news| > room)
    && |a.added| == (if |news| <= room then |news| else room)
  }

  lemma {:induction false} NewIdsAre(order: seq<Id>, known: set<Id>)
    ensures forall id :: id in NewIds(order, known) <==> id in order && id !in known
    decreases |order|
  {
    if order != [] {
      NewIdsAre(order[..|order| - 1], known);
      assert order == order[..|order| - 1] + [order[|order| - 1]];
    }
  }

  lemma {:induction false} AdmitsExactly(order: seq<Id>, known: set<Id>, total: nat)
    requires Distinct(order)
    ensures AdmitsSo(NewIds(order, known), Room(|known|, total), Admit(order, known, total))
    decreases |order|
  {
    if order == [] {
      AdmitsNone(Room(|known|, total));
    } else {
      AdmitsExactly(order[..|order| - 1], known, total);
      AdmitsLast(order, known, total);
    }
    hide Admit, AdmitsSo, NewIds, Room;
  }

  lemma AdmitsNone(room: nat)
    ensures AdmitsSo([], room, Admission({}, false))
  {
  }

  lemma AdmitsLast(order: seq<Id>, known: set<Id>, total: nat)
    requires order != [] && Distinct(order)
    requires AdmitsSo(NewIds(order[..|order| - 1], known), Room(|known|, total),
      Admit(order[..|order| - 1], known, total))
    ensures AdmitsSo(NewIds(order, known), Room(|known|, total), Admit(order, known, total))
  {
    var front, id := order[..|order| - 1], order[|order| - 1];
    NewIdsAre(front, known);
    assert id !in front;
    AdmitIs(order, known, total);
    NewIdsLast(order, known);
    hide Admit, AdmitsSo, NewIds, Room, Distinct;
    AdmitsMore(NewIds(front, known), Room(|known|, total), Admit(front, known, total), id);
    if id in known {
      assert NewIds(order, known) == NewIds(front, known);
    }
  }

  lemma AdmitIs(order: seq<Id>, known: set<Id>, total: nat)
    requires order != []
    ensures var id, a := order[|order| - 1], Admit(order[..|order| - 1], known, total);
      Admit(order, known, total) ==
        if id in known || id in a.added then a
        else if |a.added| >= Room(|known|, total) then a.(limited := true)
        else a.(added := a.added + {id})
  {
  }

  lemma NewIdsLast(order: seq<Id>, known: set<Id>)
    requires order != []
    ensures NewIds(order, known) ==
      NewIds(order[..|order| - 1], known) + if order[|order| - 1] in known then [] else [order[|order| - 1]]
  {
  }

  lemma AdmitsMore(news: seq<Id>, room: nat, a: Admission, id: Id)
    requires AdmitsSo(news, room, a) && id !in news
    ensures id !in a.added
    ensures if |a.added| >= room then AdmitsSo(news + [id], room, a.(limited := true))
      else AdmitsSo(news + [id], room, a.(added := a.added + {id}))
  {
    if |news| >= room {
      assert (news + [id])[..room] == news[..room];
      if |news| == room {
        assert news[..room] == news;
      }
    } else {
      assert (set x | x in news + [id]) == (set x | x in news) + {id};
    }
  }

  /** The ids admitted, when there is room for so many. */
  function FirstIds(news: seq<Id>, room: nat): seq<Id> {
    if |news| <= room then news else news[..room]
  }

  /** The heartbeat lists the ids of its snapshot once each. */
  ghost predicate ListsSnapshot(e: Event) {
    && Distinct(e.order)
    && (e.b.attempt.Some? && e.b.attempt.value.snapshot.Some? ==>
          forall id :: id in e.order <==> id in e.b.attempt.value.snapshot.value)
  }

  /** A watch that was not there before: unarmed, without any history, and after one step. */
  predicate WatchStarts(t: Tracked, p: Past, id: Id, continues: bool)
    requires InSnapshot(p.c, id)
  {
    && WatchRuns.Fresh(t.start) && t.start.strong == p.c.snapshot.value[id].strong
    && t.start.driver == p.c.snapshot.value[id].device.driver && t.start.context == p.b.context.(clock := p.c.clock)
    && Stepped(Tracked(t.start, t.start, []), t, p, id, continues)
  }

  /** Exactly the first new ids of a usable snapshot get a watch. */
  ghost predicate BeginIds(n: Node, n': Node, before: Option<Past>, e: Event) {
    forall id :: id in n'.watches && id !in n.watches <==>
      && Counts(before, e.b) && PastOf(before, e).current
      && id in FirstIds(NewIds(e.order, n.watches.Keys), Room(|n.watches|, e.total))
  }

  ghost predicate BeginStarts(n: Node, n': Node, before: Option<Past>, context: Context, e: Event) {
    forall id :: id in n'.watches && id !in n.watches ==> StartsAt(n'.watches[id], before, context, e, id)
  }

  predicate StartsAt(t: Tracked, before: Option<Past>, context: Context, e: Event, id: Id) {
    && Counts(before, e.b) && InSnapshot(e.b.attempt.value, id)
    && WatchStarts(t, PastOf(before, e), id, Continues(before, context, e.b, e.b.attempt.value))
  }

  /** The node is limited from a usable snapshot with more new ids than there was room for, up to the next
      usable one. */
  predicate BeginLimited(n: Node, n': Node, before: Option<Past>, e: Event) {
    n'.last.Some? && n'.last.value.limited <==>
      if Counts(before, e.b) && PastOf(before, e).current
      then |NewIds(e.order, n.watches.Keys)| > Room(|n.watches|, e.total)
      else n.last.Some? && n.last.value.limited
  }

  /** Which watches begin with a heartbeat, and whether the node is limited. */
  ghost predicate Begins(n: Node, n': Node, before: Option<Past>, context: Context, e: Event) {
    BeginIds(n, n', before, e) && BeginStarts(n, n', before, context, e) && BeginLimited(n, n', before, e)
  }

  lemma FirstAdmitted(e: Event, known: set<Id>)
    requires Distinct(e.order)
    ensures forall id :: id in Admit(e.order, known, e.total).added <==>
      id in FirstIds(NewIds(e.order, known), Room(|known|, e.total))
    ensures Admit(e.order, known, e.total).limited <==> |NewIds(e.order, known)| > Room(|known|, e.total)
  {
    AdmitsExactly(e.order, known, e.total);
    hide Admit, NewIds, Room;
  }

  lemma BeginsSo(n: Node, before: Option<Past>, context: Context, e: Event)
    requires Remembers(n.last, before, context) && ListsSnapshot(e)
    ensures Begins(n, Ingest(n, e.b, e.now, e.order, e.total, e.uuids), before, context, e)
  {
    CountsIs(n.last, before, context, e.b);
    SettledKeys(n, e.b.context);
    if Counts(before, e.b) {
      BeginsProcessed(n, Unsettled(n, e.b.context), before, context, e);
    } else {
      BeginsNothing(n, Unsettled(n, e.b.context), before, context, e);
    }
    hide Begins, Remembers, Repeats, Unsettled, Processed;
  }

  lemma BeginsNothing(n: Node, s: Node, before: Option<Past>, context: Context, e: Event)
    requires !Counts(before, e.b) && s.watches.Keys == n.watches.Keys
    requires (s.last.Some? <==> n.last.Some?) && (n.last.Some? ==> s.last.value.limited == n.last.value.limited)
    ensures Begins(n, s, before, context, e)
  {
    hide Counts, FirstIds, NewIds, Room, WatchStarts, PastOf;
  }

  lemma BeginsProcessed(n: Node, s: Node, before: Option<Past>, context: Context, e: Event)
    requires Remembers(n.last, before, context) && ListsSnapshot(e) && Counts(before, e.b)
    requires s.watches.Keys == n.watches.Keys && |s.watches| == |n.watches|
    ensures Begins(n, Processed(s, n.last, e.b, e.b.attempt.value, e.now, e.order, e.total, e.uuids), before, context,
      e)
  {
    ProcessedIds(n, s, before, context, e);
    ProcessedLimited(n, s, before, context, e);
    var n' := Processed(s, n.last, e.b, e.b.attempt.value, e.now, e.order, e.total, e.uuids);
    hide Remembers, Counts, Processed, StartsAt, BeginIds, BeginLimited, ListsSnapshot;
    forall id | id in n'.watches && id !in n.watches ensures StartsAt(n'.watches[id], before, context, e, id) {
      BegunStarts(n, s, before, context, e, id);
    }
  }

  lemma ProcessedIds(n: Node, s: Node, before: Option<Past>, context: Context, e: Event)
    requires Remembers(n.last, before, context) && ListsSnapshot(e) && Counts(before, e.b)
    requires s.watches.Keys == n.watches.Keys && |s.watches| == |n.watches|
    ensures BeginIds(n, Processed(s, n.last, e.b, e.b.attempt.value, e.now, e.order, e.total, e.uuids), before, e)
  {
    UsableIs(n.last, before, context, e.b, e.b.attempt.value, e.now);
    UsableSnapshot(n.last, e.b, e.b.attempt.value, e.now);
    BegunIds(s, n.last, e);
    assert |s.watches.Keys| == |n.watches.Keys|;
    FirstAdmitted(e, n.watches.Keys);
    NewIdsAre(e.order, n.watches.Keys);
    FirstOf(NewIds(e.order, n.watches.Keys), Room(|n.watches|, e.total));
    hide Remembers, Counts, Usable, UsableNow, FirstIds, NewIds, Room, Admit, Processed, Distinct;
  }

  lemma ProcessedLimited(n: Node, s: Node, before: Option<Past>, context: Context, e: Event)
    requires Remembers(n.last, before, context) && ListsSnapshot(e) && Counts(before, e.b)
    requires s.watches.Keys == n.watches.Keys && |s.watches| == |n.watches|
    ensures BeginLimited(n, Processed(s, n.last, e.b, e.b.attempt.value, e.now, e.order, e.total, e.uuids), before, e)
  {
    UsableIs(n.last, before, context, e.b, e.b.attempt.value, e.now);
    assert |s.watches.Keys| == |n.watches.Keys|;
    FirstAdmitted(e, n.watches.Keys);
    hide Remembers, Counts, Usable, UsableNow, FirstIds, NewIds, Room, Admit, Newcomers, Take, StepOf, AcquisitionOf;
  }

  /** Only admitted ids of a usable snapshot are added. */
  lemma BegunIds(s: Node, last: Option<NodeState>, e: Event)
    requires e.b.attempt.Some?
    ensures var c := e.b.attempt.value;
      var n' := Processed(s, last, e.b, c, e.now, e.order, e.total, e.uuids);
      forall id :: id in n'.watches && id !in s.watches <==>
        && Usable(last, e.b, c, e.now) && id in c.snapshot.value && id !in s.watches
        && id in Admit(e.order, s.watches.Keys, e.total).added
  {
    hide Admit, StepOf, Take, Newcomer, AcquisitionOf;
  }

  lemma BegunStarts(n: Node, s: Node, before: Option<Past>, context: Context, e: Event, id: Id)
    requires Remembers(n.last, before, context) && Counts(before, e.b)
    requires var c := e.b.attempt.value;
      var n' := Processed(s, n.last, e.b, c, e.now, e.order, e.total, e.uuids);
      id in n'.watches && id !in s.watches
    ensures var c := e.b.attempt.value;
      var n' := Processed(s, n.last, e.b, c, e.now, e.order, e.total, e.uuids);
      StartsAt(n'.watches[id], before, context, e, id)
  {
    BegunIds(s, n.last, e);
    UsableSnapshot(n.last, e.b, e.b.attempt.value, e.now);
    NewcomerStarts(n.last, before, context, e, id, if id in e.uuids then e.uuids[id] else 0);
    hide Remembers, Counts, Usable, Admit, StepOf, Take, Newcomer, StartsAt, AcquisitionOf;
  }

  lemma NewcomerStarts(last: Option<NodeState>, before: Option<Past>, context: Context, e: Event, id: Id, uuid: nat)
    requires Remembers(last, before, context) && Counts(before, e.b) && InSnapshot(e.b.attempt.value, id)
    ensures var c := e.b.attempt.value;
      var t := Newcomer(c.snapshot.value[id], AcquisitionOf(last, e.b, c, e.now));
      StartsAt(Take(t, StepOf(last, e.b, c, e.now, id, t.state, uuid)), before, context, e, id)
  {
    var c := e.b.attempt.value;
    AcquisitionIs(last, before, context, e.b, c, e.now);
    var t := Newcomer(c.snapshot.value[id], AcquisitionOf(last, e.b, c, e.now));
    StepIs(last, before, context, e, id, t.state, uuid);
    hide Remembers, Counts, Usable, UsableNow, StepOf, Take, Stepped, StepSays, Continues, AgedBy, AgeMs;
    TakeSteps(t, PastOf(before, e), id, Continues(before, context, e.b, c),
      StepOf(last, e.b, c, e.now, id, t.state, uuid));
  }

  lemma UsableSnapshot(last: Option<NodeState>, b: Beat, c: Attempt, now: int)
    ensures Usable(last, b, c, now) ==> c.snapshot.Some?
  {
  }

  lemma FirstOf(news: seq<Id>, room: nat)
    ensures forall id :: id in FirstIds(news, room) ==> id in news
  {
  }

  lemma SettledKeys(n: Node, c: Context)
    ensures Unsettled(n, c).watches.Keys == n.watches.Keys && |Unsettled(n, c).watches| == |n.watches|
    ensures Unsettled(n, c).last.Some? <==> n.last.Some?
    ensures n.last.Some? ==> Unsettled(n, c).last.value.limited == n.last.value.limited
  {
    hide Take;
    assert Unsettled(n, c).watches.Keys == n.watches.Keys;
    assert |Unsettled(n, c).watches| == |Unsettled(n, c).watches.Keys| && |n.watches| == |n.watches.Keys|;
  }
}
