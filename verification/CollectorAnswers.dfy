/**
 Which heartbeats are taken and what they are answered (server/src/cider_api.rs:129-343), stated on the
 heartbeats of whole runs.
 */
module CollectorAnswers {
  import opened Wrappers
  import opened RetainedGraph
  import opened Collector
  import opened CollectorRuns
  import opened InventoryRecords
  import opened CollectedItems

  // ---- What was taken so far ----

  /** The heartbeat is new and is taken. */
  ghost predicate Taken(db: Db, hb: Heartbeat, now: int) {
    (hb.session, hb.sequence) !in db.receipts && Accept(db, hb, now).1.Answered?
  }

  ghost predicate TakenLast(events: seq<Event>) {
    && events != [] && events[|events| - 1].Deliver?
    && Taken(Run(NEW, events[..|events| - 1]), events[|events| - 1].hb, events[|events| - 1].now)
  }

  /** The last heartbeat taken. */
  ghost function LastTaken(events: seq<Event>): Option<Heartbeat> {
    if events == [] then None
    else if TakenLast(events) then Some(events[|events| - 1].hb)
    else LastTaken(events[..|events| - 1])
  }

  /** The revision of the last inventory brought in a generation. */
  ghost function LastBrought(events: seq<Event>, generation: nat): Option<nat> {
    if events == [] then None
    else if TakenLast(events) && events[|events| - 1].hb.included && events[|events| - 1].hb.generation == generation
    then Some(events[|events| - 1].hb.inventory)
    else LastBrought(events[..|events| - 1], generation)
  }

  /** What the node remembers is the last heartbeat taken and the last inventory brought in its generation. */
  ghost predicate Remembers(db: Db, events: seq<Event>) {
    var last := LastTaken(events);
    && (db.receiver.None? <==> last.None?)
    && (forall g: nat :: last.None? || g > last.value.generation ==> LastBrought(events, g).None?)
    && (last.Some? ==> RemembersOne(db.receiver.value, last.value, LastBrought(events, last.value.generation)))
  }

  predicate RemembersOne(r: Receiver, hb: Heartbeat, brought: Option<nat>) {
    && r.generation == hb.generation && r.session == hb.session && r.boot == hb.boot && r.sequence == hb.sequence
    && r.inventory == brought
  }

  /** The answer to a heartbeat after some revision was brought. */
  predicate Answers(ack: Ack, hb: Heartbeat, now: int, brought: Option<nat>) {
    && ack.session == hb.session && ack.sequence == hb.sequence && ack.receivedAt == now
    && ack.inventory == (if hb.included then Some(hb.inventory) else brought)
    && (ack.wanted <==> !hb.included && brought != Some(hb.inventory))
  }

  lemma TakenRemembers(db: Db, hb: Heartbeat, now: int)
    requires Taken(db, hb, now)
    ensures var (db', reply) := Accept(db, hb, now);
      var brought := if db.receiver.None? || hb.generation > db.receiver.value.generation then None
        else db.receiver.value.inventory;
      && (db.receiver.None? || hb.generation >= db.receiver.value.generation)
      && db'.receiver.Some?
      && RemembersOne(db'.receiver.value, hb, if hb.included then Some(hb.inventory) else brought)
      && Answers(reply.ack, hb, now, brought)
  {
    hide Updated, TakeAll, Newborn, Distance;
  }

  lemma StepRemembers(db: Db, events: seq<Event>)
    requires events != [] && db == Run(NEW, events[..|events| - 1]) && Remembers(db, events[..|events| - 1])
    ensures Remembers(Step(db, events[|events| - 1]), events)
  {
    var front, last := events[..|events| - 1], events[|events| - 1];
    hide Run;
    if TakenLast(events) {
      TakenRemembers(db, last.hb, last.now);
      hide Accept, Taken;
      NowTaken(db, Step(db, last), events);
    } else {
      NotTaken(db, last);
      hide Step, Taken, TakenLast;
      StillTaken(db, Step(db, last), events);
    }
  }

  lemma NowTaken(db: Db, db': Db, events: seq<Event>)
    requires TakenLast(events) && Remembers(db, events[..|events| - 1]) && db'.receiver.Some?
    requires var hb := events[|events| - 1].hb;
      var brought := if db.receiver.None? || hb.generation > db.receiver.value.generation then None
        else db.receiver.value.inventory;
      && (db.receiver.None? || hb.generation >= db.receiver.value.generation)
      && RemembersOne(db'.receiver.value, hb, if hb.included then Some(hb.inventory) else brought)
    ensures Remembers(db', events)
  {
    var front, hb := events[..|events| - 1], events[|events| - 1].hb;
    assert LastTaken(events) == Some(hb);
    forall g: nat ensures LastBrought(events, g) ==
      if hb.included && hb.generation == g then Some(hb.inventory) else LastBrought(front, g) {
    }
    hide TakenLast, LastTaken, LastBrought;
  }

  lemma StillTaken(db: Db, db': Db, events: seq<Event>)
    requires events != [] && !TakenLast(events) && Remembers(db, events[..|events| - 1])
    requires db'.receiver == db.receiver
    ensures Remembers(db', events)
  {
    var front := events[..|events| - 1];
    assert LastTaken(events) == LastTaken(front);
    forall g: nat ensures LastBrought(events, g) == LastBrought(front, g) {
    }
    hide TakenLast, LastTaken, LastBrought;
  }

  lemma NotTaken(db: Db, e: Event)
    requires !(e.Deliver? && Taken(db, e.hb, e.now))
    ensures Step(db, e).receiver == db.receiver
  {
    hide Updated, TakeAll, Admitted;
  }

  lemma {:induction false} RunRemembers(events: seq<Event>)
    ensures Remembers(Run(NEW, events), events)
    decreases |events|
  {
    if events != [] {
      RunRemembers(events[..|events| - 1]);
      StepRemembers(Run(NEW, events[..|events| - 1]), events);
      hide Step, Remembers;
    }
  }

  /** In every run the answer to a heartbeat that is taken is its own, names the inventory last brought in
      its generation, and asks for it exactly when that is not the one the heartbeat goes with. */
  lemma AnswersInRuns(events: seq<Event>, hb: Heartbeat, now: int)
    requires Taken(Run(NEW, events), hb, now)
    ensures Answers(Accept(Run(NEW, events), hb, now).1.ack, hb, now, LastBrought(events, hb.generation))
  {
    RunRemembers(events);
    TakenRemembers(Run(NEW, events), hb, now);
    hide Accept, Taken, Run;
  }

  // ---- Which heartbeats are taken ----

  /** Within five minutes of the server's clock. */
  predicate Timely(hb: Heartbeat, now: int) {
    hb.createdAt <= now + 300_000 && now <= hb.createdAt + 300_000
  }

  /** The next of the same session and boot, or the first of a later generation in another session. */
  predicate Follows(last: Option<Heartbeat>, hb: Heartbeat) {
    last.Some? ==>
      || (hb.generation > last.value.generation && hb.session != last.value.session)
      || (hb.generation == last.value.generation && hb.session == last.value.session && hb.boot == last.value.boot
          && hb.sequence > last.value.sequence)
  }

  /** No inventory of the other protocol is in force. */
  predicate Unmixed(db: Db) {
    db.inventoryGeneration == if db.receiver.None? then 0 else db.receiver.value.projection
  }

  predicate NotOlder(brought: Option<nat>, hb: Heartbeat) {
    brought.Some? ==> brought.value <= hb.inventory
  }

  function GraphOf(db: Db): Graph {
    if db.receiver.None? then Graph(map[], map[], {}) else db.receiver.value.graph
  }

  predicate Fits(g: Graph, oversized: bool) {
    && |set e | e in g.present && e.kind == ResourceKind| <= 4096
    && |set e | e in g.present && e.kind == RelationshipKind| <= 8192
    && |g.versions| <= 32768 && !oversized
    && |set e | e in g.present && e.kind == ResourceKind && g.present[e].host| <= 1
  }

  /** The inventory becomes a new one of the node. */
  ghost predicate Changes(db: Db, last: Option<Heartbeat>, brought: Option<nat>, hb: Heartbeat) {
    hb.included && (AnyNew(GraphOf(db), hb.generation, hb.records) || brought != Some(hb.inventory)
      || last.None? || hb.generation > last.value.generation)
  }

  /** The records of the heartbeat, if any, can be taken, and leave this. */
  ghost predicate GraphNext(db: Db, hb: Heartbeat, g': Graph) {
    if !hb.included then g' == GraphOf(db)
    else
      && !Wrong(GraphOf(db), hb.generation, hb.records) && Fits(g', hb.oversized)
      && forall e :: EntityNext(GraphOf(db), g', hb.generation, hb.records, e)
  }

  ghost predicate Acceptable(db: Db, last: Option<Heartbeat>, brought: Option<nat>, hb: Heartbeat, now: int,
          g': Graph) {
    && Timely(hb, now) && Unmixed(db) && Follows(last, hb) && hb.valid && NotOlder(brought, hb)
    && GraphNext(db, hb, g')
    && (Changes(db, last, brought, hb) ==> GenerationOf(db) < 0x7FFF_FFFF_FFFF_FFFF)
    && !Bad(Items(db.items, db.projected), hb.included || brought == Some(hb.inventory), g', now, hb.items)
    && hb.later
  }

  function GenerationOf(db: Db): nat {
    if db.receiver.None? then 0 else db.receiver.value.projection
  }

  /** What a heartbeat that is taken leaves behind. */
  ghost predicate Leaves(db: Db, db': Db, last: Option<Heartbeat>, brought: Option<nat>, hb: Heartbeat, now: int,
          g': Graph) {
    var known := hb.included || brought == Some(hb.inventory);
    && db'.receiver.Some? && db'.receiver.value.graph == g'
    && db'.receiver.value.projection == GenerationOf(db) + (if Changes(db, last, brought, hb) then 1 else 0)
    && db'.inventoryGeneration == db'.receiver.value.projection
    && db'.receipts.Keys == db.receipts.Keys + {(hb.session, hb.sequence)}
    && db'.receipts[(hb.session, hb.sequence)].content == hb.content
    && (forall id :: id in db.receipts && id != (hb.session, hb.sequence) ==> db'.receipts[id] == db.receipts[id])
    && AllHeld(Items(db.items, db.projected), Items(db'.items, db'.projected), known, g', now, hb.items)
    && db'.projected ==
         db.projected + ProjectionsOf(Items(db.items, db.projected), known, g', now, hb.items)
  }

  lemma FitsIs(g: Graph, oversized: bool)
    ensures Fits(g, oversized) <==> WithinLimits(g, oversized)
  {
    assert (set e | e in g.present && e.kind == ResourceKind) == OfKind(g.present, ResourceKind);
    assert (set e | e in g.present && e.kind == RelationshipKind) == OfKind(g.present, RelationshipKind);
    assert (set e | e in g.present && e.kind == ResourceKind && g.present[e].host) == Hosts(g.present);
  }

  /** The guards before anything is stored. */
  lemma AdmittedIs(db: Db, last: Option<Heartbeat>, brought: Option<nat>, hb: Heartbeat, now: int)
    requires Before(db, last, brought, hb)
    ensures Admitted(db, hb, now).Some? <==>
      Timely(hb, now) && Unmixed(db) && Follows(last, hb) && hb.valid && NotOlder(brought, hb)
    ensures var r := Admitted(db, hb, now);
      r.Some? ==>
        r.value.inventory == brought && r.value.projection == GenerationOf(db) && r.value.graph == GraphOf(db)
  {
  }

  /** What the node remembers, as far as this heartbeat is concerned. */
  predicate Before(db: Db, last: Option<Heartbeat>, brought: Option<nat>, hb: Heartbeat) {
    && (db.receiver.None? <==> last.None?) && (last.None? ==> brought.None?)
    && (last.Some? ==>
          && db.receiver.value.generation == last.value.generation && db.receiver.value.session == last.value.session
          && db.receiver.value.boot == last.value.boot && db.receiver.value.sequence == last.value.sequence
          && (hb.generation == last.value.generation ==> db.receiver.value.inventory == brought)
          && (hb.generation > last.value.generation ==> brought.None?))
  }

  lemma UpdatedIs(db: Db, r: Receiver, hb: Heartbeat) returns (g': Graph)
    requires r.graph == GraphOf(db) && (hb.included ==> GraphOk(r.graph, db.log, hb.generation))
    ensures Updated(db, r, hb).Some? <==> GraphNext(db, hb, g')
    ensures Updated(db, r, hb).Some? ==> Updated(db, r, hb).value.graph == g'
    ensures Updated(db, r, hb).Some? && hb.included ==>
      (Updated(db, r, hb).value.changed <==> AnyNew(GraphOf(db), hb.generation, hb.records))
  {
    g' := GraphOf(db);
    if hb.included {
      RecordsExactly(r.graph, db.log, hb.generation, hb.records);
      hide ApplyAll, GraphOk, Wrong, EntityNext, AnyNew, WithinLimits, Fits;
      if ApplyAll(r.graph, db.log, hb.generation, hb.records).Some? {
        g' := ApplyAll(r.graph, db.log, hb.generation, hb.records).value.graph;
        FitsIs(g', hb.oversized);
      }
    }
  }

  lemma StartGraphOk(db: Db, hb: Heartbeat)
    requires DbOk(db) && (db.receiver.Some? ==> hb.generation >= db.receiver.value.generation)
    ensures GraphOk(GraphOf(db), db.log, hb.generation)
  {
    hide GraphOk, Ascending, WithinLimits;
    NothingOk(hb.generation);
    if db.receiver.Some? {
      GraphOkLater(GraphOf(db), db.log, db.receiver.value.generation, hb.generation);
    }
  }

  /** From the guards on. */
  lemma ProcessedIs(db: Db, r: Receiver, last: Option<Heartbeat>, brought: Option<nat>, hb: Heartbeat, now: int)
    returns (g': Graph)
    requires Before(db, last, brought, hb) && (hb.included ==> GraphOk(GraphOf(db), db.log, hb.generation))
    requires r.inventory == brought && r.projection == GenerationOf(db) && r.graph == GraphOf(db)
    ensures Processed(db, r, hb, now).1.Answered? <==>
      && GraphNext(db, hb, g') && (Changes(db, last, brought, hb) ==> GenerationOf(db) < 0x7FFF_FFFF_FFFF_FFFF)
      && !Bad(Items(db.items, db.projected), hb.included || brought == Some(hb.inventory), g', now, hb.items)
      && hb.later
    ensures Processed(db, r, hb, now).1.Answered? ==>
      Leaves(db, Processed(db, r, hb, now).0, last, brought, hb, now, g')
  {
    hide Updated, GraphNext, GraphOk, AnyNew, Bad, Before, Newborn, Leaves, Committed, Changes;
    g' := UpdatedIs(db, r, hb);
    if Updated(db, r, hb).Some? {
      var u := Updated(db, r, hb).value;
      ChangedIs(db, last, brought, hb, u.changed);
      CommittedIs(db, last, brought, hb, now, u);
    }
  }

  lemma CommittedIs(db: Db, last: Option<Heartbeat>, brought: Option<nat>, hb: Heartbeat, now: int, u: Outcome)
    ensures var inventory := if hb.included then Some(hb.inventory) else brought;
      var known := hb.included || brought == Some(hb.inventory);
      var committed := Committed(db, hb, now, u, inventory,
        GenerationOf(db) + if Changes(db, last, brought, hb) then 1 else 0);
      && (committed.1.Answered? <==>
           !Bad(Items(db.items, db.projected), known, u.graph, now, hb.items) && hb.later)
      && (committed.1.Answered? ==> Leaves(db, committed.0, last, brought, hb, now, u.graph))
  {
    var known := hb.included || brought == Some(hb.inventory);
    ItemsExactly(Items(db.items, db.projected), known, u.graph, now, hb.items);
    hide TakeAll, Bad, AllHeld, ProjectionsOf, Changes, GenerationOf;
  }

  lemma ChangedIs(db: Db, last: Option<Heartbeat>, brought: Option<nat>, hb: Heartbeat, changed: bool)
    requires Before(db, last, brought, hb)
    requires hb.included ==> (changed <==> AnyNew(GraphOf(db), hb.generation, hb.records))
    ensures (hb.included && (changed || brought != Some(hb.inventory) || Newborn(db, hb))) <==>
      Changes(db, last, brought, hb)
  {
    hide AnyNew;
  }

  lemma RemembersBefore(db: Db, events: seq<Event>, hb: Heartbeat)
    requires Remembers(db, events)
    ensures Before(db, LastTaken(events), LastBrought(events, hb.generation), hb)
  {
    hide LastTaken, LastBrought;
  }

  /** In every run a heartbeat not answered before is taken exactly when it is acceptable after what was
      taken and brought so far; then it leaves what its records and items say, else nothing. */
  lemma TakenExactly(events: seq<Event>, hb: Heartbeat, now: int) returns (g': Graph)
    requires (hb.session, hb.sequence) !in Run(NEW, events).receipts
    ensures var db := Run(NEW, events);
      var last, brought := LastTaken(events), LastBrought(events, hb.generation);
      && (Taken(db, hb, now) <==> Acceptable(db, last, brought, hb, now, g'))
      && (if Taken(db, hb, now) then Leaves(db, Accept(db, hb, now).0, last, brought, hb, now, g')
          else Accept(db, hb, now) == (db, Refused))
  {
    var db := Run(NEW, events);
    var last, brought := LastTaken(events), LastBrought(events, hb.generation);
    RunRemembers(events);
    RemembersBefore(db, events, hb);
    NewOk();
    RunOk(NEW, events);
    hide Run, Remembers, LastTaken, LastBrought;
    g' := TakenIs(db, last, brought, hb, now);
  }

  lemma TakenIs(db: Db, last: Option<Heartbeat>, brought: Option<nat>, hb: Heartbeat, now: int) returns (g': Graph)
    requires (hb.session, hb.sequence) !in db.receipts && DbOk(db) && Before(db, last, brought, hb)
    ensures Taken(db, hb, now) <==> Acceptable(db, last, brought, hb, now, g')
    ensures if Taken(db, hb, now) then Leaves(db, Accept(db, hb, now).0, last, brought, hb, now, g')
      else Accept(db, hb, now) == (db, Refused)
  {
    AdmittedIs(db, last, brought, hb, now);
    hide Processed, GraphNext, Bad, AllHeld, Leaves, Timely, NotOlder, Changes;
    g' := GraphOf(db);
    var r := Admitted(db, hb, now);
    if r.Some? {
      FollowsLater(db, last, brought, hb);
      StartGraphOk(db, hb);
      hide DbOk, Before, Follows;
      g' := ProcessedIs(db, r.value, last, brought, hb, now);
      ProcessedRefused(db, r.value, hb, now);
    }
  }

  lemma FollowsLater(db: Db, last: Option<Heartbeat>, brought: Option<nat>, hb: Heartbeat)
    requires Before(db, last, brought, hb) && Follows(last, hb)
    ensures db.receiver.Some? ==> hb.generation >= db.receiver.value.generation
  {
  }

  lemma ProcessedRefused(db: Db, r: Receiver, hb: Heartbeat, now: int)
    ensures Processed(db, r, hb, now).1.Refused? ==> Processed(db, r, hb, now) == (db, Refused)
  {
    hide Updated, TakeAll;
  }

  // ---- The other protocol ----

  /** While no inventory comes by the other protocol there is no mixing. */
  lemma {:induction false} UnmixedInRuns(events: seq<Event>)
    requires forall i :: 0 <= i < |events| ==> !events[i].LegacyInventory?
    ensures Unmixed(Run(NEW, events))
    decreases |events|
  {
    if events != [] {
      var front, last := events[..|events| - 1], events[|events| - 1];
      UnmixedInRuns(front);
      if last.Deliver? {
        AcceptUnmixed(Run(NEW, front), last.hb, last.now);
      }
      hide Accept;
    }
  }

  lemma AcceptUnmixed(db: Db, hb: Heartbeat, now: int)
    requires Unmixed(db)
    ensures Unmixed(Accept(db, hb, now).0)
  {
    hide Updated, TakeAll, Admitted;
  }
}
