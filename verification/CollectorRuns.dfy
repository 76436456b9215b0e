/**
 Whole runs of the collector protocol and of daily maintenance (server/src/cider_api.rs:93-287, 784-791):
 heartbeats arrive in any order and again, and old receipts and records are deleted underneath them.
 */
module CollectorRuns {
  import opened Wrappers
  import opened RetainedGraph
  import opened Collector

  /** In between, an inventory may also arrive by the other protocol. */
  datatype Event = Deliver(hb: Heartbeat, now: int) | LegacyInventory(generation: nat, now: int) | Pass(now: int)

  /** What maintenance deletes: receipts and records older than 30 days. */
  function Maintained(db: Db, now: int): Db {
    db.(receipts := map id | id in db.receipts && db.receipts[id].ack.receivedAt >= now - RETENTION_MS ::
      db.receipts[id],
        items := map k | k in db.items && db.items[k].receivedAt >= now - RETENTION_MS :: db.items[k])
  }

  ghost function Step(db: Db, e: Event): Db {
    match e
    case Deliver(hb, now) => Accept(db, hb, now).0
    case LegacyInventory(generation, now) => db.(inventoryGeneration := generation)
    case Pass(now) => Maintained(db, now)
  }

  ghost function Run(db: Db, events: seq<Event>): Db {
    if events == [] then db else Step(Run(db, events[..|events| - 1]), events[|events| - 1])
  }

  lemma {:induction false} RunOk(db: Db, events: seq<Event>)
    requires DbOk(db)
    ensures DbOk(Run(db, events)) && Grows(db, Run(db, events))
    decreases |events|
  {
    if events == [] {
    } else {
      var front, last := events[..|events| - 1], events[|events| - 1];
      RunOk(db, front);
      if last.Deliver? {
        AcceptOk(Run(db, front), last.hb, last.now);
      }
      hide Accept, GraphOk, WithinLimits, Ascending;
    }
  }

  const NEW: Db := Db(None, 0, map[], map[], [], [], [])

  lemma NewOk()
    ensures DbOk(NEW)
  {
  }

  /** In every run the accepted heartbeats strictly increase in (generation, sequence). */
  lemma AcceptedIncrease(events: seq<Event>, i: nat, j: nat)
    requires i < j < |Run(NEW, events).accepted|
    ensures Less(Run(NEW, events).accepted[i], Run(NEW, events).accepted[j])
  {
    NewOk();
    RunOk(NEW, events);
    hide Run;
  }

  /** In every run the accepted records of an entity strictly increase in (generation, revision), and
      the entity is present exactly when the last of them is an upsert. */
  lemma LastWriterWins(events: seq<Event>, e: Entity)
    requires Run(NEW, events).receiver.Some?
    ensures var db := Run(NEW, events);
      && (e in db.receiver.value.graph.present <==> LastOf(db.log, e).Some? && LastOf(db.log, e).value.upsert)
      && forall i, j | 0 <= i < j < |db.log| && db.log[i].entity == e && db.log[j].entity == e ::
           Precedes(db.log[i], db.log[j])
  {
    NewOk();
    RunOk(NEW, events);
    hide Run;
    assert EntityOk(Run(NEW, events).receiver.value.graph, Run(NEW, events).log,
      Run(NEW, events).receiver.value.generation, e);
  }

  /** A deleted entity is present again only through a record newer than its deletion. */
  lemma NoResurrectionInRuns(events: seq<Event>, e: Entity, i: nat)
    requires var db := Run(NEW, events);
      i < |db.log| && db.log[i].entity == e && !db.log[i].upsert && db.receiver.Some?
        && e in db.receiver.value.graph.present
    ensures var db := Run(NEW, events);
      exists j :: i < j < |db.log| && db.log[j].entity == e && db.log[j].upsert && Precedes(db.log[i], db.log[j])
  {
    NewOk();
    RunOk(NEW, events);
    var db := Run(NEW, events);
    hide Run;
    assert EntityOk(db.receiver.value.graph, db.log, db.receiver.value.generation, e);
    var j := LastIndex(db.log, e);
    assert db.log[j].upsert;
    assert i != j && !(j < i);
  }

  lemma LastIndex(log: seq<Entry>, e: Entity) returns (j: nat)
    requires LastOf(log, e).Some?
    ensures j < |log| && log[j] == LastOf(log, e).value && log[j].entity == e
    ensures forall k :: j < k < |log| ==> log[k].entity != e
  {
    if log[|log| - 1].entity == e {
      j := |log| - 1;
    } else {
      j := LastIndex(log[..|log| - 1], e);
    }
  }

  // ---- Replay ----

  predicate NoPassAfter(events: seq<Event>, receivedAt: int) {
    forall i :: 0 <= i < |events| && events[i].Pass? ==> receivedAt >= events[i].now - RETENTION_MS
  }

  /** The content of a heartbeat includes its generation. */
  predicate Faithful(events: seq<Event>, hb: Heartbeat) {
    forall i :: 0 <= i < |events| && events[i].Deliver? && events[i].hb.content == hb.content ==>
      events[i].hb.generation == hb.generation
  }

  /** The order guards are past a heartbeat. */
  predicate Passed(db: Db, hb: Heartbeat) {
    && db.receiver.Some?
    && !Less((db.receiver.value.generation, db.receiver.value.sequence), (hb.generation, hb.sequence))
  }

  /** What is left of the receipt of a heartbeat: itself or, once deleted, nothing that could be taken for it. */
  predicate ReceiptKept(db: Db, hb: Heartbeat, receipt: Receipt, kept: bool) {
    var id := (hb.session, hb.sequence);
    if kept then id in db.receipts && db.receipts[id] == receipt
    else id in db.receipts ==> db.receipts[id].content != hb.content
  }

  lemma PassedRefuses(db: Db, hb: Heartbeat, now: int)
    requires Passed(db, hb)
    ensures Admitted(db, hb, now).None?
  {
  }

  lemma DeliveryPasses(db: Db, hb: Heartbeat, receipt: Receipt, kept: bool, other: Heartbeat, now: int)
    requires Passed(db, hb) && ReceiptKept(db, hb, receipt, kept)
    requires other.content == hb.content ==> other.generation == hb.generation
    ensures Passed(Accept(db, other, now).0, hb) && ReceiptKept(Accept(db, other, now).0, hb, receipt, kept)
  {
    hide Updated, TakeAll;
    if other.content == hb.content && other.sequence == hb.sequence {
      PassedRefuses(db, other, now);
    }
  }

  lemma {:induction false} ReceiptInRun(db: Db, hb: Heartbeat, receipt: Receipt, events: seq<Event>)
    requires Passed(db, hb) && ReceiptKept(db, hb, receipt, true) && Faithful(events, hb)
    ensures Passed(Run(db, events), hb)
      && ReceiptKept(Run(db, events), hb, receipt, NoPassAfter(events, receipt.ack.receivedAt))
    decreases |events|
  {
    if events != [] {
      var front, last := events[..|events| - 1], events[|events| - 1];
      ReceiptInRun(db, hb, receipt, front);
      PassAfterFront(events, receipt.ack.receivedAt);
      hide Accept, NoPassAfter;
      if last.Deliver? {
        DeliveryPasses(Run(db, front), hb, receipt, NoPassAfter(front, receipt.ack.receivedAt), last.hb, last.now);
      }
    }
  }

  lemma PassAfterFront(events: seq<Event>, receivedAt: int)
    requires events != []
    ensures var last := events[|events| - 1];
      NoPassAfter(events, receivedAt) <==>
        NoPassAfter(events[..|events| - 1], receivedAt) && (last.Pass? ==> receivedAt >= last.now - RETENTION_MS)
  {
    assert events[..|events| - 1] + [events[|events| - 1]] == events;
  }

  /** A heartbeat sent again changes nothing, whatever happened since; it gets its stored answer exactly as
      long as no maintenance pass came more than 30 days after it, and is refused from then on. */
  lemma ReplayChangesNothing(db: Db, hb: Heartbeat, now: int, events: seq<Event>, later: int)
    requires (hb.session, hb.sequence) !in db.receipts && Accept(db, hb, now).1.Answered?
    requires Faithful(events, hb)
    ensures var (first, reply) := Accept(db, hb, now);
      var after := Run(first, events);
      Accept(after, hb, later) == (after, if NoPassAfter(events, now) then reply else Refused)
  {
    hide Updated, TakeAll, Admitted;
    var (first, reply) := Accept(db, hb, now);
    ReceiptInRun(first, hb, Receipt(hb.content, reply.ack), events);
    var after := Run(first, events);
    PassedRefuses(after, hb, later);
    hide Processed, Run, Faithful, Passed;
  }

  // ---- Projection ----

  /** The clock does not go back. */
  predicate Clocked(events: seq<Event>, start: int) {
    && (forall i :: 0 <= i < |events| ==> start <= events[i].now)
    && (forall i, j :: 0 <= i < j < |events| ==> events[i].now <= events[j].now)
  }

  function Clock(events: seq<Event>, start: int): int {
    if events == [] then start else events[|events| - 1].now
  }

  predicate ProjectionOk(p: Projection) {
    && p.receivedAt <= p.now
    && (p.stored ==> p.now - Window(p.key.0) <= p.at <= p.now + MAX_SKEW_MS)
  }

  /** A projected item is held as projected, or its record is gone and whatever is held under its name was
      recorded more than 30 days later. */
  predicate Accounted(held: map<(ItemKind, string), Held>, p: Projection, clock: int) {
    if p.key in held then
      || (held[p.key].projected && held[p.key].receivedAt == p.receivedAt)
      || p.receivedAt + RETENTION_MS < held[p.key].receivedAt
    else p.receivedAt + RETENTION_MS < clock
  }

  ghost predicate ItemsOk(held: map<(ItemKind, string), Held>, projected: seq<Projection>, clock: int) {
    && (forall k :: k in held ==> held[k].receivedAt <= clock)
    && (forall i :: 0 <= i < |projected| ==> ProjectionOk(projected[i]) && Accounted(held, projected[i], clock))
    && (forall i, j :: 0 <= i < j < |projected| && projected[i].key == projected[j].key ==>
          projected[i].receivedAt + RETENTION_MS < projected[j].receivedAt)
  }

  lemma TakeItemOk(t: Items, known: bool, g: Graph, now: int, i: Item)
    requires ItemsOk(t.held, t.projected, now) && TakeItem(t, known, g, now, i).Some?
    ensures ItemsOk(TakeItem(t, known, g, now, i).value.held, TakeItem(t, known, g, now, i).value.projected, now)
  {
  }

  lemma {:induction false} TakeAllOk(t: Items, known: bool, g: Graph, now: int, items: seq<Item>)
    requires ItemsOk(t.held, t.projected, now) && TakeAll(t, known, g, now, items).Some?
    ensures ItemsOk(TakeAll(t, known, g, now, items).value.held, TakeAll(t, known, g, now, items).value.projected, now)
    decreases |items|
  {
    hide ItemsOk, TakeItem;
    if items != [] {
      TakeAllOk(t, known, g, now, items[..|items| - 1]);
      TakeItemOk(TakeAll(t, known, g, now, items[..|items| - 1]).value, known, g, now, items[|items| - 1]);
    }
  }

  lemma DeliveryProjects(db: Db, hb: Heartbeat, now: int)
    requires ItemsOk(db.items, db.projected, now)
    ensures ItemsOk(Accept(db, hb, now).0.items, Accept(db, hb, now).0.projected, now)
  {
    hide ItemsOk, TakeAll, Updated;
    var db' := Accept(db, hb, now).0;
    if db' != db {
      var u := Updated(db, Admitted(db, hb, now).value, hb).value;
      hide Admitted;
      TakeAllOk(Items(db.items, db.projected), db'.receiver.value.inventory == Some(hb.inventory), u.graph, now,
        hb.items);
    }
  }

  lemma MaintainedProjects(db: Db, now: int)
    requires ItemsOk(db.items, db.projected, now)
    ensures ItemsOk(Maintained(db, now).items, Maintained(db, now).projected, now)
  {
  }

  lemma LaterOk(held: map<(ItemKind, string), Held>, projected: seq<Projection>, clock: int, now: int)
    requires ItemsOk(held, projected, clock) && clock <= now
    ensures ItemsOk(held, projected, now)
  {
  }

  lemma {:induction false} ItemsInRuns(events: seq<Event>, start: int)
    requires Clocked(events, start)
    ensures ItemsOk(Run(NEW, events).items, Run(NEW, events).projected, Clock(events, start))
    decreases |events|
  {
    if events != [] {
      var front, last := events[..|events| - 1], events[|events| - 1];
      ItemsInRuns(front, start);
      var was := Run(NEW, front);
      LaterOk(was.items, was.projected, Clock(front, start), last.now);
      hide ItemsOk, Accept, Maintained;
      match last
      case Deliver(hb, now) => DeliveryProjects(was, hb, now);
      case LegacyInventory(generation, now) =>
      case Pass(now) => MaintainedProjects(was, now);
    }
  }

  /** In every run a collection or event is projected again only on a record made more than 30 days after
      the record of its earlier projection. */
  lemma ProjectedApart(events: seq<Event>, start: int, i: nat, j: nat)
    requires Clocked(events, start) && i < j < |Run(NEW, events).projected|
    requires Run(NEW, events).projected[i].key == Run(NEW, events).projected[j].key
    ensures var p, q := Run(NEW, events).projected[i], Run(NEW, events).projected[j];
      p.receivedAt <= p.now && p.receivedAt + RETENTION_MS < q.receivedAt <= q.now
  {
    ItemsInRuns(events, start);
    hide Run;
    assert ProjectionOk(Run(NEW, events).projected[i]) && ProjectionOk(Run(NEW, events).projected[j]);
  }

  /** What was stored is stored a second time only if it is dated after its first record, a collection by
      more than 29 days: a collection projected within four weeks of its record never is. */
  lemma StoredAgainNeeds(events: seq<Event>, start: int, i: nat, j: nat)
    requires Clocked(events, start) && i < j < |Run(NEW, events).projected|
    requires var p, q := Run(NEW, events).projected[i], Run(NEW, events).projected[j];
      p.key == q.key && p.at == q.at && p.stored && q.stored
    ensures var p := Run(NEW, events).projected[i];
      && p.at > p.receivedAt + RETENTION_MS - Window(p.key.0)
      && p.now > p.receivedAt + RETENTION_MS - Window(p.key.0) - MAX_SKEW_MS
  {
    ProjectedApart(events, start, i, j);
    ItemsInRuns(events, start);
    hide Run;
    assert ProjectionOk(Run(NEW, events).projected[i]) && ProjectionOk(Run(NEW, events).projected[j]);
  }

  // ---- Two runs that do repeat ----

  const DISK: Record := Record(Entity(ResourceKind, "disk"), 1, true, "disk", false)

  function Beat(sequence: nat, content: string, now: int, included: bool, item: Item): Heartbeat {
    Heartbeat(1, "session", "boot", sequence, now, content, included, 1, if included then [DISK] else [], [item], true,
      false, true)
  }

  const KNOWN: Graph := Apply(NOTHING, 1, DISK)

  /** A node whose next heartbeat may have the sequence number, and what it knows. */
  ghost predicate Awaits(db: Db, sequence: nat, inventory: Option<nat>, g: Graph)
    requires sequence > 0
  {
    && (db.receiver.None? ==> db.inventoryGeneration == 0 && inventory.None? && g == NOTHING)
    && (db.receiver.Some? ==>
          db.receiver.value == Receiver(1, "session", "boot", sequence - 1, inventory, db.inventoryGeneration, g))
    && db.inventoryGeneration < sequence && forall n :: n >= sequence ==> ("session", n) !in db.receipts
  }

  lemma OneTaken(t: Items, known: bool, g: Graph, now: int, item: Item)
    ensures TakeAll(t, known, g, now, [item]) == TakeItem(t, known, g, now, item)
  {
    assert [item][..0] == [];
    hide TakeItem;
  }

  lemma OneRecord(log: seq<Entry>)
    ensures Update(NOTHING, log, 1, [DISK], false) == Some(Outcome(KNOWN, log + [Entry(DISK.entity, 1, 1, true)], true))
  {
    assert [DISK][..0] == [];
    assert ApplyAll(NOTHING, log, 1, []) == Some(Outcome(NOTHING, log, false));
    assert ApplyAll(NOTHING, log, 1, [DISK]) == Some(Outcome(KNOWN, log + [Entry(DISK.entity, 1, 1, true)], true));
    KnownFits();
  }

  lemma KnownFits()
    ensures WithinLimits(KNOWN, false)
  {
    assert KNOWN.present == map[DISK.entity := DISK];
    assert OfKind(KNOWN.present, ResourceKind) == {DISK.entity} && |{DISK.entity}| == 1;
    assert OfKind(KNOWN.present, RelationshipKind) == {} && Hosts(KNOWN.present) == {};
    assert |KNOWN.versions.Keys| == |{DISK.entity}|;
  }

  /** A heartbeat that brings the inventory, or one that relies on what is known. */
  lemma BeatOn(db: Db, sequence: nat, content: string, now: int, included: bool, inventory: Option<nat>, g: Graph,
          item: Item)
    requires 0 < sequence < 10 && Awaits(db, sequence, inventory, g) && (inventory.None? || inventory == Some(1))
      && (included ==> inventory.None? && g == NOTHING)
    requires var known := included || inventory == Some(1);
      TakeItem(Items(db.items, db.projected), known, if included then KNOWN else g, now, item).Some?
    ensures var db' := Accept(db, Beat(sequence, content, now, included, item), now).0;
      var known := included || inventory == Some(1);
      && Awaits(db', sequence + 1, if included then Some(1) else inventory, if included then KNOWN else g)
      && Some(Items(db'.items, db'.projected))
           == TakeItem(Items(db.items, db.projected), known, if included then KNOWN else g, now, item)
  {
    var known := included || inventory == Some(1);
    var hb := Beat(sequence, content, now, included, item);
    OneRecord(db.log);
    OneTaken(Items(db.items, db.projected), known, if included then KNOWN else g, now, item);
    hide Update, TakeAll, TakeItem;
  }

  lemma MaintainedAwaits(db: Db, sequence: nat, inventory: Option<nat>, g: Graph, now: int)
    requires sequence > 0 && Awaits(db, sequence, inventory, g)
    ensures Awaits(Maintained(db, now), sequence, inventory, g)
  {
  }

  lemma MaintainedForgets(db: Db, key: (ItemKind, string), held: Held, now: int)
    requires db.items == map[key := held] && held.receivedAt < now - RETENTION_MS
    ensures Maintained(db, now).items == map[] && Maintained(db, now).projected == db.projected
  {
  }

  lemma NewAwaits(sequence: nat)
    requires sequence > 0
    ensures Awaits(NEW, sequence, None, NOTHING)
  {
  }

  /** An item not held, about the known resource, is projected. */
  lemma BeatProjects(db: Db, sequence: nat, content: string, now: int, included: bool, item: Item)
    requires 0 < sequence < 10 && item.resource == "disk" && !Future(item, now) && (item.kind, item.id) !in db.items
    requires if included then Awaits(db, sequence, None, NOTHING) else Awaits(db, sequence, Some(1), KNOWN)
    ensures var db' := Accept(db, Beat(sequence, content, now, included, item), now).0;
      && Awaits(db', sequence + 1, Some(1), KNOWN)
      && db'.items == db.items[(item.kind, item.id) := Held(item.content, true, now)]
      && db'.projected == db.projected + [Projection((item.kind, item.id), item.at, now, now, Stores(item, now))]
  {
    assert Entity(ResourceKind, "disk") in KNOWN.present;
    hide Accept, Apply, Beat, Awaits, Future, Stores;
    BeatOn(db, sequence, content, now, included, if included then None else Some(1),
      if included then NOTHING else KNOWN, item);
  }

  /** A first heartbeat with the inventory and one item, and a pass that deletes the record. */
  lemma BeatThenPass(t: int, again: int, item: Item)
    requires item.resource == "disk" && !Future(item, t) && again > t + RETENTION_MS
    ensures var db := Maintained(Accept(NEW, Beat(1, "first", t, true, item), t).0, again);
      && Awaits(db, 2, Some(1), KNOWN) && db.items == map[]
      && db.projected == [Projection((item.kind, item.id), item.at, t, t, Stores(item, t))]
  {
    hide Accept, Beat, Awaits, Future, Stores;
    NewAwaits(1);
    BeatProjects(NEW, 1, "first", t, true, item);
    var one := Accept(NEW, Beat(1, "first", t, true, item), t).0;
    MaintainedAwaits(one, 2, Some(1), KNOWN, again);
    MaintainedForgets(one, (item.kind, item.id), Held(item.content, true, t), again);
    hide Maintained;
  }

  function Again(t: int, again: int, item: Item): seq<Event> {
    [Deliver(Beat(1, "first", t, true, item), t), Pass(again), Deliver(Beat(2, "second", again, false, item), again)]
  }

  lemma RunAgain(t: int, again: int, item: Item)
    ensures Run(NEW, Again(t, again, item)) ==
      Accept(Maintained(Accept(NEW, Beat(1, "first", t, true, item), t).0, again),
        Beat(2, "second", again, false, item), again).0
  {
    hide Accept, Beat, Maintained, Run;
    RunOfThree(Again(t, again, item));
  }

  /** An item sent again after the pass that deleted its record is projected twice. */
  lemma ProjectedAgain(t: int, again: int, item: Item)
    requires item.resource == "disk" && !Future(item, t) && !Future(item, again) && again > t + RETENTION_MS
    ensures Run(NEW, Again(t, again, item)).projected ==
      [Projection((item.kind, item.id), item.at, t, t, Stores(item, t)),
       Projection((item.kind, item.id), item.at, again, again, Stores(item, again))]
  {
    hide Accept, Beat, Awaits, Maintained, Run, Again, Future, Stores;
    BeatThenPass(t, again, item);
    RunAgain(t, again, item);
    BeatProjects(Maintained(Accept(NEW, Beat(1, "first", t, true, item), t).0, again), 2, "second", again, false, item);
  }

  /** An event from a clock ahead of the server's is stored again if it is sent again once its record is gone. */
  lemma EventStoredAgain(t: int, id: string, content: string, lead: int)
    requires 0 < lead <= MAX_SKEW_MS
    ensures var events := Again(t, t + RETENTION_MS + 1, Item(EventItem, id, content, "disk", t + lead, false));
      var p := Run(NEW, events).projected;
      Clocked(events, t) && |p| == 2 && p[0].key == p[1].key && p[0].at == p[1].at && p[0].stored && p[1].stored
  {
    var item, again := Item(EventItem, id, content, "disk", t + lead, false), t + RETENTION_MS + 1;
    assert Clocked(Again(t, again, item), t);
    hide Accept, Beat, Awaits, Maintained, Run, Clocked, Again;
    ProjectedAgain(t, again, item);
  }

  function HeldFirst(t: int, late: int, again: int, item: Item): seq<Event> {
    [Deliver(Beat(1, "first", t, false, item), t), Deliver(Beat(2, "second", late, true, item), late),
     Pass(again), Deliver(Beat(3, "third", again, false, item), again)]
  }

  /** An item recorded while its resource is unknown, and projected by a later heartbeat with the inventory. */
  lemma HeldThenKnown(t: int, late: int, item: Item)
    requires item.resource == "disk" && !Future(item, late)
    ensures var held := Accept(NEW, Beat(1, "first", t, false, item), t).0;
      var db := Accept(held, Beat(2, "second", late, true, item), late).0;
      && Awaits(db, 3, Some(1), KNOWN) && db.items == map[(item.kind, item.id) := Held(item.content, true, t)]
      && db.projected == [Projection((item.kind, item.id), item.at, t, late, Stores(item, late))]
  {
    assert Entity(ResourceKind, "disk") in KNOWN.present;
    hide Accept, Apply, Beat, Awaits, Future, Stores;
    NewAwaits(1);
    BeatOn(NEW, 1, "first", t, false, None, NOTHING, item);
    BeatOn(Accept(NEW, Beat(1, "first", t, false, item), t).0, 2, "second", late, true, None, NOTHING, item);
  }

  lemma RunHeldFirst(t: int, late: int, again: int, item: Item)
    ensures var db := Accept(Accept(NEW, Beat(1, "first", t, false, item), t).0, Beat(2, "second", late, true, item),
      late).0;
      Run(NEW, HeldFirst(t, late, again, item)) ==
        Accept(Maintained(db, again), Beat(3, "third", again, false, item), again).0
  {
    var e := HeldFirst(t, late, again, item);
    assert e[..3] == [e[0], e[1], e[2]];
    hide Accept, Beat, Maintained, HeldFirst;
    RunOfThree(e[..3]);
  }

  /** An item projected only just before its record is deleted is projected again right after. */
  lemma ProjectedAgainSoon(t: int, item: Item)
    requires item.resource == "disk" && !Future(item, t)
    ensures var p := Run(NEW, HeldFirst(t, t + RETENTION_MS, t + RETENTION_MS + 1, item)).projected;
      Clocked(HeldFirst(t, t + RETENTION_MS, t + RETENTION_MS + 1, item), t)
      && |p| == 2 && p[0].key == p[1].key && p[1].now == p[0].now + 1
  {
    var late, again := t + RETENTION_MS, t + RETENTION_MS + 1;
    assert Clocked(HeldFirst(t, late, again, item), t);
    HeldThenKnown(t, late, item);
    hide Accept, Beat, Awaits, Run, Clocked, HeldFirst, Future, Stores;
    var held := Accept(NEW, Beat(1, "first", t, false, item), t).0;
    var db := Accept(held, Beat(2, "second", late, true, item), late).0;
    SoonAgain(db, t, again, item);
    RunHeldFirst(t, late, again, item);
  }

  lemma SoonAgain(db: Db, t: int, again: int, item: Item)
    requires item.resource == "disk" && !Future(item, again) && again > t + RETENTION_MS
    requires Awaits(db, 3, Some(1), KNOWN) && db.items == map[(item.kind, item.id) := Held(item.content, true, t)]
    ensures Accept(Maintained(db, again), Beat(3, "third", again, false, item), again).0.projected ==
      db.projected + [Projection((item.kind, item.id), item.at, again, again, Stores(item, again))]
  {
    hide Accept, Beat, Awaits, Future, Stores;
    MaintainedAwaits(db, 3, Some(1), KNOWN, again);
    MaintainedForgets(db, (item.kind, item.id), Held(item.content, true, t), again);
    hide Maintained;
    BeatProjects(Maintained(db, again), 3, "third", again, false, item);
  }

  lemma RunOfThree(e: seq<Event>)
    requires |e| == 3
    ensures Run(NEW, e) == Step(Step(Step(NEW, e[0]), e[1]), e[2])
  {
    assert e[..2][..1] == e[..1] && e[..1][..0] == [];
    hide Step;
    calc {
      Run(NEW, e);
      Step(Run(NEW, e[..2]), e[2]);
      Step(Step(Run(NEW, e[..1]), e[1]), e[2]);
      Step(Step(Step(NEW, e[0]), e[1]), e[2]);
    }
  }
}
