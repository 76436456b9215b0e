/**
 The collector protocol (server/src/cider_api.rs:93-287): which heartbeats are accepted and what they
 store.
 */
module Collector {
  import opened Wrappers
  import opened RetainedGraph

  const MAX_SKEW_MS: int := 300_000
  const DAY_MS: int := 86_400_000
  const RETENTION_MS: int := 30 * DAY_MS
  const MAX_PROJECTION: nat := 0x7FFF_FFFF_FFFF_FFFF

  /** A collection or an event, immutable under its identifier: when it finished or was observed, and
      whether it was taken on the clock of the heartbeat. */
  datatype ItemKind = Collection | EventItem
  datatype Item = Item(kind: ItemKind, id: string, content: string, resource: string, at: int, sameClock: bool)

  /** valid and oversized are the verdicts of the wire validator and of the encoded size; later is the
      verdict of the remaining checks inside the transaction. */
  datatype Heartbeat = Heartbeat(
    generation: nat, session: string, boot: string, sequence: nat, createdAt: int, content: string,
    included: bool, inventory: nat, records: seq<Record>, items: seq<Item>,
    valid: bool, oversized: bool, later: bool)

  datatype Receiver = Receiver(
    generation: nat, session: string, boot: string, sequence: nat, inventory: Option<nat>,
    projection: nat, graph: Graph)

  datatype Ack = Ack(session: string, sequence: nat, inventory: Option<nat>, wanted: bool, receivedAt: int)
  datatype Receipt = Receipt(content: string, ack: Ack)
  datatype Held = Held(content: string, projected: bool, receivedAt: int)

  /** An item projected at a time, recorded for the first time at receivedAt; stored says whether its
      samples or its event were stored. */
  datatype Projection = Projection(key: (ItemKind, string), at: int, receivedAt: int, now: int, stored: bool)

  /** The committed state of one node.  log, accepted and projected are histories. */
  datatype Db = Db(
    receiver: Option<Receiver>, inventoryGeneration: nat,
    receipts: map<(string, nat), Receipt>, items: map<(ItemKind, string), Held>,
    log: seq<Entry>, accepted: seq<(nat, nat)>, projected: seq<Projection>)

  datatype Reply = Refused | Answered(ack: Ack)

  const NOTHING: Graph := Graph(map[], map[], {})

  function Distance(a: int, b: int): int {
    if a < b then b - a else a - b
  }

  /** The receiver a heartbeat starts from. */
  function Starting(db: Db, hb: Heartbeat): Option<Receiver> {
    if db.receiver.Some? then db.receiver
    else if db.inventoryGeneration != 0 then None
    else Some(Receiver(hb.generation, hb.session, hb.boot, 0, None, 0, NOTHING))
  }

  predicate Newborn(db: Db, hb: Heartbeat) {
    db.receiver.None? || hb.generation > db.receiver.value.generation
  }

  /** The order guards (lines 158-183). */
  predicate InOrder(db: Db, r: Receiver, hb: Heartbeat) {
    && r.projection == db.inventoryGeneration
    && (db.receiver.Some? ==>
          && hb.generation >= r.generation
          && (hb.generation == r.generation ==>
               hb.session == r.session && hb.boot == r.boot && hb.sequence > r.sequence)
          && (hb.generation > r.generation ==> hb.session != r.session))
  }

  /** The inventory revision retained for this generation. */
  function Retained(db: Db, r: Receiver, hb: Heartbeat): Option<nat> {
    if db.receiver.Some? && hb.generation > r.generation then None else r.inventory
  }

  // ---- Immutable items (record and mark_projected) ----

  datatype Items = Items(held: map<(ItemKind, string), Held>, projected: seq<Projection>)

  /** How old an item may be for its samples or its event to be stored. */
  function Window(kind: ItemKind): int {
    if kind.Collection? then DAY_MS else RETENTION_MS
  }

  /** The samples of a collection are stored only if it was taken on the heartbeat's clock. */
  predicate Stores(i: Item, now: int) {
    (i.kind.EventItem? || i.sameClock) && i.at >= now - Window(i.kind)
  }

  predicate Future(i: Item, now: int) {
    (i.kind.EventItem? || i.sameClock) && i.at > now + MAX_SKEW_MS
  }

  function TakeItem(t: Items, known: bool, g: Graph, now: int, i: Item): Option<Items> {
    var key := (i.kind, i.id);
    var receivedAt := if key in t.held then t.held[key].receivedAt else now;
    if key in t.held && t.held[key].content != i.content then None
    else if !(key in t.held && t.held[key].projected) && known && Entity(ResourceKind, i.resource) in g.present then
      if Future(i, now) then None
      else
        Some(Items(t.held[key := Held(i.content, true, receivedAt)],
          t.projected + [Projection(key, i.at, receivedAt, now, Stores(i, now))]))
    else if key in t.held then Some(t)
    else Some(Items(t.held[key := Held(i.content, false, now)], t.projected))
  }

  ghost function TakeAll(t: Items, known: bool, g: Graph, now: int, items: seq<Item>): Option<Items> {
    if items == [] then Some(t)
    else
      var front := TakeAll(t, known, g, now, items[..|items| - 1]);
      if front.None? then None else TakeItem(front.value, known, g, now, items[|items| - 1])
  }

  // ---- One heartbeat ----

  ghost function Updated(db: Db, r: Receiver, hb: Heartbeat): Option<Outcome> {
    if hb.included then Update(r.graph, db.log, hb.generation, hb.records, hb.oversized)
    else Some(Outcome(r.graph, db.log, false))
  }

  /** The receiver a new heartbeat may go on with, its inventory revision already forgotten for a new
      generation (lines 152-195). */
  function Admitted(db: Db, hb: Heartbeat, now: int): Option<Receiver> {
    if Distance(hb.createdAt, now) > MAX_SKEW_MS then None
    else
      var start := Starting(db, hb);
      if start.None? || !InOrder(db, start.value, hb) || !hb.valid then None
      else
        var retained := Retained(db, start.value, hb);
        if retained.Some? && hb.inventory < retained.value then None else Some(start.value.(inventory := retained))
  }

  ghost function Accept(db: Db, hb: Heartbeat, now: int): (Db, Reply) {
    var id := (hb.session, hb.sequence);
    if id in db.receipts then
      if db.receipts[id].content != hb.content then (db, Refused) else (db, Answered(db.receipts[id].ack))
    else
      var admitted := Admitted(db, hb, now);
      if admitted.None? then (db, Refused) else Processed(db, admitted.value, hb, now)
  }

  ghost function Processed(db: Db, r: Receiver, hb: Heartbeat, now: int): (Db, Reply) {
    var updated := Updated(db, r, hb);
    if updated.None? then (db, Refused)
    else
      var changed := hb.included && (updated.value.changed || r.inventory != Some(hb.inventory) || Newborn(db, hb));
      if changed && r.projection >= MAX_PROJECTION then (db, Refused)
      else Committed(db, hb, now, updated.value, if hb.included then Some(hb.inventory) else r.inventory,
        r.projection + if changed then 1 else 0)
  }

  ghost function Committed(db: Db, hb: Heartbeat, now: int, u: Outcome, inventory: Option<nat>, projection: nat): (Db,
          Reply) {
    var known := inventory == Some(hb.inventory);
    var items := TakeAll(Items(db.items, db.projected), known, u.graph, now, hb.items);
    if items.None? || !hb.later then (db, Refused)
    else
      var ack := Ack(hb.session, hb.sequence, inventory, !known, now);
      (Db(Some(Receiver(hb.generation, hb.session, hb.boot, hb.sequence, inventory, projection, u.graph)),
          projection, db.receipts[(hb.session, hb.sequence) := Receipt(hb.content, ack)], items.value.held,
          u.log, db.accepted + [(hb.generation, hb.sequence)], items.value.projected),
       Answered(ack))
  }

  // ---- The invariant ----

  predicate Less(a: (nat, nat), b: (nat, nat)) {
    a.0 < b.0 || (a.0 == b.0 && a.1 < b.1)
  }

  ghost predicate Ascending(s: seq<(nat, nat)>) {
    forall i, j | 0 <= i < j < |s| :: Less(s[i], s[j])
  }

  ghost predicate DbOk(db: Db) {
    && Ascending(db.accepted)
    && (db.receiver.None? ==> db.accepted == [] && db.log == [])
    && (db.receiver.Some? ==>
          && var r := db.receiver.value;
             && db.accepted != [] && db.accepted[|db.accepted| - 1] == (r.generation, r.sequence)
             && GraphOk(r.graph, db.log, r.generation) && WithinLimits(r.graph, false))
  }

  lemma {:induction false} TakeAllKeeps(t: Items, known: bool, g: Graph, now: int, items: seq<Item>)
    requires TakeAll(t, known, g, now, items).Some?
    ensures var t' := TakeAll(t, known, g, now, items).value;
      && t.projected <= t'.projected
      && forall k :: k in t.held ==> k in t'.held && t'.held[k].content == t.held[k].content
    decreases |items|
  {
    hide Stores, Future;
    if items != [] {
      TakeAllKeeps(t, known, g, now, items[..|items| - 1]);
    }
  }

  lemma NothingOk(generation: nat)
    ensures GraphOk(NOTHING, [], generation)
  {
  }

  lemma UpdatedOk(db: Db, r: Receiver, hb: Heartbeat)
    requires DbOk(db) && Starting(db, hb).Some? && r.graph == Starting(db, hb).value.graph
    requires InOrder(db, Starting(db, hb).value, hb) && Updated(db, r, hb).Some?
    ensures var o := Updated(db, r, hb).value;
      GraphOk(o.graph, o.log, hb.generation) && WithinLimits(o.graph, false) && db.log <= o.log
  {
    hide GraphOk, ApplyAll;
    NothingOk(hb.generation);
    GraphOkLater(r.graph, db.log, Starting(db, hb).value.generation, hb.generation);
    if hb.included {
      ApplyAllOk(r.graph, db.log, hb.generation, hb.records);
    }
  }

  /** Histories only grow. */
  ghost predicate Grows(db: Db, db': Db) {
    db.log <= db'.log && db.accepted <= db'.accepted && db.projected <= db'.projected
  }

  /** What was recorded stays as it was recorded. */
  ghost predicate Keeps(db: Db, db': Db) {
    && (forall id :: id in db.receipts ==> id in db'.receipts && db'.receipts[id] == db.receipts[id])
    && (forall k :: k in db.items ==> k in db'.items && db'.items[k].content == db.items[k].content)
  }

  lemma AcceptOk(db: Db, hb: Heartbeat, now: int)
    requires DbOk(db)
    ensures var (db', reply) := Accept(db, hb, now);
      DbOk(db') && Grows(db, db') && Keeps(db, db') && (reply.Refused? ==> db' == db)
  {
    hide GraphOk, Update, TakeAll, WithinLimits, Admitted, Ascending, DbOk;
    if Accept(db, hb, now).0 != db {
      ProcessedOk(db, Admitted(db, hb, now).value, hb, now);
    }
  }

  lemma ProcessedOk(db: Db, r: Receiver, hb: Heartbeat, now: int)
    requires DbOk(db) && Admitted(db, hb, now) == Some(r) && (hb.session, hb.sequence) !in db.receipts
    requires Processed(db, r, hb, now).0 != db
    ensures var db' := Processed(db, r, hb, now).0; DbOk(db') && Grows(db, db') && Keeps(db, db')
  {
    var u, db' := Updated(db, r, hb).value, Processed(db, r, hb, now).0;
    var known := db'.receiver.value.inventory == Some(hb.inventory);
    hide GraphOk, Update, Updated, TakeAll, WithinLimits, Ascending;
    UpdatedOk(db, r, hb);
    TakeAllKeeps(Items(db.items, db.projected), known, u.graph, now, hb.items);
    AcceptedAscend(db, hb, now);
    hide Admitted, Newborn;
    assert db'.accepted == db.accepted + [(hb.generation, hb.sequence)];
  }

  lemma AcceptedAscend(db: Db, hb: Heartbeat, now: int)
    requires DbOk(db) && Admitted(db, hb, now).Some?
    ensures Ascending(db.accepted + [(hb.generation, hb.sequence)])
  {
    AscendingOne(db.accepted, (hb.generation, hb.sequence));
    hide Ascending, GraphOk, WithinLimits;
  }

  lemma AscendingOne(s: seq<(nat, nat)>, x: (nat, nat))
    requires Ascending(s) && (s != [] ==> Less(s[|s| - 1], x))
    ensures Ascending(s + [x])
  {
    forall i | 0 <= i < |s| ensures Less(s[i], x) {
      if i < |s| - 1 {
        assert Less(s[i], s[|s| - 1]);
      }
    }
  }
}
