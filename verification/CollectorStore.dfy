/**
 The heartbeat handler as it runs: the retained graph is updated record by record and committed with
 the receipt, or everything is abandoned.
 */
module CollectorStore {
  import opened Wrappers
  import opened RetainedGraph
  import opened Collector
  import CollectorRuns

  /** The graph of one receiver while a heartbeat is being processed. */
  class Working {
    var present: map<Entity, Record>
    var versions: map<Entity, Version>
    var acquired: set<Entity>
    ghost var log: seq<Entry>

    function View(): Graph
      reads this
    {
      Graph(present, versions, acquired)
    }

    constructor (g: Graph, ghost history: seq<Entry>)
      ensures View() == g && log == history
    {
      present, versions, acquired, log := g.present, g.versions, g.acquired, history;
    }

    /** accept_version: None is a conflict, otherwise whether the record is newer. */
    method AcceptVersion(generation: nat, r: Record) returns (newer: Option<bool>)
      modifies this`versions
      ensures var verdict := Judge(old(versions), generation, r);
        && newer == (if verdict.Newer? then Some(true) else if verdict.Same? then Some(false) else None)
        && versions == if verdict.Newer? then old(versions)[r.entity := VersionOf(generation, r)] else old(versions)
    {
      if r.entity in versions {
        var held := versions[r.entity];
        if held.generation == generation {
          if r.revision < held.revision {
            return None;
          }
          if r.revision == held.revision {
            if held.upsert != r.upsert || held.content != r.content {
              return None;
            }
            return Some(false);
          }
        }
      }
      versions := versions[r.entity := VersionOf(generation, r)];
      return Some(true);
    }

    /** The resources, then the relationships, then the tombstones of one heartbeat, and the limits. */
    method Update(generation: nat, records: seq<Record>, oversized: bool) returns (changed: Option<bool>)
      modifies this
      ensures var o := RetainedGraph.Update(old(View()), old(log), generation, records, oversized);
        && (changed.Some? <==> o.Some?)
        && (o.Some? ==> changed.value == o.value.changed && View() == o.value.graph && log == o.value.log)
    {
      hide Judge, WithinLimits;
      var any := false;
      ghost var start, before := View(), log;
      assert ApplyAll(start, before, generation, records[..0]) == Some(Outcome(View(), log, any));
      for i := 0 to |records|
        invariant ApplyAll(start, before, generation, records[..i]) == Some(Outcome(View(), log, any))
      {
        var r := records[i];
        ghost var was := View();
        ApplyOneMore(start, before, generation, records, i);
        var newer := AcceptVersion(generation, r);
        if newer.None? {
          ApplyAborts(start, before, generation, records, i + 1);
          return None;
        }
        if newer.value {
          if r.upsert {
            acquired := acquired + {r.entity};
            present := present[r.entity := r];
          } else {
            acquired := acquired - {r.entity};
            present := present - {r.entity};
          }
          log := log + [Entry(r.entity, generation, r.revision, r.upsert)];
          any := true;
          assert View() == Apply(was, generation, r);
        }
      }
      assert records[..|records|] == records;
      if !WithinLimits(View(), oversized) {
        return None;
      }
      return Some(any);
    }
  }

  lemma ApplyOneMore(g: Graph, log: seq<Entry>, generation: nat, records: seq<Record>, i: nat)
    requires i < |records| && ApplyAll(g, log, generation, records[..i]).Some?
    ensures var was, r := ApplyAll(g, log, generation, records[..i]).value, records[i];
      var verdict := Judge(was.graph.versions, generation, r);
      ApplyAll(g, log, generation, records[..i + 1]) ==
        if verdict.Newer? then
          Some(Outcome(Apply(was.graph, generation, r), was.log + [Entry(r.entity, generation, r.revision, r.upsert)],
            true))
        else if verdict.Same? then Some(was) else None
  {
    assert records[..i + 1][..i] == records[..i];
    hide Judge, Apply;
  }

  lemma {:induction false} ApplyAborts(g: Graph, log: seq<Entry>, generation: nat, records: seq<Record>, i: nat)
    requires i <= |records| && ApplyAll(g, log, generation, records[..i]).None?
    ensures ApplyAll(g, log, generation, records).None?
    decreases |records| - i
  {
    if i == |records| {
      assert records[..i] == records;
    } else {
      assert records[..i + 1][..i] == records[..i];
      ApplyAborts(g, log, generation, records, i + 1);
    }
  }

  class Node {
    var receiver: Option<Receiver>
    var inventoryGeneration: nat
    var receipts: map<(string, nat), Receipt>
    var items: map<(ItemKind, string), Held>
    ghost var log: seq<Entry>
    ghost var accepted: seq<(nat, nat)>
    ghost var projected: seq<Projection>

    ghost function View(): Db
      reads this
    {
      Db(receiver, inventoryGeneration, receipts, items, log, accepted, projected)
    }

    constructor ()
      ensures View() == CollectorRuns.NEW
    {
      receiver, inventoryGeneration, receipts, items := None, 0, map[], map[];
      log, accepted, projected := [], [], [];
    }

    /** The loops over collections and events. */
    static method TakeItems(
        held: map<(ItemKind, string), Held>, ghost done: seq<Projection>, known: bool, g: Graph, now: int,
        all: seq<Item>)
      returns (ok: bool, held': map<(ItemKind, string), Held>, ghost done': seq<Projection>)
      ensures TakeAll(Items(held, done), known, g, now, all) == if ok then Some(Items(held', done')) else None
    {
      hide Stores, Future;
      held', done', ok := held, done, true;
      assert TakeAll(Items(held, done), known, g, now, all[..0]) == Some(Items(held', done'));
      for i := 0 to |all|
        invariant TakeAll(Items(held, done), known, g, now, all[..i]) == Some(Items(held', done'))
      {
        var item := all[i];
        var key := (item.kind, item.id);
        assert all[..i + 1][..i] == all[..i];
        if key in held' && held'[key].content != item.content {
          TakeAborts(Items(held, done), known, g, now, all, i + 1);
          ok := false;
          return;
        }
        ghost var was := held';
        var before := key in held' && held'[key].projected;
        if key !in held' {
          held' := held'[key := Held(item.content, false, now)];
        }
        if !before && known && Entity(ResourceKind, item.resource) in g.present {
          if Future(item, now) {
            TakeAborts(Items(held, done), known, g, now, all, i + 1);
            ok := false;
            return;
          }
          held' := held'[key := held'[key].(projected := true)];
          done' := done' + [Projection(key, item.at, held'[key].receivedAt, now, Stores(item, now))];
          assert held' == was[key := Held(item.content, true, held'[key].receivedAt)];
        }
      }
      assert all[..|all|] == all;
    }

    /** The guards before anything is written. */
    method Open(hb: Heartbeat, now: int) returns (admitted: Option<Receiver>)
      ensures admitted == Admitted(View(), hb, now)
    {
      if Distance(hb.createdAt, now) > MAX_SKEW_MS {
        return None;
      }
      var isNew := receiver.None?;
      if isNew && inventoryGeneration != 0 {
        return None;
      }
      var r := if isNew then Receiver(hb.generation, hb.session, hb.boot, 0, None, 0, NOTHING) else receiver.value;
      if r.projection != inventoryGeneration {
        return None;
      }
      var newGeneration := !isNew && hb.generation > r.generation;
      if !isNew && (hb.generation < r.generation
            || (hb.generation == r.generation
                 && (hb.session != r.session || hb.boot != r.boot || hb.sequence <= r.sequence)))
      {
        return None;
      }
      if newGeneration {
        if r.session == hb.session {
          return None;
        }
        r := r.(inventory := None);
      }
      if !hb.valid || (r.inventory.Some? && hb.inventory < r.inventory.value) {
        return None;
      }
      return Some(r);
    }

    method Heartbeat(hb: Heartbeat, now: int) returns (reply: Reply)
      modifies this
      ensures (View(), reply) == Collector.Accept(old(View()), hb, now)
    {
      hide Processed, Admitted;
      var id := (hb.session, hb.sequence);
      if id in receipts {
        if receipts[id].content != hb.content {
          return Refused;
        }
        return Answered(receipts[id].ack);
      }
      var admitted := Open(hb, now);
      if admitted.None? {
        return Refused;
      }
      reply := Process(admitted.value, hb, now);
    }

    /** The transaction: graph, projection, items, receipt. */
    method Process(r: Receiver, hb: Heartbeat, now: int) returns (reply: Reply)
      modifies this
      ensures (View(), reply) == Processed(old(View()), r, hb, now)
    {
      hide Committed, RetainedGraph.Update;
      var working := new Working(r.graph, log);
      var inventory := r.inventory;
      var changed := false;
      var updated: Option<bool> := None;
      if hb.included {
        updated := working.Update(hb.generation, hb.records, hb.oversized);
        if updated.None? {
          return Refused;
        }
        changed := updated.value || inventory != Some(hb.inventory) || receiver.None?
          || hb.generation > receiver.value.generation;
        inventory := Some(hb.inventory);
      }
      var projection := r.projection;
      if changed {
        if projection >= MAX_PROJECTION {
          return Refused;
        }
        projection := projection + 1;
      }
      ghost var u := Outcome(working.View(), working.log, if hb.included then updated.value else false);
      reply := Commit(hb, now, working.View(), working.log, u.changed, inventory, projection);
    }

    /** The items, the receipt and the new receiver. */
    method Commit(hb: Heartbeat, now: int, graph: Graph, ghost history: seq<Entry>, ghost changed: bool,
            inventory: Option<nat>, projection: nat)
      returns (reply: Reply)
      modifies this
      ensures (View(), reply) ==
        Committed(old(View()), hb, now, Outcome(graph, history, changed), inventory, projection)
    {
      hide TakeAll;
      var known := inventory == Some(hb.inventory);
      var ok, held, done := TakeItems(items, projected, known, graph, now, hb.items);
      if !ok || !hb.later {
        return Refused;
      }
      var ack := Ack(hb.session, hb.sequence, inventory, !known, now);
      items, projected := held, done;
      inventoryGeneration := projection;
      receipts := receipts[(hb.session, hb.sequence) := Receipt(hb.content, ack)];
      receiver := Some(Receiver(hb.generation, hb.session, hb.boot, hb.sequence, inventory, projection, graph));
      log, accepted := history, accepted + [(hb.generation, hb.sequence)];
      return Answered(ack);
    }

    /** The daily deletion of old receipts and records. */
    method Prune(now: int)
      modifies this
      ensures View() == CollectorRuns.Maintained(old(View()), now)
    {
      var cutoff := now - RETENTION_MS;
      receipts := map id | id in receipts && receipts[id].ack.receivedAt >= cutoff :: receipts[id];
      items := map k | k in items && items[k].receivedAt >= cutoff :: items[k];
    }
  }

  lemma {:induction false} TakeAborts(t: Items, known: bool, g: Graph, now: int, all: seq<Item>, i: nat)
    requires i <= |all| && TakeAll(t, known, g, now, all[..i]).None?
    ensures TakeAll(t, known, g, now, all).None?
    decreases |all| - i
  {
    if i == |all| {
      assert all[..i] == all;
    } else {
      assert all[..i + 1][..i] == all[..i];
      TakeAborts(t, known, g, now, all, i + 1);
    }
  }
}
