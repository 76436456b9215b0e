/**
 What the records of one heartbeat do to the retained inventory (server/src/cider_api.rs:290-343), told
 entity by entity.
 */
module InventoryRecords {
  import opened Wrappers
  import opened RetainedGraph

  /** The last record about an entity. */
  function Mention(records: seq<Record>, e: Entity): Option<Record> {
    if records == [] then None
    else if records[|records| - 1].entity == e then Some(records[|records| - 1])
    else Mention(records[..|records| - 1], e)
  }

  /** The record goes back, or changes the content of a revision. */
  predicate Conflicts(revision: nat, upsert: bool, content: string, r: Record) {
    r.revision < revision || (r.revision == revision && (r.upsert != upsert || r.content != content))
  }

  predicate AgainstHeld(g: Graph, generation: nat, r: Record) {
    && r.entity in g.versions && g.versions[r.entity].generation == generation
    && Conflicts(g.versions[r.entity].revision, g.versions[r.entity].upsert, g.versions[r.entity].content, r)
  }

  predicate AgainstEarlier(records: seq<Record>, r: Record) {
    exists j :: 0 <= j < |records| && records[j].entity == r.entity
      && Conflicts(records[j].revision, records[j].upsert, records[j].content, r)
  }

  predicate WrongAt(g: Graph, generation: nat, records: seq<Record>, i: nat)
    requires i < |records|
  {
    AgainstHeld(g, generation, records[i]) || AgainstEarlier(records[..i], records[i])
  }

  /** Some record conflicts with what is held from this generation, or with an earlier one of the same heartbeat. */
  predicate Wrong(g: Graph, generation: nat, records: seq<Record>) {
    exists i :: 0 <= i < |records| && WrongAt(g, generation, records, i)
  }

  /** Afterwards an entity is as its last record says, or as it was. */
  predicate EntityNext(g: Graph, g': Graph, generation: nat, records: seq<Record>, e: Entity) {
    var r := Mention(records, e);
    if r.None? then
      && (e in g'.versions <==> e in g.versions) && (e in g.versions ==> g'.versions[e] == g.versions[e])
      && (e in g'.present <==> e in g.present) && (e in g.present ==> g'.present[e] == g.present[e])
      && (e in g'.acquired <==> e in g.acquired)
    else
      && e in g'.versions && g'.versions[e] == Version(generation, r.value.revision, r.value.upsert, r.value.content)
      && (e in g'.present <==> r.value.upsert) && (e in g'.acquired <==> r.value.upsert)
      && (r.value.upsert ==> Shown(g'.present[e], r.value))
  }

  predicate Shown(p: Record, r: Record) {
    p.entity == r.entity && p.revision == r.revision && p.upsert && p.content == r.content
  }

  /** What is present is of the held version. */
  ghost predicate Coherent(g: Graph) {
    forall e :: HeldAs(g, e)
  }

  predicate HeldAs(g: Graph, e: Entity) {
    && (e in g.versions ==> (g.versions[e].upsert <==> e in g.present))
    && (e in g.acquired <==> e in g.present)
    && (e in g.present ==>
          && e in g.versions && g.present[e].entity == e && g.present[e].upsert
          && VersionOf(g.versions[e].generation, g.present[e]) == g.versions[e])
  }

  lemma GraphCoherent(g: Graph, log: seq<Entry>, generation: nat)
    requires GraphOk(g, log, generation)
    ensures Coherent(g)
  {
    forall e ensures HeldAs(g, e) {
      assert EntityOk(g, log, generation, e);
    }
    hide LastOf, GraphOk;
  }

  // ---- One more record ----

  lemma JudgeIs(g: Graph, g': Graph, generation: nat, front: seq<Record>, r: Record)
    requires !Wrong(g, generation, front) && EntityNext(g, g', generation, front, r.entity)
    ensures Judge(g'.versions, generation, r).Backwards? || Judge(g'.versions, generation, r).Reused? <==>
      AgainstHeld(g, generation, r) || AgainstEarlier(front, r)
  {
    var last := Mention(front, r.entity);
    if last.None? {
      NeverMentioned(front, r.entity);
    } else {
      var k := MentionIs(front, r.entity);
      LastIsFirm(g, generation, front, k, r);
    }
    hide Mention, Wrong;
  }

  lemma {:induction false} NeverMentioned(records: seq<Record>, e: Entity)
    requires Mention(records, e).None?
    ensures forall j :: 0 <= j < |records| ==> records[j].entity != e
    decreases |records|
  {
    if records != [] {
      NeverMentioned(records[..|records| - 1], e);
    }
  }

  lemma {:induction false} MentionIs(records: seq<Record>, e: Entity) returns (k: nat)
    requires Mention(records, e).Some?
    ensures k < |records| && records[k] == Mention(records, e).value && records[k].entity == e
    ensures forall j :: k < j < |records| ==> records[j].entity != e
    decreases |records|
  {
    if records[|records| - 1].entity == e {
      k := |records| - 1;
    } else {
      k := MentionIs(records[..|records| - 1], e);
    }
  }

  /** A conflict with anything before is one with the last record about the entity. */
  lemma LastIsFirm(g: Graph, generation: nat, front: seq<Record>, k: nat, r: Record)
    requires !Wrong(g, generation, front) && k < |front| && front[k].entity == r.entity
    requires forall j :: k < j < |front| ==> front[j].entity != r.entity
    ensures AgainstHeld(g, generation, r) || AgainstEarlier(front, r) <==>
      Conflicts(front[k].revision, front[k].upsert, front[k].content, r)
  {
    assert !WrongAt(g, generation, front, k);
    if AgainstEarlier(front, r) {
      var j :| 0 <= j < |front| && front[j].entity == r.entity
        && Conflicts(front[j].revision, front[j].upsert, front[j].content, r);
      assert j <= k;
      if j < k {
        assert front[..k][j] == front[j];
        assert !Conflicts(front[j].revision, front[j].upsert, front[j].content, front[k]);
      }
    }
  }

  lemma EntityMore(g: Graph, was: Graph, g': Graph, generation: nat, records: seq<Record>, e: Entity)
    requires records != [] && Coherent(was)
    requires EntityNext(g, was, generation, records[..|records| - 1], e)
    requires var r := records[|records| - 1];
      var verdict := Judge(was.versions, generation, r);
      (verdict.Same? && g' == was) || (verdict.Newer? && g' == Apply(was, generation, r))
    ensures EntityNext(g, g', generation, records, e)
  {
    var r := records[|records| - 1];
    if r.entity == e && Judge(was.versions, generation, r).Same? {
      assert was.versions[e] == VersionOf(generation, r);
      assert HeldAs(was, e);
    }
    assert r.entity != e ==> Mention(records, e) == Mention(records[..|records| - 1], e);
    hide Coherent;
  }

  lemma WrongMore(g: Graph, generation: nat, records: seq<Record>)
    requires records != []
    ensures var front, r := records[..|records| - 1], records[|records| - 1];
      Wrong(g, generation, records) <==>
        Wrong(g, generation, front) || AgainstHeld(g, generation, r) || AgainstEarlier(front, r)
  {
    var front := records[..|records| - 1];
    hide AgainstHeld, AgainstEarlier;
    forall i | 0 <= i < |front| ensures WrongAt(g, generation, records, i) <==> WrongAt(g, generation, front, i) {
      assert records[..i] == front[..i] && records[i] == front[i];
    }
    assert WrongAt(g, generation, records, |front|) <==>
      AgainstHeld(g, generation, records[|front|]) || AgainstEarlier(front, records[|front|]);
  }

  /** A record that is not already held just so. */
  predicate NewTo(g: Graph, generation: nat, r: Record) {
    r.entity !in g.versions || g.versions[r.entity] != Version(generation, r.revision, r.upsert, r.content)
  }

  ghost predicate AnyNew(g: Graph, generation: nat, records: seq<Record>) {
    exists i :: 0 <= i < |records| && NewTo(g, generation, records[i])
  }

  /** The records are refused exactly when one is wrong; else every entity is as its last record says, and
      something changed exactly when some record was not held already. */
  lemma {:induction false} RecordsExactly(g: Graph, log: seq<Entry>, generation: nat, records: seq<Record>)
    requires GraphOk(g, log, generation)
    ensures ApplyAll(g, log, generation, records).None? <==> Wrong(g, generation, records)
    ensures ApplyAll(g, log, generation, records).Some? ==>
      var o := ApplyAll(g, log, generation, records).value;
      && (forall e :: EntityNext(g, o.graph, generation, records, e))
      && (o.changed <==> AnyNew(g, generation, records))
      && (!o.changed ==> o.graph == g)
    decreases |records|
  {
    if records != [] {
      var front, r := records[..|records| - 1], records[|records| - 1];
      RecordsExactly(g, log, generation, front);
      WrongMore(g, generation, records);
      hide GraphOk, Judge, Apply, EntityNext, Wrong, AgainstHeld, AgainstEarlier, NewTo;
      if ApplyAll(g, log, generation, front).Some? {
        ApplyAllOk(g, log, generation, front);
        OneMore(g, log, generation, records);
      }
    }
  }

  lemma OneMore(g: Graph, log: seq<Entry>, generation: nat, records: seq<Record>)
    requires records != [] && GraphOk(g, log, generation)
    requires var front := records[..|records| - 1];
      && ApplyAll(g, log, generation, front).Some? && !Wrong(g, generation, front)
      && var o := ApplyAll(g, log, generation, front).value;
         && GraphOk(o.graph, o.log, generation)
         && (forall e :: EntityNext(g, o.graph, generation, front, e))
         && (o.changed <==> AnyNew(g, generation, front)) && (!o.changed ==> o.graph == g)
    ensures var front, r := records[..|records| - 1], records[|records| - 1];
      ApplyAll(g, log, generation, records).None? <==> AgainstHeld(g, generation, r) || AgainstEarlier(front, r)
    ensures ApplyAll(g, log, generation, records).Some? ==>
      var o := ApplyAll(g, log, generation, records).value;
      && (forall e :: EntityNext(g, o.graph, generation, records, e))
      && (o.changed <==> AnyNew(g, generation, records))
      && (!o.changed ==> o.graph == g)
  {
    var front, r := records[..|records| - 1], records[|records| - 1];
    var was := ApplyAll(g, log, generation, front).value;
    GraphCoherent(was.graph, was.log, generation);
    JudgeIs(g, was.graph, generation, front, r);
    AnyNewMore(g, generation, records);
    hide GraphOk, EntityNext, Wrong, Coherent, AgainstHeld, AgainstEarlier, AnyNew;
    if ApplyAll(g, log, generation, records).Some? {
      var o := ApplyAll(g, log, generation, records).value;
      forall e ensures EntityNext(g, o.graph, generation, records, e) {
        EntityMore(g, was.graph, o.graph, generation, records, e);
      }
    }
  }

  lemma AnyNewMore(g: Graph, generation: nat, records: seq<Record>)
    requires records != []
    ensures AnyNew(g, generation, records) <==>
      AnyNew(g, generation, records[..|records| - 1]) || NewTo(g, generation, records[|records| - 1])
  {
    hide NewTo;
    var front := records[..|records| - 1];
    if i :| 0 <= i < |front| && NewTo(g, generation, front[i]) {
      assert records[i] == front[i];
    }
    if i :| 0 <= i < |records| && NewTo(g, generation, records[i]) {
      assert i < |front| ==> front[i] == records[i];
    }
  }
}
