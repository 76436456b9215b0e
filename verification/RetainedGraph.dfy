/**
 The collector's retained inventory (server/src/cider_api.rs:290-343): versioned upserts and
 tombstones of resources and relationships, last writer wins.
 */
module RetainedGraph {
  import opened Wrappers

  datatype Kind = ResourceKind | RelationshipKind

  /** The key "resource:<id>" or "relationship:<id>". */
  datatype Entity = Entity(kind: Kind, id: string)

  /** Hashes are injective: a fingerprint is the shape and the content it was taken from. */
  datatype Version = Version(generation: nat, revision: nat, upsert: bool, content: string)

  datatype Record = Record(entity: Entity, revision: nat, upsert: bool, content: string, host: bool)

  /** Resources and relationships are one table here, split by the kind of their key. */
  datatype Graph = Graph(present: map<Entity, Record>, versions: map<Entity, Version>, acquired: set<Entity>)

  const MAX_RESOURCES: nat := 4096
  const MAX_RELATIONSHIPS: nat := 8192
  const MAX_VERSIONS: nat := 32_768

  function VersionOf(generation: nat, r: Record): Version {
    Version(generation, r.revision, r.upsert, r.content)
  }

  datatype Verdict = Backwards | Reused | Same | Newer

  /** accept_version: within a generation revisions never go back and never change content. */
  function Judge(versions: map<Entity, Version>, generation: nat, r: Record): Verdict {
    if r.entity in versions && versions[r.entity].generation == generation then
      var held := versions[r.entity];
      if r.revision < held.revision then Backwards
      else if r.revision > held.revision then Newer
      else if held != VersionOf(generation, r) then Reused
      else Same
    else Newer
  }

  /** What a newer record does: an upsert makes its entity present, a tombstone absent. */
  function Apply(g: Graph, generation: nat, r: Record): Graph {
    Graph(
      if r.upsert then g.present[r.entity := r] else g.present - {r.entity},
      g.versions[r.entity := VersionOf(generation, r)],
      if r.upsert then g.acquired + {r.entity} else g.acquired - {r.entity})
  }

  /** An accepted record, kept for the proofs. */
  datatype Entry = Entry(entity: Entity, generation: nat, revision: nat, upsert: bool)

  datatype Outcome = Outcome(graph: Graph, log: seq<Entry>, changed: bool)

  /** The three loops of update_graph over one list of records; None is a refusal. */
  ghost function ApplyAll(g: Graph, log: seq<Entry>, generation: nat, records: seq<Record>): Option<Outcome> {
    if records == [] then Some(Outcome(g, log, false))
    else
      var front := ApplyAll(g, log, generation, records[..|records| - 1]);
      var r := records[|records| - 1];
      if front.None? then None
      else
        match Judge(front.value.graph.versions, generation, r)
        case Backwards => None
        case Reused => None
        case Same => front
        case Newer =>
          Some(Outcome(Apply(front.value.graph, generation, r),
            front.value.log + [Entry(r.entity, generation, r.revision, r.upsert)], true))
  }

  function OfKind(present: map<Entity, Record>, kind: Kind): set<Entity> {
    set e | e in present && e.kind == kind
  }

  function Hosts(present: map<Entity, Record>): set<Entity> {
    set e | e in present && e.kind.ResourceKind? && present[e].host
  }

  /** The limits checked at the end; oversized is the 8 MiB limit on the encoded graph. */
  predicate WithinLimits(g: Graph, oversized: bool) {
    && |OfKind(g.present, ResourceKind)| <= MAX_RESOURCES && |OfKind(g.present, RelationshipKind)| <= MAX_RELATIONSHIPS
    && |g.versions| <= MAX_VERSIONS && !oversized && |Hosts(g.present)| <= 1
  }

  ghost function Update(g: Graph, log: seq<Entry>, generation: nat, records: seq<Record>,
          oversized: bool): Option<Outcome> {
    var all := ApplyAll(g, log, generation, records);
    if all.Some? && WithinLimits(all.value.graph, oversized) then all else None
  }

  // ---- What every update keeps ----

  predicate Precedes(a: Entry, b: Entry) {
    a.generation < b.generation || (a.generation == b.generation && a.revision < b.revision)
  }

  /** The last entry about an entity, if there is one. */
  function LastOf(log: seq<Entry>, e: Entity): Option<Entry> {
    if log == [] then None
    else if log[|log| - 1].entity == e then Some(log[|log| - 1])
    else LastOf(log[..|log| - 1], e)
  }

  /** An entity is present exactly when its last accepted record is an upsert, and its version is that
      record's; what is present was acquired; no version is ahead of the current generation. */
  ghost predicate EntityOk(g: Graph, log: seq<Entry>, generation: nat, e: Entity) {
    var last := LastOf(log, e);
    && (e in g.present <==> last.Some? && last.value.upsert)
    && (e in g.acquired <==> e in g.present)
    && (e in g.versions <==> last.Some?)
    && (e in g.versions ==>
          && g.versions[e].generation == last.value.generation && g.versions[e].revision == last.value.revision
          && g.versions[e].upsert == last.value.upsert
          && g.versions[e].generation <= generation)
    && (e in g.present ==>
          && g.present[e].entity == e && g.present[e].upsert
          && VersionOf(g.versions[e].generation, g.present[e]) == g.versions[e])
  }

  ghost predicate Increasing(log: seq<Entry>) {
    forall i, j | 0 <= i < j < |log| && log[i].entity == log[j].entity :: Precedes(log[i], log[j])
  }

  ghost predicate GraphOk(g: Graph, log: seq<Entry>, generation: nat) {
    Increasing(log) && forall e :: EntityOk(g, log, generation, e)
  }

  lemma {:induction false} LastIsGreatest(log: seq<Entry>, e: Entity, i: nat)
    requires Increasing(log) && i < |log| && log[i].entity == e
    ensures LastOf(log, e).Some? && (log[i] == LastOf(log, e).value || Precedes(log[i], LastOf(log, e).value))
  {
    if log[|log| - 1].entity != e {
      LastIsGreatest(log[..|log| - 1], e, i);
    }
  }

  /** A newer record really is newer than everything accepted about its entity. */
  lemma AppliedOk(g: Graph, log: seq<Entry>, generation: nat, r: Record)
    requires GraphOk(g, log, generation) && Judge(g.versions, generation, r).Newer?
    ensures GraphOk(Apply(g, generation, r), log + [Entry(r.entity, generation, r.revision, r.upsert)], generation)
  {
    var entry := Entry(r.entity, generation, r.revision, r.upsert);
    var log' := log + [entry];
    assert log'[..|log'| - 1] == log;
    assert EntityOk(g, log, generation, r.entity);
    forall i | 0 <= i < |log| && log[i].entity == r.entity ensures Precedes(log[i], entry) {
      LastIsGreatest(log, r.entity, i);
    }
    forall e ensures EntityOk(Apply(g, generation, r), log', generation, e) {
      assert EntityOk(g, log, generation, e);
    }
  }

  lemma {:induction false} ApplyAllOk(g: Graph, log: seq<Entry>, generation: nat, records: seq<Record>)
    requires GraphOk(g, log, generation) && ApplyAll(g, log, generation, records).Some?
    ensures var o := ApplyAll(g, log, generation, records).value; GraphOk(o.graph, o.log, generation) && log <= o.log
    decreases |records|
  {
    hide GraphOk, Judge, Apply;
    if records != [] {
      var front := records[..|records| - 1];
      ApplyAllOk(g, log, generation, front);
      var before := ApplyAll(g, log, generation, front).value;
      if Judge(before.graph.versions, generation, records[|records| - 1]).Newer? {
        AppliedOk(before.graph, before.log, generation, records[|records| - 1]);
      }
    }
  }

  /** A later generation accepts the same graph. */
  lemma GraphOkLater(g: Graph, log: seq<Entry>, generation: nat, later: nat)
    requires GraphOk(g, log, generation) && generation <= later
    ensures GraphOk(g, log, later)
  {
    forall e ensures EntityOk(g, log, later, e) {
      assert EntityOk(g, log, generation, e);
    }
  }

  /** No resurrection past a tombstone within a generation: a present entity whose deletion was ever
      accepted carries a greater revision, or belongs to a later generation. */
  lemma NoResurrection(g: Graph, log: seq<Entry>, generation: nat, e: Entity, i: nat)
    requires GraphOk(g, log, generation) && i < |log| && log[i].entity == e && !log[i].upsert && e in g.present
    ensures e in g.versions
      && (g.versions[e].generation > log[i].generation
          || (g.versions[e].generation == log[i].generation && g.versions[e].revision > log[i].revision))
  {
    assert EntityOk(g, log, generation, e);
    LastIsGreatest(log, e, i);
  }

  /** Sending the same records again changes nothing. */
  lemma {:induction false} SameAgain(g: Graph, log: seq<Entry>, generation: nat, records: seq<Record>)
    requires forall i :: 0 <= i < |records| ==>
      records[i].entity in g.versions && g.versions[records[i].entity] == VersionOf(generation, records[i])
    ensures ApplyAll(g, log, generation, records) == Some(Outcome(g, log, false))
    decreases |records|
  {
    if records != [] {
      SameAgain(g, log, generation, records[..|records| - 1]);
    }
  }
}
