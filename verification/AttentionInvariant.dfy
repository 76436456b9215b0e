/**
 Conditions, acknowledgement, retention and reconfiguration keep the delivery invariant, and the
 rules an episode obeys from one evaluation to the next.
 */
module AttentionInvariant {
  import Graph
  import opened Wrappers
  import opened Outbox
  import opened Attention
  import opened DeliveryInvariant
  import opened AdmissionRetry

  /** Enqueueing a current revision nobody else speaks for and that was never admitted. */
  lemma EnqueueOk(db: Db, episode: Id, now: int, row: Id)
    requires DbOk(db, {}) && episode in db.episodes && row !in db.drawn
    requires !Marked(db.episodes[episode]) && (episode, db.episodes[episode].revision) !in db.admitted
    ensures var db' := Enqueue(db, episode, db.episodes[episode].revision, now, row);
      DbOk(db', {}) && Evolves(db, db') && db'.drawn <= db.drawn + {row}
  {
    var revision := db.episodes[episode].revision;
    EnqueueExempt(db, episode, now, row);
    hide DbOk, Evolves, Admit, MakeRoom, ActiveIds;
    NoLongerExempt(Enqueue(db, episode, revision, now, row), episode);
  }

  /** What an enqueued episode looks like afterwards, marks aside. */
  ghost predicate Enqueued(db: Db, db': Db, episode: Id, row: Id)
    requires episode in db.episodes
  {
    var e := db.episodes[episode];
    && db'.drawn <= db.drawn + {row}
    && episode in db'.episodes && db'.episodes[episode] == e.(intent := db'.episodes[episode].intent)
    && (Waiting(db'.episodes[episode]) ==> (episode, e.revision) !in db'.admitted)
  }

  lemma EnqueueExempt(db: Db, episode: Id, now: int, row: Id)
    requires DbOk(db, {}) && episode in db.episodes && row !in db.drawn
    requires (episode, db.episodes[episode].revision) !in db.admitted
    ensures var db' := Enqueue(db, episode, db.episodes[episode].revision, now, row);
      DbOk(db', {episode}) && Evolves(db, db') && Enqueued(db, db', episode, row)
  {
    hide DbOk, Evolves, MakeRoom, ActiveIds, Admit, NewRow, Deferred;
    RevisionsDrawn(db, episode);
    AdmitOk(db, episode, db.episodes[episode].revision, db.settings.revision, db.settings.enabled, now, now, row);
  }

  lemma RevisionsDrawn(db: Db, episode: Id)
    requires DbOk(db, {}) && episode in db.episodes
    ensures db.episodes[episode].revision in db.drawn && db.settings.revision in db.drawn
    ensures db.episodes[episode].marks.pending.Some? ==> StartsWith(db.episodes[episode].sourceKey, DEVICE_PRESENCE)
  {
    assert EpisodeOk(db, episode, {});
  }

  // ---- The episode row a condition writes ----

  /** Either id is the open episode of the condition's key, or it is a new one. */
  ghost predicate Target(db: Db, c: Condition, id: Id, draw: Draw) {
    && draw.revision !in db.drawn && draw.row !in db.drawn && draw.revision != draw.row && id != draw.revision
         && id != draw.row
    && (IsOpen(db.episodes, c.key, id)
        || (id !in db.drawn && !HasOpen(db.episodes, c.key) && |db.episodes| < MAX_EPISODES))
  }

  lemma DrawnGrows(db: Db, drawn: set<Id>, but: set<Id>)
    requires DbOk(db, but) && db.drawn <= drawn
    ensures DbOk(db.(drawn := drawn), but) && Evolves(db, db.(drawn := drawn))
  {
    hide OneOpenPerKey;
    var db' := db.(drawn := drawn);
    forall i | i in db'.outbox ensures RowOk(db', i) && RowStep(db, db', i) {
      assert RowOk(db, i);
    }
    forall i | i in db'.episodes ensures EpisodeOk(db', i, but) && EpisodeStep(db, db', i) {
      assert EpisodeOk(db, i, but);
    }
  }

  lemma NextFacts(db: Db, c: Condition, now: int, id: Id, draw: Draw)
    requires DbOk(db, {}) && Target(db, c, id, draw)
    ensures var e := NextEpisode(db, c, now, id, draw.revision);
      var transition := Transition(db, c, id);
      && e.sourceKey == c.key
      && (transition ==>
            && e.revision == draw.revision && e.marks.pending.None? && !Waiting(e)
            && (id, e.revision) !in db.admitted)
      && (!transition ==>
            && id in db.episodes && e.open && e.revision == db.episodes[id].revision
            && e.intent == db.episodes[id].intent
            && (Marked(e) ==> e.marks == db.episodes[id].marks))
      && (e.intent.Some? ==> e.intent.value.revision in db.drawn)
      && (e.marks.pending.Some? ==> StartsWith(e.sourceKey, DEVICE_PRESENCE))
      && ((Owed(e) ==> (id, e.revision) !in db.admitted) && !(Marked(e) && Waiting(e)))
  {
    if id in db.episodes {
      assert EpisodeOk(db, id, {});
    }
    hide OneOpenPerKey, RowsOk, EpisodesOk, Correlated, Resumes, StartsWith;
  }

  lemma WrittenContinuing(db: Db, c: Condition, now: int, id: Id, draw: Draw)
    requires DbOk(db, {}) && Target(db, c, id, draw) && id in db.episodes
    ensures var db' := Written(db, c, now, id, draw); DbOk(db', {}) && Evolves(db, db')
  {
    NextFacts(db, c, now, id, draw);
    var drawn := db.drawn + {id} + (if Transition(db, c, id) then {draw.revision} else {});
    DrawnGrows(db, drawn, {});
    var grown := db.(drawn := drawn);
    assert EpisodeOk(db, id, {});
    assert IsOpen(db.episodes, c.key, id) by { assert id in db.drawn; }
    hide DbOk, Evolves, Transition, StartsWith, NextEpisode;
    var e := NextEpisode(db, c, now, id, draw.revision);
    PutEpisodeOk(grown, id, e, {});
    EvolvesTransitive(db, grown, grown.(episodes := grown.episodes[id := e]), {});
  }

  lemma WrittenNew(db: Db, c: Condition, now: int, id: Id, draw: Draw)
    requires DbOk(db, {}) && Target(db, c, id, draw) && id !in db.episodes
    ensures var db' := Written(db, c, now, id, draw); DbOk(db', {}) && Evolves(db, db')
  {
    NextFacts(db, c, now, id, draw);
    var drawn := db.drawn + {id} + (if Transition(db, c, id) then {draw.revision} else {});
    assert draw.revision in drawn;
    DrawnGrows(db, drawn, {});
    var e := NextEpisode(db, c, now, id, draw.revision);
    NewEpisodeOk(db, db.(drawn := drawn), id, e);
  }

  lemma SameRows(db: Db, db': Db)
    requires db'.outbox == db.outbox && RowsOk(db')
    ensures RowsStep(db, db') && NewRows(db, db')
  {
    forall i | i in db.outbox ensures RowStep(db, db', i) {
      assert RowOk(db', i);
    }
  }

  lemma NewEpisodeOk(db: Db, grown: Db, id: Id, e: Episode)
    requires DbOk(grown, {}) && Evolves(db, grown) && grown.outbox == db.outbox && grown.episodes == db.episodes
    requires id !in db.drawn && id in grown.drawn && id !in db.episodes && e.revision in grown.drawn
    requires |db.episodes| < MAX_EPISODES && !HasOpen(db.episodes, e.sourceKey)
    requires e.intent.Some? ==> e.intent.value.revision in grown.drawn
    requires e.marks.pending.Some? ==> StartsWith(e.sourceKey, DEVICE_PRESENCE)
    requires Settled(grown.(episodes := grown.episodes[id := e]), id)
    ensures var db' := grown.(episodes := grown.episodes[id := e]); DbOk(db', {}) && Evolves(db, db')
  {
    var db' := grown.(episodes := grown.episodes[id := e]);
    hide StartsWith, HasOpen, OneOpenPerKey, RowsOk, RowsStep, NewRows, HistoryGrows, EpisodesOk, EpisodesStep, Settled;
    OpensKey(db.episodes, id, e);
    RowsUntouched(grown, db'.episodes);
    SameRows(db, db');
    assert db'.episodes.Keys == db.episodes.Keys + {id};
    assert |db'.episodes.Keys| == |db.episodes.Keys| + 1;
    assert HistoryGrows(grown, db') by { Unchanged(grown, db'); }
    assert HistoryGrows(db, db') by { Same(db, grown, db'); }
    NewEpisodes(db, grown, id, e);
    assert HistoryOk(db');
    hide HistoryOk;
  }

  lemma NewEpisodes(db: Db, grown: Db, id: Id, e: Episode)
    requires EpisodesOk(grown, {}) && grown.episodes == db.episodes
    requires id !in db.drawn && id in grown.drawn && id !in db.episodes && e.revision in grown.drawn
    requires e.intent.Some? ==> e.intent.value.revision in grown.drawn
    requires e.marks.pending.Some? ==> StartsWith(e.sourceKey, DEVICE_PRESENCE)
    requires Settled(grown.(episodes := grown.episodes[id := e]), id)
    ensures var db' := grown.(episodes := grown.episodes[id := e]); EpisodesOk(db', {}) && EpisodesStep(db, db')
  {
    var db' := grown.(episodes := grown.episodes[id := e]);
    hide StartsWith;
    forall i | i in db'.episodes ensures EpisodeOk(db', i, {}) && EpisodeStep(db, db', i) {
      if i != id {
        assert EpisodeOk(grown, i, {});
      }
    }
    hide EpisodeOk, EpisodeStep;
  }

  lemma Unchanged(a: Db, b: Db)
    requires a.drawn == b.drawn && a.admitted == b.admitted
    ensures HistoryGrows(a, b)
  {
  }

  lemma Same(a: Db, b: Db, c: Db)
    requires HistoryGrows(a, b) && b.drawn == c.drawn && b.admitted == c.admitted
    ensures HistoryGrows(a, c)
  {
  }

  lemma OpensKey(episodes: map<Id, Episode>, id: Id, e: Episode)
    requires OneOpenPerKey(episodes) && id !in episodes && !HasOpen(episodes, e.sourceKey)
    ensures OneOpenPerKey(episodes[id := e])
  {
    forall j | j in episodes && episodes[j].open ensures episodes[j].sourceKey != e.sourceKey {
      assert !IsOpen(episodes, e.sourceKey, j);
    }
  }

  lemma WrittenOk(db: Db, c: Condition, now: int, id: Id, draw: Draw)
    requires DbOk(db, {}) && Target(db, c, id, draw)
    ensures var db' := Written(db, c, now, id, draw); DbOk(db', {}) && Evolves(db, db')
  {
    hide DbOk, Evolves, Written;
    if id in db.episodes {
      WrittenContinuing(db, c, now, id, draw);
    } else {
      WrittenNew(db, c, now, id, draw);
    }
  }

  // ---- The whole evaluation ----

  lemma CancelledAt(episodes: map<Id, Episode>, id: Id, reason: string, now: int)
    requires id in episodes
    ensures var episodes' := CancelIntent(episodes, Some(id), reason, now);
      id in episodes' && episodes'[id] == episodes[id].(intent := episodes'[id].intent)
  {
  }

  lemma CancelledOk(db: Db, c: Condition, now: int, id: Id, draw: Draw)
    requires DbOk(db, {}) && Target(db, c, id, draw)
    ensures var db' := Cancelled(db, c, now, id, draw);
      && DbOk(db', {}) && Evolves(db, db') && db'.admitted == db.admitted && draw.row !in db'.drawn
      && id in db'.episodes && db'.episodes[id] ==
           NextEpisode(db, c, now, id, draw.revision).(intent := db'.episodes[id].intent)
  {
    hide DbOk, Evolves, NextEpisode, Transition, IsOpen, HasOpen, PendingIntent, CancelIntent;
    WrittenOk(db, c, now, id, draw);
    var written := Written(db, c, now, id, draw);
    var reason := if written.episodes[id].open then "superseded" else "condition_resolved";
    CancelledAt(written.episodes, id, reason, now);
    CancelOk(written, Some(id), reason, now, {});
    EvolvesTransitive(db, written, written.(episodes := CancelIntent(written.episodes, Some(id), reason, now)), {});
  }

  /** At most one notification is enqueued, and only for a revision that was never admitted. */
  lemma NotifiedOk(db: Db, c: Condition, now: int, id: Id, draw: Draw)
    requires DbOk(db, {}) && Target(db, c, id, draw)
    ensures var db' := Notified(db, c, now, id, draw);
      && DbOk(db', {}) && Evolves(db, db')
      && (!NextEpisode(db, c, now, id, draw.revision).open ==> draw.row !in db'.drawn)
  {
    CancelledOk(db, c, now, id, draw);
    NextFacts(db, c, now, id, draw);
    NotifyFacts(db, c, now, id, draw);
    hide DbOk, Evolves, NextEpisode, Transition, Target, Announces, ResumesTransfer, Written, Enqueue;
    var cancelled := Cancelled(db, c, now, id, draw);
    assert Notified(db, c, now, id, draw) == (
      if Announces(db, c, now, id, draw) || ResumesTransfer(db, c, now, id)
      then Enqueue(cancelled, id, cancelled.episodes[id].revision, now, draw.row) else cancelled) by {
      NotifiedUnfolds(db, c, now, id, draw);
    }
    if Announces(db, c, now, id, draw) || ResumesTransfer(db, c, now, id) {
      EnqueueOk(cancelled, id, now, draw.row);
      EvolvesTransitive(db, cancelled, Enqueue(cancelled, id, cancelled.episodes[id].revision, now, draw.row), {});
    }
  }

  lemma NotifyFacts(db: Db, c: Condition, now: int, id: Id, draw: Draw)
    requires DbOk(db, {}) && Target(db, c, id, draw)
    ensures var e := NextEpisode(db, c, now, id, draw.revision);
      && !(Announces(db, c, now, id, draw) && ResumesTransfer(db, c, now, id))
      && (Announces(db, c, now, id, draw) ==> !Marked(e) && e.open)
      && (ResumesTransfer(db, c, now, id) ==> !Marked(e) && e.open && (id, e.revision) !in db.admitted)
  {
    if id in db.episodes {
      assert EpisodeOk(db, id, {});
    }
    hide OneOpenPerKey, RowsOk, EpisodesOk, Correlated;
  }

  lemma NotifiedUnfolds(db: Db, c: Condition, now: int, id: Id, draw: Draw)
    requires !(Announces(db, c, now, id, draw) && ResumesTransfer(db, c, now, id))
    requires id in Cancelled(db, c, now, id, draw).episodes
    requires Cancelled(db, c, now, id, draw).episodes[id].revision ==
      NextEpisode(db, c, now, id, draw.revision).revision
    ensures var cancelled := Cancelled(db, c, now, id, draw);
      Notified(db, c, now, id, draw) ==
        if Announces(db, c, now, id, draw) || ResumesTransfer(db, c, now, id)
        then Enqueue(cancelled, id, cancelled.episodes[id].revision, now, draw.row) else cancelled
  {
    hide NextEpisode, Transition, Announces, ResumesTransfer, Enqueue, CancelIntent;
  }

  lemma ClosedOk(db: Db, id: Id, now: int)
    requires DbOk(db, {})
    ensures DbOk(Closed(db, id, now), {}) && Evolves(db, Closed(db, id, now)) && Closed(db, id, now).drawn == db.drawn
  {
    hide DbOk, Evolves, CancelIntent, Mark;
    CancelOk(db, Some(id), "condition_resolved", now, {});
    var cancelled := db.(episodes := CancelIntent(db.episodes, Some(id), "condition_resolved", now));
    MarkOk(cancelled, Queued, Some(id), None, Suppressed, "condition_resolved", now, {});
    EvolvesTransitive(db, cancelled, Closed(db, id, now), {});
  }

  lemma HeirFacts(db: Db, c: Condition, id: Id)
    requires DbOk(db, {}) && Heirs(db.episodes, c.node, id) != map[]
    ensures var other := First(Heirs(db.episodes, c.node, id));
      && other in db.episodes
      && (other, db.episodes[other].revision) !in db.admitted && !Waiting(db.episodes[other])
      && db.episodes[other].revision in db.drawn
      && (db.episodes[other].intent.Some? ==> db.episodes[other].intent.value.revision in db.drawn)
      && (db.episodes[other].marks.pending.Some? ==> StartsWith(db.episodes[other].sourceKey, DEVICE_PRESENCE))
  {
    var other := First(Heirs(db.episodes, c.node, id));
    assert other in Heirs(db.episodes, c.node, id);
    assert EpisodeOk(db, other, {});
  }

  /** Handing an undelivered notification to the correlated concern. */
  lemma PassOnOk(db: Db, c: Condition, id: Id, now: int, row: Id)
    requires DbOk(db, {}) && row !in db.drawn
    ensures DbOk(PassOn(db, c, id, now, row), {}) && Evolves(db, PassOn(db, c, id, now, row))
  {
    var heirs := Heirs(db.episodes, c.node, id);
    if heirs == map[] {
      EvolvesItself(db);
    } else {
      HeirFacts(db, c, id);
      hide DbOk, Evolves, StartsWith, Heirs, Enqueue;
      var other := First(heirs);
      var e := db.episodes[other];
      if StartsWith(e.sourceKey, DEVICE_PRESENCE) {
        PutEpisodeOk(db, other, e.(updatedAt := now,
          marks := e.marks.(pending := Some(Transfer(id, db.settings.revision, now, e.facts.epoch)))), {});
      } else {
        EnqueueExempt(db, other, now, row);
        var queued := Enqueue(db, other, e.revision, now, row);
        Inherit(queued, other, id, now);
        EvolvesTransitive(db, queued, PassOn(db, c, id, now, row), {});
      }
    }
  }

  lemma InheritedSettled(queued: Db, other: Id, id: Id, now: int)
    requires other in queued.episodes && queued.episodes[other].marks.pending.None?
    requires Waiting(queued.episodes[other]) ==> (other, queued.episodes[other].revision) !in queued.admitted
    ensures var e := queued.episodes[other];
      Settled(queued.(episodes := queued.episodes[other := e.(updatedAt := now,
        marks := e.marks.(correlation := None, from := Some(id)))]), other)
  {
  }

  lemma Inherit(queued: Db, other: Id, id: Id, now: int)
    requires DbOk(queued, {other}) && other in queued.episodes && queued.episodes[other].marks.pending.None?
    requires Waiting(queued.episodes[other]) ==> (other, queued.episodes[other].revision) !in queued.admitted
    ensures var e := queued.episodes[other];
      var db' := queued.(episodes := queued.episodes[other := e.(updatedAt := now,
        marks := e.marks.(correlation := None, from := Some(id)))]);
      DbOk(db', {}) && Evolves(queued, db')
  {
    assert EpisodeOk(queued, other, {other});
    InheritedSettled(queued, other, id, now);
    hide DbOk, Evolves, StartsWith, Settled, EpisodeOk;
    var e := queued.episodes[other];
    var e' := e.(updatedAt := now, marks := e.marks.(correlation := None, from := Some(id)));
    PutEpisodeOk(queued, other, e', {other});
    NoLongerExempt(queued.(episodes := queued.episodes[other := e']), other);
  }

  lemma ApplyOk(db: Db, c: Condition, now: int, id: Id, draw: Draw)
    requires DbOk(db, {}) && Target(db, c, id, draw)
    ensures DbOk(Apply(db, c, now, id, draw), {}) && Evolves(db, Apply(db, c, now, id, draw))
  {
    hide DbOk, Evolves, NextEpisode, Target, Notified, Closed, PassOn;
    NotifiedOk(db, c, now, id, draw);
    var notified := Notified(db, c, now, id, draw);
    if !NextEpisode(db, c, now, id, draw.revision).open {
      ClosedOk(notified, id, now);
      var closed := Closed(notified, id, now);
      EvolvesTransitive(db, notified, closed, {});
      PassOnOk(closed, c, id, now, draw.row);
      EvolvesTransitive(db, closed, PassOn(closed, c, id, now, draw.row), {});
    }
  }

  ghost predicate DrawOk(draw: Draw, drawn: set<Id>) {
    && draw.episode !in drawn && draw.revision !in drawn && draw.row !in drawn
    && draw.episode != draw.revision && draw.episode != draw.row && draw.revision != draw.row
  }

  /** Every evaluated condition keeps the invariant. */
  lemma ObserveConditionOk(db: Db, c: Condition, now: int, draw: Draw)
    requires DbOk(db, {}) && DrawOk(draw, db.drawn)
    ensures DbOk(ObserveCondition(db, c, now, draw), {}) && Evolves(db, ObserveCondition(db, c, now, draw))
  {
    var db' := ObserveCondition(db, c, now, draw);
    if c.oversized {
      EvolvesItself(db);
    } else if HasOpen(db.episodes, c.key) {
      var id :| IsOpen(db.episodes, c.key, id) && db' == Apply(db, c, now, id, draw);
      assert EpisodeOk(db, id, {});
      hide DbOk, Evolves, Apply;
      ApplyOk(db, c, now, id, draw);
    } else if !c.status.ConditionOpen? {
      EvolvesItself(db);
    } else if |db.episodes| >= MAX_EPISODES {
      SettingsOk(db, db.settings.(admissionLimited := true), {});
    } else {
      ApplyOk(db, c, now, draw.episode, draw);
    }
  }

  lemma AcknowledgeOk(db: Db, id: Id, revision: Id, now: int, next: Id)
    requires DbOk(db, {}) && next !in db.drawn
    ensures DbOk(Acknowledge(db, id, revision, now, next), {}) && Evolves(db, Acknowledge(db, id, revision, now, next))
  {
    if !Acknowledgeable(db, id, revision) {
      EvolvesItself(db);
    } else {
      assert EpisodeOk(db, id, {});
      RowsAndEpisodes(db, {});
      DrawnGrows(db, db.drawn + {next}, {});
      hide DbOk, Evolves, StartsWith, RowsOk, EpisodesOk;
      var grown := db.(drawn := db.drawn + {next});
      var e := db.episodes[id].(acked := true, revision := next, updatedAt := now);
      PutEpisodeOk(grown, id, e, {});
      var acked := grown.(episodes := grown.episodes[id := e]);
      EvolvesTransitive(db, grown, acked, {});
      hide PendingIntent;
      CancelOk(acked, Some(id), "acknowledged", now, {});
      var cancelled := acked.(episodes := CancelIntent(acked.episodes, Some(id), "acknowledged", now));
      EvolvesTransitive(db, acked, cancelled, {});
      MarkOk(cancelled, Queued, Some(id), None, Suppressed, "acknowledged", now, {});
      EvolvesTransitive(db, cancelled, Acknowledge(db, id, revision, now, next), {});
    }
  }

  lemma ConfigureOk(db: Db, r: Request, now: int, revision: Id)
    requires DbOk(db, {}) && revision !in db.drawn
    ensures DbOk(Configure(db, r, now, revision), {}) && Evolves(db, Configure(db, r, now, revision))
  {
    if !Configurable(db.settings, r) {
      EvolvesItself(db);
    } else {
      DrawnGrows(db, db.drawn + {revision}, {});
      hide DbOk, Evolves, Mark, CancelIntent, E164;
      var grown := db.(drawn := db.drawn + {revision});
      var db' := Configure(db, r, now, revision);
      SettingsOk(grown, db'.settings, {});
      var set' := grown.(settings := db'.settings);
      EvolvesTransitive(db, grown, set', {});
      MarkOk(set', Queued, None, None, Suppressed, "configuration_changed", now, {});
      var marked := set'.(outbox := db'.outbox);
      EvolvesTransitive(db, set', marked, {});
      CancelOk(marked, None, "configuration_changed", now, {});
      EvolvesTransitive(db, marked, db', {});
    }
  }

  lemma PrunedRows(db: Db, now: int)
    requires RowsOk(db)
    ensures var db' := Pruned(db, now);
      && RowsOk(db') && RowsStep(db, db') && NewRows(db, db')
      && |db'.outbox| <= |db.outbox| && |db'.episodes| <= |db.episodes|
  {
    var db' := Pruned(db, now);
    assert db'.outbox.Keys <= db.outbox.Keys && db'.episodes.Keys <= db.episodes.Keys;
    Graph.SubsetSize(db'.outbox.Keys, db.outbox.Keys);
    Graph.SubsetSize(db'.episodes.Keys, db.episodes.Keys);
    assert |db'.outbox| == |db'.outbox.Keys| && |db'.episodes| == |db'.episodes.Keys|;
    forall i | i in db'.outbox ensures RowOk(db', i) {
      assert RowOk(db, i);
    }
  }

  lemma PrunedEpisodes(db: Db, now: int)
    requires EpisodesOk(db, {}) && OneOpenPerKey(db.episodes)
    ensures var db' := Pruned(db, now);
      EpisodesOk(db', {}) && EpisodesStep(db, db') && OneOpenPerKey(db'.episodes)
  {
    var db' := Pruned(db, now);
    SameOpenEpisodes(db.episodes, db'.episodes);
    hide OneOpenPerKey, StartsWith;
    forall i | i in db'.episodes ensures EpisodeOk(db', i, {}) && EpisodeStep(db, db', i) {
      assert EpisodeOk(db, i, {});
    }
  }

  lemma PrunedOk(db: Db, now: int)
    requires DbOk(db, {})
    ensures DbOk(Pruned(db, now), {}) && Evolves(db, Pruned(db, now))
  {
    hide OneOpenPerKey, RowsOk, EpisodesOk, RowsStep, NewRows, EpisodesStep;
    PrunedRows(db, now);
    PrunedEpisodes(db, now);
    hide Disposable;
  }

  lemma RetainOk(db: Db, now: int, uuids: seq<Id>)
    requires DbOk(db, {}) && Supply(uuids, db.drawn) && |uuids| >= |Selected(Pruned(db, now))|
    ensures DbOk(Retain(db, now, uuids), {}) && Evolves(db, Retain(db, now, uuids))
  {
    PrunedOk(db, now);
    assert Pruned(db, now).drawn == db.drawn;
    hide DbOk, Evolves, Pruned, RetryPending, Selected;
    RetryPendingOk(Pruned(db, now), now, uuids);
    EvolvesTransitive(db, Pruned(db, now), Retain(db, now, uuids), {});
  }

  lemma ForgetOk(db: Db, observed: set<string>, now: int)
    requires DbOk(db, {})
    ensures DbOk(Forget(db, observed, now), {}) && Evolves(db, Forget(db, observed, now))
  {
    var episodes := Forget(db, observed, now).episodes;
    RowsAndEpisodes(db, {});
    hide OneOpenPerKey, RowsOk, DbOk, Evolves, StartsWith;
    assert episodes.Keys == db.episodes.Keys;
    assert Forget(db, observed, now) == db.(episodes := episodes);
    hide EpisodeOk;
    forall id | id in episodes
      ensures EpisodeOk(db.(episodes := episodes), id, {})
        && episodes[id].sourceKey == db.episodes[id].sourceKey && episodes[id].open == db.episodes[id].open
    {
      ForgottenEpisode(db, observed, now, id);
    }
    hide Forget;
    EpisodesReplaced(db, episodes, {});
  }

  lemma ForgottenEpisode(db: Db, observed: set<string>, now: int, id: Id)
    requires EpisodesOk(db, {}) && id in db.episodes
    ensures var episodes := Forget(db, observed, now).episodes;
      && id in episodes && EpisodeOk(db.(episodes := episodes), id, {})
      && episodes[id].sourceKey == db.episodes[id].sourceKey && episodes[id].open == db.episodes[id].open
  {
    assert EpisodeOk(db, id, {});
    hide EpisodesOk, StartsWith;
  }
}
