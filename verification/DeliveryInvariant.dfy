/**
 What every committed transaction on the outbox and the episodes keeps, and how the tables may
 change from one transaction to the next.
 */
module DeliveryInvariant {
  import opened Wrappers
  import opened Outbox
  import opened Attention

  /** Another episode speaks for this one, for now. */
  predicate Marked(e: Episode) {
    e.marks.correlation.Some? || e.marks.pending.Some?
  }

  /** An intent waits for room to admit the current revision. */
  predicate Waiting(e: Episode) {
    PendingIntent(e) && e.intent.value.revision == e.revision
  }

  /** A notification of the current revision is still to be admitted. */
  predicate Owed(e: Episode) {
    Marked(e) || Waiting(e)
  }

  /** What is owed was never admitted, and it is owed for one reason only. */
  ghost predicate Settled(db: Db, id: Id)
    requires id in db.episodes
  {
    var e := db.episodes[id];
    (Owed(e) ==> (id, e.revision) !in db.admitted) && !(Marked(e) && Waiting(e))
  }

  ghost predicate RowOk(db: Db, id: Id)
    requires id in db.outbox
  {
    var r := db.outbox[id];
    && id in db.drawn && r.episode in db.episodes && r.settingsRevision in db.drawn
    && (r.episode, r.revision) in db.admitted && db.admitted[(r.episode, r.revision)] == id
    && r.attempts <= MAX_ATTEMPTS
    && (r.state.Queued? ==> r.attempts < MAX_ATTEMPTS)
    && (r.state.Sending? ==> r.attempts >= 1)
    && (r.state.Accepted? ==> r.sid.Some? && MessageSid(r.sid.value))
  }

  ghost predicate EpisodeOk(db: Db, id: Id, but: set<Id>)
    requires id in db.episodes
  {
    var e := db.episodes[id];
    && id in db.drawn && e.revision in db.drawn
    && (e.marks.pending.Some? ==> StartsWith(e.sourceKey, DEVICE_PRESENCE))
    && (e.intent.Some? ==> e.intent.value.revision in db.drawn)
    && (id !in but ==> Settled(db, id))
  }

  ghost predicate RowsOk(db: Db) {
    forall id :: id in db.outbox ==> RowOk(db, id)
  }

  ghost predicate EpisodesOk(db: Db, but: set<Id>) {
    forall id :: id in db.episodes ==> EpisodeOk(db, id, but)
  }

  ghost predicate HistoryOk(db: Db) {
    && db.settings.revision in db.drawn
    && forall k :: k in db.admitted ==> k.0 in db.drawn && k.1 in db.drawn && db.admitted[k] in db.drawn
  }

  /** The invariant; the episodes in `but` may still owe a notification already admitted. */
  ghost predicate DbOk(db: Db, but: set<Id>) {
    && |db.outbox| <= MAX_OUTBOX && |db.episodes| <= MAX_EPISODES
    && OneOpenPerKey(db.episodes)
    && RowsOk(db) && EpisodesOk(db, but) && HistoryOk(db)
  }

  /** How tables may change outside the worker's own claim and record. */
  ghost predicate RowStep(db: Db, db': Db, id: Id)
    requires id in db.outbox
  {
    var r := db.outbox[id];
    if id in db'.outbox then
      var r' := db'.outbox[id];
      && r'.episode == r.episode && r'.revision == r.revision && r'.attempts == r.attempts && r'.sid == r.sid
      && r'.nextAttempt == r.nextAttempt && r'.createdAt == r.createdAt
      && (r.state.Sending? || r.state.Accepted? ==> r' == r)
      && (r'.state == r.state || (r.state.Queued? && r'.state.Suppressed?))
    else !r.state.Sending? && !r.state.Accepted?
  }

  ghost predicate EpisodeStep(db: Db, db': Db, id: Id)
    requires id in db'.episodes
  {
    if id in db.episodes then
      && db'.episodes[id].sourceKey == db.episodes[id].sourceKey
      && (!db.episodes[id].open ==> !db'.episodes[id].open)
    else id !in db.drawn
  }

  ghost predicate RowsStep(db: Db, db': Db) {
    forall id :: id in db.outbox ==> RowStep(db, db', id)
  }

  ghost predicate RowOrigin(db: Db, db': Db, id: Id)
    requires id in db'.outbox
  {
    id !in db.outbox ==>
      id !in db.drawn && db'.outbox[id].attempts == 0
      && (db'.outbox[id].state.Queued? || db'.outbox[id].state.Suppressed?)
  }

  ghost predicate NewRows(db: Db, db': Db) {
    forall id :: id in db'.outbox ==> RowOrigin(db, db', id)
  }

  ghost predicate EpisodesStep(db: Db, db': Db) {
    forall id :: id in db'.episodes ==> EpisodeStep(db, db', id)
  }

  ghost predicate HistoryGrows(db: Db, db': Db) {
    && db.drawn <= db'.drawn
    && forall k :: k in db.admitted ==> k in db'.admitted && db'.admitted[k] == db.admitted[k]
  }

  /** Claimed and accepted rows stay as they are, a finished row is never queued again, identities
      are never reused, and a resolved episode never reopens. */
  ghost predicate Evolves(db: Db, db': Db) {
    && HistoryGrows(db, db') && RowsStep(db, db') && NewRows(db, db') && EpisodesStep(db, db')
    && db'.settings.lastSendClaim == db.settings.lastSendClaim
  }

  lemma EvolvesTransitive(a: Db, b: Db, c: Db, but: set<Id>)
    requires DbOk(a, but) && Evolves(a, b) && Evolves(b, c)
    ensures Evolves(a, c)
  {
    hide DbOk, OneOpenPerKey, HistoryOk;
    assert RowsOk(a) && EpisodesOk(a, but) by { RowsAndEpisodes(a, but); }
    forall id | id in a.outbox ensures RowStep(a, c, id) {
      assert RowStep(a, b, id) && RowOk(a, id);
      assert id in b.outbox ==> RowStep(b, c, id);
      assert id in c.outbox ==> RowOrigin(b, c, id);
    }
    forall id | id in c.outbox ensures RowOrigin(a, c, id) {
      assert RowOrigin(b, c, id);
      if id in b.outbox {
        assert RowStep(b, c, id) && RowOrigin(a, b, id);
      }
    }
    forall id | id in c.episodes ensures EpisodeStep(a, c, id) {
      assert EpisodeStep(b, c, id);
      assert id in b.episodes ==> EpisodeStep(a, b, id);
      assert id in a.episodes ==> EpisodeOk(a, id, but);
    }
  }

  lemma RowsAndEpisodes(db: Db, but: set<Id>)
    requires DbOk(db, but)
    ensures RowsOk(db) && EpisodesOk(db, but) && HistoryOk(db)
  {
  }

  lemma EvolvesItself(db: Db)
    ensures Evolves(db, db)
  {
  }

  // ---- The small table operations ----

  lemma EpisodesUntouched(db: Db, outbox: map<Id, Row>, but: set<Id>)
    requires EpisodesOk(db, but)
    ensures EpisodesOk(db.(outbox := outbox), but) && EpisodesStep(db, db.(outbox := outbox))
  {
    forall i | i in db.episodes ensures EpisodeOk(db.(outbox := outbox), i, but) {
      assert EpisodeOk(db, i, but);
    }
  }

  /** Rewriting or removing rows: what is unfinished may only move forward. */
  lemma RowsReplaced(db: Db, outbox: map<Id, Row>, but: set<Id>)
    requires DbOk(db, but) && outbox.Keys <= db.outbox.Keys && |outbox| <= |db.outbox|
    requires RowsOk(db.(outbox := outbox)) && RowsStep(db, db.(outbox := outbox))
    ensures var db' := db.(outbox := outbox); DbOk(db', but) && Evolves(db, db')
  {
    EpisodesUntouched(db, outbox, but);
    hide OneOpenPerKey, RowsOk, RowsStep, EpisodesOk, EpisodesStep;
  }

  lemma MarkOk(db: Db, from: RowState, episode: Option<Id>, before: Option<int>, to: RowState, reason: string,
          now: int, but: set<Id>)
    requires DbOk(db, but) && from.Queued? && to.Suppressed?
    ensures var db' := db.(outbox := Mark(db.outbox, from, episode, before, to, reason, now));
      DbOk(db', but) && Evolves(db, db')
  {
    var outbox := Mark(db.outbox, from, episode, before, to, reason, now);
    RowsAndEpisodes(db, but);
    assert outbox.Keys == db.outbox.Keys;
    hide OneOpenPerKey, EpisodesOk, HistoryOk, DbOk, Evolves;
    hide RowOk, RowStep;
    forall id | id in outbox ensures RowOk(db.(outbox := outbox), id) && RowStep(db, db.(outbox := outbox), id) {
      MarkedRow(db, from, episode, before, to, reason, now, id);
    }
    hide Mark;
    RowsReplaced(db, outbox, but);
  }

  lemma MarkedRow(db: Db, from: RowState, episode: Option<Id>, before: Option<int>, to: RowState, reason: string,
          now: int, id: Id)
    requires RowsOk(db) && id in db.outbox && from.Queued? && to.Suppressed?
    ensures var db' := db.(outbox := Mark(db.outbox, from, episode, before, to, reason, now));
      id in db'.outbox && RowOk(db', id) && RowStep(db, db', id)
  {
    assert RowOk(db, id);
    hide RowsOk, MessageSid;
  }

  lemma SameOpenEpisodes(a: map<Id, Episode>, b: map<Id, Episode>)
    requires OneOpenPerKey(a)
    requires forall id :: id in b && b[id].open ==> id in a && a[id].open && a[id].sourceKey == b[id].sourceKey
    ensures OneOpenPerKey(b)
  {
  }

  lemma RowsUntouched(db: Db, episodes: map<Id, Episode>)
    requires RowsOk(db) && db.episodes.Keys <= episodes.Keys
    ensures var db' := db.(episodes := episodes); RowsOk(db') && RowsStep(db, db') && NewRows(db, db')
  {
    forall i | i in db.outbox ensures RowOk(db.(episodes := episodes), i) {
      assert RowOk(db, i);
    }
  }

  /** Rewriting episode rows in place: identity and openness may only move forward. */
  lemma EpisodesReplaced(db: Db, episodes: map<Id, Episode>, but: set<Id>)
    requires DbOk(db, but) && episodes.Keys == db.episodes.Keys
    requires forall id :: id in episodes ==>
      && EpisodeOk(db.(episodes := episodes), id, but)
      && episodes[id].sourceKey == db.episodes[id].sourceKey
      && (episodes[id].open ==> db.episodes[id].open)
    ensures var db' := db.(episodes := episodes); DbOk(db', but) && Evolves(db, db')
  {
    SameOpenEpisodes(db.episodes, episodes);
    RowsUntouched(db, episodes);
    hide OneOpenPerKey, RowsOk, RowsStep, NewRows, EpisodeOk, HistoryOk;
    assert |episodes.Keys| == |db.episodes.Keys|;
    SameHistory(db, episodes);
    hide HistoryGrows;
  }

  lemma SameHistory(db: Db, episodes: map<Id, Episode>)
    ensures HistoryGrows(db, db.(episodes := episodes))
    ensures HistoryOk(db) ==> HistoryOk(db.(episodes := episodes))
  {
  }

  lemma CancelOk(db: Db, which: Option<Id>, reason: string, now: int, but: set<Id>)
    requires DbOk(db, but)
    ensures var db' := db.(episodes := CancelIntent(db.episodes, which, reason, now));
      DbOk(db', but) && Evolves(db, db')
  {
    var episodes := CancelIntent(db.episodes, which, reason, now);
    RowsAndEpisodes(db, but);
    hide OneOpenPerKey, RowsOk, DbOk, Evolves;
    assert episodes.Keys == db.episodes.Keys;
    forall id | id in episodes
      ensures EpisodeOk(db.(episodes := episodes), id, but)
        && episodes[id] == db.episodes[id].(intent := episodes[id].intent)
    {
      CancelledEpisode(db, which, reason, now, id, but);
    }
    hide EpisodeOk, CancelIntent;
    EpisodesReplaced(db, episodes, but);
  }

  lemma CancelledEpisode(db: Db, which: Option<Id>, reason: string, now: int, id: Id, but: set<Id>)
    requires id in db.episodes && EpisodesOk(db, but)
    ensures var episodes := CancelIntent(db.episodes, which, reason, now);
      && id in episodes && EpisodeOk(db.(episodes := episodes), id, but)
      && episodes[id] == db.episodes[id].(intent := episodes[id].intent)
  {
    assert EpisodeOk(db, id, but);
    hide EpisodesOk, StartsWith;
  }

  lemma PutEpisodeOk(db: Db, id: Id, e: Episode, but: set<Id>)
    requires DbOk(db, but) && id in db.episodes
    requires e.sourceKey == db.episodes[id].sourceKey && (e.open ==> db.episodes[id].open)
    requires e.revision in db.drawn && (e.marks.pending.Some? ==> StartsWith(e.sourceKey, DEVICE_PRESENCE))
    requires e.intent.Some? ==> e.intent.value.revision in db.drawn
    requires id !in but ==> Settled(db.(episodes := db.episodes[id := e]), id)
    ensures var db' := db.(episodes := db.episodes[id := e]); DbOk(db', but) && Evolves(db, db')
  {
    var episodes := db.episodes[id := e];
    RowsAndEpisodes(db, but);
    hide OneOpenPerKey, RowsOk, DbOk, Evolves, StartsWith;
    forall i | i in episodes ensures EpisodeOk(db.(episodes := episodes), i, but) {
      assert EpisodeOk(db, i, but);
    }
    EpisodesReplaced(db, episodes, but);
  }

  /** Once it owes nothing, an exempted episode is exempt no longer. */
  lemma NoLongerExempt(db: Db, id: Id)
    requires DbOk(db, {id}) && id in db.episodes && Settled(db, id)
    ensures DbOk(db, {})
  {
    hide OneOpenPerKey, RowsOk, HistoryOk;
    forall i | i in db.episodes ensures EpisodeOk(db, i, {}) {
      assert EpisodeOk(db, i, {id});
    }
  }

  lemma Exempt(db: Db, id: Id)
    requires DbOk(db, {})
    ensures DbOk(db, {id})
  {
    hide OneOpenPerKey, RowsOk, HistoryOk;
    forall i | i in db.episodes ensures EpisodeOk(db, i, {id}) {
      assert EpisodeOk(db, i, {});
    }
  }

  lemma SettingsOk(db: Db, s: Settings, but: set<Id>)
    requires DbOk(db, but) && s.revision in db.drawn && s.lastSendClaim == db.settings.lastSendClaim
    ensures DbOk(db.(settings := s), but) && Evolves(db, db.(settings := s))
  {
    hide OneOpenPerKey;
    var db' := db.(settings := s);
    forall i | i in db'.outbox ensures RowOk(db', i) && RowStep(db, db', i) {
      assert RowOk(db, i);
    }
    forall i | i in db'.episodes ensures EpisodeOk(db', i, but) && EpisodeStep(db, db', i) {
      assert EpisodeOk(db, i, but);
    }
  }

  // ---- Admission ----

  function ActiveIds(outbox: map<Id, Row>): set<Id> {
    set id | id in outbox && Active(outbox[id])
  }

  /** A row finds room exactly while fewer than 1000 rows are unfinished. */
  lemma CapacityIsActiveRows(outbox: map<Id, Row>)
    requires |outbox| <= MAX_OUTBOX
    ensures |MakeRoom(outbox)| >= MAX_OUTBOX <==> |ActiveIds(outbox)| == MAX_OUTBOX
    ensures |ActiveIds(outbox)| <= |outbox|
  {
    assert outbox.Keys == ActiveIds(outbox) + Evictable(outbox).Keys;
    assert |outbox.Keys| == |ActiveIds(outbox)| + |Evictable(outbox).Keys|;
    if |outbox| >= MAX_OUTBOX {
      if Evictable(outbox) != map[] {
        var victim := First(Evictable(outbox));
        assert victim in Evictable(outbox).Keys;
        assert (outbox - {victim}).Keys == outbox.Keys - {victim};
      } else {
        assert Evictable(outbox).Keys == {};
      }
    }
  }

  lemma MakeRoomKeeps(outbox: map<Id, Row>)
    ensures var room := MakeRoom(outbox);
      && |room| <= |outbox|
      && ActiveIds(room) == ActiveIds(outbox)
      && (forall id :: id in room ==> id in outbox && room[id] == outbox[id])
      && (forall id :: id in outbox && id !in room ==> !Active(outbox[id]))
  {
    if |outbox| >= MAX_OUTBOX && Evictable(outbox) != map[] {
      var victim := First(Evictable(outbox));
      assert victim in Evictable(outbox);
      assert (outbox - {victim}).Keys == outbox.Keys - {victim};
    }
  }

  lemma SameRow(db: Db, outbox: map<Id, Row>, id: Id)
    requires RowsOk(db) && id in db.outbox && id in outbox && outbox[id] == db.outbox[id]
    ensures RowOk(db.(outbox := outbox), id)
  {
    assert RowOk(db, id);
    hide RowsOk, MessageSid;
  }

  lemma MakeRoomOk(db: Db, but: set<Id>)
    requires DbOk(db, but)
    ensures var db' := db.(outbox := MakeRoom(db.outbox)); DbOk(db', but) && Evolves(db, db')
  {
    RowsAndEpisodes(db, but);
    MakeRoomKeeps(db.outbox);
    hide MakeRoom, ActiveIds, OneOpenPerKey, EpisodesOk, HistoryOk, DbOk, Evolves;
    var db' := db.(outbox := MakeRoom(db.outbox));
    hide RowOk;
    forall i | i in db'.outbox ensures RowOk(db', i) {
      SameRow(db, db'.outbox, i);
    }
    assert RowsStep(db, db');
    hide RowsStep;
    RowsReplaced(db, MakeRoom(db.outbox), but);
  }

  function Inserted(db: Db, row: Id, r: Row): Db {
    db.(outbox := db.outbox[row := r], drawn := db.drawn + {row},
      admitted := db.admitted[(r.episode, r.revision) := row])
  }

  lemma InsertHistory(db: Db, row: Id, r: Row, but: set<Id>)
    requires HistoryOk(db) && EpisodesOk(db, but) && r.episode in db.episodes && r.revision in db.drawn
    requires (r.episode, r.revision) !in db.admitted
    ensures HistoryOk(Inserted(db, row, r)) && HistoryGrows(db, Inserted(db, row, r))
  {
    assert EpisodeOk(db, r.episode, but);
  }

  lemma InsertRows(db: Db, row: Id, r: Row)
    requires RowsOk(db) && row !in db.drawn && (r.episode, r.revision) !in db.admitted
    requires r.episode in db.episodes && r.settingsRevision in db.drawn
    requires r.attempts == 0 && (r.state.Queued? || r.state.Suppressed?)
    ensures var db' := Inserted(db, row, r);
      RowsOk(db') && RowsStep(db, db') && NewRows(db, db') && db'.outbox.Keys == db.outbox.Keys + {row}
  {
    var db' := Inserted(db, row, r);
    forall i | i in db.outbox ensures RowOk(db', i) && RowStep(db, db', i) {
      assert RowOk(db, i);
    }
  }

  lemma InsertOk(db: Db, row: Id, r: Row, but: set<Id>)
    requires DbOk(db, but) && |db.outbox| < MAX_OUTBOX && row !in db.drawn
    requires r.episode in db.episodes && r.revision in db.drawn && r.settingsRevision in db.drawn
    requires r.attempts == 0 && (r.state.Queued? || r.state.Suppressed?)
    requires (r.episode, r.revision) !in db.admitted
    ensures DbOk(Inserted(db, row, r), but + {r.episode}) && Evolves(db, Inserted(db, row, r))
  {
    var db' := Inserted(db, row, r);
    RowsAndEpisodes(db, but);
    hide OneOpenPerKey, RowsOk, RowsStep, NewRows, HistoryOk, HistoryGrows, EpisodesOk, EpisodesStep;
    InsertHistory(db, row, r, but);
    InsertRows(db, row, r);
    InsertEpisodes(db, row, r, but);
    assert |db'.outbox.Keys| <= |db.outbox.Keys| + 1;
  }

  /** The episode of the new row may now owe what was just admitted. */
  lemma InsertEpisodes(db: Db, row: Id, r: Row, but: set<Id>)
    requires EpisodesOk(db, but)
    ensures EpisodesOk(Inserted(db, row, r), but + {r.episode}) && EpisodesStep(db, Inserted(db, row, r))
  {
    var db' := Inserted(db, row, r);
    forall i | i in db'.episodes ensures EpisodeOk(db', i, but + {r.episode}) {
      assert EpisodeOk(db, i, but);
    }
    hide EpisodeOk;
  }

  lemma NotAdmittedNoRow(db: Db, episode: Id, revision: Id, but: set<Id>)
    requires DbOk(db, but) && (episode, revision) !in db.admitted
    ensures !HasRow(db.outbox, episode, revision)
  {
    forall id | id in db.outbox ensures !(db.outbox[id].episode == episode && db.outbox[id].revision == revision) {
      assert RowOk(db, id);
    }
  }

  /** Setting or clearing an intent of an exempt episode. */
  lemma SetIntentOk(db: Db, episode: Id, intent: Option<Intent>)
    requires DbOk(db, {episode}) && episode in db.episodes && (intent.Some? ==> intent.value.revision in db.drawn)
    ensures DbOk(SetIntent(db, episode, intent), {episode}) && Evolves(db, SetIntent(db, episode, intent))
  {
    assert EpisodeOk(db, episode, {episode});
    PutEpisodeOk(db, episode, db.episodes[episode].(intent := intent), {episode});
  }

  ghost function Admitting(db: Db, r: Row, row: Id): Admission {
    Admission(SetIntent(Inserted(db.(outbox := MakeRoom(db.outbox)), row, r), r.episode, None), true)
  }

  ghost function Deferring(db: Db, episode: Id, intent: Intent, enabled: bool): Admission {
    var kept := SetIntent(db.(outbox := MakeRoom(db.outbox)), episode, Some(intent));
    Admission(kept.(settings := if enabled then kept.settings.(admissionLimited := true) else kept.settings), false)
  }

  lemma AdmitsOk(db: Db, episode: Id, r: Row, row: Id)
    requires DbOk(db, {}) && episode == r.episode && row !in db.drawn && |MakeRoom(db.outbox)| < MAX_OUTBOX
    requires r.episode in db.episodes && r.revision in db.drawn && r.settingsRevision in db.drawn
    requires r.attempts == 0 && (r.state.Queued? || r.state.Suppressed?)
    requires (r.episode, r.revision) !in db.admitted
    ensures var a := Admitting(db, r, row); a.admitted && DbOk(a.db, {episode}) && Evolves(db, a.db)
  {
    hide DbOk, Evolves, MakeRoom;
    MakeRoomOk(db, {});
    var room := db.(outbox := MakeRoom(db.outbox));
    InsertOk(room, row, r, {});
    var inserted := Inserted(room, row, r);
    EvolvesTransitive(db, room, inserted, {});
    assert {} + {episode} == {episode};
    SetIntentOk(inserted, episode, None);
    EvolvesTransitive(db, inserted, SetIntent(inserted, episode, None), {});
  }

  lemma DefersOk(db: Db, episode: Id, intent: Intent, enabled: bool)
    requires DbOk(db, {}) && episode in db.episodes && intent.revision in db.drawn
    ensures var a := Deferring(db, episode, intent, enabled);
      !a.admitted && DbOk(a.db, {episode}) && Evolves(db, a.db)
  {
    assert db.settings.revision in db.drawn;
    hide DbOk, Evolves, MakeRoom;
    MakeRoomOk(db, {});
    var room := db.(outbox := MakeRoom(db.outbox));
    Exempt(room, episode);
    SetIntentOk(room, episode, Some(intent));
    var kept := SetIntent(room, episode, Some(intent));
    EvolvesTransitive(db, room, kept, {});
    SettingsOk(kept, kept.settings.(admissionLimited := true), {episode});
    EvolvesTransitive(db, kept, kept.(settings := kept.settings.(admissionLimited := true)), {});
  }

  /** What admission of a never admitted revision does to the tables. */
  ghost predicate Admits(db: Db, a: Admission, episode: Id, r: Row, row: Id, intent: Intent)
    requires episode in db.episodes
  {
    && a.db.episodes.Keys == db.episodes.Keys
    && a.db.settings == db.settings.(admissionLimited := a.db.settings.admissionLimited)
    && (forall id :: id in db.episodes && id != episode ==> a.db.episodes[id] == db.episodes[id])
    && (if a.admitted then
          && a.db.outbox == MakeRoom(db.outbox)[row := r]
          && a.db.episodes[episode] == db.episodes[episode].(intent := None)
          && a.db.drawn == db.drawn + {row}
          && a.db.admitted == db.admitted[(episode, r.revision) := row]
        else
          && a.db.outbox == MakeRoom(db.outbox)
          && a.db.episodes[episode] == db.episodes[episode].(intent := Some(intent))
          && a.db.drawn == db.drawn && a.db.admitted == db.admitted)
  }

  lemma AdmittingAdmits(db: Db, r: Row, row: Id, intent: Intent)
    requires r.episode in db.episodes
    ensures Admits(db, Admitting(db, r, row), r.episode, r, row, intent)
  {
    hide MakeRoom;
  }

  lemma DeferringAdmits(db: Db, r: Row, row: Id, intent: Intent, enabled: bool)
    requires r.episode in db.episodes
    ensures Admits(db, Deferring(db, r.episode, intent, enabled), r.episode, r, row, intent)
  {
    hide MakeRoom;
  }

  lemma RoomForActive(db: Db)
    requires DbOk(db, {})
    ensures |MakeRoom(db.outbox)| < MAX_OUTBOX <==> |ActiveIds(db.outbox)| < MAX_OUTBOX
  {
    CapacityIsActiveRows(db.outbox);
    hide MakeRoom, ActiveIds, OneOpenPerKey;
  }

  lemma NewRowFacts(episode: Id, revision: Id, settingsRevision: Id, enabled: bool, created: int, now: int)
    ensures var r := NewRow(episode, revision, settingsRevision, enabled, created, now);
      && r.episode == episode && r.revision == revision && r.settingsRevision == settingsRevision
      && r.attempts == 0 && (r.state.Queued? || r.state.Suppressed?)
    ensures Deferred(revision, settingsRevision, enabled, created, now).revision == revision
  {
  }

  lemma AdmitCases(db: Db, episode: Id, revision: Id, settingsRevision: Id, enabled: bool, created: int, now: int,
          row: Id)
    requires !HasRow(db.outbox, episode, revision)
    ensures Admit(db, episode, revision, settingsRevision, enabled, created, now, row) ==
      if |MakeRoom(db.outbox)| < MAX_OUTBOX then
        Admitting(db, NewRow(episode, revision, settingsRevision, enabled, created, now), row)
      else Deferring(db, episode, Deferred(revision, settingsRevision, enabled, created, now), enabled)
  {
    hide HasRow, MakeRoom, SetIntent, Deferred;
  }

  /** Admission of a revision that was never admitted before succeeds exactly while fewer than 1000
      rows are unfinished; otherwise it leaves an intent and evicts nothing unfinished. */
  lemma AdmitOk(db: Db, episode: Id, revision: Id, settingsRevision: Id, enabled: bool, created: int, now: int, row: Id)
    requires DbOk(db, {}) && episode in db.episodes && revision in db.drawn && settingsRevision in db.drawn
      && row !in db.drawn
    requires (episode, revision) !in db.admitted
    ensures var a := Admit(db, episode, revision, settingsRevision, enabled, created, now, row);
      && DbOk(a.db, {episode}) && Evolves(db, a.db)
      && (a.admitted <==> |ActiveIds(db.outbox)| < MAX_OUTBOX)
      && Admits(db, a, episode, NewRow(episode, revision, settingsRevision, enabled, created, now), row,
           Deferred(revision, settingsRevision, enabled, created, now))
  {
    var r := NewRow(episode, revision, settingsRevision, enabled, created, now);
    var intent := Deferred(revision, settingsRevision, enabled, created, now);
    RoomForActive(db);
    NewRowFacts(episode, revision, settingsRevision, enabled, created, now);
    hide DbOk, Evolves, MakeRoom, ActiveIds, Admits, NewRow, Deferred;
    NotAdmittedNoRow(db, episode, revision, {});
    hide Admit, HasRow, Admitting, Deferring;
    AdmitCases(db, episode, revision, settingsRevision, enabled, created, now, row);
    if |MakeRoom(db.outbox)| < MAX_OUTBOX {
      AdmitsOk(db, episode, r, row);
      AdmittingAdmits(db, r, row, intent);
    } else {
      DefersOk(db, episode, intent, enabled);
      DeferringAdmits(db, r, row, intent, enabled);
    }
  }
}
