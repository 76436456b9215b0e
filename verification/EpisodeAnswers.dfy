/**
 What one evaluation of a condition leaves behind (server/src/attention.rs:32-185 with
 server/src/notifications.rs:108-179), stated on the condition and the tables it finds.
 */
module EpisodeAnswers {
  import opened Wrappers
  import opened Outbox
  import opened Attention
  import opened DeliveryInvariant

  // ---- The condition ----

  predicate Current(c: Condition) {
    c.observation == "ok" || c.observation == "current"
  }

  /** Only a current observation closes an episode. */
  predicate Recovers(c: Condition) {
    c.status.ConditionResolved? && Current(c)
  }

  /** The USB watch that the condition is about: named by a removed drive, or the absent one itself. */
  predicate AboutWatch(c: Condition, watch: string) {
    if c.kind == "drive_removal" then c.facts.usbWatch == Some(watch)
    else c.facts.rule == "usb_connection_absent" && c.facts.watch == Some(watch)
  }

  /** Another open episode about the same loss of the same connection. */
  predicate Paired(episodes: map<Id, Episode>, c: Condition, id: Id, other: Id, watch: string) {
    && other in episodes && other != id && episodes[other].open && episodes[other].node == c.node
    && c.facts.epoch != "" && episodes[other].facts.epoch == c.facts.epoch && AboutWatch(c, watch)
    && ((episodes[other].kind == "drive_removal" && episodes[other].facts.usbWatch == Some(watch))
        || episodes[other].sourceKey == "device_presence:" + watch)
  }

  ghost predicate HasPair(episodes: map<Id, Episode>, c: Condition, id: Id) {
    exists other, watch :: Paired(episodes, c, id, other, watch)
  }

  /** The pair first seen, or of those the one with the smallest identity. */
  ghost predicate FirstPair(episodes: map<Id, Episode>, c: Condition, id: Id, first: Id) {
    && (exists watch :: Paired(episodes, c, id, first, watch))
    && forall other, watch :: Paired(episodes, c, id, other, watch) ==> SeenFirst(episodes, first, other)
  }

  predicate SeenFirst(episodes: map<Id, Episode>, a: Id, b: Id) {
    && a in episodes && b in episodes
    && (episodes[a].firstSeen < episodes[b].firstSeen
        || (episodes[a].firstSeen == episodes[b].firstSeen && a <= b))
  }

  /** A new concern, or a current observation that changes its severity or closes it. */
  predicate Changed(episodes: map<Id, Episode>, c: Condition, id: Id) {
    id !in episodes || (Current(c) && (episodes[id].severity != c.severity || c.status.ConditionResolved?))
  }

  /** A notification handed over to this episode may go out: asked for under the present settings, for this very
      connection, not more than a day ago, and nobody has acknowledged the concern. */
  predicate MayResume(s: Settings, c: Condition, e: Episode, now: int) {
    && Current(c) && c.status.ConditionOpen? && !e.acked && e.marks.pending.Some?
    && e.marks.pending.value.epoch == c.facts.epoch
    && e.marks.pending.value.createdAt <= now <= e.marks.pending.value.createdAt + 86_400_000
    && s.enabled && s.revision == e.marks.pending.value.settingsRevision
  }

  // ---- The episode written ----

  /** Everything about the episode but its notification. */
  predicate Follows(episodes: map<Id, Episode>, c: Condition, now: int, id: Id, draw: Draw, e: Episode) {
    var known, changed := id in episodes, Changed(episodes, c, id);
    && e.sourceKey == c.key && e.node == c.node && e.observation == c.observation && e.facts == c.facts
    && e.kind == (if known then episodes[id].kind else c.kind)
    && e.severity == (if known && !Current(c) then episodes[id].severity else c.severity)
    && (e.open <==> !Recovers(c)) && e.resolvedAt == (if Recovers(c) then Some(now) else None)
    && e.firstSeen == (if known then episodes[id].firstSeen else now) && e.updatedAt == now
    && e.revision == (if changed then draw.revision else episodes[id].revision)
    && (e.acked <==> !changed && episodes[id].acked)
  }

  /** Which notifications the episode waits for or has taken over. */
  ghost predicate MarksFollow(db: Db, c: Condition, now: int, id: Id, marks: Marks) {
    if Changed(db.episodes, c, id) then
      && marks.pending.None? && marks.from.None?
      && (if Recovers(c) || !HasPair(db.episodes, c, id) then marks.correlation.None?
          else marks.correlation.Some? && FirstPair(db.episodes, c, id, marks.correlation.value))
    else if MayResume(db.settings, c, db.episodes[id], now) then
      marks == Marks(None, None, Some(db.episodes[id].marks.pending.value.episode))
    else marks == db.episodes[id].marks
  }

  lemma WatchIs(c: Condition, watch: string)
    ensures WatchOf(c, c.kind) == Some(watch) <==> AboutWatch(c, watch)
  {
  }

  lemma PairIs(episodes: map<Id, Episode>, c: Condition, id: Id, other: Id)
    ensures other in Correlated(episodes, c, id) <==> exists watch :: Paired(episodes, c, id, other, watch)
    ensures other in Correlated(episodes, c, id) ==>
      other in episodes && Correlated(episodes, c, id)[other] == episodes[other].firstSeen
  {
    if WatchOf(c, c.kind).Some? {
      var watch := WatchOf(c, c.kind).value;
      WatchIs(c, watch);
      assert other in Correlated(episodes, c, id) <==> Paired(episodes, c, id, other, watch);
    }
    forall watch | Paired(episodes, c, id, other, watch) ensures WatchOf(c, c.kind) == Some(watch) {
      WatchIs(c, watch);
    }
  }

  lemma PairsAre(episodes: map<Id, Episode>, c: Condition, id: Id)
    ensures Correlated(episodes, c, id) != map[] <==> HasPair(episodes, c, id)
    ensures Correlated(episodes, c, id) != map[] ==>
      FirstPair(episodes, c, id, First(Correlated(episodes, c, id)))
  {
    forall other
      ensures other in Correlated(episodes, c, id) <==> exists watch :: Paired(episodes, c, id, other, watch)
      ensures other in Correlated(episodes, c, id) ==>
        other in episodes && Correlated(episodes, c, id)[other] == episodes[other].firstSeen
    {
      PairIs(episodes, c, id, other);
    }
    hide Correlated, Paired;
    if Correlated(episodes, c, id) != map[] {
      var other :| other in Correlated(episodes, c, id);
      assert HasPair(episodes, c, id);
    }
  }

  lemma NextFollows(db: Db, c: Condition, now: int, id: Id, draw: Draw)
    ensures Follows(db.episodes, c, now, id, draw, NextEpisode(db, c, now, id, draw.revision))
    ensures MarksFollow(db, c, now, id, NextEpisode(db, c, now, id, draw.revision).marks)
  {
    PairsAre(db.episodes, c, id);
    hide Correlated, HasPair, FirstPair;
    ResumesIs(db.settings, c, now, id, db.episodes);
  }

  lemma ResumesIs(s: Settings, c: Condition, now: int, id: Id, episodes: map<Id, Episode>)
    ensures id in episodes ==>
      (MayResume(s, c, episodes[id], now) <==> Resumes(s, c, episodes[id].acked, episodes[id].marks.pending, now))
  {
  }

  // ---- The notification ----

  predicate Finished(r: Row) {
    r.state.Delivered? || r.state.Failed? || r.state.Uncertain? || r.state.Suppressed?
  }

  /** The finished row created first, or of those the one with the smallest identity. */
  ghost predicate OldestFinished(outbox: map<Id, Row>, id: Id) {
    && id in outbox && Finished(outbox[id])
    && forall other :: other in outbox && Finished(outbox[other]) ==>
         || outbox[id].createdAt < outbox[other].createdAt
         || (outbox[id].createdAt == outbox[other].createdAt && id <= other)
  }

  /** A full outbox gives up its oldest finished row, if it has one. */
  ghost predicate Roomier(outbox: map<Id, Row>, room: map<Id, Row>) {
    if |outbox| < 1000 || forall r :: r in outbox ==> !Finished(outbox[r]) then room == outbox
    else exists gone :: OldestFinished(outbox, gone) && room == outbox - {gone}
  }

  predicate Noted(outbox: map<Id, Row>, episode: Id, revision: Id, r: Id) {
    r in outbox && outbox[r].episode == episode && outbox[r].revision == revision
  }

  /** The row of a notification that is asked for now. */
  function Asked(s: Settings, episode: Id, revision: Id, now: int): Row {
    if s.enabled then Row(episode, revision, Queued, 0, now, now, now, None, None, None, s.revision)
    else Row(episode, revision, Suppressed, 0, now, now, now, None, None, Some("disabled"), s.revision)
  }

  function Waiting(s: Settings, revision: Id, now: int): Intent {
    if s.enabled then Intent(PendingAdmission, revision, s.revision, now, now, "outbox_full")
    else Intent(IntentSuppressed, revision, s.revision, now, now, "disabled")
  }

  /** A transition is notified once: by the row it has already, by a new row, or, while the outbox is full of
      unfinished rows, by an intent. */
  ghost predicate Notifies(db: Db, db': Db, episode: Id, revision: Id, now: int, row: Id)
    requires episode in db.episodes && episode in db'.episodes
  {
    && db'.episodes == db.episodes[episode := db.episodes[episode].(intent := db'.episodes[episode].intent)]
    && if exists r :: Noted(db.outbox, episode, revision, r) then
         && db'.outbox == db.outbox
         && db'.episodes[episode].intent == (if db.episodes[episode].intent.Some?
              && db.episodes[episode].intent.value.revision == revision then None else db.episodes[episode].intent)
       else exists room :: Roomier(db.outbox, room) && Placed(db, db', room, episode, revision, now, row)
  }

  /** The row is queued if there is room for it, and owed otherwise. */
  predicate Placed(db: Db, db': Db, room: map<Id, Row>, episode: Id, revision: Id, now: int, row: Id)
    requires episode in db'.episodes
  {
    if |room| < 1000 then
      db'.outbox == room[row := Asked(db.settings, episode, revision, now)] && db'.episodes[episode].intent.None?
    else db'.outbox == room && db'.episodes[episode].intent == Some(Waiting(db.settings, revision, now))
  }

  lemma RoomierIs(outbox: map<Id, Row>)
    ensures Roomier(outbox, MakeRoom(outbox))
  {
    var finished := Evictable(outbox);
    forall r ensures r in finished <==> r in outbox && Finished(outbox[r]) {
    }
    if |outbox| >= MAX_OUTBOX && finished != map[] {
      var gone := First(finished);
      assert OldestFinished(outbox, gone);
      assert exists r :: r in finished;
    } else if |outbox| >= 1000 {
      assert forall r :: r !in finished;
    }
  }

  lemma EnqueueNotifies(db: Db, episode: Id, revision: Id, now: int, row: Id)
    requires episode in db.episodes
    ensures var db' := Enqueue(db, episode, revision, now, row);
      episode in db'.episodes && Notifies(db, db', episode, revision, now, row)
  {
    NotedIs(db.outbox, episode, revision);
    hide Noted, Roomier, Notifies;
    if HasRow(db.outbox, episode, revision) {
      EnqueueAgain(db, episode, revision, now, row);
    } else {
      EnqueueFirst(db, episode, revision, now, row);
    }
    hide HasRow, Enqueue;
  }

  lemma EnqueueAgain(db: Db, episode: Id, revision: Id, now: int, row: Id)
    requires episode in db.episodes && HasRow(db.outbox, episode, revision)
    requires exists r :: Noted(db.outbox, episode, revision, r)
    ensures var db' := Enqueue(db, episode, revision, now, row);
      episode in db'.episodes && Notifies(db, db', episode, revision, now, row)
  {
    hide HasRow, Noted, Roomier, Placed;
  }

  lemma EnqueueFirst(db: Db, episode: Id, revision: Id, now: int, row: Id)
    requires episode in db.episodes && !HasRow(db.outbox, episode, revision)
    requires !exists r :: Noted(db.outbox, episode, revision, r)
    ensures var db' := Enqueue(db, episode, revision, now, row);
      episode in db'.episodes && Notifies(db, db', episode, revision, now, row)
  {
    RoomierIs(db.outbox);
    hide MakeRoom, Roomier, HasRow, Noted;
    assert Placed(db, Enqueue(db, episode, revision, now, row), MakeRoom(db.outbox), episode, revision, now, row);
  }

  lemma NotedIs(outbox: map<Id, Row>, episode: Id, revision: Id)
    ensures HasRow(outbox, episode, revision) <==> exists r :: Noted(outbox, episode, revision, r)
  {
    if HasRow(outbox, episode, revision) {
      var r :| r in outbox && outbox[r].episode == episode && outbox[r].revision == revision;
      assert Noted(outbox, episode, revision, r);
    }
  }

  // ---- One evaluation ----

  /** This evaluation asks for a notification: of a new or changed concern that is no mere information and is not
      paired with one already open, or of one that takes over a notification. */
  ghost predicate Announced(db: Db, c: Condition, now: int, id: Id) {
    if Changed(db.episodes, c, id) then !Recovers(c) && !HasPair(db.episodes, c, id) && !c.severity.Info?
    else MayResume(db.settings, c, db.episodes[id], now)
  }

  /** An intent for the state before is withdrawn. */
  predicate IntentFollows(db: Db, c: Condition, now: int, id: Id, i: Option<Intent>) {
    if id !in db.episodes then i.None?
    else if Changed(db.episodes, c, id) && PendingIntent(db.episodes[id]) then
      i == Some(db.episodes[id].intent.value.(state := IntentSuppressed, updatedAt := now,
        reason := if Recovers(c) then "condition_resolved" else "superseded"))
    else i == db.episodes[id].intent
  }

  /** The tables once the episode is written. */
  ghost predicate WrittenAs(db: Db, base: Db, c: Condition, now: int, id: Id, draw: Draw) {
    && base.outbox == db.outbox && base.settings == db.settings
    && id in base.episodes && base.episodes == db.episodes[id := base.episodes[id]]
    && Follows(db.episodes, c, now, id, draw, base.episodes[id])
    && MarksFollow(db, c, now, id, base.episodes[id].marks)
    && IntentFollows(db, c, now, id, base.episodes[id].intent)
  }

  lemma CancelOne(episodes: map<Id, Episode>, id: Id, reason: string, now: int)
    requires id in episodes
    ensures CancelIntent(episodes, Some(id), reason, now) ==
      episodes[id := if PendingIntent(episodes[id]) then
        episodes[id].(intent := Some(episodes[id].intent.value.(state := IntentSuppressed, reason := reason,
          updatedAt := now)))
        else episodes[id]]
  {
  }

  lemma CancelledWrites(db: Db, c: Condition, now: int, id: Id, draw: Draw)
    ensures WrittenAs(db, Cancelled(db, c, now, id, draw), c, now, id, draw)
  {
    var e := NextEpisode(db, c, now, id, draw.revision);
    NextFollows(db, c, now, id, draw);
    assert e.intent == if id in db.episodes then db.episodes[id].intent else None;
    hide NextEpisode, MarksFollow, CancelIntent;
    CancelOne(Written(db, c, now, id, draw).episodes, id, if e.open then "superseded" else "condition_resolved", now);
  }

  lemma AnnouncedIs(db: Db, c: Condition, now: int, id: Id, draw: Draw)
    ensures Announced(db, c, now, id) <==> Announces(db, c, now, id, draw) || ResumesTransfer(db, c, now, id)
    ensures !(Announces(db, c, now, id, draw) && ResumesTransfer(db, c, now, id))
  {
    PairsAre(db.episodes, c, id);
    ResumesIs(db.settings, c, now, id, db.episodes);
    NextFollows(db, c, now, id, draw);
    hide NextEpisode, Correlated, HasPair, FirstPair, MarksFollow, Resumes, MayResume;
  }

  /** A concern that stays open: the episode is written, and notified exactly if the evaluation asks for it. */
  lemma OpenExactly(db: Db, c: Condition, now: int, id: Id, draw: Draw) returns (base: Db)
    requires !Recovers(c)
    ensures WrittenAs(db, base, c, now, id, draw)
    ensures var db' := Apply(db, c, now, id, draw);
      if Announced(db, c, now, id) then
        id in db'.episodes && Notifies(base, db', id, base.episodes[id].revision, now, draw.row)
      else db' == base
  {
    base := Cancelled(db, c, now, id, draw);
    CancelledWrites(db, c, now, id, draw);
    AnnouncedIs(db, c, now, id, draw);
    NextFollows(db, c, now, id, draw);
    EnqueueNotifies(base, id, base.episodes[id].revision, now, draw.row);
    SameRevision(db, c, now, id, draw);
    hide NextEpisode, Announced, Announces, ResumesTransfer, Cancelled, WrittenAs, MarksFollow, Enqueue, Notifies;
  }

  lemma SameRevision(db: Db, c: Condition, now: int, id: Id, draw: Draw)
    ensures Cancelled(db, c, now, id, draw).episodes[id].revision ==
      Written(db, c, now, id, draw).episodes[id].revision
  {
    hide NextEpisode;
  }

  // ---- A recovery ----

  /** The tables once nothing about the episode waits any more. */
  ghost predicate ClosedAs(base: Db, closed: Db, id: Id, now: int) {
    && closed == base.(outbox := closed.outbox) && closed.outbox.Keys == base.outbox.Keys
    && forall r :: r in base.outbox ==> RowClosed(base.outbox[r], closed.outbox[r], id, now)
  }

  predicate RowClosed(r: Row, r': Row, id: Id, now: int) {
    if r.state.Queued? && r.episode == id
    then r' == r.(state := Suppressed, reason := Some("condition_resolved"), updatedAt := now)
    else r' == r
  }

  predicate WaitsFor(db: Db, id: Id, r: Id) {
    && r in db.outbox && db.outbox[r].episode == id && db.outbox[r].state.Queued?
    && db.outbox[r].settingsRevision == db.settings.revision
  }

  /** Its notification was still to come: queued, or pending for at most a day, under the present settings. */
  ghost predicate Owed(db: Db, id: Id, now: int)
    requires id in db.episodes
  {
    && db.settings.enabled
    && ((exists r :: WaitsFor(db, id, r))
        || (PendingIntent(db.episodes[id]) && db.episodes[id].intent.value.settingsRevision == db.settings.revision
            && now - 86_400_000 <= db.episodes[id].intent.value.createdAt))
  }

  /** An open, unacknowledged episode of the node that left its notification to this one. */
  predicate Heir(episodes: map<Id, Episode>, node: string, id: Id, o: Id) {
    && o in episodes && episodes[o].node == node && episodes[o].open && !episodes[o].acked
    && episodes[o].marks.correlation == Some(id)
  }

  ghost predicate FirstHeir(episodes: map<Id, Episode>, node: string, id: Id, o: Id) {
    Heir(episodes, node, id, o) && forall x :: Heir(episodes, node, id, x) ==> SeenFirst(episodes, o, x)
  }

  /** A vanished connection waits to be observed again; a removed drive is notified at once. */
  ghost predicate HandsOver(db: Db, db': Db, heir: Id, id: Id, now: int, row: Id)
    requires heir in db.episodes
  {
    var e := db.episodes[heir];
    if "device_presence:" <= e.sourceKey then
      db' == db.(episodes := db.episodes[heir := e.(updatedAt := now,
        marks := e.marks.(pending := Some(Transfer(id, db.settings.revision, now, e.facts.epoch))))])
    else exists mid: Db :: Through(db, mid, db', heir, id, now, row)
  }

  ghost predicate Through(db: Db, mid: Db, db': Db, heir: Id, id: Id, now: int, row: Id)
    requires heir in db.episodes
  {
    && heir in mid.episodes && Notifies(db, mid, heir, db.episodes[heir].revision, now, row)
    && TookOver(mid, db', heir, id, now)
  }

  predicate TookOver(mid: Db, db': Db, heir: Id, id: Id, now: int)
    requires heir in mid.episodes
  {
    db' == mid.(episodes := mid.episodes[heir := mid.episodes[heir].(updatedAt := now,
      marks := mid.episodes[heir].marks.(correlation := None, from := Some(id)))])
  }

  /** What was owed goes to the first heir, if there is one. */
  ghost predicate PassesOn(db: Db, db': Db, node: string, id: Id, now: int, row: Id) {
    if forall o :: !Heir(db.episodes, node, id, o) then db' == db
    else exists heir :: FirstHeir(db.episodes, node, id, heir) && HandsOver(db, db', heir, id, now, row)
  }

  lemma OwedIs(db: Db, id: Id, now: int)
    requires id in db.episodes
    ensures Owed(db, id, now) <==> Undelivered(db, id, now)
  {
    forall r | r in db.outbox && db.outbox[r].episode == id && db.outbox[r].state.Queued?
      && db.outbox[r].settingsRevision == db.settings.revision ensures WaitsFor(db, id, r) {
    }
  }

  lemma HeirsAre(episodes: map<Id, Episode>, node: string, id: Id)
    ensures Heirs(episodes, node, id) == map[] <==> forall o :: !Heir(episodes, node, id, o)
    ensures Heirs(episodes, node, id) != map[] ==> FirstHeir(episodes, node, id, First(Heirs(episodes, node, id)))
  {
    var heirs := Heirs(episodes, node, id);
    forall o ensures o in heirs <==> Heir(episodes, node, id, o) {
    }
    if heirs != map[] {
      var o :| o in heirs;
      assert Heir(episodes, node, id, o);
    }
  }

  lemma PrefixIs(s: string)
    ensures "device_presence:" <= s <==> StartsWith(s, DEVICE_PRESENCE)
  {
  }

  lemma PassOnExactly(db: Db, c: Condition, id: Id, now: int, row: Id)
    ensures PassesOn(db, PassOn(db, c, id, now, row), c.node, id, now, row)
  {
    HeirsAre(db.episodes, c.node, id);
    var heirs := Heirs(db.episodes, c.node, id);
    if heirs != map[] {
      HandedOver(db, c, id, now, row, First(heirs));
    }
    hide Heirs, Heir, FirstHeir, HandsOver;
  }

  lemma HandedOver(db: Db, c: Condition, id: Id, now: int, row: Id, heir: Id)
    requires Heirs(db.episodes, c.node, id) != map[] && heir == First(Heirs(db.episodes, c.node, id))
    ensures heir in db.episodes && HandsOver(db, PassOn(db, c, id, now, row), heir, id, now, row)
  {
    assert heir in Heirs(db.episodes, c.node, id);
    var e := db.episodes[heir];
    PrefixIs(e.sourceKey);
    EnqueueNotifies(db, heir, e.revision, now, row);
    hide Enqueue, Notifies, Heirs, First, IsFirst;
    if !("device_presence:" <= e.sourceKey) {
      assert Through(db, Enqueue(db, heir, e.revision, now, row), PassOn(db, c, id, now, row), heir, id, now, row);
    }
  }

  lemma ClosedExactly(base: Db, id: Id, now: int)
    requires id in base.episodes && !PendingIntent(base.episodes[id])
    ensures ClosedAs(base, Closed(base, id, now), id, now)
  {
    assert CancelIntent(base.episodes, Some(id), "condition_resolved", now) == base.episodes by {
      CancelOne(base.episodes, id, "condition_resolved", now);
    }
  }

  /** A recovery: the episode is closed, nothing about it waits any more, and a notification still owed goes to
      the first concern that had left its own to this one. */
  lemma RecoveryExactly(db: Db, c: Condition, now: int, id: Id, draw: Draw) returns (base: Db, closed: Db)
    requires Recovers(c) && id in db.episodes
    ensures WrittenAs(db, base, c, now, id, draw) && ClosedAs(base, closed, id, now)
    ensures var db' := Apply(db, c, now, id, draw);
      if Owed(db, id, now) then PassesOn(closed, db', c.node, id, now, draw.row) else db' == closed
  {
    base := Cancelled(db, c, now, id, draw);
    closed := Closed(base, id, now);
    CancelledWrites(db, c, now, id, draw);
    AnnouncedIs(db, c, now, id, draw);
    NextFollows(db, c, now, id, draw);
    OwedIs(db, id, now);
    assert !Announced(db, c, now, id);
    assert !PendingIntent(base.episodes[id]);
    ClosedExactly(base, id, now);
    PassOnExactly(closed, c, id, now, draw.row);
    hide NextEpisode, Announced, Announces, ResumesTransfer, Cancelled, WrittenAs, MarksFollow, Undelivered, Owed,
      PassOn, PassesOn, Closed, ClosedAs;
  }

  // ---- Which episode ----

  /** A condition is about the open episode of its key. */
  lemma ObserveOpen(db: Db, c: Condition, now: int, draw: Draw, id: Id)
    requires DbOk(db, {}) && !c.oversized
    requires id in db.episodes && db.episodes[id].open && db.episodes[id].sourceKey == c.key
    ensures ObserveCondition(db, c, now, draw) == Apply(db, c, now, id, draw)
  {
    assert IsOpen(db.episodes, c.key, id);
    hide Apply, RowsOk, EpisodesOk, HistoryOk;
  }

  /** Without one it opens one, if it says open and there is room. */
  lemma ObserveNew(db: Db, c: Condition, now: int, draw: Draw)
    requires forall id :: id in db.episodes && db.episodes[id].sourceKey == c.key ==> !db.episodes[id].open
    ensures ObserveCondition(db, c, now, draw) ==
      if c.oversized || !c.status.ConditionOpen? then db
      else if |db.episodes| < 10_000 then Apply(db, c, now, draw.episode, draw)
      else db.(settings := db.settings.(admissionLimited := true))
  {
    hide Apply;
  }

  // ---- What is deleted and what is forgotten ----

  /** Maintenance keeps unfinished rows, rows changed in the last thirty days, and every episode that is open, was
      resolved in the last thirty days or still has a row. */
  lemma RetentionExactly(db: Db, now: int, id: Id)
    ensures id in Pruned(db, now).outbox <==>
      id in db.outbox && (!Finished(db.outbox[id]) || now - db.outbox[id].updatedAt <= 2_592_000_000)
    ensures id in Pruned(db, now).outbox ==> Pruned(db, now).outbox[id] == db.outbox[id]
    ensures id in Pruned(db, now).episodes <==>
      id in db.episodes && (Recent(db.episodes[id], now) || HasRowsIn(Pruned(db, now).outbox, id))
    ensures id in Pruned(db, now).episodes ==> Pruned(db, now).episodes[id] == db.episodes[id]
  {
  }

  predicate Recent(e: Episode, now: int) {
    e.open || e.resolvedAt.None? || now - e.resolvedAt.value <= 2_592_000_000
  }

  predicate HasRowsIn(outbox: map<Id, Row>, episode: Id) {
    exists r :: r in outbox && outbox[r].episode == episode
  }

  /** A concern whose source was not observed is unknown; removals stay what they were. */
  lemma ForgetExactly(db: Db, observed: set<string>, now: int, id: Id)
    requires id in db.episodes
    ensures var e, e' := db.episodes[id], Forget(db, observed, now).episodes[id];
      if e.open && e.sourceKey !in observed && e.kind != "drive_removal" && !("mount_removal:" <= e.sourceKey)
         && e.observation != "unknown"
      then e' == e.(observation := "unknown", updatedAt := now) else e' == e
  {
  }
}
