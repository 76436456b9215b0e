/**
 A row of an acknowledged episode that a late 429 puts back into the queue (server/src/notifications.rs
 454-518, server/src/attention.rs 76-97 and 244-288): it waits while the acknowledgement stands, and is
 claimed again only after a fresh change of severity, for better or worse, has taken the acknowledgement
 away.
 */
module AcknowledgedRows {
  import opened Wrappers
  import opened Outbox
  import opened Attention
  import opened DeliveryInvariant
  import opened AdmissionRetry
  import opened AttentionInvariant
  import opened DeliveryRuns
  import opened EpisodeRules

  predicate UnackedAt(s: Sys, id: Id) {
    OpenAt(s, id) && !s.db.episodes[id].acked
  }

  /** Event n is a fresh evaluation of episode id with another severity that does not resolve it. */
  ghost predicate ChangesSeverity(run: seq<Event>, n: nat, id: Id)
    requires n < |run|
  {
    Reassesses(At(run, n), run[n], id)
  }

  ghost predicate Reassesses(s: Sys, e: Event, id: Id) {
    && id in s.db.episodes && e.Evaluate? && Enabled(s, e)
    && var c, e := e.c, s.db.episodes[id];
       c.key == e.sourceKey && !c.oversized && Fresh(c) && c.severity != e.severity && !c.status.ConditionResolved?
  }

  // ---- One evaluation ----

  lemma NextAcked(db: Db, c: Condition, now: int, id: Id, revision: Id)
    requires id in db.episodes
    ensures NextEpisode(db, c, now, id, revision).acked == (db.episodes[id].acked && !Transition(db, c, id))
  {
    hide Correlated, Resumes;
  }

  lemma NotifiedAcks(db: Db, c: Condition, now: int, id: Id, draw: Draw)
    ensures var db' := Notified(db, c, now, id, draw);
      && (forall j :: j in db.episodes && j != id ==>
           j in db'.episodes && db'.episodes[j].acked == db.episodes[j].acked)
      && id in db'.episodes && db'.episodes[id].acked == NextEpisode(db, c, now, id, draw.revision).acked
  {
    NotifiedKeeps(db, c, now, id, draw);
    hide Notified, NextEpisode, Transition;
  }

  /** The same episodes are acknowledged. */
  ghost predicate SameAcked(a: map<Id, Episode>, b: map<Id, Episode>) {
    forall j :: j in a ==> j in b && b[j].acked == a[j].acked
  }

  lemma PutSameAcked(a: map<Id, Episode>, b: map<Id, Episode>, id: Id, e: Episode)
    requires SameAcked(a, b) && (id in b ==> e.acked == b[id].acked)
    ensures SameAcked(a, b[id := e])
  {
  }

  lemma PassOnAcks(db: Db, c: Condition, id: Id, now: int, row: Id)
    ensures SameAcked(db.episodes, PassOn(db, c, id, now, row).episodes)
  {
    assert SameAcked(db.episodes, db.episodes);
    var heirs := Heirs(db.episodes, c.node, id);
    if heirs != map[] {
      var other := First(heirs);
      assert other in heirs;
      var e := db.episodes[other];
      var queued := Enqueue(db, other, e.revision, now, row);
      EnqueueKeeps(db, other, e.revision, now, row);
      assert SameAcked(db.episodes, queued.episodes);
      hide IsFirst, First, Heirs, Enqueue, StartsWith, ConcernsKept, SameAcked;
      PutSameAcked(db.episodes, db.episodes, other, e.(updatedAt := now,
        marks := e.marks.(pending := Some(Transfer(id, db.settings.revision, now, e.facts.epoch)))));
      if other in queued.episodes {
        var e' := queued.episodes[other];
        PutSameAcked(db.episodes, queued.episodes, other,
          e'.(updatedAt := now, marks := e'.marks.(correlation := None, from := Some(id))));
      }
    }
  }

  lemma ApplyAcks(db: Db, c: Condition, now: int, id: Id, draw: Draw)
    ensures var db' := Apply(db, c, now, id, draw);
      && (forall j :: j in db.episodes && j != id ==>
           j in db'.episodes && db'.episodes[j].acked == db.episodes[j].acked)
      && id in db'.episodes && db'.episodes[id].acked == NextEpisode(db, c, now, id, draw.revision).acked
  {
    var e := NextEpisode(db, c, now, id, draw.revision);
    var notified := Notified(db, c, now, id, draw);
    NotifiedAcks(db, c, now, id, draw);
    hide Notified, NextEpisode, Undelivered, PassOn, Fresh;
    if !e.open {
      PassOnAcks(Closed(notified, id, now), c, id, now, draw.row);
    }
  }

  /** An evaluation takes an acknowledgement away exactly by a fresh change of severity. */
  lemma ObserveAcks(db: Db, c: Condition, now: int, draw: Draw, id: Id)
    requires DbOk(db, {}) && DrawOk(draw, db.drawn) && id in db.episodes && db.episodes[id].open
      && db.episodes[id].acked
    ensures var db' := ObserveCondition(db, c, now, draw);
      (id in db'.episodes && db'.episodes[id].open && !db'.episodes[id].acked) <==>
        && c.key == db.episodes[id].sourceKey && !c.oversized && Fresh(c)
        && c.severity != db.episodes[id].severity && !c.status.ConditionResolved?
  {
    assert EpisodeOk(db, id, {}) && OneOpenPerKey(db.episodes);
    assert IsOpen(db.episodes, db.episodes[id].sourceKey, id);
    var db' := ObserveCondition(db, c, now, draw);
    hide DbOk, Apply, Fresh;
    if !c.oversized {
      if HasOpen(db.episodes, c.key) {
        var i :| IsOpen(db.episodes, c.key, i) && db' == Apply(db, c, now, i, draw);
        ApplyAcks(db, c, now, i, draw);
        ApplyOpens(db, c, now, i, draw);
        assert i == id <==> c.key == db.episodes[id].sourceKey;
        NextAcked(db, c, now, i, draw.revision);
        hide NextEpisode;
      } else {
        assert c.key != db.episodes[id].sourceKey;
        if c.status.ConditionOpen? && |db.episodes| < MAX_EPISODES {
          ApplyAcks(db, c, now, draw.episode, draw);
        }
      }
    }
  }

  // ---- Whole runs ----

  lemma OutsideKeepsAcks(s: Sys, e: Event, id: Id)
    requires !WorkerEvent(e) && !e.Evaluate? && Enabled(s, e) && OpenAt(s, id) && s.db.episodes[id].acked
    ensures !UnackedAt(Do(s, e), id)
  {
    if e.Reconcile? {
      RetryPendingKeeps(Pruned(s.db, e.now), e.now, e.uuids);
    } else if e.RetryAgain? {
      RetryPendingKeeps(s.db, e.now, e.uuids);
    }
    hide RetryPending, Mark, E164, StartsWith, Selected;
  }

  lemma EvaluatedAcks(s: Sys, e: Event, id: Id)
    requires DbOk(s.db, {}) && OpenAt(s, id) && s.db.episodes[id].acked && e.Evaluate? && Enabled(s, e)
    ensures UnackedAt(Do(s, e), id) <==> Reassesses(s, e, id)
  {
    hide DbOk, DrawOk;
    ObserveAcks(s.db, e.c, e.now, e.draw, id);
    assert Do(s, e).db == ObserveCondition(s.db, e.c, e.now, e.draw);
    hide ObserveCondition, Fresh, Do;
  }

  lemma NextAcks(s: Sys, e: Event, id: Id)
    requires DbOk(s.db, {}) && OpenAt(s, id) && s.db.episodes[id].acked
    ensures UnackedAt(Next(s, e), id) <==> Reassesses(s, e, id)
  {
    hide DbOk, Enabled, Do;
    if Enabled(s, e) {
      if WorkerEvent(e) {
        WorkerKeepsConcerns(s, e);
      } else if e.Evaluate? {
        EvaluatedAcks(s, e, id);
      } else {
        OutsideKeepsAcks(s, e, id);
      }
    }
  }

  /** In every run the acknowledgement of an open episode is lost exactly at a fresh evaluation of its own
      source key that changes its severity. */
  lemma AcknowledgementLostWhen(run: seq<Event>, n: nat, id: Id)
    requires n < |run| && OpenAt(At(run, n), id) && At(run, n).db.episodes[id].acked
    ensures UnackedAt(At(run, n + 1), id) <==> ChangesSeverity(run, n, id)
  {
    AlwaysOk(run, n);
    assert DbOk(At(run, n).db, {});
    assert At(run, n + 1) == Next(At(run, n), run[n]);
    hide At, SysOk, DbOk, Next, Reassesses;
    NextAcks(At(run, n), run[n], id);
  }

  lemma {:induction false} StaysAcked(run: seq<Event>, n: nat, m: nat, id: Id)
    requires n <= m <= |run| && OpenAt(At(run, n), id) && At(run, n).db.episodes[id].acked
    requires forall k :: n <= k < m ==> !ChangesSeverity(run, k, id)
    ensures !UnackedAt(At(run, m), id) && id in At(run, m).db.drawn
    decreases m
  {
    hide ChangesSeverity;
    if n == m {
      AlwaysOk(run, n);
      hide At;
      assert EpisodeOk(At(run, n).db, id, {});
    } else {
      StaysAcked(run, n, m - 1, id);
      hide At, UnackedAt;
      AcksStep(run, m - 1, id);
    }
  }

  lemma AcksStep(run: seq<Event>, n: nat, id: Id)
    requires n < |run| && !UnackedAt(At(run, n), id) && id in At(run, n).db.drawn && !ChangesSeverity(run, n, id)
    ensures !UnackedAt(At(run, n + 1), id) && id in At(run, n + 1).db.drawn
  {
    hide ChangesSeverity;
    AlwaysOk(run, n);
    NextEpisodes(At(run, n), run[n]);
    assert At(run, n + 1) == Next(At(run, n), run[n]);
    if OpenAt(At(run, n), id) {
      AcknowledgementLostWhen(run, n, id);
    }
    hide Next, SysOk, At;
    assert id in At(run, n + 1).db.episodes ==> EpisodeStep(At(run, n).db, At(run, n + 1).db, id);
  }

  lemma SelectedIsUnacked(db: Db, now: int)
    requires Select(db, now).job.Some? && !Select(db, now).job.value.poll
    ensures var id := Select(db, now).job.value.episode;
      id in db.episodes && db.episodes[id].open && !db.episodes[id].acked
  {
    var id := First(DueSends(db, now));
    assert id in DueSends(db, now);
    hide SendReady, DuePolls;
  }

  lemma ClaimedIsUnacked(s: Sys, client: bool, now: int, uuids: seq<Id>)
    requires Enabled(s, Claim(client, now, uuids))
    requires AfterClaim(s, client, now, uuids).phase.Claiming? && !AfterClaim(s, client, now, uuids).phase.job.poll
    ensures UnackedAt(s, AfterClaim(s, client, now, uuids).phase.job.episode)
  {
    hide RetryPending, Select, Mark, Selected, Supply;
    RetryPendingKeeps(Sweep(s.db, now), now, uuids);
    var ready := RetryPending(Sweep(s.db, now), now, uuids);
    assert ConcernsKept(s.db.episodes, ready.episodes);
    assert Select(ready, now).job == Some(AfterClaim(s, client, now, uuids).phase.job);
    SelectedIsUnacked(ready, now);
  }

  /** After an acknowledgement no row of the episode is claimed for sending, whenever a 429 put it back,
      unless a fresh evaluation changed the severity in between. */
  lemma SentAgainNeedsChange(run: seq<Event>, n: nat, m: nat, id: Id) returns (k: nat)
    requires n <= m < |run| && OpenAt(At(run, n), id) && At(run, n).db.episodes[id].acked
    requires run[m].Claim? && At(run, m).phase.Idle? && At(run, m + 1).phase.Claiming? && !At(run, m + 1).phase.job.poll
    requires At(run, m + 1).phase.job.episode == id
    ensures n <= k < m && ChangesSeverity(run, k, id)
  {
    Stepped(run, m);
    assert UnackedAt(At(run, m), id) by {
      hide At;
      ClaimedIsUnacked(At(run, m), run[m].client, run[m].now, run[m].uuids);
    }
    hide At, ChangesSeverity;
    if forall k :: n <= k < m ==> !ChangesSeverity(run, k, id) {
      StaysAcked(run, n, m, id);
      assert false;
    }
    k :| n <= k < m && ChangesSeverity(run, k, id);
  }

  // ---- A run in which it happens ----

  const SENDER := "+4912345"
  const RECIPIENT := "+4954321"

  function Concern(severity: Severity): Condition {
    Condition("node_loss:a", "node_loss", "a", ConditionOpen, severity, "ok", Facts("", None, None, "rule"), false)
  }

  /** Enable, concern, claim, acknowledge while the request is under way, 429, record, change of severity, claim. */
  const RUN: seq<Event> := [
    Reconfigure(Request(0, true, Some(SENDER), Some(RECIPIENT)), 0, 1),
    Evaluate(Concern(Warning), 0, Draw(2, 3, 4)),
    Claim(true, 0, []),
    Ack(2, 3, 1, 5),
    Exchange(Http(429, Malformed)),
    Save,
    Evaluate(Concern(Critical), 60_000, Draw(6, 7, 8)),
    Claim(true, 60_000, [])
  ]

  function SettingsWith(claim: Option<int>): Settings {
    Settings(true, SENDER, RECIPIENT, 1, claim, false)
  }

  function EpisodeWith(severity: Severity, revision: Id, updatedAt: int, acked: bool): Episode {
    Episode("node_loss:a", "node_loss", "a", true, severity, "ok", Facts("", None, None, "rule"),
      Marks(None, None, None),
      revision, 0, updatedAt, None, acked, None)
  }

  function RowWith(revision: Id, state: RowState, attempts: nat, next: int, updatedAt: int,
          reason: Option<string>): Row {
    Row(2, revision, state, attempts, next, if revision == 3 then 0 else 60_000, updatedAt, None, None, reason, 1)
  }

  const ENABLED: Db := Db(SettingsWith(None), map[], map[], {0, 1}, map[])
  const ANNOUNCED: Db :=
    Db(SettingsWith(None), map[2 := EpisodeWith(Warning, 3, 0, false)], map[4 := RowWith(3, Queued, 0, 0, 0, None)],
      {0, 1, 2, 3, 4}, map[(2, 3) := 4])
  const CLAIMED: Db := ANNOUNCED.(settings := SettingsWith(Some(0)),
    outbox := map[4 := RowWith(3, Sending, 1, 0, 0, None)])
  const ACKED: Db := CLAIMED.(episodes := map[2 := EpisodeWith(Warning, 5, 1, true)], drawn := {0, 1, 2, 3, 4, 5})
  const REQUEUED: Db := ACKED.(outbox := map[4 := RowWith(3, Queued, 1, 60_000, 0, Some("rate_limited"))])
  const CHANGED: Db :=
    REQUEUED.(episodes := map[2 := EpisodeWith(Critical, 7, 60_000, false)],
      outbox := REQUEUED.outbox[8 := RowWith(7, Queued, 0, 60_000, 60_000, None)],
      drawn := {0, 1, 2, 3, 4, 5, 7, 8}, admitted := map[(2, 3) := 4, (2, 7) := 8])

  lemma Configured()
    ensures Next(START, RUN[0]) == START.(db := ENABLED)
  {
    assert E164(SENDER) && E164(RECIPIENT);
    assert Enabled(START, RUN[0]);
    assert Configure(START.db, RUN[0].request, 0, 1) == ENABLED;
  }

  lemma NothingPending(db: Db)
    requires forall id :: id in db.episodes ==> db.episodes[id].intent.None?
    ensures Selected(db) == [] && PendingTimes(db.episodes) == map[]
    ensures RetryPending(db, 0, []) == db && RetryPending(db, 60_000, []) == db
  {
    assert PendingTimes(db.episodes) == map[];
  }

  lemma NoPeers(db: Db, severity: Severity, id: Id)
    ensures Correlated(db.episodes, Concern(severity), id) == map[]
  {
    assert WatchOf(Concern(severity), "node_loss") == None;
  }

  /** A concern that announces itself: the episode is written and one row is admitted. */
  lemma Announcing(db: Db, severity: Severity, now: int, id: Id, draw: Draw, e: Episode)
    requires !severity.Info? && db.settings == SettingsWith(db.settings.lastSendClaim) && |db.outbox| < 5
    requires forall i :: i in db.episodes ==> db.episodes[i].intent.None?
    requires forall r :: r in db.outbox ==> db.outbox[r].revision != draw.revision
    requires Transition(db, Concern(severity), id)
    requires e == NextEpisode(db, Concern(severity), now, id, draw.revision) && e.intent.None? && e.open
    requires e.severity == severity && e.revision == draw.revision
    ensures Apply(db, Concern(severity), now, id, draw)
      == Db(db.settings, db.episodes[id := e],
           db.outbox[draw.row := Row(id, draw.revision, Queued, 0, now, now, now, None, None, None, 1)],
           db.drawn + {id} + {draw.revision} + {draw.row}, db.admitted[(id, draw.revision) := draw.row])
  {
    var c := Concern(severity);
    NoPeers(db, severity, id);
    var written := Written(db, c, now, id, draw);
    assert written.episodes == db.episodes[id := e];
    assert CancelIntent(written.episodes, Some(id), "superseded", now) == written.episodes;
    assert Announces(db, c, now, id, draw) && !ResumesTransfer(db, c, now, id);
    hide NextEpisode, Correlated, Resumes, Enqueue, CancelIntent, Announces, ResumesTransfer;
    Queueing(written, id, draw.revision, now, draw.row);
    assert Notified(db, c, now, id, draw) == Enqueue(written, id, draw.revision, now, draw.row);
  }

  /** An announcement that finds room leaves one queued row. */
  lemma Queueing(db: Db, id: Id, revision: Id, now: int, row: Id)
    requires db.settings == SettingsWith(db.settings.lastSendClaim) && |db.outbox| < 5
    requires id in db.episodes && db.episodes[id].intent.None? && db.episodes[id].revision == revision
    requires forall r :: r in db.outbox ==> db.outbox[r].revision != revision
    ensures Enqueue(db, id, revision, now, row) ==
      Db(db.settings, db.episodes, db.outbox[row := Row(id, revision, Queued, 0, now, now, now, None, None, None, 1)],
        db.drawn + {row}, db.admitted[(id, revision) := row])
  {
    assert !HasRow(db.outbox, id, revision);
    assert MakeRoom(db.outbox) == db.outbox;
    assert db.episodes[id := db.episodes[id].(intent := None)] == db.episodes;
    hide E164;
  }

  lemma OpenApplied()
    ensures Apply(ENABLED, Concern(Warning), 0, 2, Draw(2, 3, 4)) == ANNOUNCED
  {
    var e := EpisodeWith(Warning, 3, 0, false);
    NoPeers(ENABLED, Warning, 2);
    assert NextEpisode(ENABLED, Concern(Warning), 0, 2, 3) == e;
    Announcing(ENABLED, Warning, 0, 2, Draw(2, 3, 4), e);
    hide Apply, NextEpisode;
  }

  lemma Opened()
    ensures Next(START.(db := ENABLED), RUN[1]) == START.(db := ANNOUNCED)
  {
    OpenApplied();
    hide Apply, Next;
    EvaluateNew(START.(db := ENABLED), Concern(Warning), 0, Draw(2, 3, 4));
  }

  lemma EvaluateNew(s: Sys, c: Condition, now: int, draw: Draw)
    requires DrawOk(draw, s.db.drawn) && !c.oversized && c.status.ConditionOpen? && s.db.episodes == map[]
    ensures Next(s, Evaluate(c, now, draw)) == s.(db := Apply(s.db, c, now, draw.episode, draw))
  {
    hide Apply, DrawOk;
    assert !HasOpen(s.db.episodes, c.key);
    assert Enabled(s, Evaluate(c, now, draw));
  }

  const JOB: Job := Job(4, 2, 3, false, None, 0, 0)
  const ANSWER: Reply := Http(429, Malformed)

  /** A claim that finds nothing to sweep and nothing pending is its selection. */
  lemma ClaimIsSelection(db: Db, now: int)
    requires now == 0 || now == 60_000
    requires forall id :: id in db.episodes ==> db.episodes[id].intent.None?
    requires forall r :: r in db.outbox ==> db.outbox[r].state.Queued? && db.outbox[r].createdAt >= 0
    ensures Selected(Sweep(db, now)) == [] && Outbox.Claim(db, true, now, []) == Select(db, now)
  {
    var swept := Sweep(db, now);
    assert swept.outbox == db.outbox;
    assert swept == db;
    NothingPending(db);
    hide Sweep, Selected, RetryPending, Select;
  }

  /** The least due row is selected. */
  lemma Selecting(db: Db, now: int, row: Id)
    requires SendReady(db.settings, now) && row in DueSends(db, now)
    requires forall r :: r in DueSends(db, now) ==> DueSends(db, now)[row] == DueSends(db, now)[r] && row <= r
    ensures var r := db.outbox[row];
      Select(db, now) == Claimed(
        db.(outbox := db.outbox[row := r.(state := Sending, attempts := r.attempts + 1, updatedAt := now)],
            settings := db.settings.(lastSendClaim := Some(now))),
        Some(Job(row, r.episode, r.revision, false, r.sid, r.attempts, now)))
  {
    assert IsFirst(DueSends(db, now), row);
    FirstUnique(DueSends(db, now), row, First(DueSends(db, now)));
    hide SendReady, IsFirst;
  }

  lemma ClaimStep(s: Sys, now: int, db: Db, job: Job)
    requires s.phase.Idle? && (now == 0 || now == 60_000) && !job.poll
    requires forall id :: id in s.db.episodes ==> s.db.episodes[id].intent.None?
    requires forall r :: r in s.db.outbox ==> s.db.outbox[r].state.Queued? && s.db.outbox[r].createdAt >= 0
    requires Select(s.db, now) == Claimed(db, Some(job))
    ensures Next(s, Claim(true, now, [])) == Sys(db, Claiming(job), s.posts, s.claims + [now])
  {
    ClaimIsSelection(s.db, now);
    hide Select, Sweep, Selected, Outbox.Claim;
    ClaimDone(s, now, Claimed(db, Some(job)));
  }

  lemma ClaimDone(s: Sys, now: int, c: Claimed)
    requires s.phase.Idle? && Selected(Sweep(s.db, now)) == [] && Outbox.Claim(s.db, true, now, []) == c
    requires c.job.Some? && !c.job.value.poll
    ensures Next(s, Claim(true, now, [])) == Sys(c.db, Claiming(c.job.value), s.posts, s.claims + [now])
  {
    hide Sweep, Selected, Outbox.Claim;
  }

  lemma NumbersOk()
    ensures E164(SENDER) && E164(RECIPIENT)
  {
  }

  lemma SelectsFirst()
    ensures Select(ANNOUNCED, 0) == Claimed(CLAIMED, Some(JOB))
  {
    NumbersOk();
    hide E164;
    assert DueSends(ANNOUNCED, 0).Keys == {4};
    Selecting(ANNOUNCED, 0, 4);
    hide Select;
  }

  lemma SelectsOld()
    ensures Select(CHANGED, 60_000).job == Some(Job(4, 2, 3, false, None, 1, 60_000))
  {
    NumbersOk();
    hide E164;
    assert DueSends(CHANGED, 60_000).Keys == {4, 8};
    hide Select;
    Selecting(CHANGED, 60_000, 4);
  }

  lemma ClaimedOnce()
    ensures Next(START.(db := ANNOUNCED), RUN[2]) == Sys(CLAIMED, Claiming(JOB), [], [0])
  {
    SelectsFirst();
    hide Select, Next;
    ClaimStep(START.(db := ANNOUNCED), 0, CLAIMED, JOB);
  }

  lemma Acknowledged(s: Sys)
    requires s.db == CLAIMED
    ensures Next(s, RUN[3]) == s.(db := ACKED)
  {
    AckedDb();
    hide Acknowledge;
    assert Enabled(s, RUN[3]);
  }

  lemma AckedDb()
    ensures Acknowledge(CLAIMED, 2, 3, 1, 5) == ACKED
  {
    assert Acknowledgeable(CLAIMED, 2, 3);
    assert Mark(CLAIMED.outbox, Queued, Some(2), None, Suppressed, "acknowledged", 1) == CLAIMED.outbox;
    assert CancelIntent(ACKED.episodes, Some(2), "acknowledged", 1) == ACKED.episodes;
    assert CLAIMED.episodes[2 := CLAIMED.episodes[2].(acked := true, revision := 5, updatedAt := 1)] == ACKED.episodes;
  }

  lemma PutBack(s: Sys)
    requires s.db == ACKED && s.phase == Answered(JOB, ANSWER)
    ensures Next(s, RUN[5]) == s.(db := REQUEUED, phase := Idle)
  {
    assert Enabled(s, RUN[5]);
    assert Record(ACKED, JOB, ANSWER) == REQUEUED;
  }

  lemma EvaluateStep(s: Sys, c: Condition, now: int, draw: Draw, id: Id)
    requires DrawOk(draw, s.db.drawn) && !c.oversized && s.db.episodes.Keys == {id} && IsOpen(s.db.episodes, c.key, id)
    ensures Next(s, Evaluate(c, now, draw)) == s.(db := Apply(s.db, c, now, id, draw))
  {
    hide Apply, DrawOk;
    assert HasOpen(s.db.episodes, c.key);
    assert Enabled(s, Evaluate(c, now, draw)) && ObserveCondition(s.db, c, now, draw) == Apply(s.db, c, now, id, draw);
  }

  lemma ChangeApplied()
    ensures Apply(REQUEUED, Concern(Critical), 60_000, 2, Draw(6, 7, 8)) == CHANGED
  {
    var c, draw := Concern(Critical), Draw(6, 7, 8);
    NoPeers(REQUEUED, Critical, 2);
    assert NextEpisode(REQUEUED, c, 60_000, 2, 7) == EpisodeWith(Critical, 7, 60_000, false);
    Announcing(REQUEUED, Critical, 60_000, 2, draw, EpisodeWith(Critical, 7, 60_000, false));
    hide Apply, NextEpisode;
    assert REQUEUED.drawn + {2} + {7} + {8} == CHANGED.drawn;
    assert REQUEUED.episodes[2 := EpisodeWith(Critical, 7, 60_000, false)] == CHANGED.episodes;
    assert REQUEUED.admitted[(2, 7) := 8] == CHANGED.admitted;
  }

  lemma SeverityChanged(s: Sys)
    requires s.db == REQUEUED
    ensures Next(s, RUN[6]) == s.(db := CHANGED)
  {
    ChangeApplied();
    hide Apply, Next;
    EvaluateStep(s, Concern(Critical), 60_000, Draw(6, 7, 8), 2);
  }

  lemma ClaimedAgain(s: Sys)
    requires s.db == CHANGED && s.phase.Idle?
    ensures Next(s, RUN[7]).phase == Claiming(Job(4, 2, 3, false, None, 1, 60_000))
  {
    SelectsOld();
    hide Select, Next;
    ClaimStep(s, 60_000, Select(CHANGED, 60_000).db, Select(CHANGED, 60_000).job.value);
  }

  /** The change is needed and can be enough: here the row of the acknowledged revision 3, put back by a 429
      after the acknowledgement, is claimed again after it. */
  lemma AcknowledgedRowSentAgain()
    ensures OpenAt(At(RUN, 6), 2) && At(RUN, 6).db.episodes[2].acked && At(RUN, 6).db.outbox.Keys == {4}
    ensures At(RUN, 6).db.outbox[4].state.Queued? && ChangesSeverity(RUN, 6, 2)
    ensures At(RUN, 8).phase == Claiming(Job(4, 2, 3, false, None, 1, 60_000))
  {
    assert At(RUN, 8) == Next(At(RUN, 7), RUN[7]);
    hide At, Next, ChangesSeverity;
    SecondHalf();
    RequeuedFacts(At(RUN, 6));
    SeventhChanges();
    ClaimedAgain(At(RUN, 7));
    hide OpenAt;
  }

  lemma RequeuedFacts(s: Sys)
    requires s.db == REQUEUED
    ensures OpenAt(s, 2) && s.db.episodes[2].acked && s.db.outbox.Keys == {4} && s.db.outbox[4].state.Queued?
  {
  }

  lemma SeventhChanges()
    ensures ChangesSeverity(RUN, 6, 2)
  {
    hide At, Next;
    SecondHalf();
    assert RUN[6] == Evaluate(Concern(Critical), 60_000, Draw(6, 7, 8));
    assert Enabled(At(RUN, 6), RUN[6]);
  }

  lemma FirstHalf()
    ensures At(RUN, 4) == Sys(ACKED, Claiming(JOB), [], [0])
  {
    Configured();
    Opened();
    ClaimedOnce();
    Acknowledged(Sys(CLAIMED, Claiming(JOB), [], [0]));
    hide Next;
    assert At(RUN, 1) == START.(db := ENABLED);
    assert At(RUN, 2) == START.(db := ANNOUNCED);
    assert At(RUN, 3) == Sys(CLAIMED, Claiming(JOB), [], [0]);
  }

  lemma Answers(s: Sys)
    requires s == Sys(ACKED, Claiming(JOB), [], [0])
    ensures Next(s, RUN[4]) == Sys(ACKED, Answered(JOB, ANSWER), [PostOf(JOB, true)], [0])
  {
    assert Enabled(s, RUN[4]);
  }

  lemma SecondHalf()
    ensures At(RUN, 6) == Sys(REQUEUED, Idle, [PostOf(JOB, true)], [0])
    ensures At(RUN, 7) == Sys(CHANGED, Idle, [PostOf(JOB, true)], [0])
  {
    FirstHalf();
    Answers(At(RUN, 4));
    PutBack(Sys(ACKED, Answered(JOB, ANSWER), [PostOf(JOB, true)], [0]));
    SeverityChanged(Sys(REQUEUED, Idle, [PostOf(JOB, true)], [0]));
    hide Next;
    assert At(RUN, 5) == Sys(ACKED, Answered(JOB, ANSWER), [PostOf(JOB, true)], [0]);
  }
}
