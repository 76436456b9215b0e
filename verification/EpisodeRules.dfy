/**
 What may happen to an operator episode: only fresh resolved evidence closes it, a closed one stays
 closed and is never announced again, and stale evidence changes nothing that matters.
 */
module EpisodeRules {
  import opened Wrappers
  import opened Outbox
  import opened Attention
  import opened DeliveryInvariant
  import opened AdmissionRetry
  import opened AttentionInvariant
  import opened DeliveryRuns

  /** The same episodes, intents aside. */
  ghost predicate ConcernsKept(a: map<Id, Episode>, b: map<Id, Episode>) {
    b.Keys == a.Keys && forall id :: id in a ==> b[id] == a[id].(intent := b[id].intent)
  }

  lemma AdmitKeeps(db: Db, episode: Id, revision: Id, settingsRevision: Id, enabled: bool, created: int, now: int,
          row: Id)
    ensures ConcernsKept(db.episodes,
      Admit(db, episode, revision, settingsRevision, enabled, created, now, row).db.episodes)
  {
    var inserted := db.(
      outbox := MakeRoom(db.outbox)[row := NewRow(episode, revision, settingsRevision, enabled, created, now)],
      drawn := db.drawn + {row},
      admitted := db.admitted[(episode, revision) := row]);
    SetIntentKeeps(db, episode, None);
    SetIntentKeeps(inserted, episode, None);
    SetIntentKeeps(db.(outbox := MakeRoom(db.outbox)), episode,
      Some(Deferred(revision, settingsRevision, enabled, created, now)));
    ConcernsKeptItself(db.episodes);
    hide MakeRoom, HasRow, SetIntent, ConcernsKept, NewRow, Deferred;
  }

  lemma SetIntentKeeps(db: Db, episode: Id, intent: Option<Intent>)
    ensures ConcernsKept(db.episodes, SetIntent(db, episode, intent).episodes)
  {
  }

  lemma CancelIntentKeeps(episodes: map<Id, Episode>, which: Option<Id>, reason: string, now: int)
    ensures ConcernsKept(episodes, CancelIntent(episodes, which, reason, now))
  {
  }

  lemma ConcernsKeptItself(episodes: map<Id, Episode>)
    ensures ConcernsKept(episodes, episodes)
  {
  }

  lemma ConcernsKeptTransitive(a: map<Id, Episode>, b: map<Id, Episode>, c: map<Id, Episode>)
    requires ConcernsKept(a, b) && ConcernsKept(b, c)
    ensures ConcernsKept(a, c)
  {
  }

  lemma HeadKeeps(db: Db, id: Id, now: int, row: Id)
    requires id in db.episodes && PendingIntent(db.episodes[id])
    ensures ConcernsKept(db.episodes, Head(db, id, now, row).db.episodes)
  {
    var e := db.episodes[id];
    hide Admit, ConcernsKept, CancelIntent, SetIntent;
    AdmitKeeps(db, id, e.intent.value.revision, db.settings.revision, true, e.intent.value.createdAt, now, row);
    if Stale(db.settings, e).Some? {
      CancelIntentKeeps(db.episodes, Some(id), Stale(db.settings, e).value, now);
    } else if Expired(e, now) {
      SetIntentKeeps(db, id, Some(e.intent.value.(state := IntentFailed, reason := "admission_expired",
        updatedAt := now)));
    }
  }

  lemma {:induction false} RetryEachKeeps(db: Db, ids: seq<Id>, now: int, uuids: seq<Id>)
    requires |uuids| >= |ids| && Snapshot(db, ids)
    ensures ConcernsKept(db.episodes, RetryEach(db, ids, now, uuids).episodes)
    decreases |ids|
  {
    if ids == [] {
      ConcernsKeptItself(db.episodes);
    } else {
      HeadKeeps(db, ids[0], now, uuids[0]);
      HeadOthers(db, ids[0], now, uuids[0]);
      var a := Head(db, ids[0], now, uuids[0]);
      TailPending(db, ids, a.db);
      hide ConcernsKept;
      HeadFirst(db, ids, now, uuids);
      hide Head, RetryEach;
      if a.admitted {
        RetryEachKeeps(a.db, ids[1..], now, uuids[1..]);
        ConcernsKeptTransitive(db.episodes, a.db.episodes, RetryEach(db, ids, now, uuids).episodes);
      }
    }
  }

  lemma HeadFirst(db: Db, ids: seq<Id>, now: int, uuids: seq<Id>)
    requires ids != [] && Snapshot(db, ids) && |uuids| >= |ids|
    requires Snapshot(Head(db, ids[0], now, uuids[0]).db, ids[1..])
    ensures var a := Head(db, ids[0], now, uuids[0]);
      RetryEach(db, ids, now, uuids) == if a.admitted then RetryEach(a.db, ids[1..], now, uuids[1..]) else a.db
  {
    hide Admit, CancelIntent, SetIntent;
  }

  lemma TailPending(db: Db, ids: seq<Id>, a: Db)
    requires ids != [] && Snapshot(db, ids)
    requires forall j :: j in db.episodes && j != ids[0] ==> j in a.episodes && a.episodes[j] == db.episodes[j]
    ensures Snapshot(a, ids[1..])
  {
    var tail := ids[1..];
    forall i | 0 <= i < |tail| ensures tail[i] in a.episodes && PendingIntent(a.episodes[tail[i]]) {
      assert tail[i] == ids[i + 1] && ids[0] != ids[i + 1];
    }
  }

  lemma RetryPendingKeeps(db: Db, now: int, uuids: seq<Id>)
    requires |uuids| >= |Selected(db)|
    ensures ConcernsKept(db.episodes, RetryPending(db, now, uuids).episodes)
  {
    SelectedPending(db);
    RetryEachKeeps(db, Selected(db), now, uuids);
    hide RetryEach, Selected;
  }

  // ---- One evaluation ----

  /** Stale, unknown or interrupted evidence about an open episode never changes its severity, its
      revision or its acknowledgement, never closes it, and never enqueues or cancels anything. */
  lemma StaleEvidenceKeepsConcern(db: Db, c: Condition, now: int, draw: Draw, id: Id)
    requires OneOpenPerKey(db.episodes) && IsOpen(db.episodes, c.key, id) && !Fresh(c) && !c.oversized
    ensures var db' := ObserveCondition(db, c, now, draw);
      && id in db'.episodes
      && var e, e' := db.episodes[id], db'.episodes[id];
         e'.open && e'.severity == e.severity && e'.revision == e.revision && e'.acked == e.acked
           && e'.intent == e.intent
         && e'.observation == c.observation
    ensures ObserveCondition(db, c, now, draw).outbox == db.outbox
    ensures forall j :: j in db.episodes && j != id ==>
      j in ObserveCondition(db, c, now, draw).episodes
        && ObserveCondition(db, c, now, draw).episodes[j] == db.episodes[j]
  {
    var db' := ObserveCondition(db, c, now, draw);
    var i :| IsOpen(db.episodes, c.key, i) && db' == Apply(db, c, now, i, draw);
    assert i == id;
    hide Correlated, Enqueue, PassOn;
  }

  /** Every other episode stays as open as it was; the evaluated one is open unless the evidence is a
      fresh recovery. */
  lemma ApplyOpens(db: Db, c: Condition, now: int, id: Id, draw: Draw)
    ensures var db' := Apply(db, c, now, id, draw);
      && (forall j :: j in db.episodes && j != id ==> j in db'.episodes && db'.episodes[j].open == db.episodes[j].open)
      && id in db'.episodes && db'.episodes[id].open == !(c.status.ConditionResolved? && Fresh(c))
  {
    var e := NextEpisode(db, c, now, id, draw.revision);
    var notified := Notified(db, c, now, id, draw);
    NotifiedOpens(db, c, now, id, draw);
    assert e.open == !(c.status.ConditionResolved? && Fresh(c)) by { NextOpen(db, c, now, id, draw.revision); }
    hide Notified, NextEpisode, Undelivered, PassOn, Fresh;
    if !e.open {
      PassOnOpens(Closed(notified, id, now), c, id, now, draw.row);
    }
  }

  lemma NextOpen(db: Db, c: Condition, now: int, id: Id, revision: Id)
    ensures NextEpisode(db, c, now, id, revision).open == !(c.status.ConditionResolved? && Fresh(c))
  {
    hide Correlated, Resumes;
  }

  lemma CancelledKeeps(db: Db, c: Condition, now: int, id: Id, draw: Draw)
    ensures ConcernsKept(Written(db, c, now, id, draw).episodes, Cancelled(db, c, now, id, draw).episodes)
  {
    var written := Written(db, c, now, id, draw);
    var reason := if written.episodes[id].open then "superseded" else "condition_resolved";
    hide ConcernsKept, NextEpisode, Transition, CancelIntent;
    CancelIntentKeeps(written.episodes, Some(id), reason, now);
    ConcernsKeptItself(written.episodes);
  }

  lemma NotifiedKeeps(db: Db, c: Condition, now: int, id: Id, draw: Draw)
    ensures ConcernsKept(Written(db, c, now, id, draw).episodes, Notified(db, c, now, id, draw).episodes)
  {
    var written, cancelled := Written(db, c, now, id, draw), Cancelled(db, c, now, id, draw);
    assert id in written.episodes;
    var revision := written.episodes[id].revision;
    hide ConcernsKept, Written, Cancelled, NextEpisode, Announces, ResumesTransfer, Enqueue;
    CancelledKeeps(db, c, now, id, draw);
    EnqueueKeeps(cancelled, id, revision, now, draw.row);
    var once := Enqueue(cancelled, id, revision, now, draw.row);
    ConcernsKeptTransitive(written.episodes, cancelled.episodes, once.episodes);
    EnqueueKeeps(once, id, revision, now, draw.row);
    ConcernsKeptTransitive(written.episodes, once.episodes, Enqueue(once, id, revision, now, draw.row).episodes);
  }

  lemma NotifiedOpens(db: Db, c: Condition, now: int, id: Id, draw: Draw)
    ensures var db' := Notified(db, c, now, id, draw);
      && (forall j :: j in db.episodes && j != id ==> j in db'.episodes && db'.episodes[j].open == db.episodes[j].open)
      && id in db'.episodes && db'.episodes[id].open == NextEpisode(db, c, now, id, draw.revision).open
  {
    NotifiedKeeps(db, c, now, id, draw);
    hide Notified, NextEpisode, Transition;
  }

  lemma EnqueueKeeps(db: Db, id: Id, revision: Id, now: int, row: Id)
    ensures ConcernsKept(db.episodes, Enqueue(db, id, revision, now, row).episodes)
  {
    AdmitKeeps(db, id, revision, db.settings.revision, db.settings.enabled, now, now, row);
    hide Admit;
  }

  /** The same episodes are open. */
  ghost predicate SameOpen(a: map<Id, Episode>, b: map<Id, Episode>) {
    forall j :: j in a ==> j in b && b[j].open == a[j].open
  }

  lemma PutSameOpen(a: map<Id, Episode>, b: map<Id, Episode>, id: Id, e: Episode)
    requires SameOpen(a, b) && (id in b ==> e.open == b[id].open)
    ensures SameOpen(a, b[id := e])
  {
  }

  lemma PassOnOpens(db: Db, c: Condition, id: Id, now: int, row: Id)
    ensures SameOpen(db.episodes, PassOn(db, c, id, now, row).episodes)
  {
    assert SameOpen(db.episodes, db.episodes);
    var heirs := Heirs(db.episodes, c.node, id);
    if heirs != map[] {
      var other := First(heirs);
      assert other in heirs;
      var e := db.episodes[other];
      var queued := Enqueue(db, other, e.revision, now, row);
      EnqueueKeeps(db, other, e.revision, now, row);
      assert SameOpen(db.episodes, queued.episodes);
      hide IsFirst, First, Heirs, Enqueue, StartsWith, ConcernsKept, SameOpen;
      PutSameOpen(db.episodes, db.episodes, other, e.(updatedAt := now,
        marks := e.marks.(pending := Some(Transfer(id, db.settings.revision, now, e.facts.epoch)))));
      if other in queued.episodes {
        var e' := queued.episodes[other];
        PutSameOpen(db.episodes, queued.episodes, other,
          e'.(updatedAt := now, marks := e'.marks.(correlation := None, from := Some(id))));
      }
    }
  }

  // ---- Whole runs ----

  predicate OpenAt(s: Sys, id: Id) {
    id in s.db.episodes && s.db.episodes[id].open
  }

  lemma ObserveOpens(db: Db, c: Condition, now: int, draw: Draw, id: Id)
    requires DbOk(db, {}) && DrawOk(draw, db.drawn) && id in db.episodes && db.episodes[id].open
    requires var db' := ObserveCondition(db, c, now, draw); !(id in db'.episodes && db'.episodes[id].open)
    ensures c.status.ConditionResolved? && Fresh(c) && c.key == db.episodes[id].sourceKey
  {
    assert EpisodeOk(db, id, {});
    var db' := ObserveCondition(db, c, now, draw);
    hide DbOk, Apply;
    if !c.oversized {
      if HasOpen(db.episodes, c.key) {
        var i :| IsOpen(db.episodes, c.key, i) && db' == Apply(db, c, now, i, draw);
        ApplyOpens(db, c, now, i, draw);
      } else if c.status.ConditionOpen? && |db.episodes| < MAX_EPISODES {
        ApplyOpens(db, c, now, draw.episode, draw);
      }
    }
  }

  lemma WorkerKeepsConcerns(s: Sys, e: Event)
    requires WorkerEvent(e) && Enabled(s, e)
    ensures ConcernsKept(s.db.episodes, Do(s, e).db.episodes)
  {
    hide AfterClaim, Classify, Mark, Enabled, Throttled, IsPost;
    if e.Claim? {
      ClaimKeepsConcerns(s, e.client, e.now, e.uuids);
    }
  }

  lemma ClaimKeepsConcerns(s: Sys, client: bool, now: int, uuids: seq<Id>)
    requires Enabled(s, Claim(client, now, uuids))
    ensures ConcernsKept(s.db.episodes, AfterClaim(s, client, now, uuids).db.episodes)
  {
    hide RetryPending, SendReady, DueSends, DuePolls, Mark, Selected;
    RetryPendingKeeps(Sweep(s.db, now), now, uuids);
  }

  /** In every run an episode is closed by one thing only: a fresh `resolved` evaluation of its own
      source key.  Missing, stale or interrupted evidence, acknowledgement, reconfiguration, delivery
      and retention never close one. */
  lemma OnlyFreshRecoveryCloses(run: seq<Event>, n: nat, id: Id)
    requires n < |run| && OpenAt(At(run, n), id) && !OpenAt(At(run, n + 1), id)
    ensures run[n].Evaluate?
    ensures run[n].c.status.ConditionResolved? && Fresh(run[n].c)
      && run[n].c.key == At(run, n).db.episodes[id].sourceKey
  {
    var s, e := At(run, n), run[n];
    AlwaysOk(run, n);
    hide At, JobOk, PostsKnown, PostsOk, CountsOk, ClaimsOk, OnlyLastUnthrottled, DbOk;
    assert Enabled(s, e) && At(run, n + 1) == Do(s, e) by { Stepped(run, n); }
    if WorkerEvent(e) {
      WorkerKeepsConcerns(s, e);
      assert false;
    }
    if !e.Evaluate? {
      OutsideKeepsOpen(s, e, id);
      assert false;
    }
    ObserveOpens(s.db, e.c, e.now, e.draw, id);
  }

  lemma Stepped(run: seq<Event>, n: nat)
    requires n < |run| && At(run, n + 1) != At(run, n)
    ensures Enabled(At(run, n), run[n]) && At(run, n + 1) == Do(At(run, n), run[n])
  {
  }

  lemma OutsideKeepsOpen(s: Sys, e: Event, id: Id)
    requires !WorkerEvent(e) && !e.Evaluate? && Enabled(s, e) && OpenAt(s, id)
    ensures OpenAt(Do(s, e), id)
  {
    if e.Reconcile? {
      RetryPendingKeeps(Pruned(s.db, e.now), e.now, e.uuids);
    } else if e.RetryAgain? {
      RetryPendingKeeps(s.db, e.now, e.uuids);
    }
    hide RetryPending, Mark, E164, StartsWith, Selected;
  }

  lemma NextEpisodes(s: Sys, e: Event)
    requires SysOk(s)
    ensures EpisodesStep(s.db, Next(s, e).db) && s.db.drawn <= Next(s, e).db.drawn
  {
    if Enabled(s, e) {
      if WorkerEvent(e) {
        WorkerKeepsConcerns(s, e);
        WorkerDraws(s, e);
        assert EpisodesStep(s.db, Do(s, e).db);
      } else {
        OutsideEvolves(s, e);
      }
    }
    hide Do, Enabled;
  }

  lemma SelectDraws(db: Db, now: int)
    ensures Select(db, now).db.drawn == db.drawn
  {
  }

  lemma ReadyDraws(db: Db, now: int, uuids: seq<Id>)
    requires DbOk(db, {}) && Supply(uuids, db.drawn) && |uuids| >= |Selected(Sweep(db, now))|
    ensures db.drawn <= RetryPending(Sweep(db, now), now, uuids).drawn
  {
    SweepOk(db, now);
    hide Sweep, DbOk, RetryPending, Selected, RetryFrame, Forward, RowsStep, NewRows, EpisodesStep;
    RetryPendingOk(Sweep(db, now), now, uuids);
  }

  lemma ClaimDraws(s: Sys, client: bool, now: int, uuids: seq<Id>)
    requires SysOk(s) && Enabled(s, Claim(client, now, uuids))
    ensures s.db.drawn <= AfterClaim(s, client, now, uuids).db.drawn
  {
    hide DbOk, Sweep, Selected, RetryPending, Supply, JobOk, PostsKnown, PostsOk, CountsOk, ClaimsOk;
    assert DbOk(s.db, {});
    hide SysOk;
    ReadyDraws(s.db, now, uuids);
    SelectDraws(RetryPending(Sweep(s.db, now), now, uuids), now);
    hide Select;
  }

  lemma WorkerDraws(s: Sys, e: Event)
    requires SysOk(s) && WorkerEvent(e) && Enabled(s, e)
    ensures s.db.drawn <= Do(s, e).db.drawn
  {
    hide Classify, Mark, SysOk, AfterClaim, Enabled;
    if e.Claim? {
      ClaimDraws(s, e.client, e.now, e.uuids);
    }
  }

  /** A resolved episode never reopens: not in any later state of the run. */
  lemma {:induction false} ResolvedStaysResolved(run: seq<Event>, n: nat, m: nat, id: Id)
    requires n <= m <= |run| && id in At(run, n).db.episodes && !At(run, n).db.episodes[id].open
    ensures !OpenAt(At(run, m), id) && id in At(run, m).db.drawn
    decreases m
  {
    if n == m {
      AlwaysOk(run, n);
      hide At;
      assert EpisodeOk(At(run, n).db, id, {});
    } else {
      ResolvedStaysResolved(run, n, m - 1, id);
      hide At;
      ResolvedStep(run, m - 1, id);
    }
  }

  lemma ResolvedStep(run: seq<Event>, n: nat, id: Id)
    requires n < |run| && !OpenAt(At(run, n), id) && id in At(run, n).db.drawn
    ensures !OpenAt(At(run, n + 1), id) && id in At(run, n + 1).db.drawn
  {
    AlwaysOk(run, n);
    NextEpisodes(At(run, n), run[n]);
    assert At(run, n + 1) == Next(At(run, n), run[n]);
    hide Next, SysOk, At;
    assert id in At(run, n + 1).db.episodes ==> EpisodeStep(At(run, n).db, At(run, n + 1).db, id);
  }

  lemma SelectedIsOpen(db: Db, now: int)
    requires Select(db, now).job.Some? && !Select(db, now).job.value.poll
    ensures var id := Select(db, now).job.value.episode; id in db.episodes && db.episodes[id].open
  {
    var id := First(DueSends(db, now));
    assert id in DueSends(db, now);
    hide SendReady, DuePolls;
  }

  lemma ClaimedEpisodeIsOpen(s: Sys, client: bool, now: int, uuids: seq<Id>)
    requires Enabled(s, Claim(client, now, uuids))
    requires AfterClaim(s, client, now, uuids).phase.Claiming? && !AfterClaim(s, client, now, uuids).phase.job.poll
    ensures OpenAt(s, AfterClaim(s, client, now, uuids).phase.job.episode)
  {
    hide RetryPending, Select, Mark, Selected, Supply;
    RetryPendingKeeps(Sweep(s.db, now), now, uuids);
    var ready := RetryPending(Sweep(s.db, now), now, uuids);
    assert ConcernsKept(s.db.episodes, ready.episodes);
    assert Select(ready, now).job == Some(AfterClaim(s, client, now, uuids).phase.job);
    SelectedIsOpen(ready, now);
  }

  /** However late a 429 re-queues a row, once its episode has resolved the row is never claimed
      for sending again. */
  lemma NeverSentAfterResolution(run: seq<Event>, n: nat, m: nat, id: Id)
    requires n <= m < |run| && id in At(run, n).db.episodes && !At(run, n).db.episodes[id].open
    requires run[m].Claim? && At(run, m).phase.Idle? && At(run, m + 1).phase.Claiming? && !At(run, m + 1).phase.job.poll
    ensures At(run, m + 1).phase.job.episode != id
  {
    ResolvedStaysResolved(run, n, m, id);
    AlwaysOk(run, m);
    Stepped(run, m);
    hide At, SysOk;
    ClaimedEpisodeIsOpen(At(run, m), run[m].client, run[m].now, run[m].uuids);
  }
}
