/**
 The tables of server/src/notifications.rs and server/src/attention.rs, updated statement by
 statement as the transactions do, each proved to commit exactly what its specification says.
 Two histories, drawn and admitted, are kept for the proofs only.
 */
module DeliveryStore {
  import opened Wrappers
  import opened Outbox
  import opened Attention
  import opened AdmissionRetry

  class Store {
    var settings: Settings
    var episodes: map<Id, Episode>
    var outbox: map<Id, Row>
    ghost var drawn: set<Id>
    ghost var admitted: map<(Id, Id), Id>

    ghost function View(): Db
      reads this
    {
      Db(settings, episodes, outbox, drawn, admitted)
    }

    constructor ()
      ensures View() == Db(Settings(false, "", "", 0, None, false), map[], map[], {0}, map[])
    {
      settings := Settings(false, "", "", 0, None, false);
      episodes, outbox, drawn, admitted := map[], map[], {0}, map[];
    }

    /** SELECT ... ORDER BY time, id LIMIT 1. */
    static method SelectFirst(at: map<Id, int>) returns (first: Option<Id>)
      ensures first == if at == map[] then None else Some(First(at))
    {
      first := None;
      var rest := at.Keys;
      while rest != {}
        invariant rest <= at.Keys
        invariant first.None? ==> rest == at.Keys
        invariant first.Some? ==>
          && first.value in at
          && forall j :: j in at && j !in rest ==>
               at[first.value] < at[j] || (at[first.value] == at[j] && first.value <= j)
        decreases |rest|
      {
        var j :| j in rest;
        if first.None? || at[j] < at[first.value] || (at[j] == at[first.value] && j < first.value) {
          first := Some(j);
        }
        rest := rest - {j};
      }
      if at != map[] {
        assert first.Some? by { assert at.Keys != {}; }
        assert IsFirst(at, first.value);
        FirstUnique(at, first.value, First(at));
      }
    }

    // ---- Admission ----

    /** A full outbox gives up its oldest finished row; the number of rows left. */
    method Evict() returns (count: nat)
      modifies this`outbox
      ensures outbox == Outbox.MakeRoom(old(outbox)) && count == |outbox|
    {
      count := |outbox|;
      if count >= MAX_OUTBOX {
        var oldest := SelectFirst(Evictable(outbox));
        if oldest.Some? {
          assert oldest.value in Evictable(outbox);
          assert (outbox - {oldest.value}).Keys == outbox.Keys - {oldest.value};
          outbox := outbox - {oldest.value};
          count := count - 1;
        }
      }
    }

    method Admit(episode: Id, revision: Id, settingsRevision: Id, enabled: bool, created: int, now: int, row: Id)
      returns (ok: bool)
      modifies this
      ensures Outbox.Admission(View(), ok)
        == Outbox.Admit(old(View()), episode, revision, settingsRevision, enabled, created, now, row)
    {
      if exists id :: id in outbox && outbox[id].episode == episode && outbox[id].revision == revision {
        assert HasRow(outbox, episode, revision);
        if episode in episodes && episodes[episode].intent.Some?
          && episodes[episode].intent.value.revision == revision {
          episodes := episodes[episode := episodes[episode].(intent := None)];
        }
        return true;
      }
      assert !HasRow(outbox, episode, revision);
      hide MakeRoom, HasRow;
      var count := Evict();
      if count >= MAX_OUTBOX {
        if episode in episodes {
          episodes := episodes[episode := episodes[episode].(intent := Some(Deferred(revision, settingsRevision,
            enabled, created, now)))];
        }
        if enabled {
          settings := settings.(admissionLimited := true);
        }
        return false;
      }
      outbox := outbox[row := NewRow(episode, revision, settingsRevision, enabled, created, now)];
      drawn, admitted := drawn + {row}, admitted[(episode, revision) := row];
      if episode in episodes {
        episodes := episodes[episode := episodes[episode].(intent := None)];
      }
      return true;
    }

    method Enqueue(episode: Id, revision: Id, now: int, row: Id)
      modifies this
      ensures View() == Outbox.Enqueue(old(View()), episode, revision, now, row)
    {
      var _ := Admit(episode, revision, settings.revision, settings.enabled, now, now, row);
    }

    // ---- Retrying deferred intents ----

    /** SELECT id ... ORDER BY created_at, id LIMIT 10000. */
    method SelectPending() returns (ids: seq<Id>)
      ensures ids == Selected(View())
    {
      var at := PendingTimes(episodes);
      ids := [];
      ghost var all := InOrder(at);
      InOrderKeys(at);
      hide InOrder, PendingTimes, IsFirst;
      var first := SelectFirst(at);
      while first.Some? && |ids| < MAX_EPISODES
        invariant all == ids + InOrder(at) && |ids| <= MAX_EPISODES
        invariant first == if at == map[] then None else Some(First(at))
        decreases |at|
      {
        InOrderStep(at);
        Moved(ids, first.value, InOrder(at - {first.value}));
        ids := ids + [first.value];
        at := at - {first.value};
        first := SelectFirst(at);
      }
      InOrderEnd(at);
      Prefix(ids, InOrder(at));
    }

    /** What the loop does with one deferred intent; false ends the loop. */
    method RetryOne(id: Id, revision: Id, now: int, row: Id) returns (ok: bool)
      requires id in episodes && PendingIntent(episodes[id]) && revision == settings.revision
      modifies this
      ensures Admission(View(), ok) == Head(old(View()), id, now, row)
    {
      hide Outbox.Admit;
      var e := episodes[id];
      var reason :=
        if !settings.enabled || e.intent.value.settingsRevision != revision then Some("configuration_changed")
        else if !e.open then Some("condition_resolved")
        else if e.acked then Some("acknowledged")
        else if e.intent.value.revision != e.revision then Some("superseded")
        else None;
      if reason.Some? {
        episodes := CancelIntent(episodes, Some(id), reason.value, now);
        return true;
      }
      var created := e.intent.value.createdAt;
      if now - created > DAY_MS {
        var expired := e.intent.value.(state := IntentFailed, reason := "admission_expired", updatedAt := now);
        episodes := episodes[id := e.(intent := Some(expired))];
        return true;
      }
      ok := Admit(id, e.intent.value.revision, revision, true, created, now, row);
    }

    /** The loop over the snapshot: whatever is still to be done continues from where it stands. */
    method RetryPending(now: int, uuids: seq<Id>)
      requires |uuids| >= |Selected(View())|
      modifies this
      ensures View() == Outbox.RetryPending(old(View()), now, uuids)
    {
      SelectedPending(View());
      var revision := settings.revision;
      var ids := SelectPending();
      hide RetryEach, Head, Selected, PendingIntent;
      assert Snapshot(View(), ids) by { SnapshotSelected(View()); }
      var i := 0;
      assert ids[0..] == ids && uuids[0..] == uuids;
      while i < |ids|
        invariant 0 <= i <= |ids| <= |uuids| && settings.revision == revision
        invariant Snapshot(View(), ids[i..])
          && RetryEach(View(), ids[i..], now, uuids[i..]) == RetryEach(old(View()), ids, now, uuids)
      {
        ghost var before := View();
        HeadUnfolds(before, ids[i..], now, uuids[i..]);
        Advanced(ids, i);
        Advanced(uuids, i);
        SnapshotFirst(before, ids[i..]);
        var ok := RetryOne(ids[i], revision, now, uuids[i]);
        if !ok {
          break;
        }
        i := i + 1;
      }
      if i == |ids| {
        RetryNothing(View(), now, uuids[i..]);
        assert ids[i..] == [];
      }
      assert View() == RetryEach(old(View()), ids, now, uuids);
      AnyPending(episodes);
      if exists id :: id in episodes && PendingIntent(episodes[id]) {
        settings := settings.(admissionLimited := true);
      }
    }

    // ---- Settings and restart ----

    method Configure(r: Request, now: int, revision: Id) returns (ok: bool)
      modifies this
      ensures View() == Outbox.Configure(old(View()), r, now, revision)
      ensures ok <==> Configurable(old(settings), r)
    {
      if r.expected != settings.revision {
        return false;
      }
      var sender := if r.sender.Some? then r.sender.value else settings.sender;
      var recipient := if r.recipient.Some? then r.recipient.value else settings.recipient;
      if (sender != "" && !E164(sender)) || (r.enabled && sender == "")
        || (recipient != "" && !E164(recipient)) || (r.enabled && recipient == "")
      {
        return false;
      }
      settings := settings.(enabled := r.enabled, sender := sender, recipient := recipient, revision := revision);
      drawn := drawn + {revision};
      outbox := Mark(outbox, Queued, None, None, Suppressed, "configuration_changed", now);
      episodes := CancelIntent(episodes, None, "configuration_changed", now);
      return true;
    }

    method Recover(now: int)
      modifies this
      ensures View() == Outbox.Recover(old(View()), now)
    {
      outbox := Mark(outbox, Sending, None, None, Uncertain, "interrupted_send", now);
    }

    // ---- A delivery step ----

    /** The transaction before the HTTP operation. */
    method Claim(client: bool, now: int, uuids: seq<Id>) returns (job: Option<Job>)
      requires Supply(uuids, drawn) && |uuids| >= |Selected(Sweep(View(), now))|
      modifies this
      ensures Claimed(View(), job) == Outbox.Claim(old(View()), client, now, uuids)
    {
      hide Mark, Selected, Outbox.RetryPending, Select, Supply;
      outbox := Mark(outbox, Sending, None, None, Uncertain, "outcome_not_recorded", now);
      outbox := Mark(outbox, Queued, None, Some(now - DAY_MS), Failed, "queue_expired", now);
      outbox := Mark(outbox, Accepted, None, Some(now - DAY_MS), Uncertain, "delivery_deadline", now);
      assert View() == Sweep(old(View()), now);
      RetryPending(now, uuids);
      if !client {
        return None;
      }
      job := ClaimDue(now);
    }

    /** A due send when the spacing allows one, otherwise a due status poll. */
    method ClaimDue(now: int) returns (job: Option<Job>)
      modifies this
      ensures Claimed(View(), job) == Select(old(View()), now)
    {
      hide SendReady, IsFirst;
      var queued: Option<Id> := None;
      if SendReady(settings, now) {
        var due := map id | id in outbox && Due(id, now) :: outbox[id].nextAttempt;
        assert due == DueSends(View(), now);
        queued := SelectFirst(due);
      }
      if queued.Some? {
        var id := queued.value;
        FirstIn(DueSends(View(), now));
        var r := outbox[id];
        outbox := outbox[id := r.(state := Sending, attempts := r.attempts + 1, updatedAt := now)];
        settings := settings.(lastSendClaim := Some(now));
        return Some(Job(id, r.episode, r.revision, false, r.sid, r.attempts, now));
      }
      var due :=
        map id | id in outbox && outbox[id].state.Accepted? && outbox[id].nextAttempt <= now :: outbox[id].nextAttempt;
      assert due == DuePolls(View(), now);
      var accepted := SelectFirst(due);
      if accepted.None? {
        return None;
      }
      var id := accepted.value;
      FirstIn(due);
      var r := outbox[id];
      outbox := outbox[id := r.(nextAttempt := now + 60_000)];
      return Some(Job(id, r.episode, r.revision, true, r.sid, r.attempts, now));
    }

    predicate Due(id: Id, now: int)
      requires id in outbox
      reads this
    {
      var r := outbox[id];
      && r.state.Queued? && r.nextAttempt <= now && r.settingsRevision == settings.revision
      && r.episode in episodes && episodes[r.episode].open && !episodes[r.episode].acked
    }

    /** What the worker writes once the provider answered. */
    method Record(job: Job, reply: Reply)
      modifies this
      ensures View() == Outbox.Record(old(View()), job, reply)
    {
      hide Classify;
      var outcome := Classify(if job.poll then job.message else None, reply);
      var attempts := job.attempts + if job.poll then 0 else 1;
      if job.poll && (outcome.state.Queued? || outcome.state.Uncertain? || outcome.state.Failed?) && outcome.sid.None? {
        outcome := outcome.(state := Accepted);
      }
      if !job.poll && outcome.state.Queued? && attempts >= 4 {
        outcome := outcome.(state := Failed, reason := Some("retry_limit"));
      }
      var at := if outcome.state.Queued? then job.now + Backoff(attempts) else job.now + 60_000;
      if job.row in outbox {
        var was := outbox[job.row];
        outbox := outbox[job.row := was.(
          state := outcome.state, nextAttempt := at, updatedAt := job.now,
          sid := if outcome.sid.Some? then outcome.sid else was.sid,
          provider := if outcome.provider.Some? then outcome.provider else was.provider,
          reason := outcome.reason)];
      }
    }

    // ---- Operator episodes ----

    method Acknowledge(id: Id, revision: Id, now: int, next: Id) returns (ok: bool)
      modifies this
      ensures View() == Attention.Acknowledge(old(View()), id, revision, now, next)
      ensures ok <==> Acknowledgeable(old(View()), id, revision)
    {
      if id !in episodes || episodes[id].revision != revision || !episodes[id].open {
        return false;
      }
      episodes := episodes[id := episodes[id].(acked := true, revision := next, updatedAt := now)];
      drawn := drawn + {next};
      episodes := CancelIntent(episodes, Some(id), "acknowledged", now);
      outbox := Mark(outbox, Queued, Some(id), None, Suppressed, "acknowledged", now);
      return true;
    }

    method ObserveCondition(c: Condition, now: int, draw: Draw)
      requires OneOpenPerKey(episodes) && draw.episode !in episodes
      modifies this
      ensures View() == Attention.ObserveCondition(old(View()), c, now, draw)
    {
      if c.oversized {
        return;
      }
      hide Apply;
      if id :| id in episodes && episodes[id].open && episodes[id].sourceKey == c.key {
        assert IsOpen(episodes, c.key, id);
        Evaluate(c, now, id, draw);
        return;
      }
      assert !HasOpen(episodes, c.key);
      if !c.status.ConditionOpen? {
        return;
      }
      if |episodes| >= MAX_EPISODES {
        settings := settings.(admissionLimited := true);
        return;
      }
      Evaluate(c, now, draw.episode, draw);
    }

    /** The evaluation of one condition against the open episode id, or a new one. */
    method Evaluate(c: Condition, now: int, id: Id, draw: Draw)
      modifies this
      ensures View() == Apply(old(View()), c, now, id, draw)
    {
      ghost var was := View();
      hide Correlated, Resumes, Undelivered, Heirs, Outbox.Enqueue, CancelIntent, Mark, PassOn;
      var continuing := id in episodes;
      var isFresh := Fresh(c);
      var open := !(c.status.ConditionResolved? && isFresh);
      var transition := !continuing || (isFresh && (episodes[id].severity != c.severity || !open));
      var revision := if transition then draw.revision else episodes[id].revision;
      var severity := if continuing && !isFresh then episodes[id].severity else c.severity;
      var acked := !transition && episodes[id].acked;
      var correlated: Option<Id> := None;
      if transition && open {
        correlated := SelectFirst(Correlated(episodes, c, id));
      }
      var marks :=
        if correlated.Some? then Marks(correlated, None, None)
        else if !transition then episodes[id].marks else Marks(None, None, None);
      var resumes := Resumes(settings, c, acked, marks.pending, now);
      if resumes {
        assert marks.pending.Some? by { ResumesPending(settings, c, acked, marks.pending, now); }
        marks := Marks(None, None, Some(marks.pending.value.episode));
      }
      var waiting := false;
      if !open {
        waiting := IsUndelivered(id, now);
      }
      episodes := episodes[id := Episode(c.key, if continuing then episodes[id].kind else c.kind, c.node, open,
        severity,
        c.observation, c.facts, marks, revision, if continuing then episodes[id].firstSeen else now, now,
        if open then None else Some(now), acked, if continuing then episodes[id].intent else None)];
      drawn := drawn + {id} + (if transition then {revision} else {});
      assert resumes == ResumesTransfer(was, c, now, id) by { NothingPending(settings, c, acked, now); }
      assert transition == Transition(was, c, id);
      assert View() == Written(was, c, now, id, draw) by { NothingPending(settings, c, acked, now); }
      var announces := transition && open && correlated.None? && !severity.Info?;
      assert announces == Announces(was, c, now, id, draw);
      assert open == NextEpisode(was, c, now, id, draw.revision).open;
      hide Written, Announces, ResumesTransfer, Transition, NextEpisode, Fresh, IsFirst;
      if transition {
        episodes := CancelIntent(episodes, Some(id), if open then "superseded" else "condition_resolved", now);
      }
      if announces {
        Enqueue(id, revision, now, draw.row);
      }
      if resumes {
        Enqueue(id, revision, now, draw.row);
      }
      assert View() == Notified(was, c, now, id, draw);
      hide Notified;
      if !open {
        episodes := CancelIntent(episodes, Some(id), "condition_resolved", now);
        outbox := Mark(outbox, Queued, Some(id), None, Suppressed, "condition_resolved", now);
        if waiting {
          HandOver(c, id, now, draw.row);
        }
      }
    }

    static lemma ResumesPending(s: Settings, c: Condition, acked: bool, pending: Option<Transfer>, now: int)
      ensures Resumes(s, c, acked, pending, now) ==> pending.Some?
    {
    }

    static lemma NothingPending(s: Settings, c: Condition, acked: bool, now: int)
      ensures !Resumes(s, c, acked, None, now)
    {
    }

    /** SELECT EXISTS(...): a queued row or a pending intent under the current settings. */
    method IsUndelivered(id: Id, now: int) returns (waiting: bool)
      ensures waiting == Undelivered(View(), id, now)
    {
      waiting := false;
      if id in episodes && settings.enabled {
        var revision := settings.revision;
        var queued := exists r ::
          r in outbox && outbox[r].episode == id && outbox[r].state.Queued? && outbox[r].settingsRevision == revision;
        var e := episodes[id];
        waiting := queued || (e.intent.Some? && e.intent.value.state.PendingAdmission?
          && e.intent.value.settingsRevision == settings.revision && e.intent.value.createdAt >= now - DAY_MS);
      }
    }

    /** The other correlated concern takes over the notification. */
    method HandOver(c: Condition, id: Id, now: int, row: Id)
      modifies this
      ensures View() == PassOn(old(View()), c, id, now, row)
    {
      hide Outbox.Enqueue, IsFirst;
      var heirs := Heirs(episodes, c.node, id);
      var other := SelectFirst(heirs);
      if other.None? {
        return;
      }
      assert other.value in heirs by { assert IsFirst(heirs, First(heirs)); FirstIn(heirs); }
      var e := episodes[other.value];
      if StartsWith(e.sourceKey, DEVICE_PRESENCE) {
        var pending := Transfer(id, settings.revision, now, e.facts.epoch);
        episodes := episodes[other.value := e.(updatedAt := now, marks := e.marks.(pending := Some(pending)))];
      } else {
        Enqueue(other.value, e.revision, now, row);
        if other.value in episodes {
          var e' := episodes[other.value];
          episodes := episodes[other.value := e'.(updatedAt := now,
            marks := e'.marks.(correlation := None, from := Some(id)))];
        }
      }
    }

    static lemma FirstIn(at: map<Id, int>)
      requires at != map[]
      ensures First(at) in at
    {
    }
  }

  lemma InOrderStep(at: map<Id, int>)
    requires at != map[]
    ensures InOrder(at) == [First(at)] + InOrder(at - {First(at)}) && |at - {First(at)}| < |at|
  {
    assert (at - {First(at)}).Keys == at.Keys - {First(at)};
  }

  lemma Moved(a: seq<Id>, x: Id, b: seq<Id>)
    ensures a + ([x] + b) == (a + [x]) + b
  {
  }

  lemma Prefix(a: seq<Id>, b: seq<Id>)
    ensures (a + b)[..|a|] == a && (b == [] ==> a + b == a)
  {
  }

  lemma InOrderEnd(at: map<Id, int>)
    ensures if at == map[] then InOrder(at) == [] else |InOrder(at)| > 0
  {
  }

  /** One turn of the retry loop. */
  lemma HeadUnfolds(db: Db, ids: seq<Id>, now: int, uuids: seq<Id>)
    requires ids != [] && Snapshot(db, ids) && |uuids| >= |ids|
    ensures var a := Head(db, ids[0], now, uuids[0]);
      && Snapshot(a.db, ids[1..])
      && a.db.settings == db.settings.(admissionLimited := a.db.settings.admissionLimited)
      && RetryEach(db, ids, now, uuids) == if a.admitted then RetryEach(a.db, ids[1..], now, uuids[1..]) else a.db
  {
    HeadLeavesOthers(db, ids[0], now, uuids[0]);
    var a := Head(db, ids[0], now, uuids[0]);
    forall i | 0 <= i < |ids[1..]| ensures ids[1..][i] in a.db.episodes && PendingIntent(a.db.episodes[ids[1..][i]]) {
      assert ids[1..][i] == ids[i + 1] && ids[0] != ids[i + 1];
    }
    assert Snapshot(a.db, ids[1..]);
    hide Outbox.Admit, CancelIntent, SetIntent;
  }

  lemma HeadLeavesOthers(db: Db, id: Id, now: int, row: Id)
    requires id in db.episodes && PendingIntent(db.episodes[id])
    ensures var a := Head(db, id, now, row).db;
      && a.settings == db.settings.(admissionLimited := a.settings.admissionLimited)
      && forall j :: j in db.episodes && j != id ==> j in a.episodes && a.episodes[j] == db.episodes[j]
  {
    HeadSettings(db, id, now, row);
    HeadOthers(db, id, now, row);
    hide Head;
  }

  lemma RetryNothing(db: Db, now: int, uuids: seq<Id>)
    ensures RetryEach(db, [], now, uuids) == db
  {
  }

  lemma Advanced(s: seq<Id>, i: nat)
    requires i < |s|
    ensures s[i..] != [] && s[i..][0] == s[i] && s[i..][1..] == s[i + 1..]
  {
  }

  lemma AnyPending(episodes: map<Id, Episode>)
    ensures (exists id :: id in episodes && PendingIntent(episodes[id])) <==> PendingTimes(episodes) != map[]
  {
    if id :| id in episodes && PendingIntent(episodes[id]) {
      assert id in PendingTimes(episodes);
    }
  }

  lemma SnapshotSelected(db: Db)
    ensures Snapshot(db, Selected(db))
  {
    SelectedPending(db);
    hide Selected;
  }

  lemma SnapshotFirst(db: Db, ids: seq<Id>)
    requires ids != [] && Snapshot(db, ids)
    ensures ids[0] in db.episodes && PendingIntent(db.episodes[ids[0]])
  {
  }
}
