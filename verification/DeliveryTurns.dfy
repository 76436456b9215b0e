/**
 What one delivery step picks and which intents it retries (server/src/notifications.rs:28-96, 180-237 and
 436-492), stated on the tables it finds.
 */
module DeliveryTurns {
  import opened Wrappers
  import opened Outbox
  import Attention
  import opened AdmissionRetry
  import opened DeliveryInvariant

  /** A plus sign and 2 to 15 digits, the first not a zero. */
  predicate IsPhone(s: string) {
    && 3 <= |s| <= 16 && s[0] == '+' && s[1] in "123456789"
    && forall c :: c in s[2..] ==> c in "0123456789"
  }

  lemma PhoneIs(s: string)
    ensures IsPhone(s) <==> E164(s)
  {
    forall c: char ensures Digit(c) <==> c in "0123456789" {
    }
    hide Digit;
    if E164(s) {
      assert Digit(s[1]);
    }
    if IsPhone(s) {
      forall i | 1 <= i < |s| ensures s[i] in "0123456789" {
        assert i >= 2 ==> s[2..][i - 2] == s[i];
      }
    }
  }

  // ---- The retry ----

  /** Under the settings it was made for, about an open and unacknowledged episode that it still speaks for, and
      not more than a day old. */
  predicate StillWanted(s: Settings, e: Episode, now: int) {
    && e.intent.Some? && e.intent.value.state.PendingAdmission? && s.enabled
    && e.intent.value.settingsRevision == s.revision && e.open && !e.acked
    && e.intent.value.revision == e.revision && now - 86_400_000 <= e.intent.value.createdAt
  }

  lemma WantedIs(s: Settings, e: Episode, now: int)
    ensures StillWanted(s, e, now) <==> Wanted(s, e, now)
  {
  }

  /** Why an intent that is not wanted any more is given up. */
  predicate GivenUp(s: Settings, e: Episode, now: int, i: Intent)
    requires e.intent.Some?
  {
    && i.revision == e.intent.value.revision && i.settingsRevision == e.intent.value.settingsRevision
    && i.createdAt == e.intent.value.createdAt && i.updatedAt == now
    && if !s.enabled || e.intent.value.settingsRevision != s.revision then
         i.state.IntentSuppressed? && i.reason == "configuration_changed"
       else if !e.open then i.state.IntentSuppressed? && i.reason == "condition_resolved"
       else if e.acked then i.state.IntentSuppressed? && i.reason == "acknowledged"
       else if e.intent.value.revision != e.revision then i.state.IntentSuppressed? && i.reason == "superseded"
       else i.state.IntentFailed? && i.reason == "admission_expired"
  }

  /** What becomes of one intent when its turn comes. */
  lemma TurnExactly(db: Db, id: Id, now: int, row: Id)
    requires id in db.episodes && PendingIntent(db.episodes[id]) && !StillWanted(db.settings, db.episodes[id], now)
    ensures var a := Head(db, id, now, row);
      && a.admitted && id in a.db.episodes && a.db.episodes[id].intent.Some?
      && GivenUp(db.settings, db.episodes[id], now, a.db.episodes[id].intent.value)
      && a.db.episodes[id] == db.episodes[id].(intent := a.db.episodes[id].intent)
      && a.db == db.(episodes := db.episodes[id := a.db.episodes[id]])
  {
    WantedIs(db.settings, db.episodes[id], now);
  }

  predicate Waiting(db: Db, id: Id) {
    && id in db.episodes && db.episodes[id].intent.Some?
    && db.episodes[id].intent.value.state.PendingAdmission?
  }

  /** Waiting longer, or equally long with a smaller identity. */
  predicate Longer(db: Db, id: Id, other: Id)
    requires Waiting(db, id) && Waiting(db, other)
  {
    var a, b := db.episodes[id].intent.value.createdAt, db.episodes[other].intent.value.createdAt;
    a < b || (a == b && id < other)
  }

  lemma WaitingIs(db: Db, id: Id)
    ensures Waiting(db, id) <==> id in PendingTimes(db.episodes)
    ensures Waiting(db, id) ==> PendingTimes(db.episodes)[id] == db.episodes[id].intent.value.createdAt
  {
  }

  /** All waiting intents, in order. */
  ghost predicate Queue(db: Db, all: seq<Id>) {
    && (forall i :: 0 <= i < |all| ==> Waiting(db, all[i]))
    && (forall i, j :: 0 <= i < j < |all| ==> Longer(db, all[i], all[j]))
    && (forall id :: Waiting(db, id) ==> id in all)
  }

  lemma QueueIs(db: Db)
    ensures Queue(db, InOrder(PendingTimes(db.episodes)))
  {
    var at := PendingTimes(db.episodes);
    var all := InOrder(at);
    InOrderKeys(at);
    hide InOrder, PendingTimes, Waiting;
    forall i | 0 <= i < |all| ensures Waiting(db, all[i]) {
      assert all[i] in all;
      WaitingIs(db, all[i]);
    }
    forall i, j | 0 <= i < j < |all| ensures Longer(db, all[i], all[j]) {
      assert Precedes(at, all[i], all[j]);
      WaitingIs(db, all[i]);
      WaitingIs(db, all[j]);
    }
    forall id | Waiting(db, id) ensures id in all {
      WaitingIs(db, id);
    }
  }

  /** The intents are retried in the order in which they began to wait; only the first 10 000 are. */
  lemma RetryOrder(db: Db, i: nat, id: Id)
    requires i < |Selected(db)|
    ensures |Selected(db)| <= 10_000 && Waiting(db, Selected(db)[i])
    ensures forall j :: i < j < |Selected(db)| ==>
      Waiting(db, Selected(db)[j]) && Longer(db, Selected(db)[i], Selected(db)[j])
    ensures Waiting(db, id) && id !in Selected(db) ==>
      |Selected(db)| == 10_000 && Longer(db, Selected(db)[i], id)
  {
    QueueIs(db);
    var all := InOrder(PendingTimes(db.episodes));
    hide InOrder, PendingTimes, Waiting, Longer;
    if Waiting(db, id) && id !in Selected(db) {
      var k :| 0 <= k < |all| && all[k] == id;
      assert k >= |Selected(db)|;
    }
  }

  /** Some intent was left waiting. */
  ghost predicate AnyWaiting(db: Db) {
    exists id :: Waiting(db, id)
  }

  lemma HeadLimit(db: Db, id: Id, now: int, row: Id)
    requires Waiting(db, id)
    ensures var a := Head(db, id, now, row);
      if a.admitted then a.db.settings == db.settings
      else a.db.settings == db.settings.(admissionLimited := true) && Waiting(a.db, id)
  {
    hide HasRow, MakeRoom, Stale, Expired, NewRow;
  }

  lemma {:induction false} LoopLimit(db: Db, ids: seq<Id>, now: int, uuids: seq<Id>)
    requires DbOk(db, {}) && Snapshot(db, ids) && |uuids| >= |ids| && Supply(uuids, db.drawn)
    ensures var db' := RetryEach(db, ids, now, uuids);
      || db'.settings == db.settings
      || (db'.settings == db.settings.(admissionLimited := true) && AnyWaiting(db'))
    decreases |ids|
  {
    hide DbOk;
    if ids != [] {
      HeadOk(db, ids[0], now, uuids[0]);
      HeadLimit(db, ids[0], now, uuids[0]);
      var a := Head(db, ids[0], now, uuids[0]);
      RetryUnfolds(db, ids, now, uuids);
      HeadDraws(db, a, ids[0], now, uuids[0]);
      SupplyTail(uuids, db.drawn, a.db.drawn);
      hide Head, RetryEach, Snapshot, Supply, HeadStep, Evolves, Waiting;
      if a.admitted {
        LoopLimit(a.db, ids[1..], now, uuids[1..]);
      }
    }
  }

  /** The settings show that admission is limited if they did before, or if the retry left an intent waiting. */
  lemma LimitShown(db: Db, now: int, uuids: seq<Id>)
    requires DbOk(db, {}) && |uuids| >= |Selected(db)| && Supply(uuids, db.drawn)
    ensures var db' := RetryPending(db, now, uuids);
      db'.settings == db.settings.(admissionLimited := db.settings.admissionLimited || AnyWaiting(db'))
  {
    hide DbOk, RetryEach, Selected, Supply, Waiting;
    SelectedPending(db);
    LoopLimit(db, Selected(db), now, uuids);
    var each := RetryEach(db, Selected(db), now, uuids);
    NoneWaiting(each);
  }

  lemma NoneWaiting(db: Db)
    ensures PendingTimes(db.episodes) != map[] <==> AnyWaiting(db)
    ensures AnyWaiting(db.(settings := db.settings.(admissionLimited := true))) <==> AnyWaiting(db)
  {
    if PendingTimes(db.episodes) != map[] {
      var id :| id in PendingTimes(db.episodes);
      assert Waiting(db, id);
    }
    if id :| Waiting(db, id) {
      assert id in PendingTimes(db.episodes);
      assert Waiting(db.(settings := db.settings.(admissionLimited := true)), id);
    }
    if id :| Waiting(db.(settings := db.settings.(admissionLimited := true)), id) {
      assert Waiting(db, id);
    }
  }

  // ---- The claim ----

  /** Half a minute after the last send, with notifications on and both numbers set. */
  predicate MaySend(s: Settings, now: int) {
    && (s.lastSendClaim.Some? ==> s.lastSendClaim.value + 30_000 <= now)
    && s.enabled && IsPhone(s.sender) && IsPhone(s.recipient)
  }

  /** Queued and due, under the present settings, for an episode still open and unacknowledged. */
  predicate SendDue(db: Db, id: Id, now: int) {
    && id in db.outbox && db.outbox[id].state.Queued? && db.outbox[id].nextAttempt <= now
    && db.outbox[id].settingsRevision == db.settings.revision
    && db.outbox[id].episode in db.episodes && db.episodes[db.outbox[id].episode].open
    && !db.episodes[db.outbox[id].episode].acked
  }

  predicate PollDue(db: Db, id: Id, now: int) {
    id in db.outbox && db.outbox[id].state.Accepted? && db.outbox[id].nextAttempt <= now
  }

  /** Earlier due, or equally early with a smaller identity. */
  predicate Sooner(db: Db, id: Id, other: Id)
    requires id in db.outbox && other in db.outbox
  {
    || db.outbox[id].nextAttempt < db.outbox[other].nextAttempt
    || (db.outbox[id].nextAttempt == db.outbox[other].nextAttempt && id <= other)
  }

  ghost predicate FirstSend(db: Db, id: Id, now: int) {
    SendDue(db, id, now) && forall other :: SendDue(db, other, now) ==> Sooner(db, id, other)
  }

  ghost predicate FirstPoll(db: Db, id: Id, now: int) {
    PollDue(db, id, now) && forall other :: PollDue(db, other, now) ==> Sooner(db, id, other)
  }

  ghost predicate AnySend(db: Db, now: int) {
    MaySend(db.settings, now) && exists id :: SendDue(db, id, now)
  }

  /** A job is what the claim knows of its row. */
  predicate JobFor(job: Job, id: Id, r: Row, poll: bool, now: int) {
    job == Job(id, r.episode, r.revision, poll, r.sid, r.attempts, now)
  }

  lemma MaySendIs(s: Settings, now: int)
    ensures MaySend(s, now) <==> SendReady(s, now)
  {
    PhoneIs(s.sender);
    PhoneIs(s.recipient);
    hide IsPhone, E164;
  }

  lemma DueIs(db: Db, id: Id, now: int)
    ensures SendDue(db, id, now) <==> id in DueSends(db, now)
    ensures PollDue(db, id, now) <==> id in DuePolls(db, now)
    ensures SendDue(db, id, now) ==> DueSends(db, now)[id] == db.outbox[id].nextAttempt
    ensures PollDue(db, id, now) ==> DuePolls(db, now)[id] == db.outbox[id].nextAttempt
  {
  }

  lemma FirstIs(db: Db, now: int)
    ensures DueSends(db, now) != map[] <==> exists id :: SendDue(db, id, now)
    ensures DueSends(db, now) != map[] ==> FirstSend(db, First(DueSends(db, now)), now)
    ensures DuePolls(db, now) != map[] <==> exists id :: PollDue(db, id, now)
    ensures DuePolls(db, now) != map[] ==> FirstPoll(db, First(DuePolls(db, now)), now)
  {
    forall id ensures SendDue(db, id, now) <==> id in DueSends(db, now)
      ensures PollDue(db, id, now) <==> id in DuePolls(db, now)
      ensures SendDue(db, id, now) ==> DueSends(db, now)[id] == db.outbox[id].nextAttempt
      ensures PollDue(db, id, now) ==> DuePolls(db, now)[id] == db.outbox[id].nextAttempt
    {
      DueIs(db, id, now);
    }
    hide SendDue, PollDue, DueSends, DuePolls;
    if DueSends(db, now) != map[] {
      var id :| id in DueSends(db, now);
      assert SendDue(db, id, now);
    }
    if DuePolls(db, now) != map[] {
      var id :| id in DuePolls(db, now);
      assert PollDue(db, id, now);
    }
  }

  /** What a step claims: the first message due to be sent, if any may be; else the first status due to be asked;
      else nothing.  Only that row, and for a send the time of the claim, change. */
  ghost predicate Picks(db: Db, now: int, c: Claimed) {
    if AnySend(db, now) then
      exists id :: FirstSend(db, id, now) && c.job.Some? && JobFor(c.job.value, id, db.outbox[id], false, now)
        && c.db == db.(settings := db.settings.(lastSendClaim := Some(now)),
          outbox := db.outbox[id := db.outbox[id].(state := Sending, attempts := db.outbox[id].attempts + 1,
            updatedAt := now)])
    else if exists id :: PollDue(db, id, now) then
      exists id :: FirstPoll(db, id, now) && c.job.Some? && JobFor(c.job.value, id, db.outbox[id], true, now)
        && c.db == db.(outbox := db.outbox[id := db.outbox[id].(nextAttempt := now + 60_000)])
    else c.job.None? && c.db == db
  }

  lemma SelectPicks(db: Db, now: int)
    ensures Picks(db, now, Select(db, now))
  {
    MaySendIs(db.settings, now);
    FirstIs(db, now);
    hide MaySend, SendReady, DueSends, DuePolls;
    if AnySend(db, now) {
      assert FirstSend(db, First(DueSends(db, now)), now);
    } else if DuePolls(db, now) != map[] {
      assert FirstPoll(db, First(DuePolls(db, now)), now);
    }
  }

  /** A claim with a client picks from the tables as sweeping and retrying leave them; without one it picks
      nothing. */
  lemma ClaimPicks(db: Db, client: bool, now: int, uuids: seq<Id>)
    requires |uuids| >= |Selected(Sweep(db, now))|
    ensures var ready := RetryPending(Sweep(db, now), now, uuids);
      if client then Picks(ready, now, Claim(db, client, now, uuids))
      else Claim(db, client, now, uuids) == Claimed(ready, None)
  {
    SelectPicks(RetryPending(Sweep(db, now), now, uuids), now);
    hide Picks, Select, RetryPending, Sweep, Selected;
  }

  // ---- Settings and acknowledgement ----

  function Given(given: Option<string>, was: string): string {
    if given.Some? then given.value else was
  }

  /** Empty only while notifications are off, and a phone number otherwise. */
  predicate Usable(phone: string, enabled: bool) {
    if phone == "" then !enabled else IsPhone(phone)
  }

  predicate AcceptsSettings(s: Settings, r: Request) {
    && s.revision == r.expected
    && Usable(Given(r.sender, s.sender), r.enabled) && Usable(Given(r.recipient, s.recipient), r.enabled)
  }

  predicate Withdrawn(i: Intent, i': Intent, reason: string, now: int) {
    if i.state.PendingAdmission? then i' == i.(state := IntentSuppressed, reason := reason, updatedAt := now)
    else i' == i
  }

  /** Nothing that waits to be sent is left: neither a queued row nor a pending intent, of one episode or of all. */
  ghost predicate NothingWaits(db: Db, db': Db, which: Option<Id>, reason: string, now: int) {
    && db'.outbox.Keys == db.outbox.Keys && db'.episodes.Keys == db.episodes.Keys
    && (forall r :: r in db.outbox ==> RowNext(db.outbox[r], db'.outbox[r], which, reason, now))
    && (forall e :: e in db.episodes ==> IntentNext(db.episodes[e], db'.episodes[e],
          which.None? || e == which.value, reason, now))
  }

  predicate RowNext(r: Row, r': Row, which: Option<Id>, reason: string, now: int) {
    if r.state.Queued? && (which.None? || r.episode == which.value)
    then r' == r.(state := Suppressed, reason := Some(reason), updatedAt := now)
    else r' == r
  }

  predicate IntentNext(e: Episode, e': Episode, chosen: bool, reason: string, now: int) {
    && (e.intent.None? <==> e'.intent.None?)
    && (e.intent.Some? ==>
          if chosen then Withdrawn(e.intent.value, e'.intent.value, reason, now) else e'.intent == e.intent)
  }

  /** Settings are taken exactly when they name the present revision and usable numbers; then everything that
      waited under the old ones is withdrawn. */
  lemma ConfigureExactly(db: Db, r: Request, now: int, revision: Id)
    ensures var db' := Configure(db, r, now, revision);
      if AcceptsSettings(db.settings, r) then
        && db'.settings == db.settings.(enabled := r.enabled, sender := Given(r.sender, db.settings.sender),
             recipient := Given(r.recipient, db.settings.recipient), revision := revision)
        && NothingWaits(db, db', None, "configuration_changed", now)
        && forall e :: e in db.episodes ==> db'.episodes[e] == db.episodes[e].(intent := db'.episodes[e].intent)
      else db' == db
  {
    AcceptsIs(db.settings, r);
    hide AcceptsSettings, Configurable;
  }

  lemma AcceptsIs(s: Settings, r: Request)
    ensures AcceptsSettings(s, r) <==> Configurable(s, r)
  {
    PhoneIs(Given(r.sender, s.sender));
    PhoneIs(Given(r.recipient, s.recipient));
    hide IsPhone, E164;
  }

  /** An acknowledgement is taken exactly when it names the present revision of an open episode; then the episode
      is acknowledged under a new revision and nothing about it waits any more. */
  lemma AcknowledgeExactly(db: Db, id: Id, revision: Id, now: int, next: Id)
    ensures var db' := Attention.Acknowledge(db, id, revision, now, next);
      if id in db.episodes && db.episodes[id].open && db.episodes[id].revision == revision then
        && db'.settings == db.settings && NothingWaits(db, db', Some(id), "acknowledged", now)
        && (forall e :: e in db.episodes && e != id ==> db'.episodes[e] == db.episodes[e])
        && db'.episodes[id] == db.episodes[id].(acked := true, revision := next, updatedAt := now,
             intent := db'.episodes[id].intent)
      else db' == db
  {
  }
}
