/**
 The durable SMS outbox of server/src/notifications.rs: settings, admission under a row limit,
 retry of deferred intents, and the two database halves of a delivery step.  Tables are maps, one
 committed transaction is one function, and UUIDs are numbers supplied by the caller.
 */
module Outbox {
  import opened Wrappers

  const MAX_OUTBOX: nat := 1000
  const MAX_EPISODES: nat := 10_000
  const DAY_MS: int := 86_400_000
  const SEND_SPACING_MS: int := 30_000
  const MAX_ATTEMPTS: nat := 4

  /** A UUID: episode, row or revision identity. */
  type Id = nat

  datatype RowState = Queued | Sending | Accepted | Delivered | Failed | Uncertain | Suppressed

  datatype Row = Row(
    episode: Id, revision: Id, state: RowState, attempts: nat, nextAttempt: int,
    createdAt: int, updatedAt: int, sid: Option<string>, provider: Option<string>,
    reason: Option<string>, settingsRevision: Id)

  datatype IntentState = PendingAdmission | IntentSuppressed | IntentFailed

  datatype Intent = Intent(
    state: IntentState, revision: Id, settingsRevision: Id, createdAt: int, updatedAt: int, reason: string)

  datatype Severity = Info | Warning | Critical

  /** The evidence fields that correlate a removed drive with its vanished USB connection. */
  datatype Facts = Facts(epoch: string, usbWatch: Option<string>, watch: Option<string>, rule: string)

  datatype Transfer = Transfer(episode: Id, settingsRevision: Id, createdAt: int, epoch: string)

  /** notification_correlation, notification_transfer_pending and notification_transfer_from. */
  datatype Marks = Marks(correlation: Option<Id>, pending: Option<Transfer>, from: Option<Id>)

  datatype Episode = Episode(
    sourceKey: string, kind: string, node: string, open: bool, severity: Severity, observation: string,
    facts: Facts, marks: Marks, revision: Id, firstSeen: int, updatedAt: int, resolvedAt: Option<int>,
    acked: bool, intent: Option<Intent>)

  datatype Settings = Settings(
    enabled: bool, sender: string, recipient: string, revision: Id,
    lastSendClaim: Option<int>, admissionLimited: bool)

  /** The committed tables.  Two histories ride along: every UUID ever drawn, and the row that each
      episode revision was admitted as. */
  datatype Db = Db(
    settings: Settings, episodes: map<Id, Episode>, outbox: map<Id, Row>,
    drawn: set<Id>, admitted: map<(Id, Id), Id>)

  // ---- Small table operations ----

  predicate Active(r: Row) {
    r.state.Queued? || r.state.Sending? || r.state.Accepted?
  }

  /** UPDATE ... SET state, reason, updated_at WHERE state = from [AND episode_id] [AND created_at <]. */
  function Mark(outbox: map<Id, Row>, from: RowState, episode: Option<Id>, before: Option<int>,
    to: RowState, reason: string, now: int): map<Id, Row>
  {
    map id | id in outbox ::
      if outbox[id].state == from
         && (episode.Some? ==> outbox[id].episode == episode.value)
         && (before.Some? ==> outbox[id].createdAt < before.value)
      then outbox[id].(state := to, reason := Some(reason), updatedAt := now)
      else outbox[id]
  }

  predicate PendingIntent(e: Episode) {
    e.intent.Some? && e.intent.value.state.PendingAdmission?
  }

  /** cancel_intent (lines 98-107). */
  function CancelIntent(episodes: map<Id, Episode>, which: Option<Id>, reason: string, now: int): map<Id, Episode> {
    map id | id in episodes ::
      if (which.Some? ==> id == which.value) && PendingIntent(episodes[id])
      then episodes[id].(intent := Some(episodes[id].intent.value.(state := IntentSuppressed, reason := reason,
        updatedAt := now)))
      else episodes[id]
  }

  // ---- ORDER BY time, id LIMIT 1 ----

  ghost predicate IsFirst(at: map<Id, int>, id: Id) {
    id in at && forall j :: j in at ==> at[id] < at[j] || (at[id] == at[j] && id <= j)
  }

  lemma FirstUnique(at: map<Id, int>, i: Id, j: Id)
    requires IsFirst(at, i) && IsFirst(at, j)
    ensures i == j
  {
  }

  lemma {:induction false} FirstExists(at: map<Id, int>)
    requires at != map[]
    ensures exists id :: IsFirst(at, id)
    decreases |at|
  {
    var k :| k in at;
    var rest := map j | j in at && j != k :: at[j];
    assert rest.Keys == at.Keys - {k};
    if rest == map[] {
      assert at.Keys == {k} + rest.Keys;
      assert IsFirst(at, k);
    } else {
      FirstExists(rest);
      var f :| IsFirst(rest, f);
      if at[k] < at[f] || (at[k] == at[f] && k <= f) {
        assert IsFirst(at, k) by {
          forall j | j in at ensures at[k] < at[j] || (at[k] == at[j] && k <= j) { if j != k { assert j in rest; } }
        }
      } else {
        assert IsFirst(at, f) by {
          forall j | j in at ensures at[f] < at[j] || (at[f] == at[j] && f <= j) { if j != k { assert j in rest; } }
        }
      }
    }
  }

  ghost function First(at: map<Id, int>): (id: Id)
    requires at != map[]
    ensures IsFirst(at, id)
  {
    FirstExists(at);
    var id :| IsFirst(at, id);
    id
  }

  // ---- Admission (lines 108-179) ----

  function Evictable(outbox: map<Id, Row>): map<Id, int> {
    map id | id in outbox && !Active(outbox[id]) :: outbox[id].createdAt
  }

  ghost predicate HasRow(outbox: map<Id, Row>, episode: Id, revision: Id) {
    exists id :: id in outbox && outbox[id].episode == episode && outbox[id].revision == revision
  }

  /** A full outbox gives up its oldest finished row, if it has one. */
  ghost function MakeRoom(outbox: map<Id, Row>): map<Id, Row> {
    if |outbox| >= MAX_OUTBOX && Evictable(outbox) != map[] then outbox - {First(Evictable(outbox))} else outbox
  }

  function NewRow(episode: Id, revision: Id, settingsRevision: Id, enabled: bool, created: int, now: int): Row {
    Row(episode, revision, if enabled then Queued else Suppressed, 0, now, created, now, None, None,
      if enabled then None else Some("disabled"), settingsRevision)
  }

  function Deferred(revision: Id, settingsRevision: Id, enabled: bool, created: int, now: int): Intent {
    Intent(if enabled then PendingAdmission else IntentSuppressed, revision, settingsRevision, created, now,
      if enabled then "outbox_full" else "disabled")
  }

  function SetIntent(db: Db, episode: Id, intent: Option<Intent>): Db {
    if episode in db.episodes then db.(episodes := db.episodes[episode := db.episodes[episode].(intent := intent)])
      else db
  }

  datatype Admission = Admission(db: Db, admitted: bool)

  ghost function Admit(db: Db, episode: Id, revision: Id, settingsRevision: Id, enabled: bool,
    created: int, now: int, row: Id): Admission
  {
    if HasRow(db.outbox, episode, revision) then
      if episode in db.episodes && db.episodes[episode].intent.Some?
        && db.episodes[episode].intent.value.revision == revision
      then Admission(SetIntent(db, episode, None), true)
      else Admission(db, true)
    else
      var room := MakeRoom(db.outbox);
      if |room| >= MAX_OUTBOX then
        var kept := SetIntent(db.(outbox := room), episode,
          Some(Deferred(revision, settingsRevision, enabled, created, now)));
        Admission(kept.(settings := if enabled then kept.settings.(admissionLimited := true) else kept.settings), false)
      else
        Admission(SetIntent(db.(
          outbox := room[row := NewRow(episode, revision, settingsRevision, enabled, created, now)],
          drawn := db.drawn + {row},
          admitted := db.admitted[(episode, revision) := row]), episode, None), true)
  }

  ghost function Enqueue(db: Db, episode: Id, revision: Id, now: int, row: Id): Db {
    Admit(db, episode, revision, db.settings.revision, db.settings.enabled, now, now, row).db
  }

  // ---- Retrying deferred intents (lines 180-237) ----

  function PendingTimes(episodes: map<Id, Episode>): map<Id, int> {
    map id | id in episodes && PendingIntent(episodes[id]) :: episodes[id].intent.value.createdAt
  }

  /** The keys of a table in ORDER BY (time, id). */
  ghost function InOrder(at: map<Id, int>): seq<Id>
    decreases |at|
  {
    if at == map[] then [] else
      var f := First(at);
      var rest := at - {f};
      assert rest.Keys == at.Keys - {f};
      [f] + InOrder(rest)
  }

  /** Why a deferred intent is no longer wanted; None when it is still valid. */
  function Stale(settings: Settings, e: Episode): Option<string>
    requires PendingIntent(e)
  {
    if !settings.enabled || e.intent.value.settingsRevision != settings.revision then Some("configuration_changed")
    else if !e.open then Some("condition_resolved")
    else if e.acked then Some("acknowledged")
    else if e.intent.value.revision != e.revision then Some("superseded")
    else None
  }

  predicate Expired(e: Episode, now: int)
    requires PendingIntent(e)
  {
    now - e.intent.value.createdAt > DAY_MS
  }

  /** The loop over the snapshot, stopping at the first intent that finds no room. */
  ghost function RetryEach(db: Db, ids: seq<Id>, now: int, uuids: seq<Id>): Db
    requires |uuids| >= |ids|
    requires forall i :: 0 <= i < |ids| ==> ids[i] in db.episodes && PendingIntent(db.episodes[ids[i]])
    requires forall i, j :: 0 <= i < j < |ids| ==> ids[i] != ids[j]
    decreases |ids|
  {
    if ids == [] then db else
      var id := ids[0];
      var e := db.episodes[id];
      if Stale(db.settings, e).Some? then
        RetryEach(db.(episodes := CancelIntent(db.episodes, Some(id), Stale(db.settings, e).value, now)), ids[1..],
          now, uuids[1..])
      else if Expired(e, now) then
        RetryEach(SetIntent(db, id,
          Some(e.intent.value.(state := IntentFailed, reason := "admission_expired", updatedAt := now))),
          ids[1..], now, uuids[1..])
      else
        var a := Admit(db, id, e.intent.value.revision, db.settings.revision, true, e.intent.value.createdAt, now,
          uuids[0]);
        if a.admitted then RetryEach(a.db, ids[1..], now, uuids[1..]) else a.db
  }

  ghost function Selected(db: Db): seq<Id> {
    var all := InOrder(PendingTimes(db.episodes));
    if |all| > MAX_EPISODES then all[..MAX_EPISODES] else all
  }

  /** The order of every selection: by time, then by identity. */
  predicate Precedes(at: map<Id, int>, i: Id, j: Id) {
    i in at && j in at && (at[i] < at[j] || (at[i] == at[j] && i < j))
  }

  lemma {:induction false} InOrderSize(at: map<Id, int>)
    ensures |InOrder(at)| == |at|
    decreases |at|
  {
    if at != map[] {
      var rest := at - {First(at)};
      assert rest.Keys == at.Keys - {First(at)};
      InOrderSize(rest);
      assert |at.Keys| == |rest.Keys| + 1;
      hide IsFirst;
    }
  }

  lemma {:induction false} InOrderMembers(at: map<Id, int>, id: Id)
    ensures id in InOrder(at) <==> id in at
    decreases |at|
  {
    if at != map[] {
      var f := First(at);
      assert InOrder(at) == [f] + InOrder(at - {f});
      assert (at - {f}).Keys == at.Keys - {f};
      InOrderMembers(at - {f}, id);
      hide IsFirst;
    }
  }

  lemma {:induction false} InOrderAscends(at: map<Id, int>, i: nat, j: nat)
    requires i < j < |InOrder(at)|
    ensures Precedes(at, InOrder(at)[i], InOrder(at)[j])
    decreases |at|
  {
    if at != map[] {
      var f := First(at);
      var rest := at - {f};
      assert rest.Keys == at.Keys - {f};
      assert InOrder(at)[j] == InOrder(rest)[j - 1];
      InOrderMembers(rest, InOrder(rest)[j - 1]);
      if i > 0 {
        InOrderAscends(rest, i - 1, j - 1);
      }
    }
  }

  /** Each key once, in order. */
  lemma InOrderKeys(at: map<Id, int>)
    ensures |InOrder(at)| == |at|
    ensures forall id :: id in InOrder(at) <==> id in at
    ensures forall i, j :: 0 <= i < j < |InOrder(at)| ==> Precedes(at, InOrder(at)[i], InOrder(at)[j])
  {
    InOrderSize(at);
    forall id ensures id in InOrder(at) <==> id in at {
      InOrderMembers(at, id);
    }
    forall i, j | 0 <= i < j < |InOrder(at)| ensures Precedes(at, InOrder(at)[i], InOrder(at)[j]) {
      InOrderAscends(at, i, j);
    }
    hide InOrder, First;
  }

  lemma SelectedPending(db: Db)
    ensures forall i :: 0 <= i < |Selected(db)| ==>
      Selected(db)[i] in db.episodes && PendingIntent(db.episodes[Selected(db)[i]])
    ensures forall i, j :: 0 <= i < j < |Selected(db)| ==> Selected(db)[i] != Selected(db)[j]
  {
    InOrderKeys(PendingTimes(db.episodes));
    var all := InOrder(PendingTimes(db.episodes));
    hide InOrder;
    forall i | 0 <= i < |Selected(db)|
      ensures Selected(db)[i] in db.episodes && PendingIntent(db.episodes[Selected(db)[i]]) {
      assert all[i] in all;
    }
  }

  ghost function RetryPending(db: Db, now: int, uuids: seq<Id>): Db
    requires |uuids| >= |Selected(db)|
  {
    SelectedPending(db);
    var db' := RetryEach(db, Selected(db), now, uuids);
    if PendingTimes(db'.episodes) != map[] then db'.(settings := db'.settings.(admissionLimited := true)) else db'
  }

  // ---- Settings (lines 22-86) ----

  predicate Digit(c: char) {
    '0' <= c <= '9'
  }

  predicate E164(s: string) {
    && 3 <= |s| <= 16 && s[0] == '+' && s[1] != '0'
    && forall i :: 1 <= i < |s| ==> Digit(s[i])
  }

  datatype Request = Request(expected: Id, enabled: bool, sender: Option<string>, recipient: Option<string>)

  predicate PhoneOk(phone: string, enabled: bool) {
    !((phone != "" && !E164(phone)) || (enabled && phone == ""))
  }

  predicate Configurable(s: Settings, r: Request) {
    && r.expected == s.revision
    && PhoneOk(if r.sender.Some? then r.sender.value else s.sender, r.enabled)
    && PhoneOk(if r.recipient.Some? then r.recipient.value else s.recipient, r.enabled)
  }

  /** A refused request changes nothing; an accepted one suppresses everything not yet claimed. */
  function Configure(db: Db, r: Request, now: int, revision: Id): Db {
    if !Configurable(db.settings, r) then db else
      db.(settings := db.settings.(enabled := r.enabled,
            sender := if r.sender.Some? then r.sender.value else db.settings.sender,
            recipient := if r.recipient.Some? then r.recipient.value else db.settings.recipient,
            revision := revision),
          outbox := Mark(db.outbox, Queued, None, None, Suppressed, "configuration_changed", now),
          episodes := CancelIntent(db.episodes, None, "configuration_changed", now),
          drawn := db.drawn + {revision})
  }

  // ---- A delivery step: claim, request, record (lines 285-520) ----

  predicate HexDigit(c: char) {
    Digit(c) || 'a' <= c <= 'f' || 'A' <= c <= 'F'
  }

  predicate MessageSid(s: string) {
    |s| == 34 && s[0] == 'S' && s[1] == 'M' && forall i :: 2 <= i < 34 ==> HexDigit(s[i])
  }

  datatype Body = Oversized | Incomplete | Malformed | Json(sid: Option<string>, status: string)
  datatype Reply = TransportError | Http(status: nat, body: Body)
  datatype Outcome = Outcome(state: RowState, sid: Option<string>, provider: Option<string>, reason: Option<string>)

  function UncertainOutcome(reason: string): Outcome {
    Outcome(Uncertain, None, None, Some(reason))
  }

  /** The outcome of one provider exchange; message is the sid of a poll, None for a send. */
  function ProviderState(provider: string): (state: RowState)
    ensures state.Delivered? || state.Failed? || state.Accepted? || state.Uncertain?
  {
    if provider == "delivered" then Delivered
    else if provider == "failed" || provider == "undelivered" || provider == "canceled" then Failed
    else if provider == "accepted" || provider == "queued" || provider == "sending" || provider == "sent" then Accepted
    else Uncertain
  }

  function ClassifyBody(message: Option<string>, body: Body): Outcome {
    match body
    case Oversized => UncertainOutcome("oversized_provider_response")
    case Incomplete => UncertainOutcome("incomplete_provider_response")
    case Malformed => UncertainOutcome("malformed_provider_response")
    case Json(sid, provider) =>
      if sid.None? || !MessageSid(sid.value) then UncertainOutcome("invalid_message_sid")
      else if message.Some? && message.value != sid.value then UncertainOutcome("message_sid_mismatch")
      else
        var state := ProviderState(provider);
        Outcome(state, sid, if |provider| <= 32 then Some(provider) else None,
          if state.Uncertain? then Some("unknown_provider_status") else None)
  }

  function Classify(message: Option<string>, reply: Reply): Outcome {
    if message.Some? && !MessageSid(message.value) then UncertainOutcome("invalid_message_sid") else
    match reply
    case TransportError => UncertainOutcome("transport_outcome_unknown")
    case Http(status, body) =>
      if status == 429 then Outcome(Queued, None, None, Some("rate_limited"))
      else if 400 <= status < 500 then Outcome(Failed, None, None, Some("provider_rejected"))
      else if !(200 <= status < 300) then UncertainOutcome("provider_outcome_unknown")
      else ClassifyBody(message, body)
  }

  /** What the worker holds between its claim and its record. */
  datatype Job = Job(row: Id, episode: Id, revision: Id, poll: bool, message: Option<string>, attempts: nat, now: int)

  function Recover(db: Db, now: int): Db {
    db.(outbox := Mark(db.outbox, Sending, None, None, Uncertain, "interrupted_send", now))
  }

  /** Orphaned claims, expired rows and overdue deliveries (lines 436-439). */
  function Sweep(db: Db, now: int): Db {
    var orphans := Mark(db.outbox, Sending, None, None, Uncertain, "outcome_not_recorded", now);
    var expired := Mark(orphans, Queued, None, Some(now - DAY_MS), Failed, "queue_expired", now);
    db.(outbox := Mark(expired, Accepted, None, Some(now - DAY_MS), Uncertain, "delivery_deadline", now))
  }

  predicate SendReady(s: Settings, now: int) {
    && (s.lastSendClaim.Some? ==> now - s.lastSendClaim.value >= SEND_SPACING_MS)
    && s.enabled && E164(s.sender) && E164(s.recipient)
  }

  predicate Sendable(db: Db, id: Id, now: int)
    requires id in db.outbox
  {
    var r := db.outbox[id];
    && r.state.Queued? && r.nextAttempt <= now && r.settingsRevision == db.settings.revision
    && r.episode in db.episodes && db.episodes[r.episode].open && !db.episodes[r.episode].acked
  }

  function DueSends(db: Db, now: int): map<Id, int> {
    map id | id in db.outbox && Sendable(db, id, now) :: db.outbox[id].nextAttempt
  }

  function DuePolls(db: Db, now: int): map<Id, int> {
    map id | id in db.outbox && db.outbox[id].state.Accepted? && db.outbox[id].nextAttempt <= now ::
      db.outbox[id].nextAttempt
  }

  datatype Claimed = Claimed(db: Db, job: Option<Job>)

  /** A row is claimed for sending. */
  function Sent(db: Db, id: Id, now: int): Claimed
    requires id in db.outbox
  {
    var r := db.outbox[id];
    Claimed(
      db.(outbox := db.outbox[id := r.(state := Sending, attempts := r.attempts + 1, updatedAt := now)],
          settings := db.settings.(lastSendClaim := Some(now))),
      Some(Job(id, r.episode, r.revision, false, r.sid, r.attempts, now)))
  }

  /** A row is claimed for a status poll. */
  function Polled(db: Db, id: Id, now: int): Claimed
    requires id in db.outbox
  {
    var r := db.outbox[id];
    Claimed(db.(outbox := db.outbox[id := r.(nextAttempt := now + 60_000)]),
      Some(Job(id, r.episode, r.revision, true, r.sid, r.attempts, now)))
  }

  /** The selection half of a step, once sweeping and retrying are done (lines 441-486). */
  ghost function Select(db: Db, now: int): Claimed {
    if SendReady(db.settings, now) && DueSends(db, now) != map[] then Sent(db, First(DueSends(db, now)), now)
    else if DuePolls(db, now) != map[] then Polled(db, First(DuePolls(db, now)), now)
    else Claimed(db, None)
  }

  ghost function Claim(db: Db, client: bool, now: int, uuids: seq<Id>): Claimed
    requires |uuids| >= |Selected(Sweep(db, now))|
  {
    var ready := RetryPending(Sweep(db, now), now, uuids);
    if client then Select(ready, now) else Claimed(ready, None)
  }

  /** The sid passed to the provider call: only a poll carries one (lines 494-502). */
  function RequestSid(job: Job): Option<string> {
    if job.poll then job.message else None
  }

  /** An exchange with no sid to look up is a POST: it asks the provider to send a message. */
  predicate IsPost(job: Job) {
    RequestSid(job).None?
  }

  function Backoff(attempts: nat): int {
    30_000 * (if attempts == 0 then 1 else if attempts == 1 then 2 else if attempts == 2 then 4
              else if attempts == 3 then 8 else 16)
  }

  /** Lines 503-515: what is recorded for a provider outcome. */
  function Adjusted(job: Job, r: Outcome): Outcome {
    if job.poll && (r.state.Queued? || r.state.Uncertain? || r.state.Failed?) && r.sid.None? then r.(state := Accepted)
    else if !job.poll && r.state.Queued? && job.attempts + 1 >= MAX_ATTEMPTS then
      r.(state := Failed, reason := Some("retry_limit"))
    else r
  }

  function Record(db: Db, job: Job, reply: Reply): Db {
    if job.row !in db.outbox then db else
      var r := Adjusted(job, Classify(RequestSid(job), reply));
      var attempts := if job.poll then job.attempts else job.attempts + 1;
      var was := db.outbox[job.row];
      db.(outbox := db.outbox[job.row := was.(
        state := r.state,
        nextAttempt := if r.state.Queued? then job.now + Backoff(attempts) else job.now + 60_000,
        updatedAt := job.now,
        sid := if r.sid.Some? then r.sid else was.sid,
        provider := if r.provider.Some? then r.provider else was.provider,
        reason := r.reason)])
  }
}
