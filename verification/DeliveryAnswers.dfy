/**
 What the provider's answers make of the rows (server/src/notifications.rs:305-410 and 503-519), stated
 on the answers themselves and over whole runs.
 */
module DeliveryAnswers {
  import opened Wrappers
  import opened Outbox
  import opened Attention
  import opened DeliveryInvariant
  import opened AdmissionRetry
  import opened AttentionInvariant
  import opened DeliveryRuns
  import opened EpisodeRules

  // ---- Answers ----

  /** SM and 32 hexadecimal digits. */
  predicate IsSid(s: string) {
    |s| == 34 && s[..2] == "SM" && forall c :: c in s[2..] ==> c in "0123456789abcdefABCDEF"
  }

  lemma SidIs(s: string)
    ensures IsSid(s) <==> MessageSid(s)
  {
    forall c: char ensures HexDigit(c) <==> c in "0123456789abcdefABCDEF" {
    }
    hide HexDigit;
    if IsSid(s) {
      assert s[..2][0] == s[0] && s[..2][1] == s[1];
      forall i | 2 <= i < |s| ensures s[i] in "0123456789abcdefABCDEF" {
        assert s[2..][i - 2] == s[i];
      }
    }
  }

  /** A 2xx answer that names a message: any message after a send, the message asked about after a poll. */
  predicate Names(job: Job, reply: Reply) {
    && reply.Http? && 200 <= reply.status < 300 && reply.body.Json?
    && reply.body.sid.Some? && IsSid(reply.body.sid.value)
    && (job.poll ==> job.message == reply.body.sid)
  }

  predicate Says(job: Job, reply: Reply, word: string) {
    Names(job, reply) && reply.body.status == word
  }

  predicate SaysFailed(job: Job, reply: Reply) {
    Says(job, reply, "failed") || Says(job, reply, "undelivered") || Says(job, reply, "canceled")
  }

  predicate SaysUnderWay(job: Job, reply: Reply) {
    Says(job, reply, "accepted") || Says(job, reply, "queued") || Says(job, reply, "sending")
      || Says(job, reply, "sent")
  }

  predicate Refuses(reply: Reply) {
    reply.Http? && 400 <= reply.status < 500 && reply.status != 429
  }

  /** The request to send was answered by a 429 and may be repeated. */
  predicate Requeues(job: Job, reply: Reply) {
    !job.poll && Throttled(reply) && job.attempts + 1 < 4
  }

  predicate Rejects(job: Job, reply: Reply) {
    SaysFailed(job, reply) || (!job.poll && (Refuses(reply) || (Throttled(reply) && job.attempts + 1 >= 4)))
  }

  /** A message under way, or a poll that learned nothing. */
  predicate Leaves(job: Job, reply: Reply) {
    SaysUnderWay(job, reply) || (job.poll && !Names(job, reply))
  }

  /** One minute, two minutes, four minutes. */
  function Pause(attempts: nat): int {
    if attempts <= 1 then 60_000 else if attempts == 2 then 120_000 else 240_000
  }

  /** The row that is recorded for an answer. */
  predicate Follows(job: Job, reply: Reply, was: Row, r: Row) {
    && (r.state.Delivered? <==> Says(job, reply, "delivered"))
    && (r.state.Failed? <==> Rejects(job, reply))
    && (r.state.Queued? <==> Requeues(job, reply))
    && (r.state.Accepted? <==> Leaves(job, reply))
    && !r.state.Sending? && !r.state.Suppressed?
    && r.sid == (if Names(job, reply) then reply.body.sid else was.sid)
    && r.nextAttempt == job.now + (if Requeues(job, reply) then Pause(job.attempts + 1) else 60_000)
    && r.createdAt == was.createdAt && r.attempts == was.attempts
  }

  lemma Words(word: string)
    ensures ProviderState(word).Delivered? <==> word == "delivered"
    ensures ProviderState(word).Failed? <==> word == "failed" || word == "undelivered" || word == "canceled"
    ensures ProviderState(word).Accepted? <==>
      word == "accepted" || word == "queued" || word == "sending" || word == "sent"
  {
  }

  lemma Classified(job: Job, reply: Reply)
    requires job.poll ==> job.message.Some? && MessageSid(job.message.value)
    ensures var o := Classify(RequestSid(job), reply);
      && (o.state.Delivered? <==> Says(job, reply, "delivered"))
      && (o.state.Failed? <==> SaysFailed(job, reply) || Refuses(reply))
      && (o.state.Queued? <==> Throttled(reply))
      && (o.state.Accepted? <==> SaysUnderWay(job, reply))
      && !o.state.Sending? && !o.state.Suppressed?
      && o.sid == (if Names(job, reply) then reply.body.sid else None)
  {
    if reply.Http? && 200 <= reply.status < 300 {
      ClassifiedBody(job, reply);
    }
    hide MessageSid, ClassifyBody, Names;
  }

  lemma ClassifiedBody(job: Job, reply: Reply)
    requires reply.Http? && 200 <= reply.status < 300 && (job.poll ==> job.message.Some?)
    ensures var o := ClassifyBody(RequestSid(job), reply.body);
      && (o.state.Delivered? <==> Says(job, reply, "delivered"))
      && (o.state.Failed? <==> SaysFailed(job, reply))
      && (o.state.Accepted? <==> SaysUnderWay(job, reply))
      && !o.state.Sending? && !o.state.Suppressed? && !o.state.Queued?
      && o.sid == (if Names(job, reply) then reply.body.sid else None)
  {
    NamedBody(job, reply);
    hide ClassifyBody, Names, ProviderState;
    if Names(job, reply) {
      Words(reply.body.status);
    }
  }

  lemma NamedBody(job: Job, reply: Reply)
    requires reply.Http? && 200 <= reply.status < 300 && (job.poll ==> job.message.Some?)
    ensures var o := ClassifyBody(RequestSid(job), reply.body);
      && (Names(job, reply) ==> reply.body.Json?)
      && o.state == (if Names(job, reply) then ProviderState(reply.body.status) else Uncertain)
      && o.sid == (if Names(job, reply) then reply.body.sid else None)
  {
    if reply.body.Json? && reply.body.sid.Some? {
      SidIs(reply.body.sid.value);
    }
    hide MessageSid, IsSid, ProviderState;
  }

  /** Whatever is recorded follows from the answer alone. */
  lemma RecordFollows(db: Db, job: Job, reply: Reply)
    requires job.row in db.outbox
    requires job.poll ==> job.message.Some? && MessageSid(job.message.value)
    ensures var db' := Record(db, job, reply);
      && db' == db.(outbox := db.outbox[job.row := db'.outbox[job.row]])
      && Follows(job, reply, db.outbox[job.row], db'.outbox[job.row])
  {
    Classified(job, reply);
    hide Classify, Says, MessageSid;
  }

  predicate SaysKnown(job: Job, reply: Reply) {
    Says(job, reply, "delivered") || SaysFailed(job, reply) || SaysUnderWay(job, reply)
  }

  /** A 2xx answer whose body cannot be read as an answer about the message. */
  predicate Unread(job: Job, reply: Reply) {
    reply.Http? && 200 <= reply.status < 300 && !Names(job, reply)
  }

  /** What is noted with an answer: the word of the provider, unless it is too long, and why the row is not
      simply as that word says. */
  predicate Notes(job: Job, reply: Reply, was: Row, r: Row) {
    && r == was.(state := r.state, nextAttempt := r.nextAttempt, updatedAt := job.now, sid := r.sid,
         provider := r.provider, reason := r.reason)
    && r.provider == (if Names(job, reply) && |reply.body.status| <= 32 then Some(reply.body.status) else was.provider)
    && (SaysKnown(job, reply) ==> r.reason.None?)
    && (Names(job, reply) && !SaysKnown(job, reply) ==> r.reason == Some("unknown_provider_status"))
    && (reply.TransportError? ==> r.reason == Some("transport_outcome_unknown"))
    && (Throttled(reply) ==>
          r.reason == Some(if !job.poll && job.attempts + 1 >= 4 then "retry_limit" else "rate_limited"))
    && (Refuses(reply) ==> r.reason == Some("provider_rejected"))
    && (reply.Http? && !(200 <= reply.status < 300 || 400 <= reply.status < 500) ==>
          r.reason == Some("provider_outcome_unknown"))
    && (Unread(job, reply) ==> UnreadReason(job, reply.body, r.reason))
  }

  predicate UnreadReason(job: Job, body: Body, reason: Option<string>) {
    match body
    case Oversized => reason == Some("oversized_provider_response")
    case Incomplete => reason == Some("incomplete_provider_response")
    case Malformed => reason == Some("malformed_provider_response")
    case Json(sid, _) =>
      reason == Some(if sid.Some? && IsSid(sid.value) then "message_sid_mismatch" else "invalid_message_sid")
  }

  lemma BodyNotes(job: Job, reply: Reply)
    requires reply.Http? && 200 <= reply.status < 300
    requires job.poll ==> job.message.Some? && MessageSid(job.message.value)
    ensures var o := ClassifyBody(RequestSid(job), reply.body);
      && (if Names(job, reply) then
            && (o.reason.None? <==> SaysKnown(job, reply))
            && (o.reason.Some? ==> o.reason == Some("unknown_provider_status"))
            && o.provider == if |reply.body.status| <= 32 then Some(reply.body.status) else None
          else UnreadReason(job, reply.body, o.reason) && o.provider.None?)
  {
    if reply.body.Json? {
      Words(reply.body.status);
      if reply.body.sid.Some? {
        SidIs(reply.body.sid.value);
      }
    }
    hide MessageSid, IsSid, ProviderState;
  }

  lemma Explained(job: Job, reply: Reply)
    requires job.poll ==> job.message.Some? && MessageSid(job.message.value)
    ensures !(reply.Http? && 200 <= reply.status < 300) ==> Classify(RequestSid(job), reply).provider.None?
    ensures reply.Http? && 200 <= reply.status < 300 ==>
      Classify(RequestSid(job), reply) == ClassifyBody(RequestSid(job), reply.body)
  {
    hide MessageSid, ClassifyBody;
  }

  /** And so does what is noted with it; nothing else of the row changes. */
  lemma RecordNotes(db: Db, job: Job, reply: Reply)
    requires job.row in db.outbox
    requires job.poll ==> job.message.Some? && MessageSid(job.message.value)
    ensures Notes(job, reply, db.outbox[job.row], Record(db, job, reply).outbox[job.row])
  {
    Explained(job, reply);
    Classified(job, reply);
    if reply.Http? && 200 <= reply.status < 300 {
      BodyNotes(job, reply);
    }
    hide MessageSid, ClassifyBody, Says, IsSid, UnreadReason;
  }

  // ---- What one event makes of a row ----

  predicate TooOld(r: Row, now: int) {
    r.createdAt < now - DAY_MS
  }

  /** The sweep before a claim. */
  predicate Swept(r: Row, now: int, r': Row) {
    && r' == r.(state := r'.state, reason := r'.reason, updatedAt := r'.updatedAt)
    && r'.state ==
         (if r.state.Sending? then Uncertain
          else if r.state.Queued? && TooOld(r, now) then Failed
          else if r.state.Accepted? && TooOld(r, now) then Uncertain
          else r.state)
    && r'.reason ==
         (if r.state.Sending? then Some("outcome_not_recorded")
          else if r.state.Queued? && TooOld(r, now) then Some("queue_expired")
          else if r.state.Accepted? && TooOld(r, now) then Some("delivery_deadline")
          else r.reason)
    && r'.updatedAt == (if r'.state == r.state then r.updatedAt else now)
  }

  lemma SweptRow(db: Db, now: int, id: Id)
    requires id in db.outbox
    ensures id in Sweep(db, now).outbox && Swept(db.outbox[id], now, Sweep(db, now).outbox[id])
  {
  }

  /** Claiming: a queued row that is due may be sent, an accepted one that is due may be polled. */
  predicate Chosen(r: Row, now: int, r': Row) {
    || r' == r
    || (r.state.Queued? && r.nextAttempt <= now && r'.state.Sending? && r'.createdAt == r.createdAt)
    || (r.state.Accepted? && r.nextAttempt <= now && r' == r.(nextAttempt := now + 60_000))
  }

  lemma ChosenRow(db: Db, now: int, id: Id)
    requires id in db.outbox
    ensures id in Select(db, now).db.outbox && Chosen(db.outbox[id], now, Select(db, now).db.outbox[id])
  {
    hide SendReady, IsFirst;
    if DueSends(db, now) != map[] {
      assert First(DueSends(db, now)) in DueSends(db, now) by { FirstIn(DueSends(db, now)); }
    }
    if DuePolls(db, now) != map[] {
      assert First(DuePolls(db, now)) in DuePolls(db, now) by { FirstIn(DuePolls(db, now)); }
    }
  }

  lemma FirstIn(at: map<Id, int>)
    requires at != map[]
    ensures First(at) in at
  {
  }

  /** What a claim makes of a row that survives it. */
  predicate ClaimTurns(r: Row, now: int, r': Row) {
    if r.state.Sending? then r'.state.Uncertain?
    else if r.state.Queued? then
      if TooOld(r, now) then r'.state.Failed?
      else || (r'.state.Queued? && r'.nextAttempt == r.nextAttempt)
           || (r'.state.Sending? && r.nextAttempt <= now)
           || r'.state.Suppressed?
    else if r.state.Accepted? then if TooOld(r, now) then r'.state.Uncertain? else r'.state.Accepted?
    else r'.state == r.state
  }

  /** The retry may withdraw a queued row, and nothing else. */
  predicate Retried(r: Row, r': Row) {
    && (r'.state == r.state || (r.state.Queued? && r'.state.Suppressed?))
    && r'.nextAttempt == r.nextAttempt && r'.createdAt == r.createdAt
  }

  lemma RetriedRow(db: Db, db': Db, id: Id)
    requires Evolves(db, db') && id in db.outbox && id in db'.outbox
    ensures Retried(db.outbox[id], db'.outbox[id])
  {
    assert RowStep(db, db', id);
    hide RowsStep, NewRows, EpisodesStep, HistoryGrows;
  }

  lemma TurnsOf(r: Row, now: int, swept: Row, ready: Row, r': Row)
    requires Swept(r, now, swept) && Retried(swept, ready) && Chosen(ready, now, r')
    ensures ClaimTurns(r, now, r')
  {
  }

  lemma ClaimedRow(db: Db, client: bool, now: int, uuids: seq<Id>, id: Id)
    requires DbOk(db, {}) && Supply(uuids, db.drawn) && |uuids| >= |Selected(Sweep(db, now))| && id in db.outbox
    requires id in Outbox.Claim(db, client, now, uuids).db.outbox
    ensures ClaimTurns(db.outbox[id], now, Outbox.Claim(db, client, now, uuids).db.outbox[id])
  {
    hide DbOk, Sweep, Select, RetryPending, Selected, Supply, Evolves, ActiveKept, Forward;
    hide Swept, Retried, Chosen, ClaimTurns;
    SweptRow(db, now, id);
    SweepOk(db, now);
    var swept := Sweep(db, now);
    RetryPendingOk(swept, now, uuids);
    var ready := RetryPending(swept, now, uuids);
    SelectKeys(ready, now);
    RetriedRow(swept, ready, id);
    ChosenRow(ready, now, id);
    NotChosen(ready.outbox[id], now);
    TurnsOf(db.outbox[id], now, swept.outbox[id], ready.outbox[id], Outbox.Claim(db, client, now, uuids).db.outbox[id]);
  }

  lemma NotChosen(r: Row, now: int)
    ensures Chosen(r, now, r)
  {
  }

  lemma SelectKeys(db: Db, now: int)
    ensures Select(db, now).db.outbox.Keys == db.outbox.Keys
  {
  }

  // ---- Whole runs ----

  /** Event n records an answer for a row. */
  ghost predicate Records(s: Sys, e: Event, id: Id) {
    e.Save? && s.phase.Answered? && s.phase.job.row == id
  }

  /** An answer said so, under the row's own sid. */
  ghost predicate DeliveredBy(s: Sys, e: Event, id: Id) {
    Records(s, e, id) && Says(s.phase.job, s.phase.reply, "delivered")
  }

  /** An answer refused it for good, its attempts were used up, or it was queued for more than a day. */
  ghost predicate FailedBy(s: Sys, e: Event, id: Id) {
    || (Records(s, e, id) && Rejects(s.phase.job, s.phase.reply))
    || (e.Claim? && Enabled(s, e) && id in s.db.outbox && s.db.outbox[id].state.Queued?
         && TooOld(s.db.outbox[id], e.now))
  }

  /** What one event makes of a row that stays. */
  ghost predicate Turns(s: Sys, e: Event, id: Id, r: Row, r': Row) {
    && (Records(s, e, id) ==> (r.state.Sending? || r.state.Accepted?) && Follows(s.phase.job, s.phase.reply, r, r'))
    && (e.Claim? ==> ClaimTurns(r, e.now, r'))
    && (!Records(s, e, id) && !e.Claim? ==>
          && (r.state.Queued? ==> (r'.state.Queued? && r'.nextAttempt == r.nextAttempt) || r'.state.Suppressed?)
          && (!r.state.Queued? ==> r'.state == r.state || (r.state.Sending? && r'.state.Uncertain?)))
  }

  lemma SaveTurns(s: Sys, id: Id)
    requires SysOk(s) && s.phase.Answered? && id in s.db.outbox
    ensures var db' := Record(s.db, s.phase.job, s.phase.reply);
      && id in db'.outbox && Turns(s, Save, id, s.db.outbox[id], db'.outbox[id])
  {
    var job, reply := s.phase.job, s.phase.reply;
    OnlySendsPost(s);
    HoldsJob(s);
    hide SysOk, DbOk, JobOk, Record, Follows, MessageSid;
    RecordFollows(s.db, job, reply);
  }

  lemma HoldsJob(s: Sys)
    requires SysOk(s) && JobOf(s).Some?
    ensures var row := JobOf(s).value.row;
      row in s.db.outbox && (s.db.outbox[row].state.Sending? || s.db.outbox[row].state.Accepted?)
  {
    hide DbOk, PostsKnown, PostsOk, CountsOk, ClaimsOk, OnlyLastUnthrottled;
  }

  lemma SaveDoes(s: Sys, e: Event, id: Id)
    requires SysOk(s) && e.Save? && Enabled(s, e) && id in s.db.outbox && id in Do(s, e).db.outbox
    ensures Turns(s, e, id, s.db.outbox[id], Do(s, e).db.outbox[id])
  {
    hide SysOk, Turns, Record;
    SaveTurns(s, id);
  }

  lemma ClaimDoes(s: Sys, e: Event, id: Id)
    requires SysOk(s) && e.Claim? && Enabled(s, e) && id in s.db.outbox && id in Do(s, e).db.outbox
    ensures Turns(s, e, id, s.db.outbox[id], Do(s, e).db.outbox[id])
  {
    EnabledClaim(s, e);
    hide SysOk, DbOk, ClaimTurns, Supply, Selected, Outbox.Claim, Sweep, Follows, Do, Enabled;
    ClaimedRow(s.db, e.client, e.now, e.uuids, id);
  }

  lemma EnabledClaim(s: Sys, e: Event)
    requires SysOk(s) && e.Claim? && Enabled(s, e)
    ensures DbOk(s.db, {}) && Supply(e.uuids, s.db.drawn) && |e.uuids| >= |Selected(Sweep(s.db, e.now))|
    ensures Do(s, e).db == Outbox.Claim(s.db, e.client, e.now, e.uuids).db
  {
    hide DbOk, Supply, Selected, Sweep, Outbox.Claim, JobOk, PostsKnown, PostsOk, CountsOk, ClaimsOk;
  }

  /** The other steps of the worker leave the tables alone, but for the recovery after a restart. */
  lemma OtherDoes(s: Sys, e: Event, id: Id)
    requires WorkerEvent(e) && !e.Claim? && !e.Save? && Enabled(s, e) && id in s.db.outbox && id in Do(s, e).db.outbox
    ensures Turns(s, e, id, s.db.outbox[id], Do(s, e).db.outbox[id])
  {
    hide Follows, ClaimTurns, IsPost;
  }

  lemma OutsideDoes(s: Sys, e: Event, id: Id)
    requires SysOk(s) && !WorkerEvent(e) && Enabled(s, e) && id in s.db.outbox && id in Do(s, e).db.outbox
    ensures Turns(s, e, id, s.db.outbox[id], Do(s, e).db.outbox[id])
  {
    assert DbOk(s.db, {});
    hide SysOk, DbOk, Do, Enabled, Evolves, ClaimTurns, Follows;
    OutsideEvolves(s, e);
    RetriedRow(s.db, Do(s, e).db, id);
  }

  lemma NextTurns(s: Sys, e: Event, id: Id)
    requires SysOk(s) && Enabled(s, e) && id in s.db.outbox && id in Do(s, e).db.outbox
    ensures Turns(s, e, id, s.db.outbox[id], Do(s, e).db.outbox[id])
  {
    hide SysOk, Do, Enabled, Turns;
    if !WorkerEvent(e) {
      OutsideDoes(s, e, id);
    } else if e.Claim? {
      ClaimDoes(s, e, id);
    } else if e.Save? {
      SaveDoes(s, e, id);
    } else {
      OtherDoes(s, e, id);
    }
  }

  /** A row that appears has an identity never used before and no answer yet. */
  ghost predicate Appears(s: Sys, id: Id, r: Row) {
    id !in s.db.drawn && (r.state.Queued? || r.state.Suppressed? || r.state.Sending?)
  }

  lemma OutsideOrigin(s: Sys, e: Event, id: Id)
    requires SysOk(s) && !WorkerEvent(e) && Enabled(s, e) && id !in s.db.outbox && id in Do(s, e).db.outbox
    ensures Appears(s, id, Do(s, e).db.outbox[id])
  {
    assert DbOk(s.db, {});
    hide SysOk, DbOk, Do, Enabled, RowsStep, EpisodesStep, HistoryGrows;
    OutsideEvolves(s, e);
    assert RowOrigin(s.db, Do(s, e).db, id);
  }

  lemma ClaimedOrigin(db: Db, client: bool, now: int, uuids: seq<Id>, id: Id)
    requires DbOk(db, {}) && Supply(uuids, db.drawn) && |uuids| >= |Selected(Sweep(db, now))|
    requires id !in db.outbox && id in Outbox.Claim(db, client, now, uuids).db.outbox
    ensures id !in db.drawn
    ensures var r := Outbox.Claim(db, client, now, uuids).db.outbox[id];
      r.state.Queued? || r.state.Suppressed? || r.state.Sending?
  {
    SweptKeys(db, now);
    hide DbOk, Sweep, Select, RetryPending, Selected, Supply, ActiveKept, Forward;
    hide RowsStep, EpisodesStep, HistoryGrows;
    SweepOk(db, now);
    var swept := Sweep(db, now);
    RetryPendingOk(swept, now, uuids);
    var ready := RetryPending(swept, now, uuids);
    SelectKeys(ready, now);
    assert RowOrigin(swept, ready, id);
    ChosenRow(ready, now, id);
  }

  lemma SweptKeys(db: Db, now: int)
    ensures Sweep(db, now).outbox.Keys == db.outbox.Keys
  {
  }

  lemma ClaimOrigin(s: Sys, e: Event, id: Id)
    requires SysOk(s) && e.Claim? && Enabled(s, e) && id !in s.db.outbox && id in Do(s, e).db.outbox
    ensures Appears(s, id, Do(s, e).db.outbox[id])
  {
    EnabledClaim(s, e);
    hide SysOk, DbOk, Supply, Selected, Outbox.Claim, Sweep, Do, Enabled;
    ClaimedOrigin(s.db, e.client, e.now, e.uuids, id);
  }

  lemma OtherKeys(s: Sys, e: Event)
    requires SysOk(s) && WorkerEvent(e) && !e.Claim? && Enabled(s, e)
    ensures Do(s, e).db.outbox.Keys == s.db.outbox.Keys
  {
    hide SysOk, Classify, Adjusted, IsPost;
    if e.Save? {
      HoldsJob(s);
    }
  }

  lemma NextOrigin(s: Sys, e: Event, id: Id)
    requires SysOk(s) && Enabled(s, e) && id !in s.db.outbox && id in Do(s, e).db.outbox
    ensures Appears(s, id, Do(s, e).db.outbox[id])
  {
    hide SysOk, Do, Enabled, Appears;
    if !WorkerEvent(e) {
      OutsideOrigin(s, e, id);
    } else if e.Claim? {
      ClaimOrigin(s, e, id);
    } else {
      OtherKeys(s, e);
    }
  }

  // ---- The main results ----

  lemma Drawn(s: Sys, id: Id)
    requires SysOk(s) && id in s.db.outbox
    ensures id in s.db.drawn
  {
    assert RowOk(s.db, id);
    hide JobOk, PostsKnown, PostsOk, CountsOk, ClaimsOk, OnlyLastUnthrottled, EpisodesOk, OneOpenPerKey;
  }

  lemma {:induction false} StaysDrawn(run: seq<Event>, k: nat, n: nat, id: Id)
    requires k <= n <= |run| && id in At(run, k).db.outbox
    ensures id in At(run, n).db.drawn
    decreases n
  {
    hide At, SysOk, Next, EpisodesStep;
    if k == n {
      AlwaysOk(run, n);
      Drawn(At(run, n), id);
    } else {
      StaysDrawn(run, k, n - 1, id);
      AlwaysOk(run, n - 1);
      NextEpisodes(At(run, n - 1), run[n - 1]);
      AtNext(run, n - 1);
    }
  }

  lemma AtNext(run: seq<Event>, n: nat)
    requires n < |run|
    ensures At(run, n + 1) == Next(At(run, n), run[n])
  {
  }

  /** What one event changes about being delivered or failed. */
  lemma Settles(s: Sys, e: Event, id: Id)
    requires SysOk(s) && id in s.db.outbox && id in Next(s, e).db.outbox
    ensures var r, r' := s.db.outbox[id], Next(s, e).db.outbox[id];
      && (r'.state.Delivered? <==> r.state.Delivered? || DeliveredBy(s, e, id))
      && (r'.state.Failed? <==> r.state.Failed? || FailedBy(s, e, id))
  {
    if Enabled(s, e) {
      NextTurns(s, e, id);
    }
    SettledBy(s, e, id, s.db.outbox[id], Next(s, e).db.outbox[id]);
    hide SysOk, Do, Enabled, Turns, DeliveredBy, FailedBy;
  }

  lemma SettledBy(s: Sys, e: Event, id: Id, r: Row, r': Row)
    requires id in s.db.outbox && s.db.outbox[id] == r
    requires if Enabled(s, e) then Turns(s, e, id, r, r') else r' == r
    ensures r'.state.Delivered? <==> r.state.Delivered? || DeliveredBy(s, e, id)
    ensures r'.state.Failed? <==> r.state.Failed? || FailedBy(s, e, id)
  {
    hide Says, SaysFailed, Refuses, Leaves, Requeues;
  }

  ghost predicate EverDelivered(run: seq<Event>, n: nat, id: Id)
    requires n <= |run|
  {
    exists k :: 0 <= k < n && DeliveredBy(At(run, k), run[k], id)
  }

  ghost predicate EverFailed(run: seq<Event>, n: nat, id: Id)
    requires n <= |run|
  {
    exists k :: 0 <= k < n && FailedBy(At(run, k), run[k], id)
  }

  lemma EverNext(run: seq<Event>, n: nat, id: Id)
    requires n < |run|
    ensures EverDelivered(run, n + 1, id) <==> EverDelivered(run, n, id) || DeliveredBy(At(run, n), run[n], id)
    ensures EverFailed(run, n + 1, id) <==> EverFailed(run, n, id) || FailedBy(At(run, n), run[n], id)
  {
    hide At, DeliveredBy, FailedBy;
  }

  /** Before its row appeared nothing can have been said about it. */
  lemma NothingYet(run: seq<Event>, n: nat, id: Id)
    requires n < |run| && id !in At(run, n).db.outbox && id in At(run, n + 1).db.outbox
    ensures !EverDelivered(run, n + 1, id) && !EverFailed(run, n + 1, id)
    ensures !At(run, n + 1).db.outbox[id].state.Delivered? && !At(run, n + 1).db.outbox[id].state.Failed?
  {
    AlwaysOk(run, n);
    AtNext(run, n);
    hide At, SysOk, Do, Enabled;
    NextOrigin(At(run, n), run[n], id);
    forall k | 0 <= k < n + 1
      ensures !DeliveredBy(At(run, k), run[k], id) && !FailedBy(At(run, k), run[k], id)
    {
      if id in At(run, k).db.outbox {
        StaysDrawn(run, k, n, id);
        assert false;
      }
      AlwaysOk(run, k);
      NotRecorded(At(run, k), run[k], id);
    }
    hide DeliveredBy, FailedBy;
  }

  lemma NotRecorded(s: Sys, e: Event, id: Id)
    requires SysOk(s) && id !in s.db.outbox
    ensures !DeliveredBy(s, e, id) && !FailedBy(s, e, id)
  {
    if Records(s, e, id) {
      HoldsJob(s);
    }
    hide SysOk, Says, Rejects;
  }

  lemma {:induction false} SettledWhen(run: seq<Event>, n: nat, id: Id)
    requires n <= |run| && id in At(run, n).db.outbox
    ensures At(run, n).db.outbox[id].state.Delivered? <==> EverDelivered(run, n, id)
    ensures At(run, n).db.outbox[id].state.Failed? <==> EverFailed(run, n, id)
    decreases n
  {
    NoRowsAtFirst(run);
    hide At, SysOk, Next, EverDelivered, EverFailed, DeliveredBy, FailedBy;
    if n > 0 {
      AtNext(run, n - 1);
      if id in At(run, n - 1).db.outbox {
        SettledWhen(run, n - 1, id);
        AlwaysOk(run, n - 1);
        Settles(At(run, n - 1), run[n - 1], id);
        EverNext(run, n - 1, id);
      } else {
        NothingYet(run, n - 1, id);
      }
    }
  }

  lemma NoRowsAtFirst(run: seq<Event>)
    ensures At(run, 0).db.outbox == map[]
  {
  }

  /** In every run a row is delivered if and only if a recorded 2xx answer under its own sid said so. */
  lemma DeliveredWhen(run: seq<Event>, n: nat, id: Id)
    requires n <= |run| && id in At(run, n).db.outbox
    ensures At(run, n).db.outbox[id].state.Delivered? <==> exists k :: 0 <= k < n && DeliveredBy(At(run, k), run[k], id)
  {
    SettledWhen(run, n, id);
    hide At, DeliveredBy;
  }

  /** It has failed if and only if an answer refused it or said so under its sid, its last attempt was
      throttled too, or a claim found it queued for more than a day. */
  lemma FailedWhen(run: seq<Event>, n: nat, id: Id)
    requires n <= |run| && id in At(run, n).db.outbox
    ensures At(run, n).db.outbox[id].state.Failed? <==> exists k :: 0 <= k < n && FailedBy(At(run, k), run[k], id)
  {
    SettledWhen(run, n, id);
    hide At, FailedBy;
  }

  predicate InQueue(s: Sys, id: Id) {
    id in s.db.outbox && s.db.outbox[id].state.Queued?
  }

  lemma QueuedKeeps(s: Sys, e: Event, id: Id)
    requires SysOk(s) && InQueue(s, id) && InQueue(Next(s, e), id)
    ensures Next(s, e).db.outbox[id].nextAttempt == s.db.outbox[id].nextAttempt
  {
    hide SysOk, Do, Enabled, Turns;
    if Enabled(s, e) {
      NextTurns(s, e, id);
      QueuedTurns(s, e, id, s.db.outbox[id], Do(s, e).db.outbox[id]);
    }
  }

  lemma QueuedTurns(s: Sys, e: Event, id: Id, r: Row, r': Row)
    requires Turns(s, e, id, r, r') && r.state.Queued?
    ensures r'.state.Queued? ==> r'.nextAttempt == r.nextAttempt
    ensures r'.state.Sending? ==> e.Claim? && e.now >= r.nextAttempt
  {
    hide Follows, Records;
  }

  lemma QueuedByRecord(s: Sys, e: Event, id: Id)
    requires SysOk(s) && Records(s, e, id) && InQueue(Next(s, e), id)
    ensures Next(s, e).db.outbox[id].nextAttempt == s.phase.job.now + Pause(s.phase.job.attempts + 1)
  {
    HoldsJob(s);
    SaveEnabled(s, e, id);
    hide SysOk, Do, Enabled;
    NextTurns(s, e, id);
    hide Says, SaysFailed, Leaves, ClaimTurns;
  }

  lemma SaveEnabled(s: Sys, e: Event, id: Id)
    requires Records(s, e, id)
    ensures Enabled(s, e)
  {
  }

  lemma SentWhenDue(s: Sys, e: Event, id: Id)
    requires SysOk(s) && InQueue(s, id) && id in Next(s, e).db.outbox && Next(s, e).db.outbox[id].state.Sending?
    ensures e.Claim? && e.now >= s.db.outbox[id].nextAttempt
  {
    hide SysOk, Do, Enabled, Turns;
    if Enabled(s, e) {
      NextTurns(s, e, id);
      QueuedTurns(s, e, id, s.db.outbox[id], Do(s, e).db.outbox[id]);
    }
  }

  /** From the record at k up to m the row stays queued. */
  ghost predicate Waits(run: seq<Event>, k: nat, m: nat, id: Id)
    requires k < m <= |run|
  {
    Records(At(run, k), run[k], id) && forall j :: k < j <= m ==> InQueue(At(run, j), id)
  }

  lemma WaitsBefore(run: seq<Event>, k: nat, m: nat, id: Id)
    requires k < m <= |run| && Waits(run, k, m, id)
    ensures Records(At(run, k), run[k], id) && InQueue(At(run, m), id)
    ensures k + 1 < m ==> Waits(run, k, m - 1, id) && InQueue(At(run, m - 1), id)
  {
    hide At, InQueue, Records;
  }

  lemma {:induction false} WaitsInQueue(run: seq<Event>, k: nat, m: nat, id: Id)
    requires k < m <= |run| && Waits(run, k, m, id)
    ensures InQueue(At(run, m), id)
    ensures var job := At(run, k).phase.job; At(run, m).db.outbox[id].nextAttempt == job.now + Pause(job.attempts + 1)
    decreases m
  {
    hide At, SysOk, Next, Pause, Waits;
    AlwaysOk(run, m - 1);
    AtNext(run, m - 1);
    WaitsBefore(run, k, m, id);
    if k + 1 == m {
      QueuedByRecord(At(run, k), run[k], id);
    } else {
      WaitsInQueue(run, k, m - 1, id);
      QueuedKeeps(At(run, m - 1), run[m - 1], id);
    }
  }

  /** A request answered by a 429 is repeated no sooner than one, two or four minutes after its claim. */
  lemma RepeatsAfterPause(run: seq<Event>, k: nat, m: nat, id: Id)
    requires k < m < |run| && Waits(run, k, m, id)
    requires id in At(run, m + 1).db.outbox && At(run, m + 1).db.outbox[id].state.Sending?
    ensures var job := At(run, k).phase.job; run[m].Claim? && run[m].now >= job.now + Pause(job.attempts + 1)
  {
    hide At, SysOk, Next, Pause, Waits;
    WaitsInQueue(run, k, m, id);
    AlwaysOk(run, m);
    AtNext(run, m);
    SentWhenDue(At(run, m), run[m], id);
  }
}
