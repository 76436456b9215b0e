/**
 Every interleaving of the delivery worker (claim, HTTP exchange, record, crash, restart) with
 conditions, acknowledgements, reconfiguration and retention.  The provider is adversarial.
 */
module DeliveryRuns {
  import opened Wrappers
  import opened Outbox
  import opened Attention
  import opened DeliveryInvariant
  import opened AdmissionRetry
  import opened AttentionInvariant

  /** A message the provider was asked to send.  throttled: it answered with an explicit 429. */
  datatype Post = Post(row: Id, episode: Id, revision: Id, throttled: bool)

  datatype Phase = Idle | Claiming(job: Job) | Answered(job: Job, reply: Reply)

  datatype Sys = Sys(db: Db, phase: Phase, posts: seq<Post>, claims: seq<int>)

  datatype Event =
    | Reconfigure(request: Request, now: int, revision: Id)
    | Ack(id: Id, revision: Id, now: int, next: Id)
    | Evaluate(c: Condition, now: int, draw: Draw)
    | Reconcile(now: int, uuids: seq<Id>)
    | RetryAgain(now: int, uuids: seq<Id>)
    | Absent(observed: set<string>, now: int)
    | Limited(limited: bool)
    | DefaultSender(sender: string)
    | Claim(client: bool, now: int, uuids: seq<Id>)
    | Exchange(reply: Reply)
    | Save
    | SaveFails
    | Crash(delivered: bool)
    | Restart(now: int)

  predicate Throttled(reply: Reply) {
    reply.Http? && reply.status == 429
  }

  function PostOf(job: Job, throttled: bool): Post {
    Post(job.row, job.episode, job.revision, throttled)
  }

  ghost predicate Enabled(s: Sys, e: Event) {
    match e
    case Reconfigure(request, now, revision) => revision !in s.db.drawn
    case Ack(id, revision, now, next) => next !in s.db.drawn
    case Evaluate(c, now, draw) => DrawOk(draw, s.db.drawn)
    case Reconcile(now, uuids) => Supply(uuids, s.db.drawn) && |uuids| >= |Selected(Pruned(s.db, now))|
    case RetryAgain(now, uuids) => Supply(uuids, s.db.drawn) && |uuids| >= |Selected(s.db)|
    case Absent(observed, now) => true
    case Limited(limited) => true
    case DefaultSender(sender) => true
    case Claim(client, now, uuids) =>
      s.phase.Idle? && Supply(uuids, s.db.drawn) && |uuids| >= |Selected(Sweep(s.db, now))|
    case Exchange(reply) => s.phase.Claiming?
    case Save => s.phase.Answered?
    case SaveFails => s.phase.Answered?
    case Crash(delivered) => true
    case Restart(now) => s.phase.Idle?
  }

  predicate WorkerEvent(e: Event) {
    e.Claim? || e.Exchange? || e.Save? || e.SaveFails? || e.Crash? || e.Restart?
  }

  /** A transaction of the rest of the server. */
  ghost function Outside(s: Sys, e: Event): Db
    requires Enabled(s, e) && !WorkerEvent(e)
  {
    match e
    case Reconfigure(request, now, revision) => Configure(s.db, request, now, revision)
    case Ack(id, revision, now, next) => Acknowledge(s.db, id, revision, now, next)
    case Evaluate(c, now, draw) => ObserveCondition(s.db, c, now, draw)
    case Reconcile(now, uuids) => Retain(s.db, now, uuids)
    case RetryAgain(now, uuids) => RetryPending(s.db, now, uuids)
    case Absent(observed, now) => Forget(s.db, observed, now)
    case Limited(limited) => s.db.(settings := s.db.settings.(admissionLimited := limited))
    case DefaultSender(sender) =>
      if s.db.settings.revision == 0 && s.db.settings.sender == "" && !s.db.settings.enabled
      then s.db.(settings := s.db.settings.(sender := sender)) else s.db
  }

  ghost function AfterClaim(s: Sys, client: bool, now: int, uuids: seq<Id>): Sys
    requires Enabled(s, Claim(client, now, uuids))
  {
    var c := Outbox.Claim(s.db, client, now, uuids);
    Sys(c.db, if c.job.Some? then Claiming(c.job.value) else Idle, s.posts,
      if c.job.Some? && !c.job.value.poll then s.claims + [now] else s.claims)
  }

  ghost function Worked(s: Sys, e: Event): Sys
    requires Enabled(s, e) && WorkerEvent(e)
  {
    match e
    case Claim(client, now, uuids) => AfterClaim(s, client, now, uuids)
    case Exchange(reply) =>
      s.(phase := Answered(s.phase.job, reply),
         posts := if IsPost(s.phase.job) then s.posts + [PostOf(s.phase.job, Throttled(reply))] else s.posts)
    case Save => s.(db := Record(s.db, s.phase.job, s.phase.reply), phase := Idle)
    case SaveFails => s.(phase := Idle)
    case Crash(delivered) =>
      s.(phase := Idle,
         posts := if delivered && s.phase.Claiming? && IsPost(s.phase.job) then s.posts + [PostOf(s.phase.job, false)]
           else s.posts)
    case Restart(now) => s.(db := Recover(s.db, now))
  }

  ghost function Do(s: Sys, e: Event): Sys
    requires Enabled(s, e)
  {
    if WorkerEvent(e) then Worked(s, e) else s.(db := Outside(s, e))
  }

  /** Events that cannot happen in a state are skipped, so every sequence of events is a run. */
  ghost function Next(s: Sys, e: Event): Sys {
    if Enabled(s, e) then Do(s, e) else s
  }

  const START: Sys :=
    Sys(Db(Settings(false, "", "", 0, None, false), map[], map[], {0}, map[]), Idle, [], [])

  ghost function At(run: seq<Event>, n: nat): Sys
    requires n <= |run|
    decreases n
  {
    if n == 0 then START else Next(At(run, n - 1), run[n - 1])
  }

  // ---- The invariant ----

  function JobOf(s: Sys): Option<Job> {
    match s.phase case Idle => None case Claiming(job) => Some(job) case Answered(job, _) => Some(job)
  }

  /** The row a worker holds stays exactly as it claimed it. */
  ghost predicate JobOk(s: Sys) {
    JobOf(s).Some? ==>
      var job := JobOf(s).value;
      && job.row in s.db.outbox
      && var r := s.db.outbox[job.row];
         && r.episode == job.episode && r.revision == job.revision
         && (if job.poll then r.state.Accepted? && job.message == r.sid
             else r.state.Sending? && r.attempts == job.attempts + 1)
  }

  predicate Unthrottled(posts: seq<Post>, row: Id) {
    exists i :: 0 <= i < |posts| && posts[i].row == row && !posts[i].throttled
  }

  function PostCount(posts: seq<Post>, row: Id): nat {
    if posts == [] then 0 else PostCount(posts[..|posts| - 1], row) + if posts[|posts| - 1].row == row then 1 else 0
  }

  ghost predicate PostsKnown(s: Sys) {
    forall i :: 0 <= i < |s.posts| ==>
      var p := s.posts[i];
      p.row in s.db.drawn && (p.episode, p.revision) in s.db.admitted && s.db.admitted[(p.episode, p.revision)] == p.row
  }

  /** A queued row, or a row about to be posted, was only ever answered by 429. */
  ghost predicate PostsOk(s: Sys) {
    && (forall id :: id in s.db.outbox && s.db.outbox[id].state.Queued? ==> !Unthrottled(s.posts, id))
    && (s.phase.Claiming? && !s.phase.job.poll ==> !Unthrottled(s.posts, s.phase.job.row))
    && (s.phase.Answered? && !s.phase.job.poll && Throttled(s.phase.reply) ==> !Unthrottled(s.posts, s.phase.job.row))
  }

  ghost predicate CountsOk(s: Sys) {
    && (forall id :: id in s.db.outbox ==>
          PostCount(s.posts, id) + (if s.phase.Claiming? && !s.phase.job.poll && s.phase.job.row == id then 1 else 0)
          <= s.db.outbox[id].attempts)
    && (forall id :: PostCount(s.posts, id) <= MAX_ATTEMPTS)
  }

  ghost predicate OnlyLastUnthrottled(posts: seq<Post>) {
    forall i, j :: 0 <= i < j < |posts| && posts[i].row == posts[j].row ==> posts[i].throttled
  }

  ghost predicate ClaimsOk(s: Sys) {
    && (s.claims == [] <==> s.db.settings.lastSendClaim.None?)
    && (s.claims != [] ==> s.db.settings.lastSendClaim == Some(s.claims[|s.claims| - 1]))
    && (forall i :: 0 < i < |s.claims| ==> s.claims[i] - s.claims[i - 1] >= SEND_SPACING_MS)
  }

  ghost predicate SysOk(s: Sys) {
    DbOk(s.db, {}) && JobOk(s) && PostsKnown(s) && PostsOk(s) && CountsOk(s) && OnlyLastUnthrottled(s.posts)
      && ClaimsOk(s)
  }

  // ---- Transactions outside the worker ----

  /** What posts and counts need of a transaction. */
  ghost predicate Forward(db: Db, db': Db) {
    && HistoryGrows(db, db')
    && (forall id :: id in db'.outbox ==>
          if id in db.outbox then
            db'.outbox[id].attempts == db.outbox[id].attempts
              && (db'.outbox[id].state.Queued? ==> db.outbox[id].state.Queued?)
          else id !in db.drawn)
  }

  lemma EvolvesForward(db: Db, db': Db)
    requires Evolves(db, db')
    ensures Forward(db, db')
  {
    hide EpisodesStep, HistoryGrows;
    forall id | id in db'.outbox
      ensures if id in db.outbox then
            db'.outbox[id].attempts == db.outbox[id].attempts
              && (db'.outbox[id].state.Queued? ==> db.outbox[id].state.Queued?)
          else id !in db.drawn
    {
      assert RowOrigin(db, db', id);
      assert id in db.outbox ==> RowStep(db, db', id);
    }
  }

  lemma {:induction false} NoPosts(posts: seq<Post>, row: Id)
    requires forall i :: 0 <= i < |posts| ==> posts[i].row != row
    ensures PostCount(posts, row) == 0 && !Unthrottled(posts, row)
  {
    if posts != [] {
      NoPosts(posts[..|posts| - 1], row);
    }
  }

  lemma NewRowNoPosts(s: Sys, row: Id)
    requires PostsKnown(s) && row !in s.db.drawn
    ensures PostCount(s.posts, row) == 0 && !Unthrottled(s.posts, row)
  {
    NoPosts(s.posts, row);
  }

  lemma ForwardPosts(s: Sys, db': Db)
    requires PostsKnown(s) && PostsOk(s) && CountsOk(s) && Forward(s.db, db')
    ensures var s' := s.(db := db', phase := Idle); PostsKnown(s') && PostsOk(s') && CountsOk(s')
    ensures var s' := s.(db := db');
      JobOf(s).Some? && JobOf(s).value.row in s.db.outbox ==> PostsKnown(s') && PostsOk(s') && CountsOk(s')
  {
    hide Unthrottled;
    forall id | id in db'.outbox
      ensures db'.outbox[id].state.Queued? ==> !Unthrottled(s.posts, id)
      ensures PostCount(s.posts, id) <= db'.outbox[id].attempts
    {
      if id !in s.db.outbox {
        NewRowNoPosts(s, id);
      }
    }
  }

  lemma JobKept(s: Sys, db': Db)
    requires JobOk(s) && RowsStep(s.db, db')
    ensures JobOk(s.(db := db'))
    ensures JobOf(s).Some? ==> JobOf(s).value.row in s.db.outbox
  {
    if JobOf(s).Some? {
      assert RowStep(s.db, db', JobOf(s).value.row);
    }
  }

  lemma OutsideOk(s: Sys, db': Db)
    requires SysOk(s) && DbOk(db', {}) && Evolves(s.db, db')
    ensures SysOk(s.(db := db'))
  {
    hide DbOk, Forward, HistoryGrows, RowsStep, NewRows, EpisodesStep, PostsKnown, PostsOk, CountsOk,
      OnlyLastUnthrottled, JobOk;
    EvolvesForward(s.db, db');
    JobKept(s, db');
    ForwardPosts(s, db');
    if JobOf(s).None? {
      assert s.(db := db', phase := Idle) == s.(db := db');
    } else {
      assert JobOf(s).value.row in s.db.outbox;
    }
    hide JobOf;
  }

  // ---- The worker's transactions ----

  lemma RowsOnlyDbOk(db: Db, outbox: map<Id, Row>)
    requires DbOk(db, {}) && outbox.Keys == db.outbox.Keys && RowsOk(db.(outbox := outbox))
    ensures DbOk(db.(outbox := outbox), {})
  {
    hide OneOpenPerKey, RowsOk;
    assert |outbox.Keys| == |db.outbox.Keys|;
    forall i | i in db.episodes ensures EpisodeOk(db.(outbox := outbox), i, {}) {
      assert EpisodeOk(db, i, {});
    }
  }

  /** A row rewritten in place by its owner. */
  lemma UpdateRowOk(db: Db, id: Id, r: Row)
    requires DbOk(db, {}) && id in db.outbox
    requires RowOk(db.(outbox := db.outbox[id := r]), id)
    ensures DbOk(db.(outbox := db.outbox[id := r]), {})
  {
    RowsAndEpisodes(db, {});
    hide DbOk, EpisodesOk;
    var db' := db.(outbox := db.outbox[id := r]);
    assert db'.outbox.Keys == db.outbox.Keys;
    forall i | i in db'.outbox ensures RowOk(db', i) {
      if i != id {
        assert RowOk(db, i);
      }
    }
    RowsOnlyDbOk(db, db'.outbox);
  }

  /** Giving up on rows in one state. */
  lemma GiveUpOk(db: Db, from: RowState, before: Option<int>, to: RowState, reason: string, now: int)
    requires DbOk(db, {}) && (to.Failed? || to.Uncertain?)
    ensures var db' := db.(outbox := Mark(db.outbox, from, None, before, to, reason, now));
      DbOk(db', {}) && Forward(db, db')
  {
    hide DbOk, EpisodesOk, MessageSid, HistoryOk;
    RowsAndEpisodes(db, {});
    var db' := db.(outbox := Mark(db.outbox, from, None, before, to, reason, now));
    assert db'.outbox.Keys == db.outbox.Keys;
    forall i | i in db'.outbox ensures RowOk(db', i) {
      assert RowOk(db, i);
    }
    hide RowsOk;
    RowsOnlyDbOk(db, db'.outbox);
  }

  lemma ForwardTransitive(a: Db, b: Db, c: Db)
    requires DbOk(a, {}) && Forward(a, b) && Forward(b, c)
    ensures Forward(a, c)
  {
    RowsAndEpisodes(a, {});
    hide DbOk;
    forall id | id in c.outbox
      ensures if id in a.outbox then
            c.outbox[id].attempts == a.outbox[id].attempts
              && (c.outbox[id].state.Queued? ==> a.outbox[id].state.Queued?)
          else id !in a.drawn
    {
      assert id in a.outbox ==> RowOk(a, id);
    }
  }

  lemma SweepOk(db: Db, now: int)
    requires DbOk(db, {})
    ensures DbOk(Sweep(db, now), {}) && Forward(db, Sweep(db, now)) && Sweep(db, now).drawn == db.drawn
    ensures Sweep(db, now).settings == db.settings
  {
    hide DbOk, Forward, Mark;
    GiveUpOk(db, Sending, None, Uncertain, "outcome_not_recorded", now);
    var a := db.(outbox := Mark(db.outbox, Sending, None, None, Uncertain, "outcome_not_recorded", now));
    GiveUpOk(a, Queued, Some(now - DAY_MS), Failed, "queue_expired", now);
    var b := a.(outbox := Mark(a.outbox, Queued, None, Some(now - DAY_MS), Failed, "queue_expired", now));
    GiveUpOk(b, Accepted, Some(now - DAY_MS), Uncertain, "delivery_deadline", now);
    ForwardTransitive(db, a, b);
    ForwardTransitive(db, b, Sweep(db, now));
  }

  /** The tables after sweeping and retrying, before a row is selected. */
  lemma ReadyOk(s: Sys, now: int, uuids: seq<Id>)
    requires SysOk(s) && s.phase.Idle? && Supply(uuids, s.db.drawn) && |uuids| >= |Selected(Sweep(s.db, now))|
    ensures var ready := s.(db := RetryPending(Sweep(s.db, now), now, uuids));
      SysOk(ready) && ready.db.settings.lastSendClaim == s.db.settings.lastSendClaim
  {
    hide DbOk, Evolves, Forward, RetryPending, Sweep, PostsKnown, PostsOk, CountsOk, OnlyLastUnthrottled, ActiveKept;
    SweepOk(s.db, now);
    var swept := Sweep(s.db, now);
    RetryPendingOk(swept, now, uuids);
    var ready := RetryPending(swept, now, uuids);
    EvolvesForward(swept, ready);
    ForwardTransitive(s.db, swept, ready);
    ForwardPosts(s, ready);
    assert s.(db := ready, phase := Idle) == s.(db := ready);
  }

  /** Rewriting one row without queueing it keeps what is known about the posts. */
  lemma UpdateRowPosts(s: Sys, id: Id, r: Row, settings: Settings, phase: Phase)
    requires PostsKnown(s) && PostsOk(s) && CountsOk(s) && id in s.db.outbox && s.phase.Idle?
    requires r.attempts >= s.db.outbox[id].attempts
    requires r.state.Queued? ==> s.db.outbox[id].state.Queued?
    requires phase.Idle? || (phase.Claiming? && phase.job.row == id)
    requires phase.Claiming? && !phase.job.poll ==>
      s.db.outbox[id].state.Queued? && r.attempts > s.db.outbox[id].attempts
    ensures var s' := s.(db := s.db.(outbox := s.db.outbox[id := r], settings := settings), phase := phase);
      PostsKnown(s') && PostsOk(s') && CountsOk(s')
  {
    hide Unthrottled;
  }

  /** A send is claimed for a queued row: it becomes `sending` with one more attempt. */
  lemma ClaimSendOk(s: Sys, now: int)
    requires SysOk(s) && s.phase.Idle? && SendReady(s.db.settings, now) && DueSends(s.db, now) != map[]
    ensures var c := Select(s.db, now);
      && c.job.Some? && !c.job.value.poll
      && SysOk(Sys(c.db, Claiming(c.job.value), s.posts, s.claims + [now]))
  {
    hide DbOk, E164, First, PostsKnown, PostsOk, CountsOk, OnlyLastUnthrottled, Unthrottled;
    var id := First(DueSends(s.db, now));
    assert id in DueSends(s.db, now);
    var r := s.db.outbox[id];
    var r' := r.(state := Sending, attempts := r.attempts + 1, updatedAt := now);
    SentRow(s.db, id, r');
    UpdateRowOk(s.db, id, r');
    var updated := s.db.(outbox := s.db.outbox[id := r']);
    LastClaimDbOk(updated, now);
    var c := Select(s.db, now);
    hide Sendable, DueSends, RowOk;
    UpdateRowPosts(s, id, r', c.db.settings, Claiming(c.job.value));
    SamePosts(s.(db := c.db, phase := Claiming(c.job.value)), s.claims + [now]);
  }

  lemma SentRow(db: Db, id: Id, r: Row)
    requires DbOk(db, {}) && id in db.outbox && db.outbox[id].state.Queued?
    requires r == db.outbox[id].(state := Sending, attempts := db.outbox[id].attempts + 1, updatedAt := r.updatedAt)
    ensures RowOk(db.(outbox := db.outbox[id := r]), id)
  {
    assert RowOk(db, id);
  }

  lemma SamePosts(s: Sys, claims: seq<int>)
    ensures PostsKnown(s) ==> PostsKnown(s.(claims := claims))
    ensures PostsOk(s) ==> PostsOk(s.(claims := claims))
    ensures CountsOk(s) ==> CountsOk(s.(claims := claims))
  {
    hide Unthrottled;
  }

  lemma LastClaimDbOk(db: Db, now: int)
    requires DbOk(db, {})
    ensures DbOk(db.(settings := db.settings.(lastSendClaim := Some(now))), {})
  {
    hide OneOpenPerKey;
    var db' := db.(settings := db.settings.(lastSendClaim := Some(now)));
    forall i | i in db'.outbox ensures RowOk(db', i) {
      assert RowOk(db, i);
    }
    forall i | i in db'.episodes ensures EpisodeOk(db', i, {}) {
      assert EpisodeOk(db, i, {});
    }
  }

  lemma PolledRow(db: Db, id: Id, r: Row)
    requires DbOk(db, {}) && id in db.outbox && r == db.outbox[id].(nextAttempt := r.nextAttempt)
    ensures RowOk(db.(outbox := db.outbox[id := r]), id)
  {
    hide OneOpenPerKey, EpisodesOk;
    assert RowOk(db, id);
  }

  lemma ClaimPollOk(s: Sys, now: int)
    requires SysOk(s) && s.phase.Idle? && DuePolls(s.db, now) != map[]
    requires !(SendReady(s.db.settings, now) && DueSends(s.db, now) != map[])
    ensures var c := Select(s.db, now);
      && c.job.Some? && c.job.value.poll
      && SysOk(Sys(c.db, Claiming(c.job.value), s.posts, s.claims))
  {
    var id := First(DuePolls(s.db, now));
    assert id in DuePolls(s.db, now);
    assert Select(s.db, now) == Polled(s.db, id, now);
    hide SendReady, DueSends, DuePolls, First, Select, SysOk;
    PolledOk(s, id, now);
  }

  lemma PolledOk(s: Sys, id: Id, now: int)
    requires SysOk(s) && s.phase.Idle? && id in s.db.outbox && s.db.outbox[id].state.Accepted?
    ensures var c := Polled(s.db, id, now); SysOk(Sys(c.db, Claiming(c.job.value), s.posts, s.claims))
  {
    hide DbOk, PostsKnown, PostsOk, CountsOk, OnlyLastUnthrottled, Unthrottled, RowOk;
    var r' := s.db.outbox[id].(nextAttempt := now + 60_000);
    PolledRow(s.db, id, r');
    UpdateRowOk(s.db, id, r');
    var c := Polled(s.db, id, now);
    assert c.db == s.db.(outbox := s.db.outbox[id := r'], settings := s.db.settings);
    UpdateRowPosts(s, id, r', s.db.settings, Claiming(c.job.value));
  }

  lemma ClaimOk(s: Sys, client: bool, now: int, uuids: seq<Id>)
    requires SysOk(s) && Enabled(s, Claim(client, now, uuids))
    ensures SysOk(AfterClaim(s, client, now, uuids))
  {
    hide SysOk, Sweep, RetryPending, SendReady, DueSends, DuePolls;
    ReadyOk(s, now, uuids);
    var ready := s.(db := RetryPending(Sweep(s.db, now), now, uuids));
    if client {
      if SendReady(ready.db.settings, now) && DueSends(ready.db, now) != map[] {
        ClaimSendOk(ready, now);
      } else if DuePolls(ready.db, now) != map[] {
        ClaimPollOk(ready, now);
      }
    }
  }

  lemma PostCountAppend(posts: seq<Post>, p: Post, row: Id)
    ensures PostCount(posts + [p], row) == PostCount(posts, row) + if p.row == row then 1 else 0
    ensures Unthrottled(posts + [p], row) <==> Unthrottled(posts, row) || (p.row == row && !p.throttled)
  {
    assert (posts + [p])[..|posts|] == posts;
    assert (posts + [p])[|posts|] == p;
    if Unthrottled(posts, row) {
      var i :| 0 <= i < |posts| && posts[i].row == row && !posts[i].throttled;
      assert (posts + [p])[i] == posts[i];
    }
  }

  /** A worker's exchange carries no sid exactly when it is a send. */
  lemma OnlySendsPost(s: Sys)
    requires SysOk(s) && JobOf(s).Some?
    ensures IsPost(JobOf(s).value) <==> !JobOf(s).value.poll
    ensures JobOf(s).value.poll ==> MessageSid(JobOf(s).value.message.value)
  {
    assert RowOk(s.db, JobOf(s).value.row);
  }

  /** The provider is asked to send: only now may an answer other than 429 be logged for the row. */
  lemma PostOk(s: Sys, throttled: bool, phase: Phase)
    requires SysOk(s) && s.phase.Claiming? && !s.phase.job.poll
    requires phase.Idle? || (phase.Answered? && phase.job == s.phase.job && Throttled(phase.reply) == throttled)
    ensures SysOk(s.(phase := phase, posts := s.posts + [PostOf(s.phase.job, throttled)]))
  {
    var job := s.phase.job;
    var posts := s.posts + [PostOf(job, throttled)];
    ClaimedRow(s);
    PostedKnown(s, posts, throttled, phase);
    hide DbOk, PostsKnown, ClaimsOk;
    forall row ensures Extends(s.posts, posts, job.row, throttled, row) {
      PostCountAppend(s.posts, PostOf(job, throttled), row);
    }
    assert !Unthrottled(s.posts, job.row);
    StillOnlyLast(s.posts, PostOf(job, throttled));
    hide Unthrottled, OnlyLastUnthrottled;
    PostedCounts(s, posts, throttled, phase);
    PostedRows(s, posts, throttled, phase);
    hide CountsOk, PostsOk;
    assert ClaimsOk(s.(phase := phase, posts := posts)) by { SameClaims(s, phase, posts); }
  }

  lemma ClaimedRow(s: Sys)
    requires DbOk(s.db, {}) && JobOk(s) && s.phase.Claiming? && !s.phase.job.poll
    ensures var row := s.phase.job.row;
      row in s.db.outbox && s.db.outbox[row].attempts <= MAX_ATTEMPTS && s.db.outbox[row].state.Sending?
  {
    hide OneOpenPerKey, EpisodesOk;
    assert RowOk(s.db, s.phase.job.row);
  }

  lemma PostedKnown(s: Sys, posts: seq<Post>, throttled: bool, phase: Phase)
    requires DbOk(s.db, {}) && JobOk(s) && PostsKnown(s) && s.phase.Claiming?
    requires posts == s.posts + [PostOf(s.phase.job, throttled)]
    ensures PostsKnown(s.(phase := phase, posts := posts))
  {
    hide DbOk, JobOk;
    JobAdmitted(s);
    hide PostOf;
  }

  lemma JobAdmitted(s: Sys)
    requires DbOk(s.db, {}) && JobOk(s) && JobOf(s).Some?
    ensures var job := JobOf(s).value;
      && job.row in s.db.drawn && (job.episode, job.revision) in s.db.admitted
      && s.db.admitted[(job.episode, job.revision)] == job.row
  {
    assert RowOk(s.db, JobOf(s).value.row);
    hide OneOpenPerKey, EpisodesOk;
  }

  lemma SameClaims(s: Sys, phase: Phase, posts: seq<Post>)
    requires ClaimsOk(s)
    ensures ClaimsOk(s.(phase := phase, posts := posts))
  {
  }

  /** One more answer about job is logged, as seen by row. */
  ghost predicate Extends(posts: seq<Post>, posts': seq<Post>, job: Id, throttled: bool, row: Id) {
    && PostCount(posts', row) == PostCount(posts, row) + (if job == row then 1 else 0)
    && (Unthrottled(posts', row) <==> Unthrottled(posts, row) || (job == row && !throttled))
  }

  lemma StillOnlyLast(posts: seq<Post>, p: Post)
    requires OnlyLastUnthrottled(posts) && !Unthrottled(posts, p.row)
    ensures OnlyLastUnthrottled(posts + [p])
  {
    forall i, j | 0 <= i < j < |posts + [p]| && (posts + [p])[i].row == (posts + [p])[j].row
      ensures (posts + [p])[i].throttled {
      if j == |posts| {
        assert posts[i].row == p.row;
      }
    }
  }

  lemma PostedCounts(s: Sys, posts: seq<Post>, throttled: bool, phase: Phase)
    requires s.phase.Claiming? && !s.phase.job.poll && !phase.Claiming? && CountsOk(s)
    requires s.phase.job.row in s.db.outbox && s.db.outbox[s.phase.job.row].attempts <= MAX_ATTEMPTS
    requires forall row :: Extends(s.posts, posts, s.phase.job.row, throttled, row)
    ensures CountsOk(s.(phase := phase, posts := posts))
  {
    var s' := s.(phase := phase, posts := posts);
    forall id ensures PostCount(posts, id) <= MAX_ATTEMPTS
      && (id in s.db.outbox ==> PostCount(posts, id) <= s.db.outbox[id].attempts) {
      assert Extends(s.posts, posts, s.phase.job.row, throttled, id);
      assert PostCount(s.posts, id) <= MAX_ATTEMPTS;
    }
  }

  lemma PostedRows(s: Sys, posts: seq<Post>, throttled: bool, phase: Phase)
    requires s.phase.Claiming? && !s.phase.job.poll && PostsOk(s) && JobOk(s)
    requires phase.Idle? || (phase.Answered? && phase.job == s.phase.job && Throttled(phase.reply) == throttled)
    requires forall row :: Extends(s.posts, posts, s.phase.job.row, throttled, row)
    ensures PostsOk(s.(phase := phase, posts := posts))
  {
    hide Unthrottled, PostCount, Throttled;
    forall id | id in s.db.outbox && s.db.outbox[id].state.Queued? ensures !Unthrottled(posts, id) {
      assert Extends(s.posts, posts, s.phase.job.row, throttled, id);
    }
    assert Extends(s.posts, posts, s.phase.job.row, throttled, s.phase.job.row);
  }

  lemma PollAnswered(s: Sys, phase: Phase)
    requires SysOk(s) && s.phase.Claiming? && s.phase.job.poll
      && (phase.Idle? || (phase.Answered? && phase.job == s.phase.job))
    ensures SysOk(s.(phase := phase))
  {
    hide DbOk, Unthrottled;
  }

  /** Forgetting a job: nothing was promised about its row that still has to hold. */
  lemma Dropped(s: Sys)
    requires SysOk(s)
    ensures SysOk(s.(phase := Idle))
  {
    hide DbOk, Unthrottled;
  }

  lemma ExchangeOk(s: Sys, reply: Reply)
    requires SysOk(s) && s.phase.Claiming?
    ensures SysOk(s.(phase := Answered(s.phase.job, reply),
      posts := if IsPost(s.phase.job) then s.posts + [PostOf(s.phase.job, Throttled(reply))] else s.posts))
  {
    OnlySendsPost(s);
    hide SysOk;
    if s.phase.job.poll {
      PollAnswered(s, Answered(s.phase.job, reply));
    } else {
      PostOk(s, Throttled(reply), Answered(s.phase.job, reply));
    }
  }

  lemma CrashOk(s: Sys, delivered: bool)
    requires SysOk(s)
    ensures SysOk(s.(phase := Idle,
      posts := if delivered && s.phase.Claiming? && IsPost(s.phase.job) then s.posts + [PostOf(s.phase.job, false)]
        else s.posts))
  {
    if s.phase.Claiming? {
      OnlySendsPost(s);
    }
    hide SysOk;
    if delivered && s.phase.Claiming? && IsPost(s.phase.job) {
      PostOk(s, false, Idle);
    } else {
      Dropped(s);
    }
  }

  /** Only 429 re-queues, and only a well-formed sid is ever accepted. */
  lemma ClassifyFacts(message: Option<string>, reply: Reply)
    ensures var r := Classify(message, reply);
      && (r.state.Queued? ==> Throttled(reply) && r.sid.None?)
      && (r.state.Accepted? ==> r.sid.Some?)
      && (r.sid.Some? ==> MessageSid(r.sid.value))
      && !r.state.Sending? && !r.state.Suppressed?
  {
    if reply.Http? {
      BodyFacts(message, reply.body);
    }
    hide MessageSid, ClassifyBody;
  }

  lemma BodyFacts(message: Option<string>, body: Body)
    ensures var r := ClassifyBody(message, body);
      && !r.state.Queued? && !r.state.Sending? && !r.state.Suppressed?
      && (r.state.Accepted? ==> r.sid.Some?)
      && (r.sid.Some? ==> MessageSid(r.sid.value))
  {
    hide MessageSid, ProviderState;
  }

  /** What is recorded: queued again only after a throttled send, accepted only with a valid sid. */
  lemma RecordedRow(s: Sys)
    requires DbOk(s.db, {}) && JobOk(s) && s.phase.Answered?
    ensures var job := s.phase.job;
      && job.row in s.db.outbox
      && var r' := Record(s.db, job, s.phase.reply).outbox[job.row];
         && RowOk(s.db.(outbox := s.db.outbox[job.row := r']), job.row)
         && (r'.state.Queued? ==> !job.poll && Throttled(s.phase.reply))
         && r'.attempts == s.db.outbox[job.row].attempts
         && Record(s.db, job, s.phase.reply) == s.db.(outbox := s.db.outbox[job.row := r'])
  {
    hide MessageSid, Classify, OneOpenPerKey, EpisodesOk;
    assert RowOk(s.db, s.phase.job.row);
    hide DbOk;
    ClassifyFacts(RequestSid(s.phase.job), s.phase.reply);
  }

  lemma SavedPosts(s: Sys, r: Row)
    requires PostsKnown(s) && PostsOk(s) && CountsOk(s) && s.phase.Answered? && s.phase.job.row in s.db.outbox
    requires r.state.Queued? ==> !s.phase.job.poll && Throttled(s.phase.reply)
    requires r.attempts == s.db.outbox[s.phase.job.row].attempts
    ensures var s' := s.(db := s.db.(outbox := s.db.outbox[s.phase.job.row := r]), phase := Idle);
      PostsKnown(s') && PostsOk(s') && CountsOk(s')
  {
    hide Unthrottled;
  }

  lemma NoJob(s: Sys, db': Db)
    ensures JobOk(s.(db := db', phase := Idle))
  {
  }

  lemma SaveOk(s: Sys)
    requires SysOk(s) && s.phase.Answered?
    ensures SysOk(s.(db := Record(s.db, s.phase.job, s.phase.reply), phase := Idle))
  {
    hide Record, DbOk, PostsKnown, PostsOk, CountsOk, OnlyLastUnthrottled, RowOk, JobOk;
    RecordedRow(s);
    var r' := Record(s.db, s.phase.job, s.phase.reply).outbox[s.phase.job.row];
    UpdateRowOk(s.db, s.phase.job.row, r');
    SavedPosts(s, r');
    assert JobOk(s.(db := Record(s.db, s.phase.job, s.phase.reply), phase := Idle)) by {
      NoJob(s, Record(s.db, s.phase.job, s.phase.reply));
    }
  }

  lemma RestartOk(s: Sys, now: int)
    requires SysOk(s) && s.phase.Idle?
    ensures SysOk(s.(db := Recover(s.db, now)))
  {
    hide DbOk, Forward, Mark, PostsKnown, PostsOk, CountsOk, OnlyLastUnthrottled;
    GiveUpOk(s.db, Sending, None, Uncertain, "interrupted_send", now);
    ForwardPosts(s, Recover(s.db, now));
    assert s.(db := Recover(s.db, now), phase := Idle) == s.(db := Recover(s.db, now));
  }

  lemma WorkerOk(s: Sys, e: Event)
    requires SysOk(s) && WorkerEvent(e) && Enabled(s, e)
    ensures SysOk(Do(s, e))
  {
    hide SysOk, Sweep, Record, Recover;
    match e {
      case Claim(client, now, uuids) => ClaimOk(s, client, now, uuids);
      case Exchange(reply) => ExchangeOk(s, reply);
      case Save => SaveOk(s);
      case SaveFails => Dropped(s);
      case Crash(delivered) => CrashOk(s, delivered);
      case Restart(now) => RestartOk(s, now);
    }
  }

  /** A transaction of the rest of the server leaves the worker's job, posts and claims alone. */
  lemma OutsideEvolves(s: Sys, e: Event)
    requires DbOk(s.db, {}) && !WorkerEvent(e) && Enabled(s, e)
    ensures var s' := Do(s, e); DbOk(s'.db, {}) && Evolves(s.db, s'.db) && s' == s.(db := s'.db)
  {
    hide RowsOk, EpisodesOk, HistoryGrows;
    assert s.db.settings.revision in s.db.drawn;
    hide DbOk, Evolves, Configure, Acknowledge, ObserveCondition, Retain, RetryPending, Forget, Selected;
    match e {
      case Reconfigure(request, now, revision) => ConfigureOk(s.db, request, now, revision);
      case Ack(id, revision, now, next) => AcknowledgeOk(s.db, id, revision, now, next);
      case Evaluate(c, now, draw) => ObserveConditionOk(s.db, c, now, draw);
      case Reconcile(now, uuids) => RetainOk(s.db, now, uuids);
      case RetryAgain(now, uuids) => RetryPendingOk(s.db, now, uuids);
      case Absent(observed, now) => ForgetOk(s.db, observed, now);
      case Limited(limited) => SettingsOk(s.db, s.db.settings.(admissionLimited := limited), {});
      case DefaultSender(sender) =>
        SettingsOk(s.db, s.db.settings.(sender := sender), {});
        EvolvesItself(s.db);
    }
  }

  /** Every event keeps the invariant. */
  lemma NextOk(s: Sys, e: Event)
    requires SysOk(s)
    ensures SysOk(Next(s, e))
  {
    if Enabled(s, e) {
      if WorkerEvent(e) {
        WorkerOk(s, e);
      } else {
        OutsideEvolves(s, e);
        OutsideOk(s, Do(s, e).db);
      }
    }
    hide SysOk, Do, Enabled;
  }

  lemma StartOk()
    ensures SysOk(START)
  {
  }

  lemma {:induction false} AlwaysOk(run: seq<Event>, n: nat)
    requires n <= |run|
    ensures SysOk(At(run, n))
    decreases n
  {
    hide SysOk, Next;
    if n == 0 {
      StartOk();
    } else {
      AlwaysOk(run, n - 1);
      NextOk(At(run, n - 1), run[n - 1]);
    }
  }

  // ---- The main results ----

  /** In every run, of all the messages the provider was asked to send for one outbox row, only the
      last can have been answered by anything but an explicit 429: a row is delivered at most once. */
  lemma AtMostOncePerRow(run: seq<Event>, n: nat, i: nat, j: nat)
    requires n <= |run| && i < j < |At(run, n).posts| && At(run, n).posts[i].row == At(run, n).posts[j].row
    ensures At(run, n).posts[i].throttled
  {
    AlwaysOk(run, n);
    hide DbOk, At;
  }

  /** The same for one episode revision, even after its row was evicted and forgotten: no concern
      is announced twice. */
  lemma AtMostOncePerTransition(run: seq<Event>, n: nat, i: nat, j: nat)
    requires n <= |run| && i < j < |At(run, n).posts|
    requires At(run, n).posts[i].episode == At(run, n).posts[j].episode
      && At(run, n).posts[i].revision == At(run, n).posts[j].revision
    ensures At(run, n).posts[i].throttled && At(run, n).posts[i].row == At(run, n).posts[j].row
  {
    AlwaysOk(run, n);
    hide DbOk, At;
  }

  /** A row is posted at most four times, and claims of sends are at least 30 s apart. */
  lemma AttemptsAndSpacing(run: seq<Event>, n: nat, row: Id)
    requires n <= |run|
    ensures PostCount(At(run, n).posts, row) <= MAX_ATTEMPTS
    ensures row in At(run, n).db.outbox ==>
      PostCount(At(run, n).posts, row) <= At(run, n).db.outbox[row].attempts <= MAX_ATTEMPTS
    ensures forall i, j :: 0 <= i < j < |At(run, n).claims| ==>
      At(run, n).claims[j] - At(run, n).claims[i] >= SEND_SPACING_MS
  {
    AlwaysOk(run, n);
    var s := At(run, n);
    assert row in s.db.outbox ==> RowOk(s.db, row);
    hide DbOk, At;
    forall i, j | 0 <= i < j < |s.claims| ensures s.claims[j] - s.claims[i] >= SEND_SPACING_MS {
      Spaced(s.claims, i, j);
    }
  }

  lemma {:induction false} Spaced(claims: seq<int>, i: nat, j: nat)
    requires i < j < |claims| && forall k :: 0 < k < |claims| ==> claims[k] - claims[k - 1] >= SEND_SPACING_MS
    ensures claims[j] - claims[i] >= SEND_SPACING_MS
  {
    if i + 1 < j {
      Spaced(claims, i, j - 1);
    }
  }

  /** A status poll never turns into a send: it always carries the sid that was accepted. */
  lemma PollsNeverPost(run: seq<Event>, n: nat)
    requires n <= |run| && At(run, n).phase.Claiming? && At(run, n).phase.job.poll
    ensures !IsPost(At(run, n).phase.job) && MessageSid(At(run, n).phase.job.message.value)
  {
    AlwaysOk(run, n);
    OnlySendsPost(At(run, n));
  }

  /** The outbox and the episode table never exceed their limits, and a key has one open episode. */
  lemma AlwaysBounded(run: seq<Event>, n: nat)
    requires n <= |run|
    ensures |At(run, n).db.outbox| <= MAX_OUTBOX && |At(run, n).db.episodes| <= MAX_EPISODES
    ensures OneOpenPerKey(At(run, n).db.episodes)
    ensures forall r, r' | r in At(run, n).db.outbox && r' in At(run, n).db.outbox ::
      At(run, n).db.outbox[r].episode == At(run, n).db.outbox[r'].episode
      && At(run, n).db.outbox[r].revision == At(run, n).db.outbox[r'].revision
      ==> r == r'
  {
    AlwaysOk(run, n);
    var db := At(run, n).db;
    hide At;
    forall r, r' | r in db.outbox && r' in db.outbox && db.outbox[r].episode == db.outbox[r'].episode
        && db.outbox[r].revision == db.outbox[r'].revision
      ensures r == r'
    {
      assert RowOk(db, r) && RowOk(db, r');
    }
  }
}
