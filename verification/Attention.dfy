/**
 Operator episodes (server/src/attention.rs): one open episode per source key, opened by an open
 condition, closed only by fresh resolved evidence, acknowledged by an operator.
 */
module Attention {
  import opened Wrappers
  import opened Outbox

  const RETENTION_MS: int := 30 * DAY_MS
  const DEVICE_PRESENCE: string := "device_presence:"

  datatype ConditionStatus = ConditionOpen | ConditionResolved | ConditionInterrupted

  /** One evaluated condition; oversized stands for the length limits of lines 37-47. */
  datatype Condition = Condition(
    key: string, kind: string, node: string, status: ConditionStatus, severity: Severity,
    observation: string, facts: Facts, oversized: bool)

  predicate Fresh(c: Condition) {
    c.observation == "ok" || c.observation == "current"
  }

  // ---- The open episode of a key ----

  ghost predicate IsOpen(episodes: map<Id, Episode>, key: string, id: Id) {
    id in episodes && episodes[id].open && episodes[id].sourceKey == key
  }

  ghost predicate HasOpen(episodes: map<Id, Episode>, key: string) {
    exists id :: IsOpen(episodes, key, id)
  }

  ghost predicate OneOpenPerKey(episodes: map<Id, Episode>) {
    forall i, j | i in episodes && j in episodes && episodes[i].open && episodes[j].open ::
      episodes[i].sourceKey == episodes[j].sourceKey ==> i == j
  }

  // ---- Correlation of a removed drive with its vanished connection (lines 98-107) ----

  function WatchOf(c: Condition, kind: string): Option<string> {
    if kind == "drive_removal" then c.facts.usbWatch
    else if c.facts.rule == "usb_connection_absent" then c.facts.watch
    else None
  }

  predicate Correlates(e: Episode, c: Condition, watch: string) {
    && e.open && e.node == c.node && e.facts.epoch == c.facts.epoch
    && ((e.kind == "drive_removal" && e.facts.usbWatch == Some(watch)) || e.sourceKey == DEVICE_PRESENCE + watch)
  }

  function Correlated(episodes: map<Id, Episode>, c: Condition, except: Id): map<Id, int> {
    if WatchOf(c, c.kind).None? || c.facts.epoch == "" then map[]
    else
      var watch := WatchOf(c, c.kind).value;
      map id | id in episodes && id != except && Correlates(episodes[id], c, watch) :: episodes[id].firstSeen
  }

  /** A transferred notification may resume on fresh evidence of the same connection (lines 118-124). */
  predicate Resumes(s: Settings, c: Condition, acked: bool, pending: Option<Transfer>, now: int) {
    && Fresh(c) && c.status.ConditionOpen? && !acked && pending.Some?
    && pending.value.epoch == c.facts.epoch
    && pending.value.createdAt <= now && now - pending.value.createdAt <= DAY_MS
    && s.enabled && s.revision == pending.value.settingsRevision
  }

  /** Whether a still undelivered notification of id would be lost by resolving it (lines 132-135). */
  ghost predicate Undelivered(db: Db, id: Id, now: int) {
    && id in db.episodes && db.settings.enabled
    && ((exists r :: r in db.outbox && db.outbox[r].episode == id && db.outbox[r].state.Queued?
            && db.outbox[r].settingsRevision == db.settings.revision)
        || (PendingIntent(db.episodes[id]) && db.episodes[id].intent.value.settingsRevision == db.settings.revision
            && db.episodes[id].intent.value.createdAt >= now - DAY_MS))
  }

  function StartsWith(s: string, prefix: string): bool {
    |prefix| <= |s| && s[..|prefix|] == prefix
  }

  function Heirs(episodes: map<Id, Episode>, node: string, id: Id): map<Id, int> {
    map o | o in episodes && episodes[o].node == node && episodes[o].open && !episodes[o].acked
      && episodes[o].marks.correlation == Some(id) :: episodes[o].firstSeen
  }

  /** The other correlated concern inherits the notification (lines 158-178). */
  ghost function PassOn(db: Db, c: Condition, id: Id, now: int, row: Id): Db {
    var heirs := Heirs(db.episodes, c.node, id);
    if heirs == map[] then db else
      var other := First(heirs);
      var e := db.episodes[other];
      if StartsWith(e.sourceKey, DEVICE_PRESENCE) then
        db.(episodes := db.episodes[other := e.(updatedAt := now,
          marks := e.marks.(pending := Some(Transfer(id, db.settings.revision, now, e.facts.epoch))))])
      else
        var queued := Enqueue(db, other, e.revision, now, row);
        if other !in queued.episodes then queued else
          var e' := queued.episodes[other];
          queued.(episodes := queued.episodes[other := e'.(updatedAt := now,
            marks := e'.marks.(correlation := None, from := Some(id)))])
  }

  // ---- observe_condition (lines 32-185) ----

  datatype Draw = Draw(episode: Id, revision: Id, row: Id)

  /** The row written for a condition: identity, state and everything carried over from before. */
  ghost function NextEpisode(db: Db, c: Condition, now: int, id: Id, revision: Id): Episode {
    var continuing := id in db.episodes;
    var open := !(c.status.ConditionResolved? && Fresh(c));
    var transition := !continuing || (Fresh(c) && (db.episodes[id].severity != c.severity || !open));
    var acked := !transition && db.episodes[id].acked;
    var peers := Correlated(db.episodes, c, id);
    var marks :=
      if transition && open && peers != map[] then Marks(Some(First(peers)), None, None)
      else if !transition then db.episodes[id].marks
      else Marks(None, None, None);
    var marks' :=
      if Resumes(db.settings, c, acked, marks.pending, now) then Marks(None, None, Some(marks.pending.value.episode))
        else marks;
    Episode(c.key, if continuing then db.episodes[id].kind else c.kind, c.node, open,
      if continuing && !Fresh(c) then db.episodes[id].severity else c.severity,
      c.observation, c.facts, marks',
      if transition then revision else db.episodes[id].revision,
      if continuing then db.episodes[id].firstSeen else now, now, if open then None else Some(now), acked,
      if continuing then db.episodes[id].intent else None)
  }

  /** Whether this observation is a new concern, a severity change or a recovery. */
  ghost predicate Transition(db: Db, c: Condition, id: Id) {
    id !in db.episodes
    || (Fresh(c) && (db.episodes[id].severity != c.severity || c.status.ConditionResolved?))
  }

  /** The upsert of line 136. */
  ghost function Written(db: Db, c: Condition, now: int, id: Id, draw: Draw): Db {
    db.(episodes := db.episodes[id := NextEpisode(db, c, now, id, draw.revision)],
      drawn := db.drawn + {id} + (if Transition(db, c, id) then {draw.revision} else {}))
  }

  /** Whether this transition announces itself (line 151). */
  ghost predicate Announces(db: Db, c: Condition, now: int, id: Id, draw: Draw) {
    var e := NextEpisode(db, c, now, id, draw.revision);
    Transition(db, c, id) && e.open && Correlated(db.episodes, c, id) == map[] && !e.severity.Info?
  }

  /** Whether a transferred notification resumes (line 154). */
  ghost predicate ResumesTransfer(db: Db, c: Condition, now: int, id: Id) {
    !Transition(db, c, id) && Resumes(db.settings, c, db.episodes[id].acked, db.episodes[id].marks.pending, now)
  }

  /** A transition withdraws the intent of the revision it replaces. */
  ghost function Cancelled(db: Db, c: Condition, now: int, id: Id, draw: Draw): Db {
    var written := Written(db, c, now, id, draw);
    var reason := if written.episodes[id].open then "superseded" else "condition_resolved";
    if Transition(db, c, id) then written.(episodes := CancelIntent(written.episodes, Some(id), reason, now))
      else written
  }

  /** Lines 138-154: superseded intents are cancelled, then at most one notification is enqueued. */
  ghost function Notified(db: Db, c: Condition, now: int, id: Id, draw: Draw): Db {
    var e := Written(db, c, now, id, draw).episodes[id];
    var cancelled := Cancelled(db, c, now, id, draw);
    var announced := if Announces(db, c, now, id, draw) then Enqueue(cancelled, id, e.revision, now, draw.row)
      else cancelled;
    if ResumesTransfer(db, c, now, id) then Enqueue(announced, id, e.revision, now, draw.row) else announced
  }

  /** Lines 155-157: a resolved episode has nothing left to send. */
  function Closed(db: Db, id: Id, now: int): Db {
    db.(episodes := CancelIntent(db.episodes, Some(id), "condition_resolved", now),
      outbox := Mark(db.outbox, Queued, Some(id), None, Suppressed, "condition_resolved", now))
  }

  ghost function Apply(db: Db, c: Condition, now: int, id: Id, draw: Draw): Db {
    var notified := Notified(db, c, now, id, draw);
    if NextEpisode(db, c, now, id, draw.revision).open then notified
    else if Undelivered(db, id, now) then PassOn(Closed(notified, id, now), c, id, now, draw.row)
    else Closed(notified, id, now)
  }

  ghost function ObserveCondition(db: Db, c: Condition, now: int, draw: Draw): Db {
    if c.oversized then db
    else if HasOpen(db.episodes, c.key) then
      var id :| IsOpen(db.episodes, c.key, id);
      Apply(db, c, now, id, draw)
    else if !c.status.ConditionOpen? then db
    else if |db.episodes| >= MAX_EPISODES then db.(settings := db.settings.(admissionLimited := true))
    else Apply(db, c, now, draw.episode, draw)
  }

  // ---- Acknowledgement (lines 244-288) ----

  predicate Acknowledgeable(db: Db, id: Id, revision: Id) {
    id in db.episodes && db.episodes[id].revision == revision && db.episodes[id].open
  }

  function Acknowledge(db: Db, id: Id, revision: Id, now: int, next: Id): Db {
    if !Acknowledgeable(db, id, revision) then db else
      db.(episodes := CancelIntent(db.episodes[id := db.episodes[id].(acked := true, revision := next,
        updatedAt := now)],
            Some(id), "acknowledged", now),
          outbox := Mark(db.outbox, Queued, Some(id), None, Suppressed, "acknowledged", now),
          drawn := db.drawn + {next})
  }

  // ---- Retention and absent sources in reconcile (lines 456-462, 588-595) ----

  ghost function Retain(db: Db, now: int, uuids: seq<Id>): Db
    requires |uuids| >= |Selected(Pruned(db, now))|
  {
    RetryPending(Pruned(db, now), now, uuids)
  }

  ghost predicate Disposable(outbox: map<Id, Row>, episodes: map<Id, Episode>, id: Id, now: int)
    requires id in episodes
  {
    && !episodes[id].open && episodes[id].resolvedAt.Some? && episodes[id].resolvedAt.value < now - RETENTION_MS
    && (forall r :: r in outbox ==> outbox[r].episode != id)
  }

  ghost function Pruned(db: Db, now: int): Db {
    var outbox := map id | id in db.outbox
      && (Active(db.outbox[id]) || db.outbox[id].updatedAt >= now - RETENTION_MS) :: db.outbox[id];
    db.(outbox := outbox,
      episodes := map id | id in db.episodes && !Disposable(outbox, db.episodes, id, now) :: db.episodes[id],
      settings := db.settings.(admissionLimited := false))
  }

  /** A source that was not observed this time is unknown, not recovered; removals are events. */
  function Forget(db: Db, observed: set<string>, now: int): Db {
    db.(episodes := map id | id in db.episodes ::
      var e := db.episodes[id];
      if e.open && e.kind != "drive_removal" && !StartsWith(e.sourceKey, "mount_removal:") && e.observation != "unknown"
         && e.sourceKey !in observed
      then e.(observation := "unknown", updatedAt := now) else e)
  }
}
