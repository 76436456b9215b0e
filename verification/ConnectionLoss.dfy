/**
 End to end: a USB connection seen twice and then missed twice opens a concern
 (server/src/device_watch.rs:198-250, 347-405, 419-631 with server/src/attention.rs:32-185).
 */
module ConnectionLoss {
  import opened Wrappers
  import opened DeviceWatch
  import opened WatchRuns
  import opened WatchIngest
  import opened WatchAnswers
  import UsbEpisodes
  import Outbox
  import Attention
  import EpisodeAnswers

  /** Heartbeat k brings a usable snapshot in an unchanged context. */
  ghost predicate Brings(events: seq<Event>, k: nat, context: Context)
    requires k < |events|
  {
    var before := LastPast(events[..k]);
    && events[k].b.context == context && ContextNow(events[..k]) == context
    && WatchAnswers.Counts(before, events[k].b) && PastOf(before, events[k]).current
  }

  /** The snapshot of heartbeat k. */
  function SnapshotOf(events: seq<Event>, k: nat): Option<map<Id, Sighting>>
    requires k < |events|
  {
    if events[k].b.attempt.Some? then events[k].b.attempt.value.snapshot else None
  }

  predicate Holds(events: seq<Event>, k: nat, id: Id)
    requires k < |events|
  {
    SnapshotOf(events, k).Some? && id in SnapshotOf(events, k).value
  }

  /** Neither the device nor another one behind its driver is in the snapshot. */
  predicate Gone(events: seq<Event>, k: nat, id: Id, driver: string)
    requires k < |events|
  {
    && SnapshotOf(events, k).Some? && id !in SnapshotOf(events, k).value
    && forall other :: other in SnapshotOf(events, k).value ==>
         SnapshotOf(events, k).value[other].device.driver != driver
  }

  predicate Soon(events: seq<Event>, k: nat)
    requires 0 < k < |events|
  {
    && events[k].b.attempt.Some? && events[k - 1].b.attempt.Some?
    && events[k].b.attempt.value.mono <= events[k - 1].b.attempt.value.mono + 15_000_000_000
  }

  lemma BroughtIsPast(events: seq<Event>, k: nat, context: Context)
    requires k < |events| && Brings(events, k, context)
    ensures LastPast(events[..k + 1]) == Some(PastOf(LastPast(events[..k]), events[k]))
    ensures events[k].b.attempt.Some? && events[k].b.attempt.value.clock == context.clock
    ensures ContextNow(events[..k + 1]) == context
  {
    assert events[..k + 1][..k] == events[..k];
  }

  lemma SoonContinues(events: seq<Event>, k: nat, context: Context)
    requires 0 < k < |events| && Brings(events, k - 1, context) && Brings(events, k, context) && Soon(events, k)
    ensures Continues(LastPast(events[..k]), ContextNow(events[..k]), events[k].b, events[k].b.attempt.value)
  {
    BroughtIsPast(events, k - 1, context);
    BroughtIsPast(events, k, context);
    hide LastPast;
  }

  /** What the watch looks at in heartbeat k. */
  lemma OneLook(events: seq<Event>, k: nat, context: Context, id: Id) returns (s: Step)
    requires k < |events| && Brings(events, k, context) && id in Run(events[..k]).watches
    requires var w := Run(events[..k]).watches[id].state;
      && (w.strong || w.context == context) && (Holds(events, k, id) || Gone(events, k, id, w.driver))
    ensures id in Run(events[..k + 1]).watches
    ensures Run(events[..k + 1]).watches[id].state == Next(Run(events[..k]).watches[id].state, s)
    ensures s.Look? && s.a.context == context && s.a.current
    ensures s.continuous <==>
      Continues(LastPast(events[..k]), ContextNow(events[..k]), events[k].b, events[k].b.attempt.value)
    ensures AcquiredFrom(s.a, PastOf(LastPast(events[..k]), events[k]))
    ensures if Holds(events, k, id) then s.d == Some(SnapshotOf(events, k).value[id].device) else s.d == None
  {
    var front, e := events[..k + 1], events[k];
    assert front[..k] == events[..k];
    WatchesInRuns(front, id);
    BroughtIsPast(events, k, context);
    var before, p := LastPast(events[..k]), PastOf(LastPast(events[..k]), e);
    var t, t' := Run(events[..k]).watches[id], Run(front).watches[id];
    hide Run, LastPast, Next, Continues;
    var mid :| WatchBy(t, mid, t', id, before, context, e);
    assert mid == t;
    s := t'.steps[|t.steps|];
    assert StepSays(s, p, id, t.state, Continues(before, context, e.b, e.b.attempt.value));
    assert Looks(p, id, t.state);
  }

  /** A presence, in the watch's fields. */
  lemma Saw(w: WatchState, s: Step)
    requires s.Look? && s.d.Some?
    ensures var w' := Next(w, s);
      && w'.context == s.a.context && w'.driver == s.d.value.driver && w'.strong == w.strong
      && w'.streaks.present == (if s.continuous && w.context == s.a.context then Up(w.streaks.present) else 1)
      && (w'.streaks.present >= 2 ==> w'.armed) && w'.streaks.absent == 0
  {
    Counted(w, s);
    DriverSeen(w, s);
    hide Next;
  }

  lemma DriverSeen(w: WatchState, s: Step)
    requires s.Look? && s.d.Some?
    ensures Next(w, s).driver == s.d.value.driver && Next(w, s).strong == w.strong
  {
    hide Up;
  }

  /** An absence. */
  lemma Missed(w: WatchState, s: Step)
    requires s.Look? && s.d.None?
    ensures var w' := Next(w, s);
      && w'.context == s.a.context && w'.driver == w.driver && w'.strong == w.strong && w'.acquisition == s.a
      && w'.armed == (w.armed && w.context == s.a.context)
      && w'.streaks.absent == (if s.continuous && w.context == s.a.context then Up(w.streaks.absent) else 1)
      && (w'.armed ==> w'.presence.Absent?) && (w'.armed && w'.streaks.absent >= 2 ==> w'.presenceOpen)
  {
  }

  /** Four heartbeats in one context, each at most fifteen seconds after the one before: the device in the first
      two snapshots, and neither it nor its driver in the last two. */
  ghost predicate SeenThenGone(events: seq<Event>, id: Id, context: Context) {
    var n := |events|;
    && n >= 4
    && Brings(events, n - 4, context) && Brings(events, n - 3, context)
    && Brings(events, n - 2, context) && Brings(events, n - 1, context)
    && Soon(events, n - 3) && Soon(events, n - 2) && Soon(events, n - 1)
    && Holds(events, n - 4, id) && Holds(events, n - 3, id)
    && (var driver := SnapshotOf(events, n - 3).value[id].device.driver;
        Gone(events, n - 2, id, driver) && Gone(events, n - 1, id, driver))
    && id in Run(events[..n - 4]).watches
    && (var w := Run(events[..n - 4]).watches[id].state; w.strong || w.context == context)
  }

  lemma LossIsNoticed(events: seq<Event>, id: Id, context: Context)
    requires SeenThenGone(events, id, context)
    ensures id in Run(events).watches && LastPast(events).Some?
    ensures var w := Run(events).watches[id].state;
      w.presenceOpen && w.presence.Absent? && w.acquisition.current
        && AcquiredFrom(w.acquisition, LastPast(events).value)
  {
    var n := |events|;
    var driver := SnapshotOf(events, n - 3).value[id].device.driver;
    assert !Holds(events, n - 2, id) && !Holds(events, n - 1, id);
    assert events[..n] == events;
    hide Run, LastPast, Brings, Soon, Holds, Gone, Next, Continues, AcquiredFrom, PastOf;
    BroughtIsPast(events, n - 1, context);
    SoonContinues(events, n - 2, context);
    TwoPresences(events, n - 4, id, context);
    TwoAbsences(events, n - 2, id, context);
  }

  /** Two presences arm the watch. */
  lemma TwoPresences(events: seq<Event>, k: nat, id: Id, context: Context)
    requires k + 1 < |events| && Brings(events, k, context) && Brings(events, k + 1, context) && Soon(events, k + 1)
    requires Holds(events, k, id) && Holds(events, k + 1, id) && id in Run(events[..k]).watches
    requires var w := Run(events[..k]).watches[id].state; w.strong || w.context == context
    ensures id in Run(events[..k + 2]).watches
    ensures var w := Run(events[..k + 2]).watches[id].state;
      && w.armed && w.context == context && w.streaks.absent == 0
      && w.driver == SnapshotOf(events, k + 1).value[id].device.driver
  {
    hide Run, LastPast, Brings, Soon, Gone, Next, Continues, AcquiredFrom, PastOf;
    SoonContinues(events, k + 1, context);
    var s0 := OneLook(events, k, context, id);
    Saw(Run(events[..k]).watches[id].state, s0);
    var s1 := OneLook(events, k + 1, context, id);
    Saw(Run(events[..k + 1]).watches[id].state, s1);
  }

  /** Two absences of an armed watch raise it. */
  lemma TwoAbsences(events: seq<Event>, k: nat, id: Id, context: Context)
    requires k + 1 < |events| && Brings(events, k, context) && Brings(events, k + 1, context) && Soon(events, k + 1)
    requires id in Run(events[..k]).watches && !Holds(events, k, id) && !Holds(events, k + 1, id)
    requires var w := Run(events[..k]).watches[id].state;
      w.armed && w.context == context && Gone(events, k, id, w.driver) && Gone(events, k + 1, id, w.driver)
    ensures id in Run(events[..k + 2]).watches
    ensures var w := Run(events[..k + 2]).watches[id].state;
      && w.presenceOpen && w.presence.Absent? && w.acquisition.current
      && AcquiredFrom(w.acquisition, PastOf(LastPast(events[..k + 1]), events[k + 1]))
  {
    assert WatchAnswers.Counts(LastPast(events[..k + 1]), events[k + 1].b);
    hide Run, LastPast, Brings, Soon, Holds, Gone, Next, Continues, AcquiredFrom, PastOf, WatchAnswers.Counts;
    SoonContinues(events, k + 1, context);
    var s0 := OneLook(events, k, context, id);
    Missed(Run(events[..k]).watches[id].state, s0);
    var s1 := OneLook(events, k + 1, context, id);
    Missed(Run(events[..k + 1]).watches[id].state, s1);
  }

  lemma LostConnection(id: string, node: string, epoch: string, w: WatchState, now: int)
    requires w.presenceOpen && w.presence.Absent? && UsbEpisodes.Timely(w, now, true)
    ensures var c := UsbEpisodes.PresenceCondition(id, node, epoch, w, now, true);
      && c.status.ConditionOpen? && EpisodeAnswers.Current(c) && EpisodeAnswers.AboutWatch(c, id) && !c.oversized
      && c.key == "device_presence:" + id && c.node == node && c.severity.Warning? && c.facts.epoch == epoch
  {
  }

  lemma ConcernOpens(db: Outbox.Db, c: Attention.Condition, now: int, draw: Attention.Draw)
    requires !Attention.HasOpen(db.episodes, c.key) && |db.episodes| < 10_000
    requires c.status.ConditionOpen? && !c.oversized
    ensures Attention.IsOpen(Attention.ObserveCondition(db, c, now, draw).episodes, c.key, draw.episode)
  {
    forall id | id in db.episodes && db.episodes[id].sourceKey == c.key ensures !db.episodes[id].open {
      assert !Attention.IsOpen(db.episodes, c.key, id);
    }
    hide Attention.ObserveCondition, Attention.Apply, EpisodeAnswers.MarksFollow, EpisodeAnswers.IntentFollows;
    hide Attention.HasOpen, EpisodeAnswers.Announced;
    EpisodeAnswers.ObserveNew(db, c, now, draw);
    var base := EpisodeAnswers.OpenExactly(db, c, now, draw.episode, draw);
  }

  /** While that is current, the condition of the watch says open, and opens an episode if its key has none. */
  lemma LossOpensConcern(events: seq<Event>, id: Id, context: Context, node: string, epoch: string, db: Outbox.Db,
          now: int, draw: Attention.Draw)
    requires SeenThenGone(events, id, context) && id in Run(events).watches
    requires UsbEpisodes.Timely(Run(events).watches[id].state, now, true)
    requires !Attention.HasOpen(db.episodes, "device_presence:" + id) && |db.episodes| < 10_000
    ensures var c := UsbEpisodes.PresenceCondition(id, node, epoch, Run(events).watches[id].state, now, true);
      && c.node == node && c.severity.Warning? && c.facts.epoch == epoch && EpisodeAnswers.AboutWatch(c, id)
      && Attention.IsOpen(Attention.ObserveCondition(db, c, now, draw).episodes, "device_presence:" + id, draw.episode)
  {
    LossIsNoticed(events, id, context);
    hide Run, LastPast, UsbEpisodes.PresenceCondition, UsbEpisodes.Timely, SeenThenGone, Attention.HasOpen;
    hide Attention.ObserveCondition, Attention.IsOpen, AcquiredFrom, EpisodeAnswers.AboutWatch, EpisodeAnswers.Current;
    var w := Run(events).watches[id].state;
    LostConnection(id, node, epoch, w, now);
    ConcernOpens(db, UsbEpisodes.PresenceCondition(id, node, epoch, w, now, true), now, draw);
  }
}
