/**
 From USB snapshots to operator episodes: what must have been observed before a presence concern
 opens or closes (server/src/device_watch.rs:347-405 with server/src/attention.rs:32-185).
 */
module UsbEpisodes {
  import opened Wrappers
  import opened DeviceWatch
  import WatchRuns
  import WatchIngest
  import Outbox
  import Attention
  import AttentionInvariant
  import DeliveryInvariant
  import EpisodeRules

  datatype Evidence = Current | Stale | Unknown

  /** Acquisition::observation: what a stored acquisition is still worth at a later time. */
  function EvidenceOf(a: Acquisition, now: int, online: bool): Evidence {
    if !a.current then Unknown
    else if !online || now < a.receivedAt || a.ageMs + (now - a.receivedAt) > WatchIngest.STALE_MS then Stale
    else Current
  }

  function PresenceKey(id: string): string {
    Attention.DEVICE_PRESENCE + id
  }

  /** The device_presence condition of Watch::conditions; epoch is the connection epoch it carries. */
  function PresenceCondition(id: string, node: string, epoch: string, w: WatchState, now: int,
          online: bool): Attention.Condition {
    var evidence := EvidenceOf(w.acquisition, now, online);
    var usable := evidence.Current? && !w.presence.PresenceUnknown?;
    var status :=
      if !usable then Attention.ConditionInterrupted
      else if w.presenceOpen then Attention.ConditionOpen
      else if w.streaks.present >= 2 && w.presence.Present? then Attention.ConditionResolved
      else Attention.ConditionInterrupted;
    Attention.Condition(PresenceKey(id), "reliability", node, status, Outbox.Warning,
      if usable then "current" else if evidence.Stale? then "stale" else "unknown",
      Outbox.Facts(epoch, None, Some(id), "usb_connection_absent"), false)
  }

  // ---- Why a watch says what it says ----

  /** Two consecutive absences at i of an armed watch, and no two consecutive presences since. */
  ghost predicate LostAt(steps: seq<WatchRuns.Step>, i: nat, n: nat) {
    && i < n <= |steps| && WatchRuns.MissedTwice(steps, i)
    && WatchRuns.ArmedBefore(steps, i - 1, i + 1, steps[i].a.context)
    && forall j :: i < j < n ==> !WatchRuns.SeenTwice(steps, j)
  }

  lemma {:induction false} OpenBecauseLost(start: WatchState, steps: seq<WatchRuns.Step>, n: nat)
    requires WatchRuns.Fresh(start) && n <= |steps| && WatchRuns.At(start, steps, n).presenceOpen
    ensures exists i: nat :: LostAt(steps, i, n)
    decreases n
  {
    hide WatchRuns.Next, WatchRuns.SeenTwice, WatchRuns.MissedTwice, WatchRuns.ArmedBefore;
    if WatchRuns.At(start, steps, n - 1).presenceOpen {
      OpenBecauseLost(start, steps, n - 1);
      var i: nat :| LostAt(steps, i, n - 1);
      if WatchRuns.SeenTwice(steps, n - 1) {
        WatchRuns.TwoPresencesConclude(start, steps, n - 1);
        assert false;
      }
      assert LostAt(steps, i, n);
    } else {
      WatchRuns.AbsenceNeedsTwoAndArming(start, steps, n - 1);
      assert LostAt(steps, n - 1, n);
    }
  }

  lemma TwicePresent(start: WatchState, steps: seq<WatchRuns.Step>, n: nat)
    requires WatchRuns.Fresh(start) && n <= |steps| && WatchRuns.At(start, steps, n).streaks.present >= 2
    ensures n >= 1 && WatchRuns.SeenTwice(steps, n - 1)
  {
    WatchRuns.PresenceAlwaysOk(start, steps, n);
    hide WatchRuns.At;
  }

  /** After a step that saw nothing (a failed, partial or stale snapshot, or a change of context) the
      condition is not fresh, and neither opens nor closes a concern. */
  lemma BlindNeverConcludes(id: string, node: string, epoch: string, was: WatchState, s: WatchRuns.Step, now: int,
          online: bool)
    requires !s.Look?
    ensures var c := PresenceCondition(id, node, epoch, WatchRuns.Next(was, s), now, online);
      c.status.ConditionInterrupted? && !Attention.Fresh(c)
  {
  }

  // ---- End to end ----

  /** What was current when the concern was evaluated. */
  predicate Timely(w: WatchState, now: int, online: bool) {
    && online && w.acquisition.current && w.acquisition.receivedAt <= now
    && w.acquisition.ageMs + (now - w.acquisition.receivedAt) <= WatchIngest.STALE_MS
  }

  /** A presence concern opens only after two consecutive presences armed the watch and two later
      consecutive absences in the same context, the absences 1 to 15 s apart, not contradicted since,
      and only while the acquisition is still current. */
  lemma ConcernOpensOnlyOnAbsence(events: seq<WatchIngest.Event>, id: string, node: string, epoch: string,
          db: Outbox.Db, now: int, online: bool, draw: Attention.Draw)
    requires id in WatchIngest.Run(events).watches && !Attention.HasOpen(db.episodes, PresenceKey(id))
    requires var t := WatchIngest.Run(events).watches[id];
      Attention.HasOpen(Attention.ObserveCondition(db, PresenceCondition(id, node, epoch, t.state, now, online), now,
        draw).episodes, PresenceKey(id))
    ensures var t := WatchIngest.Run(events).watches[id];
      && Timely(t.state, now, online)
      && exists i: nat :: LostAt(t.steps, i, |t.steps|) && WatchIngest.Spaced(t.steps[i - 1].a, t.steps[i].a)
  {
    var t := WatchIngest.Run(events).watches[id];
    WatchIngest.RunOk(events);
    assert WatchIngest.TrackedOk(t, WatchIngest.Run(events).last.value);
    hide WatchIngest.Run, WatchRuns.At;
    var c := PresenceCondition(id, node, epoch, t.state, now, online);
    if !c.status.ConditionOpen? {
      assert false;
    }
    OpenBecauseLost(t.start, t.steps, |t.steps|);
    var i: nat :| LostAt(t.steps, i, |t.steps|);
    assert WatchIngest.StepTimed(t.steps, i);
  }

  /** It closes only on two consecutive current presences 1 to 15 s apart. */
  lemma ConcernClosesOnlyOnPresence(events: seq<WatchIngest.Event>, id: string, node: string, epoch: string,
          db: Outbox.Db, now: int, online: bool, draw: Attention.Draw, episode: Outbox.Id)
    requires id in WatchIngest.Run(events).watches && DeliveryInvariant.DbOk(db, {})
      && AttentionInvariant.DrawOk(draw, db.drawn)
    requires Attention.IsOpen(db.episodes, PresenceKey(id), episode)
    requires var t := WatchIngest.Run(events).watches[id];
      var db' := Attention.ObserveCondition(db, PresenceCondition(id, node, epoch, t.state, now, online), now, draw);
      !(episode in db'.episodes && db'.episodes[episode].open)
    ensures var t := WatchIngest.Run(events).watches[id];
      && Timely(t.state, now, online)
      && var last := |t.steps| - 1;
         last >= 1 && WatchRuns.SeenTwice(t.steps, last) && WatchIngest.Spaced(t.steps[last - 1].a, t.steps[last].a)
  {
    var t := WatchIngest.Run(events).watches[id];
    assert PresenceCondition(id, node, epoch, t.state, now, online).status.ConditionResolved? by {
      hide WatchIngest.Run, PresenceCondition, DeliveryInvariant.DbOk, Attention.ObserveCondition;
      EpisodeRules.ObserveOpens(db, PresenceCondition(id, node, epoch, t.state, now, online), now, draw, episode);
    }
    hide DeliveryInvariant.DbOk, Attention.ObserveCondition, WatchIngest.Run;
    ResolvedNeedsPresence(events, id, node, epoch, now, online);
  }

  lemma ResolvedNeedsPresence(events: seq<WatchIngest.Event>, id: string, node: string, epoch: string, now: int,
          online: bool)
    requires id in WatchIngest.Run(events).watches
    requires PresenceCondition(id, node, epoch, WatchIngest.Run(events).watches[id].state, now,
      online).status.ConditionResolved?
    ensures var t := WatchIngest.Run(events).watches[id];
      && Timely(t.state, now, online)
      && var last := |t.steps| - 1;
         last >= 1 && WatchRuns.SeenTwice(t.steps, last) && WatchIngest.Spaced(t.steps[last - 1].a, t.steps[last].a)
  {
    hide WatchIngest.Run, PresenceCondition, Timely, WatchIngest.TrackedOk, WatchIngest.Spaced, WatchRuns.SeenTwice;
    var t := WatchIngest.Run(events).watches[id];
    WatchIngest.RunOk(events);
    ResolvedMeans(id, node, epoch, t.state, now, online);
    SeenAtTheEnd(t, WatchIngest.Run(events).last.value);
  }

  lemma ResolvedMeans(id: string, node: string, epoch: string, w: WatchState, now: int, online: bool)
    requires PresenceCondition(id, node, epoch, w, now, online).status.ConditionResolved?
    ensures Timely(w, now, online) && w.streaks.present >= 2
  {
  }

  lemma SeenAtTheEnd(t: WatchIngest.Tracked, node: WatchIngest.NodeState)
    requires WatchIngest.TrackedOk(t, node) && t.state.streaks.present >= 2
    ensures var last := |t.steps| - 1;
      last >= 1 && WatchRuns.SeenTwice(t.steps, last) && WatchIngest.Spaced(t.steps[last - 1].a, t.steps[last].a)
  {
    hide WatchRuns.At;
    TwicePresent(t.start, t.steps, |t.steps|);
    assert WatchIngest.StepTimed(t.steps, |t.steps| - 1);
  }
}
