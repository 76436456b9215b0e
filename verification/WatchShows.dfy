/**
 What a USB watch shows after any history (server/src/device_watch.rs:190-338), told from its steps alone:
 both flags exactly, the presence and link state next to them, and the epoch of the connection.
 */
module WatchShows {
  import opened Wrappers
  import opened DeviceWatch
  import opened WatchRuns
  import UsbEpisodes

  lemma AtZero(start: WatchState, run: seq<Step>)
    ensures At(start, run, 0) == start
  {
    hide Next;
  }

  lemma AtNext(start: WatchState, run: seq<Step>, n: nat)
    requires n < |run|
    ensures At(start, run, n + 1) == Next(At(start, run, n), run[n])
  {
    hide Next;
  }

  // ---- Presence ----

  /** Two presences in a row armed the watch, and nothing left their context or disarmed it since. */
  ghost predicate Armed(run: seq<Step>, n: nat)
    requires n <= |run|
  {
    exists k: nat :: k < n && ArmedBy(run, k, n, run[k].a.context)
  }

  lemma {:induction false} StaysArmed(start: WatchState, run: seq<Step>, k: nat, n: nat, c: Context)
    requires Fresh(start) && ArmedBy(run, k, n, c)
    ensures At(start, run, n).armed && At(start, run, n).context == c
    decreases n
  {
    var w := At(start, run, n - 1);
    Counted(w, run[n - 1]);
    if n == k + 1 {
      TwoPresencesConclude(start, run, k);
    } else {
      StaysArmed(start, run, k, n - 1, c);
    }
    hide Next;
  }

  lemma ArmedExactly(start: WatchState, run: seq<Step>, n: nat)
    requires Fresh(start) && n <= |run|
    ensures At(start, run, n).armed <==> Armed(run, n)
  {
    PresenceAlwaysOk(start, run, n);
    var w := At(start, run, n);
    hide At, Next;
    if w.armed {
      var k: nat :| ArmedBy(run, k, n, w.context);
      assert ArmedBy(run, k, n, run[k].a.context);
    }
    if k: nat :| k < n && ArmedBy(run, k, n, run[k].a.context) {
      StaysArmed(start, run, k, n, run[k].a.context);
    }
  }

  /** In every run the presence flag is up if and only if two absences in a row were seen of an armed watch,
      and no two presences in a row since. */
  lemma PresenceExactly(start: WatchState, run: seq<Step>, n: nat)
    requires Fresh(start) && n <= |run|
    ensures At(start, run, n).presenceOpen <==> exists i: nat :: UsbEpisodes.LostAt(run, i, n)
  {
    if At(start, run, n).presenceOpen {
      UsbEpisodes.OpenBecauseLost(start, run, n);
    }
    if i: nat :| UsbEpisodes.LostAt(run, i, n) {
      StaysLost(start, run, i, n);
    }
  }

  lemma {:induction false} StaysLost(start: WatchState, run: seq<Step>, i: nat, n: nat)
    requires Fresh(start) && n <= |run| && UsbEpisodes.LostAt(run, i, n)
    ensures At(start, run, n).presenceOpen
    decreases n
  {
    hide Next, At, SeenTwice, MissedTwice;
    if n == i + 1 {
      var k: nat :| ArmedBy(run, k, i + 1, run[i].a.context) && k < i - 1;
      assert MissedTwice(run, i) && i >= 1 by { TwiceAfterOne(run, i); }
      assert ArmedBy(run, k, i - 1, run[i].a.context);
      hide ArmedBy;
      StaysArmed(start, run, k, i - 1, run[i].a.context);
      TwoAbsencesConclude(start, run, i);
    } else {
      assert UsbEpisodes.LostAt(run, i, n - 1) && !SeenTwice(run, n - 1);
      StaysLost(start, run, i, n - 1);
      if !At(start, run, n).presenceOpen {
        PresenceNeedsTwo(start, run, n - 1);
        assert false;
      }
    }
  }

  lemma TwiceAfterOne(run: seq<Step>, i: nat)
    requires MissedTwice(run, i)
    ensures i >= 1
  {
  }

  // ---- The link ----

  /** Which observations give a speed that is compared. */
  lemma RateIs(strong: bool, s: Step, bps: nat)
    ensures Rate(strong, s) == Some(bps) <==>
      strong && s.Look? && s.d.Some? && s.d.value.speed.Available? && s.d.value.bps == Some(bps)
  {
  }

  predicate TwoSlow(run: seq<Step>, i: nat) {
    Consecutive(run, i) && BelowAt(run, i - 1) && BelowAt(run, i)
  }

  predicate TwoFast(run: seq<Step>, i: nat) {
    Consecutive(run, i) && AtOrAbove(run, i - 1) && AtOrAbove(run, i)
  }

  /** Two samples in a row were below the greatest speed confirmed by their time, and no two at or above since. */
  ghost predicate Slower(run: seq<Step>, n: nat) {
    exists i: nat :: SlowerSince(run, i, n)
  }

  ghost predicate SlowerSince(run: seq<Step>, i: nat, n: nat) {
    i < n && TwoSlow(run, i) && forall j :: i < j < n ==> !TwoFast(run, j)
  }

  /** What the sample at n - 1 left in the counts. */
  lemma Sampled(start: WatchState, run: seq<Step>, n: nat)
    requires Fresh(start) && start.strong && 1 <= n <= |run|
    ensures var w := At(start, run, n);
      && (BelowAt(run, n - 1) ==> w.streaks.low >= 1)
      && (AtOrAbove(run, n - 1) ==> w.streaks.recovered >= 1)
      && (run[n - 1].Look? ==> w.context == run[n - 1].a.context)
  {
    LinkAlwaysOk(start, run, n - 1);
    LinkAlwaysOk(start, run, n);
    Rated(At(start, run, n - 1), run[n - 1]);
    hide Next, Best;
  }

  /** The counts reach two at the second slow or fast sample in a row. */
  lemma CountsToTwo(w: WatchState, run: seq<Step>, n: nat, w': WatchState)
    requires n < |run| && Rates(w, run[n], w') && w'.baseline == Best(true, run, n + 1)
    requires BelowAt(run, n - 1) ==> w.streaks.low >= 1
    requires AtOrAbove(run, n - 1) ==> w.streaks.recovered >= 1
    requires n > 0 && run[n - 1].Look? ==> w.context == run[n - 1].a.context
    ensures TwoSlow(run, n) ==> w'.linkOpen
    ensures TwoFast(run, n) ==> !w'.linkOpen
  {
    hide Best;
  }

  lemma TwoConclude(start: WatchState, run: seq<Step>, n: nat)
    requires Fresh(start) && start.strong && n < |run|
    ensures TwoSlow(run, n) ==> At(start, run, n + 1).linkOpen
    ensures TwoFast(run, n) ==> !At(start, run, n + 1).linkOpen
  {
    LinkAlwaysOk(start, run, n);
    BaselineIsGreatestConfirmed(start, run, n + 1);
    assert At(start, run, n + 1) == Next(At(start, run, n), run[n]);
    if n > 0 {
      Sampled(start, run, n);
    }
    hide At, Next, Best, Rates, CandidateOk, ComparedOk, BelowAt, AtOrAbove, Fresh;
    Rated(At(start, run, n), run[n]);
    if n > 0 {
      CountsToTwo(At(start, run, n), run, n, At(start, run, n + 1));
    }
  }

  lemma FlagStep(start: WatchState, run: seq<Step>, n: nat)
    requires Fresh(start) && start.strong && n < |run|
    ensures var was, now := At(start, run, n).linkOpen, At(start, run, n + 1).linkOpen;
      && (now ==> was || TwoSlow(run, n)) && (was ==> now || TwoFast(run, n))
      && (TwoSlow(run, n) ==> now) && (TwoFast(run, n) ==> !now)
  {
    TwoConclude(start, run, n);
    hide At, BelowAt, AtOrAbove, Consecutive;
    if !At(start, run, n).linkOpen && At(start, run, n + 1).linkOpen {
      WarningNeedsTwoSlow(start, run, n);
    }
    if At(start, run, n).linkOpen && !At(start, run, n + 1).linkOpen {
      RecoveryNeedsTwoFast(start, run, n);
    }
  }

  /** In every run the link flag of a device with a serial number is up if and only if two samples in a row were
      slow, and no two in a row fast since. */
  lemma {:induction false} LinkExactly(start: WatchState, run: seq<Step>, n: nat)
    requires Fresh(start) && start.strong && n <= |run|
    ensures At(start, run, n).linkOpen <==> Slower(run, n)
    decreases n
  {
    AtZero(start, run);
    assert !start.linkOpen && !Slower(run, 0);
    hide At, Next, TwoSlow, TwoFast, Slower, Fresh;
    if n > 0 {
      LinkExactly(start, run, n - 1);
      FlagStep(start, run, n - 1);
      SlowerStep(run, n - 1, n, At(start, run, n - 1).linkOpen, At(start, run, n).linkOpen);
    }
  }

  lemma SlowerStep(run: seq<Step>, n: nat, m: nat, was: bool, now: bool)
    requires m == n + 1
    requires was == Slower(run, n) && (now ==> was || TwoSlow(run, n)) && (was ==> now || TwoFast(run, n))
    requires (TwoSlow(run, n) ==> now) && (TwoFast(run, n) ==> !now)
    ensures now == Slower(run, m)
  {
    hide TwoSlow, TwoFast;
    if i: nat :| SlowerSince(run, i, m) {
      assert i < n ==> SlowerSince(run, i, n);
    }
    if now {
      if TwoSlow(run, n) {
        assert SlowerSince(run, n, m);
      } else {
        var i: nat :| SlowerSince(run, i, n);
        assert SlowerSince(run, i, m);
      }
    }
  }

  // ---- The last step ----

  predicate PresenceShown(p: Presence, s: Step, armed: bool) {
    p == if !s.Look? then PresenceUnknown else if s.d.Some? then Present else if armed then Absent else PresenceUnknown
  }

  ghost predicate LinkShown(link: Link, strong: bool, run: seq<Step>, n: nat)
    requires 1 <= n <= |run|
  {
    var s := run[n - 1];
    if !s.Look? || s.d.None? then link == LinkUnknown
    else if !strong then link == LinkUnsupported
    else if !s.d.value.speed.Available? || s.d.value.bps.None? then
      link == if s.d.value.speed.Unsupported? then LinkUnsupported else LinkUnknown
    else if Best(true, run, n).None? then link == WarmingUp
    else if Slower(run, n) then link == Warning
    else if s.d.value.bps.value < Best(true, run, n).value then link == WarmingUp
    else link == NoWarning
  }

  /** What one step leaves, besides the counts. */
  predicate Leaves(w: WatchState, s: Step, w': WatchState) {
    && PresenceShown(w'.presence, s, w'.armed) && w'.strong == w.strong
    && w'.reported == (if Sees(s) then s.d.value.bps else None)
    && w'.driver == (if Sees(s) then s.d.value.driver else w.driver)
    && w'.acquisition == (if s.Look? then s.a else s.a.(current := false))
    && w'.context == (if s.Look? then s.a.context else w.context)
    && (w'.attributed <==>
          Sees(s) || (w.attributed && !(s.Disarm? && s.disown) && (s.Look? ==> s.a.context == w.context)))
  }

  lemma SeenLeaves(w: WatchState, s: Step)
    requires Sees(s)
    ensures Leaves(w, s, Seen(Prepared(w, s.a, s.continuous), s.d.value, s.uuid))
  {
  }

  /** The speed of a device changes nothing else. */
  predicate OnlySpeed(a: WatchState, b: WatchState) {
    b == a.(streaks := b.streaks, link := b.link, linkOpen := b.linkOpen, baseline := b.baseline)
  }

  lemma SpeedOnly(w: WatchState, d: Device)
    ensures OnlySpeed(w, Unrated(w, d)) && OnlySpeed(w, w.(link := LinkUnsupported))
    ensures d.bps.Some? ==> OnlySpeed(w, Judged(Confirming(w, d.bps.value), d.bps.value))
  {
  }

  lemma StepLeaves(w: WatchState, s: Step)
    ensures Leaves(w, s, Next(w, s))
  {
    if Sees(s) {
      var seen := Seen(Prepared(w, s.a, s.continuous), s.d.value, s.uuid);
      SeenLeaves(w, s);
      SpeedOnly(seen, s.d.value);
      hide Prepared, Seen, Unrated, Confirming, Judged;
      assert OnlySpeed(seen, Next(w, s));
      hide Next;
    }
  }

  predicate LinkLeft(w: WatchState, s: Step, w': WatchState) {
    if !Sees(s) then w'.link == LinkUnknown
    else if !w.strong then w'.link == LinkUnsupported
    else
      match Rate(true, s)
      case None => w'.link == if s.d.value.speed.Unsupported? then LinkUnsupported else LinkUnknown
      case Some(rate) =>
        w'.link ==
        if w'.baseline.None? then WarmingUp
        else if w'.linkOpen then Warning
        else if rate < w'.baseline.value then WarmingUp
        else NoWarning
  }

  lemma StepLink(w: WatchState, s: Step)
    ensures LinkLeft(w, s, Next(w, s))
  {
    hide Confirming;
    if Sees(s) {
      var seen := Seen(Prepared(w, s.a, s.continuous), s.d.value, s.uuid);
      assert seen.strong == w.strong;
      hide Prepared, Seen;
    }
  }

  /** In every run what a watch shows after a step: the device is there, or absent if the watch is armed; its
      link is judged by the greatest speed confirmed; without a usable observation nothing is known. */
  lemma ShowsExactly(start: WatchState, run: seq<Step>, n: nat)
    requires Fresh(start) && 1 <= n <= |run|
    ensures var s, was, now := run[n - 1], At(start, run, n - 1), At(start, run, n);
      && PresenceShown(now.presence, s, Armed(run, n)) && LinkShown(now.link, start.strong, run, n)
      && now.reported == (if Sees(s) then s.d.value.bps else None)
      && now.driver == (if Sees(s) then s.d.value.driver else was.driver)
      && now.acquisition == (if s.Look? then s.a else s.a.(current := false))
      && now.context == (if s.Look? then s.a.context else was.context)
      && (now.attributed <==>
            Sees(s) || (was.attributed && !(s.Disarm? && s.disown) && (s.Look? ==> s.a.context == was.context)))
  {
    var s, was := run[n - 1], At(start, run, n - 1);
    StepLeaves(was, s);
    StepLink(was, s);
    ArmedExactly(start, run, n);
    StrongStays(start, run, n - 1);
    assert At(start, run, n) == Next(was, s);
    if start.strong {
      LinkExactly(start, run, n);
      BaselineIsGreatestConfirmed(start, run, n);
    }
    hide At, Next, Best, Armed, Slower;
  }

  lemma {:induction false} StrongStays(start: WatchState, run: seq<Step>, n: nat)
    requires n <= |run|
    ensures At(start, run, n).strong == start.strong
    decreases n
  {
    if n > 0 {
      StrongStays(start, run, n - 1);
      StepLeaves(At(start, run, n - 1), run[n - 1]);
      hide Next;
    }
  }

  // ---- The connection ----

  /** The device was seen twice in a row for the first time since it was not. */
  predicate Connects(run: seq<Step>, i: nat) {
    SeenTwice(run, i) && (i > 0 ==> !SeenTwice(run, i - 1))
  }

  /** How often in a row the device was seen, up to twice. */
  predicate PresentOk(w: WatchState, run: seq<Step>, n: nat)
    requires n <= |run|
  {
    && w.streaks.present == (if n == 0 || !Sees(run[n - 1]) then 0 else if SeenTwice(run, n - 1) then 2 else 1)
    && (n >= 1 && run[n - 1].Look? ==> w.context == run[n - 1].a.context)
  }

  lemma PresentStep(w: WatchState, run: seq<Step>, n: nat, w': WatchState)
    requires n < |run| && PresentOk(w, run, n) && Counts(w, run[n], w')
    requires w.streaks.present >= 1 ==> Sees(run[n - 1]) && run[n - 1].a.context == w.context
    ensures PresentOk(w', run, n + 1)
  {
  }

  lemma PresentMore(start: WatchState, run: seq<Step>, n: nat)
    requires Fresh(start) && n < |run| && PresentOk(At(start, run, n), run, n)
    ensures PresentOk(At(start, run, n + 1), run, n + 1)
  {
    var was := At(start, run, n);
    PresenceAlwaysOk(start, run, n);
    assert was.streaks.present >= 1 ==> Sees(run[n - 1]) && run[n - 1].a.context == was.context;
    hide At, Next, Counts, PresentOk, PresenceOk, SeenTwice, Fresh;
    AtNext(start, run, n);
    Counted(was, run[n]);
    PresentStep(was, run, n, Next(was, run[n]));
  }

  lemma {:induction false} PresentIs(start: WatchState, run: seq<Step>, n: nat)
    requires Fresh(start) && n <= |run|
    ensures PresentOk(At(start, run, n), run, n)
    decreases n
  {
    AtZero(start, run);
    assert PresentOk(start, run, 0);
    hide At, Next, PresentOk, Fresh;
    if n > 0 {
      PresentIs(start, run, n - 1);
      PresentMore(start, run, n - 1);
    }
  }

  predicate EpochLeft(w: WatchState, s: Step, w': WatchState) {
    w'.epoch ==
    if Sees(s) && w'.streaks.present >= 2 && (!Links(w, s) || w.streaks.present <= 1 || w.epoch.None?)
    then Some(s.uuid) else w.epoch
  }

  lemma SeenEpoch(w: WatchState, s: Step)
    requires Sees(s)
    ensures EpochLeft(w, s, Seen(Prepared(w, s.a, s.continuous), s.d.value, s.uuid))
  {
  }

  lemma StepEpoch(w: WatchState, s: Step)
    ensures EpochLeft(w, s, Next(w, s))
  {
    if Sees(s) {
      var seen := Seen(Prepared(w, s.a, s.continuous), s.d.value, s.uuid);
      SeenEpoch(w, s);
      SpeedKeepsPresence(seen, s.d.value);
      SpeedOnly(seen, s.d.value);
      hide Prepared, Seen, Unrated, Confirming, Judged;
      assert SamePresence(seen, Next(w, s)) && OnlySpeed(seen, Next(w, s));
      hide Next;
    }
  }

  /** Two sightings at the end of the first n steps. */
  predicate Confirmed(run: seq<Step>, n: nat) {
    n > 0 && SeenTwice(run, n - 1)
  }

  lemma EpochStep(start: WatchState, run: seq<Step>, n: nat)
    requires Fresh(start) && n < |run| && (Confirmed(run, n) ==> At(start, run, n).epoch.Some?)
    ensures At(start, run, n + 1).epoch == if Connects(run, n) then Some(run[n].uuid) else At(start, run, n).epoch
    ensures Confirmed(run, n + 1) ==> At(start, run, n + 1).epoch.Some?
  {
    hide Next, At, Fresh, PresentOk, EpochLeft, Confirmed, Connects;
    AtNext(start, run, n);
    PresentIs(start, run, n);
    PresentIs(start, run, n + 1);
    StepEpoch(At(start, run, n), run[n]);
    EpochTold(At(start, run, n), run, n, At(start, run, n + 1));
  }

  lemma EpochTold(w: WatchState, run: seq<Step>, n: nat, w': WatchState)
    requires n < |run| && PresentOk(w, run, n) && PresentOk(w', run, n + 1) && EpochLeft(w, run[n], w')
    requires Confirmed(run, n) ==> w.epoch.Some?
    ensures w'.epoch == if Connects(run, n) then Some(run[n].uuid) else w.epoch
    ensures Confirmed(run, n + 1) ==> w'.epoch.Some?
  {
  }

  lemma {:induction false} EpochSet(start: WatchState, run: seq<Step>, n: nat)
    requires Fresh(start) && n <= |run|
    ensures Confirmed(run, n) ==> At(start, run, n).epoch.Some?
    decreases n
  {
    hide At, Connects, SeenTwice, Fresh;
    if n > 0 {
      EpochSet(start, run, n - 1);
      EpochStep(start, run, n - 1);
    }
  }

  ghost predicate LastConnected(run: seq<Step>, i: nat, n: nat) {
    i < n <= |run| && Connects(run, i) && forall j :: i < j < n ==> !Connects(run, j)
  }

  ghost predicate NeverConnected(run: seq<Step>, n: nat) {
    forall j :: 0 <= j < n ==> !Connects(run, j)
  }

  lemma ConnectedBefore(run: seq<Step>, i: nat, n: nat)
    requires n < |run|
    ensures NeverConnected(run, n + 1) ==> NeverConnected(run, n) && !Connects(run, n)
    ensures LastConnected(run, i, n + 1) ==> if i == n then Connects(run, n)
      else LastConnected(run, i, n) && !Connects(run, n)
    ensures !LastConnected(run, i, 0)
  {
    hide Connects;
  }

  /** In every run the epoch of a connection is the one drawn when the device was last seen twice in a row
      after it had not been: nothing else changes it. */
  lemma {:induction false} EpochExactly(start: WatchState, run: seq<Step>, i: nat, n: nat)
    requires Fresh(start) && n <= |run|
    ensures NeverConnected(run, n) ==> At(start, run, n).epoch == start.epoch
    ensures LastConnected(run, i, n) ==> At(start, run, n).epoch == Some(run[i].uuid)
    decreases n
  {
    hide At, Next, Confirmed, Connects, Fresh, NeverConnected;
    AtZero(start, run);
    if n > 0 {
      EpochExactly(start, run, i, n - 1);
      EpochSet(start, run, n - 1);
      EpochStep(start, run, n - 1);
      ConnectedBefore(run, i, n - 1);
    }
  }
}
