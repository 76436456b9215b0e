/**
 What a USB watch can have concluded after any history: presence is lost or restored only by two
 consecutive observations, and the baseline is the greatest speed ever confirmed.
 */
module WatchRuns {
  import opened Wrappers
  import opened DeviceWatch

  /** One step of a watch: an observation, a step that saw nothing, or one that also disarms it. */
  datatype Step =
    | Look(d: Option<Device>, a: Acquisition, continuous: bool, uuid: nat)
    | Blind(a: Acquisition)
    | Disarm(a: Acquisition, disown: bool)

  function Next(w: WatchState, s: Step): WatchState {
    match s
    case Look(d, a, continuous, uuid) => Observed(w, d, a, continuous, uuid)
    case Blind(a) => Blinded(w, a)
    case Disarm(a, disown) => Blinded(w, a).(armed := false, attributed := w.attributed && !disown)
  }

  /** The watch after the first n steps. */
  function At(start: WatchState, run: seq<Step>, n: nat): WatchState
    requires n <= |run|
    decreases n
  {
    if n == 0 then start else Next(At(start, run, n - 1), run[n - 1])
  }

  predicate Fresh(w: WatchState) {
    !w.armed && !w.presenceOpen && !w.linkOpen && w.baseline.None? && w.streaks == NO_STREAKS
  }

  // ---- Two consecutive observations ----

  predicate Sees(s: Step) {
    s.Look? && s.d.Some?
  }

  predicate Misses(s: Step) {
    s.Look? && s.d.None?
  }

  /** Steps i - 1 and i are observations of one context with no gap between them. */
  predicate Consecutive(run: seq<Step>, i: nat) {
    && 1 <= i < |run| && run[i - 1].Look? && run[i].Look?
    && run[i].continuous && run[i - 1].a.context == run[i].a.context
  }

  predicate SeenTwice(run: seq<Step>, i: nat) {
    Consecutive(run, i) && Sees(run[i - 1]) && Sees(run[i])
  }

  predicate MissedTwice(run: seq<Step>, i: nat) {
    Consecutive(run, i) && Misses(run[i - 1]) && Misses(run[i])
  }

  /** Nothing in between left the context or disarmed the watch. */
  predicate Stays(s: Step, c: Context) {
    !s.Disarm? && (s.Look? ==> s.a.context == c)
  }

  /** Two consecutive presences at k armed the watch, and it stayed armed up to n. */
  ghost predicate ArmedBy(run: seq<Step>, k: nat, n: nat, c: Context) {
    && k < n <= |run| && SeenTwice(run, k) && run[k].a.context == c
    && forall j :: k < j < n ==> Stays(run[j], c)
  }

  /** The arming happened before step i. */
  ghost predicate ArmedBefore(run: seq<Step>, i: nat, n: nat, c: Context) {
    exists k: nat :: ArmedBy(run, k, n, c) && k < i
  }

  // ---- Presence ----

  ghost predicate PresenceOk(w: WatchState, run: seq<Step>, n: nat)
    requires n <= |run|
  {
    && w.streaks.present <= 2 && w.streaks.absent <= 2
    && (w.streaks.present >= 1 ==> n >= 1 && Sees(run[n - 1]) && run[n - 1].a.context == w.context)
    && (w.streaks.present >= 2 ==> SeenTwice(run, n - 1))
    && (w.streaks.absent >= 1 ==> n >= 1 && Misses(run[n - 1]) && run[n - 1].a.context == w.context)
    && (w.streaks.absent >= 2 ==> MissedTwice(run, n - 1))
    && (w.armed ==> exists k: nat :: ArmedBy(run, k, n, w.context))
  }

  lemma PresenceStep(w: WatchState, run: seq<Step>, n: nat)
    requires n < |run| && PresenceOk(w, run, n)
    ensures PresenceOk(Next(w, run[n]), run, n + 1)
  {
    var s, w' := run[n], Next(w, run[n]);
    if w'.armed {
      if SeenTwice(run, n) && s.a.context == w'.context {
        assert ArmedBy(run, n, n + 1, w'.context);
      } else {
        Counted(w, s);
        assert w.armed && Stays(s, w.context) && w'.context == w.context;
        var k: nat :| ArmedBy(run, k, n, w.context);
        assert ArmedBy(run, k, n + 1, w.context);
      }
    }
    Counted(w, s);
    hide Next, ArmedBy;
  }

  /** What one step does to the presence side of a watch. */
  predicate Counts(w: WatchState, s: Step, w': WatchState) {
    if Sees(s) then
      && w'.context == s.a.context && w'.streaks.absent == 0
      && w'.streaks.present == (if Links(w, s) then Up(w.streaks.present) else 1)
      && w'.armed == ((w.armed && w.context == s.a.context) || w'.streaks.present >= 2)
      && w'.presenceOpen == (w.presenceOpen && w'.streaks.present < 2)
    else if s.Look? then
      && w'.context == s.a.context && w'.streaks.present == 0
      && w'.streaks.absent == (if Links(w, s) then Up(w.streaks.absent) else 1)
      && w'.armed == (w.armed && w.context == s.a.context)
      && w'.presenceOpen == (w.presenceOpen || (w'.armed && w'.streaks.absent >= 2))
    else
      && w'.context == w.context && w'.streaks == NO_STREAKS && w'.presenceOpen == w.presenceOpen
      && w'.armed == (w.armed && s.Blind?)
  }

  lemma Counted(w: WatchState, s: Step)
    ensures Counts(w, s, Next(w, s))
  {
    if Sees(s) {
      var ready := Prepared(w, s.a, s.continuous);
      var seen := Seen(ready, s.d.value, s.uuid);
      CountedSeen(w, s);
      SpeedKeepsPresence(seen, s.d.value);
      hide Prepared, Seen, Unrated, Confirming, Judged;
      assert SamePresence(seen, Next(w, s));
    }
  }

  lemma CountedSeen(w: WatchState, s: Step)
    requires Sees(s)
    ensures Counts(w, s, Seen(Prepared(w, s.a, s.continuous), s.d.value, s.uuid))
  {
  }

  /** The observation continues the context and the streak. */
  predicate Links(w: WatchState, s: Step) {
    s.Look? && s.continuous && w.context == s.a.context
  }

  predicate SamePresence(a: WatchState, b: WatchState) {
    && b.context == a.context && b.armed == a.armed && b.presenceOpen == a.presenceOpen
    && b.streaks.present == a.streaks.present && b.streaks.absent == a.streaks.absent
  }

  lemma SpeedKeepsPresence(w: WatchState, d: Device)
    ensures SamePresence(w, Unrated(w, d))
    ensures d.bps.Some? ==> SamePresence(w, Judged(Confirming(w, d.bps.value), d.bps.value))
  {
  }

  lemma {:induction false} PresenceAlwaysOk(start: WatchState, run: seq<Step>, n: nat)
    requires Fresh(start) && n <= |run|
    ensures PresenceOk(At(start, run, n), run, n)
    decreases n
  {
    hide Next;
    if n > 0 {
      hide PresenceOk;
      PresenceAlwaysOk(start, run, n - 1);
      PresenceStep(At(start, run, n - 1), run, n - 1);
    }
  }

  /** Absence is concluded only from two consecutive absences in the context in which two consecutive
      presences had armed the watch, with nothing in between that disarmed it. */
  lemma AbsenceNeedsTwoAndArming(start: WatchState, run: seq<Step>, n: nat)
    requires Fresh(start) && n < |run| && !At(start, run, n).presenceOpen && At(start, run, n + 1).presenceOpen
    ensures MissedTwice(run, n)
    ensures ArmedBefore(run, n - 1, n + 1, run[n].a.context)
  {
    PresenceAlwaysOk(start, run, n);
    var w := At(start, run, n);
    Counted(w, run[n]);
    assert At(start, run, n + 1) == Next(w, run[n]);
    hide At, Next;
    var k: nat :| ArmedBy(run, k, n, w.context);
    assert ArmedBy(run, k, n + 1, run[n].a.context);
  }

  /** Presence is concluded again only from two consecutive presences. */
  lemma PresenceNeedsTwo(start: WatchState, run: seq<Step>, n: nat)
    requires Fresh(start) && n < |run| && At(start, run, n).presenceOpen && !At(start, run, n + 1).presenceOpen
    ensures SeenTwice(run, n)
  {
    PresenceAlwaysOk(start, run, n);
    var w := At(start, run, n);
    Counted(w, run[n]);
    assert At(start, run, n + 1) == Next(w, run[n]);
    hide At, Next, ArmedBy;
  }

  /** And two consecutive absences of an armed watch, or two consecutive presences, do conclude. */
  lemma TwoAbsencesConclude(start: WatchState, run: seq<Step>, n: nat)
    requires Fresh(start) && n < |run| && MissedTwice(run, n) && At(start, run, n - 1).armed
    requires At(start, run, n - 1).context == run[n].a.context
    ensures At(start, run, n + 1).presenceOpen
  {
    var w := At(start, run, n - 1);
    Counted(w, run[n - 1]);
    Counted(Next(w, run[n - 1]), run[n]);
    assert At(start, run, n) == Next(w, run[n - 1]) && At(start, run, n + 1) == Next(At(start, run, n), run[n]);
    hide At, Next;
  }

  lemma TwoPresencesConclude(start: WatchState, run: seq<Step>, n: nat)
    requires Fresh(start) && n < |run| && SeenTwice(run, n)
    ensures At(start, run, n + 1).armed && !At(start, run, n + 1).presenceOpen
  {
    var w := At(start, run, n - 1);
    Counted(w, run[n - 1]);
    Counted(Next(w, run[n - 1]), run[n]);
    assert At(start, run, n) == Next(w, run[n - 1]) && At(start, run, n + 1) == Next(At(start, run, n), run[n]);
    hide At, Next;
  }

  // ---- The negotiated speed ----

  function Rate(strong: bool, s: Step): Option<nat> {
    if s.Look? then UsableSpeed(strong, s.d) else None
  }

  /** Two consecutive usable samples agree on a speed. */
  predicate ConfirmedAt(strong: bool, run: seq<Step>, i: nat) {
    Consecutive(run, i) && Rate(strong, run[i]).Some? && Rate(strong, run[i - 1]) == Rate(strong, run[i])
  }

  /** The greatest speed confirmed by the first n steps. */
  function Best(strong: bool, run: seq<Step>, n: nat): Option<nat>
    requires n <= |run|
    decreases n
  {
    if n == 0 then None
    else
      var before := Best(strong, run, n - 1);
      if ConfirmedAt(strong, run, n - 1) && (before.None? || Rate(strong, run[n - 1]).value > before.value)
      then Rate(strong, run[n - 1]) else before
  }

  lemma {:induction false} BestIsGreatest(strong: bool, run: seq<Step>, n: nat)
    requires n <= |run|
    ensures Best(strong, run, n).None? <==> forall i :: 0 <= i < n ==> !ConfirmedAt(strong, run, i)
    ensures Best(strong, run, n).Some? ==>
      && (exists i :: 0 <= i < n && ConfirmedAt(strong, run, i) && Rate(strong, run[i]) == Best(strong, run, n))
      && forall i :: 0 <= i < n && ConfirmedAt(strong, run, i) ==>
           Rate(strong, run[i]).value <= Best(strong, run, n).value
    decreases n
  {
    if n > 0 {
      BestIsGreatest(strong, run, n - 1);
      hide ConfirmedAt, Rate;
    }
  }

  /** The sample at i is slower than the best speed confirmed by then. */
  predicate BelowAt(run: seq<Step>, i: int) {
    && 0 <= i < |run| && Rate(true, run[i]).Some? && Best(true, run, i + 1).Some?
    && Rate(true, run[i]).value < Best(true, run, i + 1).value
  }

  predicate AtOrAbove(run: seq<Step>, i: int) {
    && 0 <= i < |run| && Rate(true, run[i]).Some? && Best(true, run, i + 1).Some?
    && Rate(true, run[i]).value >= Best(true, run, i + 1).value
  }

  /** The last step was an observation of the watch's own context. */
  predicate JustLooked(w: WatchState, run: seq<Step>, n: nat) {
    1 <= n <= |run| && run[n - 1].Look? && run[n - 1].a.context == w.context
  }

  ghost predicate LinkOk(w: WatchState, run: seq<Step>, n: nat)
    requires n <= |run|
  {
    w.strong && w.baseline == Best(true, run, n) && CandidateOk(w, run, n) && ComparedOk(w, run, n)
  }

  ghost predicate CandidateOk(w: WatchState, run: seq<Step>, n: nat)
    requires n <= |run|
  {
    && (w.streaks.candidate.Some? <==> w.streaks.confirmed >= 1)
    && (w.streaks.confirmed >= 1 ==> JustLooked(w, run, n) && Rate(true, run[n - 1]) == w.streaks.candidate)
    && (n >= 1 && Rate(true, run[n - 1]).Some? ==>
         w.streaks.candidate == Rate(true, run[n - 1]) && run[n - 1].a.context == w.context)
    && (w.streaks.confirmed >= 2 ==> ConfirmedAt(true, run, n - 1))
  }

  ghost predicate ComparedOk(w: WatchState, run: seq<Step>, n: nat)
    requires n <= |run|
  {
    && (w.streaks.low >= 1 ==> JustLooked(w, run, n) && BelowAt(run, n - 1))
    && (w.streaks.low >= 2 ==> Consecutive(run, n - 1) && BelowAt(run, n - 2))
    && (w.streaks.recovered >= 1 ==> JustLooked(w, run, n) && AtOrAbove(run, n - 1))
    && (w.streaks.recovered >= 2 ==> Consecutive(run, n - 1) && AtOrAbove(run, n - 2))
  }

  /** What one step does to the speed side of a watch with a strong identity. */
  predicate Rates(w: WatchState, s: Step, w': WatchState) {
    var rate := Rate(true, s);
    var was := if Links(w, s) then w.streaks else NO_STREAKS;
    && w'.strong && (s.Look? ==> w'.context == s.a.context)
    && (if rate.None? then
          && w'.baseline == w.baseline && w'.linkOpen == w.linkOpen && w'.streaks.candidate.None?
          && w'.streaks.confirmed == 0 && w'.streaks.low == 0 && w'.streaks.recovered == 0
        else
          && w'.streaks.candidate == rate
          && w'.streaks.confirmed == (if was.candidate == rate then Up(was.confirmed) else 1)
          && w'.baseline == (if w'.streaks.confirmed >= 2 && (w.baseline.None? || rate.value > w.baseline.value) then
               rate else w.baseline)
          && Compares(was, w.linkOpen, rate.value, w'))
  }

  predicate Compares(was: Streaks, open: bool, rate: nat, w': WatchState) {
    if w'.baseline.None? then w'.streaks.low == was.low && w'.streaks.recovered == was.recovered && w'.linkOpen == open
    else if rate < w'.baseline.value then
      w'.streaks.low == Up(was.low) && w'.streaks.recovered == 0 && w'.linkOpen == (open || w'.streaks.low >= 2)
    else
      w'.streaks.low == 0 && w'.streaks.recovered == Up(was.recovered)
        && w'.linkOpen == (open && w'.streaks.recovered < 2)
  }

  predicate Carries(w: WatchState, s: Step, x: WatchState) {
    && x.strong && x.context == s.a.context && x.baseline == w.baseline && x.linkOpen == w.linkOpen
    && x.streaks.candidate == (if Links(w, s) then w.streaks.candidate else None)
    && x.streaks.confirmed == (if Links(w, s) then w.streaks.confirmed else 0)
    && x.streaks.low == (if Links(w, s) then w.streaks.low else 0)
    && x.streaks.recovered == (if Links(w, s) then w.streaks.recovered else 0)
  }

  lemma SeenCarries(w: WatchState, s: Step)
    requires w.strong && Sees(s)
    ensures Carries(w, s, Seen(Prepared(w, s.a, s.continuous), s.d.value, s.uuid))
  {
  }

  lemma Judges(w: WatchState, s: Step, seen: WatchState, rate: nat)
    requires w.strong && s.Look? && Carries(w, s, seen) && Rate(true, s) == Some(rate)
    ensures Rates(w, s, Judged(Confirming(seen, rate), rate))
  {
    hide Up, Sees, Links;
  }

  lemma Rated(w: WatchState, s: Step)
    requires w.strong
    ensures Rates(w, s, Next(w, s))
  {
    if Sees(s) {
      SeenCarries(w, s);
      var seen := Seen(Prepared(w, s.a, s.continuous), s.d.value, s.uuid);
      hide Seen, Prepared;
      if Rate(true, s).Some? {
        hide Judged, Confirming, Rates, Carries;
        Judges(w, s, seen, Rate(true, s).value);
      }
    }
  }

  lemma LinkStep(w: WatchState, run: seq<Step>, n: nat)
    requires n < |run| && LinkOk(w, run, n)
    ensures LinkOk(Next(w, run[n]), run, n + 1)
  {
    Rated(w, run[n]);
    hide Next, CandidateOk, ComparedOk, Rates;
    CandidateStep(w, run, n, Next(w, run[n]));
    ComparedStep(w, run, n, Next(w, run[n]));
    assert Next(w, run[n]).strong by { RatedStrong(w, run[n], Next(w, run[n])); }
  }

  lemma RatedStrong(w: WatchState, s: Step, w': WatchState)
    requires Rates(w, s, w')
    ensures w'.strong
  {
  }

  lemma CandidateStep(w: WatchState, run: seq<Step>, n: nat, w': WatchState)
    requires n < |run| && LinkOk(w, run, n) && Rates(w, run[n], w')
    ensures CandidateOk(w', run, n + 1) && w'.baseline == Best(true, run, n + 1)
  {
    ConfirmedWhen(w, run, n, w');
    hide ComparedOk, Compares;
  }

  lemma ComparedStep(w: WatchState, run: seq<Step>, n: nat, w': WatchState)
    requires n < |run| && LinkOk(w, run, n) && Rates(w, run[n], w') && w'.baseline == Best(true, run, n + 1)
    ensures ComparedOk(w', run, n + 1)
  {
    hide Best, CandidateOk;
  }

  lemma ConfirmedWhen(w: WatchState, run: seq<Step>, n: nat, w': WatchState)
    requires n < |run| && LinkOk(w, run, n) && Rates(w, run[n], w')
    ensures w'.streaks.confirmed >= 2 <==> ConfirmedAt(true, run, n)
  {
    hide Best;
  }

  lemma {:induction false} LinkAlwaysOk(start: WatchState, run: seq<Step>, n: nat)
    requires Fresh(start) && start.strong && n <= |run|
    ensures LinkOk(At(start, run, n), run, n)
    decreases n
  {
    hide Next;
    if n > 0 {
      hide LinkOk;
      LinkAlwaysOk(start, run, n - 1);
      LinkStep(At(start, run, n - 1), run, n - 1);
    }
  }

  /** The baseline of a watch is the greatest speed ever confirmed by two consecutive samples; it never
      decreases and nothing else ever changes it. */
  lemma BaselineIsGreatestConfirmed(start: WatchState, run: seq<Step>, n: nat)
    requires Fresh(start) && start.strong && n <= |run|
    ensures At(start, run, n).baseline == Best(true, run, n)
  {
    LinkAlwaysOk(start, run, n);
    hide At, Best;
  }

  lemma {:induction false} BaselineNeverDecreases(start: WatchState, run: seq<Step>, n: nat, m: nat)
    requires Fresh(start) && start.strong && n <= m <= |run| && At(start, run, n).baseline.Some?
    ensures At(start, run, m).baseline.Some? && At(start, run, m).baseline.value >= At(start, run, n).baseline.value
    decreases m
  {
    BaselineIsGreatestConfirmed(start, run, n);
    BaselineIsGreatestConfirmed(start, run, m);
    hide At;
    BestGrows(run, n, m);
  }

  lemma {:induction false} BestGrows(run: seq<Step>, n: nat, m: nat)
    requires n <= m <= |run| && Best(true, run, n).Some?
    ensures Best(true, run, m).Some? && Best(true, run, m).value >= Best(true, run, n).value
    decreases m
  {
    if n < m {
      BestGrows(run, n, m - 1);
    }
  }

  /** A slower link is reported only after two consecutive samples below the baseline of their time. */
  lemma WarningNeedsTwoSlow(start: WatchState, run: seq<Step>, n: nat)
    requires Fresh(start) && start.strong && n < |run| && !At(start, run, n).linkOpen && At(start, run, n + 1).linkOpen
    ensures Consecutive(run, n) && BelowAt(run, n - 1) && BelowAt(run, n)
  {
    LinkAlwaysOk(start, run, n);
    LinkAlwaysOk(start, run, n + 1);
    assert At(start, run, n + 1) == Next(At(start, run, n), run[n]);
    Rated(At(start, run, n), run[n]);
    hide At, Next, Best;
  }

  /** And withdrawn only after two consecutive samples at or above it. */
  lemma RecoveryNeedsTwoFast(start: WatchState, run: seq<Step>, n: nat)
    requires Fresh(start) && start.strong && n < |run| && At(start, run, n).linkOpen && !At(start, run, n + 1).linkOpen
    ensures Consecutive(run, n) && AtOrAbove(run, n - 1) && AtOrAbove(run, n)
  {
    LinkAlwaysOk(start, run, n);
    LinkAlwaysOk(start, run, n + 1);
    assert At(start, run, n + 1) == Next(At(start, run, n), run[n]);
    Rated(At(start, run, n), run[n]);
    hide At, Next, Best;
  }

  /** A weak identity never has a baseline and never flags its link. */
  lemma {:induction false} WeakNeverFlags(start: WatchState, run: seq<Step>, n: nat)
    requires Fresh(start) && !start.strong && n <= |run|
    ensures !At(start, run, n).strong && !At(start, run, n).linkOpen && At(start, run, n).baseline.None?
    decreases n
  {
    if n > 0 {
      WeakNeverFlags(start, run, n - 1);
      WeakStep(At(start, run, n - 1), run[n - 1]);
      hide Next;
    }
  }

  lemma WeakStep(w: WatchState, s: Step)
    requires !w.strong
    ensures !Next(w, s).strong && Next(w, s).linkOpen == w.linkOpen && Next(w, s).baseline == w.baseline
  {
    hide Judged, Confirming, Unrated;
    if s.Look? {
      var ready := Prepared(w, s.a, s.continuous);
      assert !ready.strong && ready.linkOpen == w.linkOpen && ready.baseline == w.baseline;
      hide Prepared;
      if s.d.Some? {
        var seen := Seen(ready, s.d.value, s.uuid);
        assert !seen.strong && seen.linkOpen == w.linkOpen && seen.baseline == w.baseline;
        hide Seen;
      }
    }
  }
}
