/**
 One USB connection watch (server/src/device_watch.rs:79-338): presence and negotiated speed judged
 from consecutive observations only.
 */
module DeviceWatch {
  import opened Wrappers

  datatype Context = Context(boot: string, generation: string, session: string, clock: string)

  /** current: the acquisition succeeded and was usable when it was made. */
  datatype Acquisition = Acquisition(context: Context, collection: string, mono: nat, receivedAt: int, ageMs: int,
    current: bool)

  datatype Speed = Available | Unsupported | Unavailable
  datatype Device = Device(driver: string, bps: Option<nat>, speed: Speed)

  datatype Presence = PresenceUnknown | Absent | Present
  datatype Link = LinkUnknown | LinkUnsupported | WarmingUp | Warning | NoWarning

  /** What only consecutive observations count towards; present to recovered never exceed two. */
  datatype Streaks = Streaks(
    present: nat, absent: nat, candidate: Option<nat>, confirmed: nat, low: nat, recovered: nat)

  const NO_STREAKS: Streaks := Streaks(0, 0, None, 0, 0, 0)

  datatype WatchState = WatchState(
    strong: bool, driver: string, context: Context, acquisition: Acquisition, presence: Presence, armed: bool,
    presenceOpen: bool, epoch: Option<nat>, linkOpen: bool, link: Link, baseline: Option<nat>,
    reported: Option<nat>, attributed: bool, streaks: Streaks)

  function NewWatch(strong: bool, driver: string, a: Acquisition): WatchState {
    WatchState(strong, driver, a.context, a, PresenceUnknown, false, false, None, false, LinkUnknown, None, None, true,
      NO_STREAKS)
  }

  /** saturating_add(1).min(2) */
  function Up(n: nat): nat {
    if n >= 2 then 2 else n + 1
  }

  // ---- The steps a watch can take ----

  function Broken(w: WatchState): WatchState {
    w.(streaks := NO_STREAKS)
  }

  function Blinded(w: WatchState, a: Acquisition): WatchState {
    Broken(w).(acquisition := a.(current := false), presence := PresenceUnknown, link := LinkUnknown, reported := None)
  }

  /** The context and continuity checks in front of every observation. */
  function Prepared(w: WatchState, a: Acquisition, continuous: bool): WatchState {
    var same := w.context == a.context;
    w.(armed := w.armed && same, attributed := w.attributed && same, context := a.context,
      streaks := if same && continuous then w.streaks else NO_STREAKS, acquisition := a)
  }

  function Missing(w: WatchState): WatchState {
    var absent := Up(w.streaks.absent);
    w.(presence := if w.armed then Absent else PresenceUnknown, reported := None, link := LinkUnknown,
      streaks := NO_STREAKS.(absent := absent),
      presenceOpen := w.presenceOpen || (w.armed && absent >= 2))
  }

  /** The second presence in a row arms the watch, and is the first of a new epoch. */
  function Seen(w: WatchState, d: Device, epoch: nat): WatchState {
    var present := Up(w.streaks.present);
    var arms := present >= 2;
    w.(driver := d.driver, attributed := true, reported := d.bps, presence := Present,
      streaks := w.streaks.(absent := 0, present := present),
      epoch := if arms && (w.streaks.present == 1 || w.epoch.None?) then Some(epoch) else w.epoch,
      armed := w.armed || arms, presenceOpen := w.presenceOpen && !arms)
  }

  /** The speed of an observation that may be compared. */
  function UsableSpeed(strong: bool, d: Option<Device>): Option<nat> {
    if strong && d.Some? && d.value.speed.Available? then d.value.bps else None
  }

  function Unrated(w: WatchState, d: Device): WatchState {
    w.(streaks := w.streaks.(candidate := None, confirmed := 0, low := 0, recovered := 0),
      link := if d.speed.Unsupported? then LinkUnsupported else LinkUnknown)
  }

  /** A sample that repeats the candidate confirms it; a faster confirmed one becomes the baseline. */
  function Confirming(w: WatchState, rate: nat): WatchState {
    var count := if w.streaks.candidate == Some(rate) then Up(w.streaks.confirmed) else 1;
    w.(streaks := w.streaks.(candidate := Some(rate), confirmed := count),
      baseline := if count >= 2 && (w.baseline.None? || rate > w.baseline.value) then Some(rate) else w.baseline)
  }

  function Judged(w: WatchState, rate: nat): WatchState {
    if w.baseline.None? then w.(link := WarmingUp)
    else
      var slow := rate < w.baseline.value;
      var low := if slow then Up(w.streaks.low) else 0;
      var recovered := if slow then 0 else Up(w.streaks.recovered);
      var open := if slow then w.linkOpen || low >= 2 else w.linkOpen && recovered < 2;
      w.(streaks := w.streaks.(low := low, recovered := recovered), linkOpen := open,
        link := if open then Warning else if slow then WarmingUp else NoWarning)
  }

  function Observed(w: WatchState, d: Option<Device>, a: Acquisition, continuous: bool, epoch: nat): WatchState {
    var ready := Prepared(w, a, continuous);
    if d.None? then Missing(ready)
    else
      var seen := Seen(ready, d.value, epoch);
      if !w.strong then seen.(link := LinkUnsupported)
      else if UsableSpeed(w.strong, d).None? then Unrated(seen, d.value)
      else Judged(Confirming(seen, UsableSpeed(w.strong, d).value), UsableSpeed(w.strong, d).value)
  }

  // ---- The watch as the server keeps it ----

  class Watch {
    const strong: bool
    var driver: string
    var context: Context
    var acquisition: Acquisition
    var presence: Presence
    var armed: bool
    var presenceOpen: bool
    var epoch: Option<nat>
    var linkOpen: bool
    var link: Link
    var baseline: Option<nat>
    var reported: Option<nat>
    var attributed: bool
    var streaks: Streaks

    function View(): WatchState
      reads this
    {
      WatchState(strong, driver, context, acquisition, presence, armed, presenceOpen, epoch, linkOpen, link, baseline,
        reported, attributed, streaks)
    }

    constructor (strong: bool, driver: string, a: Acquisition)
      ensures View() == NewWatch(strong, driver, a)
    {
      this.strong, this.driver, context, acquisition := strong, driver, a.context, a;
      presence, armed, presenceOpen, epoch, streaks := PresenceUnknown, false, false, None, NO_STREAKS;
      linkOpen, link, baseline, reported, attributed := false, LinkUnknown, None, None, true;
    }

    constructor Restore(w: WatchState)
      ensures View() == w
    {
      strong, driver, context, acquisition := w.strong, w.driver, w.context, w.acquisition;
      presence, armed, presenceOpen, epoch, streaks := w.presence, w.armed, w.presenceOpen, w.epoch, w.streaks;
      linkOpen, link, baseline, reported, attributed := w.linkOpen, w.link, w.baseline, w.reported, w.attributed;
    }

    method BreakStreaks()
      modifies this
      ensures View() == Broken(old(View()))
    {
      streaks := NO_STREAKS;
    }

    method Unknown(a: Acquisition)
      modifies this
      ensures View() == Blinded(old(View()), a)
    {
      BreakStreaks();
      acquisition := a.(current := false);
      presence := PresenceUnknown;
      link := LinkUnknown;
      reported := None;
    }

    method Observe(d: Option<Device>, a: Acquisition, continuous: bool, uuid: nat)
      modifies this
      ensures View() == Observed(old(View()), d, a, continuous, uuid)
    {
      hide Prepared, Missing, Seen, Confirming, Judged;
      Prepare(a, continuous);
      if d.None? {
        Miss();
        return;
      }
      See(d.value, uuid);
      if !strong {
        link := LinkUnsupported;
        return;
      }
      if d.value.bps.None? || !d.value.speed.Available? {
        streaks := streaks.(candidate := None, confirmed := 0, low := 0, recovered := 0);
        link := if d.value.speed.Unsupported? then LinkUnsupported else LinkUnknown;
        return;
      }
      Confirm(d.value.bps.value);
      Judge(d.value.bps.value);
    }

    method Prepare(a: Acquisition, continuous: bool)
      modifies this
      ensures View() == Prepared(old(View()), a, continuous)
    {
      if context != a.context {
        BreakStreaks();
        armed := false;
        attributed := false;
        context := a.context;
      }
      if !continuous {
        BreakStreaks();
      }
      acquisition := a;
    }

    method Miss()
      modifies this
      ensures View() == Missing(old(View()))
    {
      presence := if armed then Absent else PresenceUnknown;
      reported := None;
      streaks := NO_STREAKS.(absent := Up(streaks.absent));
      link := LinkUnknown;
      if armed && streaks.absent >= 2 {
        presenceOpen := true;
      }
    }

    method See(d: Device, uuid: nat)
      modifies this
      ensures View() == Seen(old(View()), d, uuid)
    {
      driver := d.driver;
      attributed := true;
      reported := d.bps;
      presence := Present;
      var confirming := streaks.present == 1;
      streaks := streaks.(absent := 0, present := Up(streaks.present));
      if streaks.present >= 2 {
        Arm(confirming, uuid);
      }
    }

    method Arm(confirming: bool, uuid: nat)
      modifies this`epoch, this`armed, this`presenceOpen
      ensures epoch == if confirming || old(epoch).None? then Some(uuid) else old(epoch)
      ensures armed && !presenceOpen
    {
      if confirming || epoch.None? {
        epoch := Some(uuid);
      }
      armed := true;
      presenceOpen := false;
    }

    /** The negotiated speed against the candidate. */
    method Confirm(rate: nat)
      modifies this
      ensures View() == Confirming(old(View()), rate)
    {
      if streaks.candidate == Some(rate) {
        streaks := streaks.(confirmed := Up(streaks.confirmed));
      } else {
        streaks := streaks.(candidate := Some(rate), confirmed := 1);
      }
      if streaks.confirmed >= 2 && (baseline.None? || rate > baseline.value) {
        baseline := Some(rate);
      }
    }

    /** The negotiated speed against the baseline. */
    method Judge(rate: nat)
      modifies this
      ensures View() == Judged(old(View()), rate)
    {
      if baseline.None? {
        link := WarmingUp;
        return;
      }
      if rate < baseline.value {
        streaks := streaks.(low := Up(streaks.low), recovered := 0);
        if streaks.low >= 2 {
          linkOpen := true;
        }
        link := if linkOpen then Warning else WarmingUp;
      } else {
        streaks := streaks.(low := 0, recovered := Up(streaks.recovered));
        if streaks.recovered >= 2 {
          linkOpen := false;
        }
        link := if linkOpen then Warning else NoWarning;
      }
    }
  }
}
