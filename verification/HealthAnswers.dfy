/**
 What a media-health signal shows and which collections are evidence (server/src/reliability.rs:260-460 and
 610-690), stated on the collections and the judgements.
 */
module HealthAnswers {
  import opened Wrappers
  import opened HealthRules

  // ---- What a signal shows ----

  /** The last event that was not a reset of its counter. */
  function LastWord(run: seq<Event>, n: nat): Option<Event>
    requires n <= |run|
    decreases n
  {
    if n == 0 then None else if run[n - 1].Reset? then LastWord(run, n - 1) else Some(run[n - 1])
  }

  predicate Judged(e: Option<Event>, bad: bool) {
    e.Some? && e.value.Judge? && e.value.bad == Some(bad)
  }

  /** There was a reading, but nothing to judge it by. */
  predicate Preexisting(e: Option<Event>) {
    e.Some? && e.value.Judge? && e.value.bad.None? && e.value.historic
  }

  /** The status follows the last word: a warning after an adverse judgement, no warning or a recovery after a clear
      one, history after a reading that could not be judged, and unknown otherwise. */
  predicate Shows(s: Signal, e: Option<Event>) {
    && (s.status.Warned? <==> Judged(e, true))
    && (s.status.NoWarning? || s.status.Recovering? <==> Judged(e, false))
    && (s.status.Historical? <==> Preexisting(e))
    && (s.usable <==> Judged(e, true) || Judged(e, false) || Preexisting(e))
  }

  lemma {:induction false} StatusInRuns(run: seq<Event>, n: nat)
    requires n <= |run|
    ensures Shows(At(run, n), LastWord(run, n))
    decreases n
  {
    if n > 0 {
      StatusInRuns(run, n - 1);
      AlwaysOk(run, n - 1);
      hide At;
      assert At(run, n) == After(At(run, n - 1), run[n - 1]) by { AtNext(run, n - 1); }
    }
  }

  lemma AtNext(run: seq<Event>, n: nat)
    requires n < |run|
    ensures At(run, n + 1) == After(At(run, n), run[n])
  {
  }

  /** After a clear judgement a signal is recovering exactly while its finding is still open. */
  lemma ClearShows(run: seq<Event>, n: nat)
    requires n < |run| && run[n].Judge? && run[n].bad == Some(false)
    ensures At(run, n + 1).status.Recovering? <==> At(run, n + 1).finding.Some?
    ensures At(run, n + 1).finding.Some? <==>
      At(run, n).finding.Some?
        && !(n > 0 && run[n - 1].Judge? && run[n - 1].bad == Some(false) && At(run, n).clear == 1)
  {
    AlwaysOk(run, n);
    AtNext(run, n);
    hide At;
  }

  // ---- Which collections are evidence ----

  /** Successful, of a known age that is not above its own limit. */
  predicate Recent(o: Observation) {
    && o.usable && o.age.Some? && o.stale.Some? && 0.0 <= o.age.value <= o.stale.value && 0.0 < o.stale.value
  }

  /** And not about several devices at once. */
  predicate IsEvidence(o: Observation) {
    Recent(o) && (o.media ==> o.identities.Nobody? || o.identities.One?)
  }

  /** About a medium, and evidence: it names the device, or none. */
  predicate AboutDevice(o: Observation) {
    IsEvidence(o) && o.media
  }

  /** The last collection taken. */
  function LastTaken(run: seq<Observation>, n: nat): Option<Observation>
    requires n <= |run|
    decreases n
  {
    if n == 0 then None
    else if Known(LastTaken(run, n - 1), run[n - 1]) then LastTaken(run, n - 1) else Some(run[n - 1])
  }

  /** Of the same continuity as the last one taken, and the same collection or not later. */
  predicate Known(last: Option<Observation>, o: Observation) {
    && last.Some? && last.value.continuity == o.continuity
    && (last.value.collection == o.collection || o.mono <= last.value.mono)
  }

  /** The last one taken about a medium. */
  function LastAbout(run: seq<Observation>, n: nat): Option<Observation>
    requires n <= |run|
    decreases n
  {
    if n == 0 then None
    else if !Known(LastTaken(run, n - 1), run[n - 1]) && AboutDevice(run[n - 1]) then Some(run[n - 1])
    else LastAbout(run, n - 1)
  }

  function DeviceNamed(o: Option<Observation>): Option<string> {
    if o.None? || !o.value.identities.One? then None else Some(o.value.identities.id)
  }

  predicate Remembers(s: Source, last: Option<Observation>, about: Option<Observation>) {
    && (last.None? ==> s.continuity.None? && s.lastCollection.None? && s.lastMono.None?)
    && (last.Some? ==>
          && s.continuity == Some(last.value.continuity) && s.lastCollection == Some(last.value.collection)
          && s.lastMono == Some(last.value.mono))
    && s.device == DeviceNamed(about)
  }

  lemma EvidenceIs(o: Observation)
    ensures IsEvidence(o) <==> Fresh(o)
  {
  }

  lemma KnownIs(s: Source, last: Option<Observation>, about: Option<Observation>, o: Observation)
    requires Remembers(s, last, about)
    ensures Known(last, o) <==> Repeats(s, o)
    ensures Changed(s, o) <==> last.Some? && last.value.continuity != o.continuity
    ensures OtherDevice(s, o) <==> AboutDevice(o) && last.Some? && DeviceNamed(about) != DeviceNamed(Some(o))
  {
    EvidenceIs(o);
    hide IsEvidence, Fresh;
  }

  lemma {:induction false} RunRemembers(run: seq<Observation>, n: nat)
    requires n <= |run|
    ensures Remembers(SourceAt(run, n), LastTaken(run, n), LastAbout(run, n))
    decreases n
  {
    if n > 0 {
      RunRemembers(run, n - 1);
      KnownIs(SourceAt(run, n - 1), LastTaken(run, n - 1), LastAbout(run, n - 1), run[n - 1]);
      EvidenceIs(run[n - 1]);
      SourceNext(run, n - 1);
      ObservedRemembers(SourceAt(run, n - 1), run[n - 1]);
      hide SourceAt, Observed, Known, IsEvidence, Fresh, Repeats;
    }
  }

  lemma SourceNext(run: seq<Observation>, n: nat)
    requires n < |run|
    ensures SourceAt(run, n + 1) == Observed(SourceAt(run, n), run[n])
  {
  }

  lemma ObservedRemembers(s: Source, o: Observation)
    ensures Repeats(s, o) ==> Observed(s, o) == s
    ensures !Repeats(s, o) ==> var s' := Observed(s, o);
      && s'.continuity == Some(o.continuity) && s'.lastCollection == Some(o.collection) && s'.lastMono == Some(o.mono)
      && s'.device == (if Fresh(o) && o.media then DeviceNamed(Some(o)) else s.device) && s'.active
  {
    hide JudgeAll, Eligible, Ready, Fresh, Repeats;
  }

  /** In every run: which collections are taken, and which of those interrupt the source first. */
  lemma TakenInRuns(run: seq<Observation>, n: nat)
    requires n < |run|
    ensures Processed(run, n) <==> !Known(LastTaken(run, n), run[n])
    ensures Interrupting(run, n) <==>
      var last, o := LastTaken(run, n), run[n];
      last.Some? && (last.value.continuity != o.continuity
        || (AboutDevice(o) && DeviceNamed(LastAbout(run, n)) != DeviceNamed(Some(o))))
  {
    RunRemembers(run, n);
    KnownIs(SourceAt(run, n), LastTaken(run, n), LastAbout(run, n), run[n]);
    hide SourceAt, Known, IsEvidence, AboutDevice, LastTaken, LastAbout;
  }

  // ---- What a rule makes of a collection ----

  /** The judgement of a direct rule: the verdict of a collection that is evidence, and none of any other. */
  predicate DirectSays(rule: Rule, o: Observation, events: seq<Event>)
    requires rule.Direct?
  {
    events == [Judge(if IsEvidence(o) then rule.bad else None, false, rule.rule + ":" + o.collection)]
  }

  /** A counter that changed its epoch or, unless a decline is looked for, went back. */
  predicate Restarted(was: Counter, now: Counter, falling: bool) {
    now.epoch != was.epoch || (!falling && now.value < was.value)
  }

  /** The judgement of a counter rule: whether it changed for the worse since the reading before; nothing without a
      reading before, and nothing but a reset when the two cannot be compared. */
  predicate CounterSays(rule: Rule, o: Observation, before: Option<Counter>, events: seq<Event>)
    requires rule.Counting?
  {
    var id := rule.rule + ":" + o.collection;
    if !IsEvidence(o) || rule.reading.None? then events == [Judge(None, false, id)]
    else if before.None? then events == [Judge(None, true, id)]
    else if Restarted(before.value, rule.reading.value, rule.falling) then events == [Reset, Judge(None, true, id)]
    else
      var was, now := before.value.value, rule.reading.value.value;
      events == [Judge(Some(if rule.falling then now < was else was < now), false, id)]
  }

  /** The reading that is compared with: the last since the last interruption, if there is one. */
  ghost predicate ReadBefore(run: seq<Observation>, n: nat, name: string, before: Option<Counter>)
    requires n < |run|
  {
    if Interrupting(run, n) then before.None?
    else if before.Some? then WasRead(run, n, name, before.value)
    else forall c :: !WasRead(run, n, name, c)
  }

  lemma CounterEventsSay(rule: Rule, o: Observation, before: Option<Counter>)
    requires rule.Counting?
    ensures CounterSays(rule, o, before,
      CounterEvents(before, if IsEvidence(o) then rule.reading else None, rule.falling, rule.rule + ":" + o.collection))
  {
    hide IsEvidence;
  }

  /** In every run, the judgement of rule i of collection n. */
  lemma JudgementInRuns(run: seq<Observation>, n: nat, i: nat) returns (before: Option<Counter>)
    requires n < |run| && Processed(run, n) && i < |run[n].rules|
    requires forall k :: 0 <= k < n ==> Distinct(run[k].rules)
    ensures var rule, o := run[n].rules[i], run[n];
      var events := Events(Ready(SourceAt(run, n), o).counters, Eligible(o)[i], o.collection);
      if rule.Direct? then DirectSays(rule, o, events)
      else ReadBefore(run, n, rule.name, before) && CounterSays(rule, o, before, events)
  {
    var rule, s, o := run[n].rules[i], SourceAt(run, n), run[n];
    EvidenceIs(o);
    before := None;
    if rule.Counting? {
      before := CounterOf(Ready(s, o).counters, rule.name);
      ReadyCounter(s, o, rule.name);
      CounterEventsSay(rule, o, before);
      ReadBeforeIs(run, n, rule.name, before);
    }
    hide SourceAt, Ready, IsEvidence, Fresh, ReadBefore, CounterSays, CounterEvents;
  }

  lemma ReadBeforeIs(run: seq<Observation>, n: nat, name: string, before: Option<Counter>)
    requires n < |run| && forall k :: 0 <= k < n ==> Distinct(run[k].rules)
    requires before == if Interrupting(run, n) then None else CounterOf(SourceAt(run, n).counters, name)
    ensures ReadBefore(run, n, name, before)
  {
    hide SourceAt, Interrupting, Distinct, WasRead;
    forall c ensures CounterOf(SourceAt(run, n).counters, name) == Some(c) <==> WasRead(run, n, name, c) {
      CounterIsLastRead(run, n, name, c);
    }
  }
}
