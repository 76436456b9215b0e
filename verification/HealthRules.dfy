/**
 Media-health rules (server/src/reliability.rs:260-384 and 396-690): a finding opens on adverse evidence
 and is resolved only by two consecutive usable clear observations.
 */
module HealthRules {
  import opened Wrappers

  const REQUIRED_CLEAR: nat := 2

  datatype Status = Unknown | NoWarning | Warned | Recovering | Historical

  /** One rule of one source; finding is the identity of the open finding. */
  datatype Signal = Signal(status: Status, finding: Option<string>, clear: nat, usable: bool)

  const NO_SIGNAL: Signal := Signal(Unknown, None, 0, false)

  datatype Report = Reported(id: string) | Resolved(id: string) | Interrupted(id: string)

  /** What happens to a rule: it is judged (None without eligible evidence; historic when a reading is
      there but nothing to compare it with), its counter is reset, or the whole source is interrupted.
      id names the finding a concern would open. */
  datatype Event = Judge(bad: Option<bool>, historic: bool, id: string) | Reset | Interrupt

  // ---- One rule ----

  /** apply, reset_rule and interrupt, seen by one rule. */
  function After(s: Signal, e: Event): Signal {
    match e
    case Judge(bad, historic, id) =>
      if bad.None? then s.(clear := 0, status := if historic then Historical else Unknown, usable := historic)
      else if bad.value then Signal(Warned, if s.finding.Some? then s.finding else Some(id), 0, true)
      else if s.finding.Some? then
        if s.clear + 1 >= REQUIRED_CLEAR then Signal(NoWarning, None, 0, true)
          else Signal(Recovering, s.finding, s.clear + 1, true)
      else s.(status := NoWarning, usable := true)
    case Reset => s.(finding := None, clear := 0)
    case Interrupt => Signal(Unknown, None, 0, false)
  }

  function Emitted(s: Signal, e: Event): seq<Report> {
    match e
    case Judge(bad, historic, id) =>
      if bad == Some(true) then [Reported(if s.finding.Some? then s.finding.value else id)]
      else if bad == Some(false) && s.finding.Some? && s.clear + 1 >= REQUIRED_CLEAR then [Resolved(s.finding.value)]
      else []
    case Reset => if s.finding.Some? then [Interrupted(s.finding.value)] else []
    case Interrupt => if s.finding.Some? then [Interrupted(s.finding.value)] else []
  }

  function At(run: seq<Event>, n: nat): Signal
    requires n <= |run|
    decreases n
  {
    if n == 0 then NO_SIGNAL else After(At(run, n - 1), run[n - 1])
  }

  predicate ClearAt(run: seq<Event>, i: int) {
    0 <= i < |run| && run[i].Judge? && run[i].bad == Some(false)
  }

  predicate SignalOk(s: Signal, run: seq<Event>, n: nat) {
    && s.clear < REQUIRED_CLEAR && (s.finding.None? ==> s.clear == 0)
    && (s.clear == 1 ==> ClearAt(run, n - 1))
  }

  lemma {:induction false} AlwaysOk(run: seq<Event>, n: nat)
    requires n <= |run|
    ensures SignalOk(At(run, n), run, n)
    decreases n
  {
    if n > 0 {
      AlwaysOk(run, n - 1);
    }
  }

  /** Event o opens a finding and names it. */
  predicate Opens(run: seq<Event>, o: nat, id: string)
    requires o < |run|
  {
    At(run, o).finding.None? && run[o].Judge? && run[o].bad == Some(true) && run[o].id == id
  }

  predicate KeptOpen(run: seq<Event>, o: nat, n: nat, id: string)
    requires n <= |run|
  {
    forall m :: o < m <= n ==> At(run, m).finding == Some(id)
  }

  predicate OnlyConcerns(run: seq<Event>, m: nat, id: string)
    requires m < |run|
  {
    Emitted(At(run, m), run[m]) == [] || Emitted(At(run, m), run[m]) == [Reported(id)]
  }

  lemma FindingStep(run: seq<Event>, n: nat)
    requires n < |run| && At(run, n).finding.Some?
    ensures var id := At(run, n).finding.value;
      || (At(run, n + 1).finding == Some(id) && OnlyConcerns(run, n, id))
      || (At(run, n + 1).finding.None? && Emitted(At(run, n), run[n]) == [Resolved(id)])
      || (At(run, n + 1).finding.None? && !run[n].Judge? && Emitted(At(run, n), run[n]) == [Interrupted(id)])
  {
  }

  lemma FindingOpens(run: seq<Event>, n: nat)
    requires n < |run| && At(run, n).finding.None? && At(run, n + 1).finding.Some?
    ensures Opens(run, n, At(run, n + 1).finding.value)
    ensures Emitted(At(run, n), run[n]) == [Reported(At(run, n + 1).finding.value)]
  {
  }

  /** The life of a finding: an adverse judgement opened it and was reported; it has had that identity ever
      since, and nothing but concerns was reported of it; it ends by a resolution, a reset or an
      interruption, and that is reported. */
  lemma {:induction false} FindingLife(run: seq<Event>, n: nat) returns (o: nat)
    requires n < |run| && At(run, n).finding.Some?
    ensures var id := At(run, n).finding.value;
      && o < n && Opens(run, o, id) && Emitted(At(run, o), run[o]) == [Reported(id)] && KeptOpen(run, o, n, id)
      && (forall m :: o < m < n ==> OnlyConcerns(run, m, id))
      && (At(run, n + 1).finding == Some(id)
          || (At(run, n + 1).finding.None? && Emitted(At(run, n), run[n]) == [Resolved(id)])
          || (At(run, n + 1).finding.None? && !run[n].Judge? && Emitted(At(run, n), run[n]) == [Interrupted(id)]))
    decreases n
  {
    FindingStep(run, n);
    assert n > 0;
    hide At, After, Emitted;
    if At(run, n - 1).finding.Some? {
      o := FindingLife(run, n - 1);
      FindingStep(run, n - 1);
    } else {
      o := n - 1;
      FindingOpens(run, n - 1);
    }
  }

  /** A finding is resolved exactly when, after the judgement that opened it, two judgements in a row are
      usable and clear: anything in between, missing evidence included, starts the count again. */
  lemma ResolvedByTwoClears(run: seq<Event>, n: nat, id: string)
    requires n < |run|
    ensures Emitted(At(run, n), run[n]) == [Resolved(id)] <==>
      exists o: nat :: o < n - 1 && Opens(run, o, id) && KeptOpen(run, o, n, id) && ClearAt(run, n - 1)
        && ClearAt(run, n)
  {
    AlwaysOk(run, n);
    if Emitted(At(run, n), run[n]) == [Resolved(id)] {
      var o := FindingLife(run, n);
      assert o != n - 1;
    }
    if o: nat :| o < n - 1 && Opens(run, o, id) && KeptOpen(run, o, n, id) && ClearAt(run, n - 1) && ClearAt(run, n) {
      AlwaysOk(run, n - 1);
      assert At(run, n - 1).finding == Some(id) && At(run, n).finding == Some(id);
    }
  }

  // ---- Counter rules ----

  datatype Counter = Counter(value: nat, epoch: Option<string>)

  /** The counter started over, so the two readings cannot be compared. */
  predicate WentWrong(p: Counter, r: Counter, falling: bool) {
    p.epoch != r.epoch || (!falling && r.value < p.value)
  }

  /** What a reading of a counter means; a falling rule looks for a decline instead of a growth. */
  function CounterEvents(previous: Option<Counter>, reading: Option<Counter>, falling: bool, id: string): seq<Event> {
    if reading.None? || previous.None? then [Judge(None, reading.Some?, id)]
    else
      var p, r := previous.value, reading.value;
      if WentWrong(p, r, falling) then [Reset, Judge(None, true, id)]
      else [Judge(Some(if falling then r.value < p.value else r.value > p.value), false, id)]
  }

  // ---- The whole source ----

  datatype Rule =
    | Direct(rule: string, bad: Option<bool>)
    | Counting(rule: string, name: string, reading: Option<Counter>, falling: bool)

  /** The device identities that the usable readings of a collection carry. */
  datatype Identities = Nobody | One(id: string) | Several

  /** One collection of a source.  usable says that its status is ok or partial; age and stale are None
      when not finite; media says that some reading is usable and that the collection is about a medium. */
  datatype Observation = Observation(
    continuity: seq<string>, collection: string, mono: nat, usable: bool, age: Option<real>, stale: Option<real>,
    media: bool, identities: Identities, rules: seq<Rule>)

  datatype Source = Source(
    signals: map<string, Signal>, counters: map<string, Counter>, continuity: Option<seq<string>>,
    lastCollection: Option<string>, lastMono: Option<nat>, device: Option<string>, active: bool)

  const NEW: Source := Source(map[], map[], None, None, None, None, true)

  predicate Timely(o: Observation) {
    && o.usable && o.age.Some? && o.age.value >= 0.0 && o.stale.Some? && o.stale.value > 0.0
    && o.age.value <= o.stale.value
  }

  /** Readings of two devices at once are evidence about neither. */
  predicate Fresh(o: Observation) {
    Timely(o) && !(o.media && o.identities.Several?)
  }

  function DeviceOf(o: Observation): Option<string> {
    if o.identities.One? then Some(o.identities.id) else None
  }

  function Blinded(rule: Rule): Rule {
    if rule.Direct? then rule.(bad := None) else rule.(reading := None)
  }

  /** The rules with the evidence that may be used. */
  function Eligible(o: Observation): (rules: seq<Rule>)
    ensures |rules| == |o.rules|
    ensures forall i :: 0 <= i < |rules| ==> rules[i] == if Fresh(o) then o.rules[i] else Blinded(o.rules[i])
  {
    if Fresh(o) then o.rules else seq(|o.rules|, i requires 0 <= i < |o.rules| => Blinded(o.rules[i]))
  }

  function SignalOf(signals: map<string, Signal>, rule: string): Signal {
    if rule in signals then signals[rule] else NO_SIGNAL
  }

  function CounterOf(counters: map<string, Counter>, name: string): Option<Counter> {
    if name in counters then Some(counters[name]) else None
  }

  function Fold(s: Signal, events: seq<Event>): Signal {
    if events == [] then s else After(Fold(s, events[..|events| - 1]), events[|events| - 1])
  }

  function Reports(s: Signal, events: seq<Event>): seq<Report> {
    if events == [] then [] else
      Reports(s, events[..|events| - 1]) + Emitted(Fold(s, events[..|events| - 1]), events[|events| - 1])
  }

  /** What one rule makes of the collection: a judgement, after a reset where its counter went wrong. */
  function Events(counters: map<string, Counter>, rule: Rule, collection: string): seq<Event> {
    var id := rule.rule + ":" + collection;
    match rule
    case Direct(_, bad) => [Judge(bad, false, id)]
    case Counting(_, name, reading, falling) => CounterEvents(CounterOf(counters, name), reading, falling, id)
  }

  datatype Verdicts = Verdicts(signals: map<string, Signal>, counters: map<string, Counter>, out: seq<Report>)

  function JudgeOne(v: Verdicts, rule: Rule, collection: string): Verdicts {
    var events := Events(v.counters, rule, collection);
    Verdicts(v.signals[rule.rule := Fold(SignalOf(v.signals, rule.rule), events)],
      if rule.Counting? && rule.reading.Some? then v.counters[rule.name := rule.reading.value] else v.counters,
      v.out + Reports(SignalOf(v.signals, rule.rule), events))
  }

  function JudgeAll(v: Verdicts, rules: seq<Rule>, collection: string): Verdicts {
    if rules == [] then v else JudgeOne(JudgeAll(v, rules[..|rules| - 1], collection), rules[|rules| - 1], collection)
  }

  /** interrupt: every finding ends, and nothing pending survives. */
  function Cut(s: Source): Source {
    s.(signals := map r | r in s.signals :: After(s.signals[r], Interrupt), counters := map[], active := false)
  }

  predicate Changed(s: Source, o: Observation) {
    s.continuity.Some? && s.continuity.value != o.continuity
  }

  predicate Repeats(s: Source, o: Observation) {
    && !Changed(s, o)
    && (s.lastCollection == Some(o.collection) || (s.lastMono.Some? && o.mono <= s.lastMono.value))
  }

  predicate OtherDevice(s: Source, o: Observation) {
    Fresh(o) && o.media && s.lastCollection.Some? && s.device != DeviceOf(o)
  }

  /** The source just before its rules are judged. */
  function Ready(s: Source, o: Observation): Source {
    var a := if Changed(s, o) then Cut(s) else s;
    if OtherDevice(s, o) then Cut(a) else a
  }

  function Observed(s: Source, o: Observation): Source {
    if Repeats(s, o) then s else
      var ready := Ready(s, o);
      var v := JudgeAll(Verdicts(ready.signals, ready.counters, []), Eligible(o), o.collection);
      Source(v.signals, v.counters, Some(o.continuity), Some(o.collection), Some(o.mono),
        if Fresh(o) && o.media then DeviceOf(o) else s.device, true)
  }

  /** Exactly the open findings of the signals outside rest are reported as interrupted. */
  ghost predicate Ends(signals: map<string, Signal>, rest: set<string>, out: seq<Report>) {
    forall x :: x in out <==>
      exists r :: r in signals && r !in rest && signals[r].finding.Some? && x == Interrupted(signals[r].finding.value)
  }

  lemma NothingEnded(signals: map<string, Signal>)
    ensures Ends(signals, signals.Keys, [])
  {
  }

  lemma OneEnded(signals: map<string, Signal>, rest: set<string>, out: seq<Report>, rule: string)
    requires rule in rest && rule in signals && Ends(signals, rest, out)
    ensures Ends(signals, rest - {rule},
      if signals[rule].finding.Some? then out + [Interrupted(signals[rule].finding.value)] else out)
  {
    var next := if signals[rule].finding.Some? then out + [Interrupted(signals[rule].finding.value)] else out;
    forall x ensures x in next <==>
      exists r :: r in signals && r !in rest - {rule} && signals[r].finding.Some?
        && x == Interrupted(signals[r].finding.value)
    {
      if x in out {
        var r :| r in signals && r !in rest && signals[r].finding.Some? && x == Interrupted(signals[r].finding.value);
        assert r !in rest - {rule};
      }
    }
  }

  class SourceState {
    var signals: map<string, Signal>
    var counters: map<string, Counter>
    var continuity: Option<seq<string>>
    var lastCollection: Option<string>
    var lastMono: Option<nat>
    var device: Option<string>
    var active: bool

    function View(): Source
      reads this
    {
      Source(signals, counters, continuity, lastCollection, lastMono, device, active)
    }

    constructor ()
      ensures View() == NEW
    {
      signals, counters, continuity, lastCollection, lastMono, device, active :=
        map[], map[], None, None, None, None, true;
    }

    /** Every open finding is reported as interrupted, and nothing else is. */
    method InterruptAll() returns (out: seq<Report>)
      modifies this`signals, this`counters, this`active
      ensures View() == Cut(old(View()))
      ensures Ends(old(signals), {}, out)
    {
      hide Ends;
      out := [];
      var rest := signals.Keys;
      ghost var start := View();
      NothingEnded(start.signals);
      while rest != {}
        invariant rest <= signals.Keys == start.signals.Keys
        invariant counters == start.counters && active == start.active
        invariant forall r :: r in signals ==>
          signals[r] == if r in rest then start.signals[r] else After(start.signals[r], Interrupt)
        invariant Ends(start.signals, rest, out)
        decreases |rest|
      {
        var rule :| rule in rest;
        var s := signals[rule];
        OneEnded(start.signals, rest, out, rule);
        if s.finding.Some? {
          out := out + [Interrupted(s.finding.value)];
        }
        signals := signals[rule := s.(finding := None, clear := 0, status := Unknown, usable := false)];
        rest := rest - {rule};
      }
      assert signals == Cut(start).signals;
      counters := map[];
      active := false;
    }

    method Apply(rule: string, bad: Option<bool>, id: string) returns (out: seq<Report>)
      modifies this`signals
      ensures signals == old(signals)[rule := After(SignalOf(old(signals), rule), Judge(bad, false, id))]
      ensures out == Emitted(SignalOf(old(signals), rule), Judge(bad, false, id))
    {
      var s := SignalOf(signals, rule);
      out := [];
      s := s.(usable := bad.Some?);
      if bad.None? {
        s := s.(clear := 0, status := Unknown);
      } else if bad.value {
        s := s.(clear := 0, status := Warned);
        if s.finding.None? {
          s := s.(finding := Some(id));
        }
        out := [Reported(s.finding.value)];
      } else if s.finding.Some? {
        s := s.(clear := s.clear + 1, status := Recovering);
        if s.clear >= REQUIRED_CLEAR {
          out := [Resolved(s.finding.value)];
          s := s.(finding := None, clear := 0, status := NoWarning);
        }
      } else {
        s := s.(status := NoWarning);
      }
      signals := signals[rule := s];
    }

    method ResetRule(rule: string) returns (out: seq<Report>)
      modifies this`signals
      ensures signals == if rule in old(signals) then old(signals)[rule := After(old(signals)[rule], Reset)]
        else old(signals)
      ensures out == Emitted(SignalOf(old(signals), rule), Reset)
    {
      out := [];
      if rule in signals {
        var s := signals[rule];
        if s.finding.Some? {
          out := [Interrupted(s.finding.value)];
          s := s.(finding := None);
        }
        signals := signals[rule := s.(clear := 0)];
      }
    }

    /** The reading replaces the stored one and is compared with it. */
    method Compare(rule: string, name: string, reading: Counter, falling: bool)
      returns (bad: Option<bool>, out: seq<Report>)
      modifies this`signals, this`counters
      ensures counters == old(counters)[name := reading]
      ensures var previous := CounterOf(old(counters), name);
        if previous.Some? && WentWrong(previous.value, reading, falling) then
          && bad.None? && out == Emitted(SignalOf(old(signals), rule), Reset)
          && signals == if rule in old(signals) then old(signals)[rule := After(old(signals)[rule], Reset)]
               else old(signals)
        else
          && out == [] && signals == old(signals)
          && bad == if previous.None? then None
                    else Some(if falling then reading.value < previous.value.value
                      else reading.value > previous.value.value)
    {
      out, bad := [], None;
      var previous := CounterOf(counters, name);
      counters := counters[name := reading];
      if previous.Some? {
        if previous.value.epoch != reading.epoch || (!falling && reading.value < previous.value.value) {
          out := ResetRule(rule);
        } else {
          var delta := if falling then previous.value.value - reading.value else reading.value - previous.value.value;
          bad := Some(delta > 0);
        }
      }
    }

    /** One counter rule. */
    method Count(rule: string, name: string, reading: Option<Counter>, falling: bool, id: string)
      returns (out: seq<Report>)
      modifies this`signals, this`counters
      ensures counters == if reading.Some? then old(counters)[name := reading.value] else old(counters)
      ensures var events := CounterEvents(CounterOf(old(counters), name), reading, falling, id);
        && signals == old(signals)[rule := Fold(SignalOf(old(signals), rule), events)]
        && out == Reports(SignalOf(old(signals), rule), events)
    {
      var bad: Option<bool> := None;
      out := [];
      FoldShort(SignalOf(signals, rule), CounterEvents(CounterOf(counters, name), reading, falling, id));
      hide Fold, Reports;
      if reading.Some? {
        bad, out := Compare(rule, name, reading.value, falling);
      }
      var more := Apply(rule, bad, id);
      out := out + more;
      if bad.None? && reading.Some? {
        signals := signals[rule := signals[rule].(status := Historical, usable := true)];
      }
    }

    /** One rule of a collection. */
    method JudgeRule(rule: Rule, collection: string) returns (out: seq<Report>)
      modifies this`signals, this`counters
      ensures Verdicts(signals, counters, out) == JudgeOne(Verdicts(old(signals), old(counters), []), rule, collection)
    {
      var id := rule.rule + ":" + collection;
      if rule.Direct? {
        FoldShort(SignalOf(signals, rule.rule), [Judge(rule.bad, false, id)]);
        out := Apply(rule.rule, rule.bad, id);
      } else {
        out := Count(rule.rule, rule.name, rule.reading, rule.falling, id);
      }
    }

    /** One collection: its order guards, its interruptions and its rules. */
    method Observe(o: Observation) returns (out: seq<Report>)
      modifies this
      ensures View() == Observed(old(View()), o)
      ensures Repeats(old(View()), o) ==> out == []
      ensures !Repeats(old(View()), o) ==>
        var ready := Ready(old(View()), o);
        var judged := JudgeAll(Verdicts(ready.signals, ready.counters, []), Eligible(o), o.collection).out;
        && |judged| <= |out| && out[|out| - |judged|..] == judged
        && (!Changed(old(View()), o) && !OtherDevice(old(View()), o) ==> out == judged)
    {
      hide JudgeAll, Cut, Ends, Fresh, Eligible;
      out := [];
      var changed := continuity.Some? && continuity.value != o.continuity;
      if !changed && (lastCollection == Some(o.collection) || (lastMono.Some? && o.mono <= lastMono.value)) {
        return;
      }
      if changed {
        out := InterruptAll();
      }
      var more := MeetDevice(o);
      out := out + more;
      more := JudgeRules(Eligible(o), o.collection);
      out := out + more;
      continuity, lastCollection, lastMono, active := Some(o.continuity), Some(o.collection), Some(o.mono), true;
    }

    /** Whether the collection is evidence at all, and about the same device. */
    method MeetDevice(o: Observation) returns (out: seq<Report>)
      modifies this
      ensures View() == (if OtherDevice(old(View()), o) then Cut(old(View())) else old(View())).(
        device := if Fresh(o) && o.media then DeviceOf(o) else old(device))
      ensures if OtherDevice(old(View()), o) then Ends(old(signals), {}, out) else out == []
    {
      hide Cut, Ends;
      out := [];
      var current := Timely(o);
      if current && o.media {
        if o.identities.Several? {
          current := false;
        }
        var identity := if o.identities.One? then Some(o.identities.id) else None;
        if current && lastCollection.Some? && device != identity {
          out := InterruptAll();
        }
        if current {
          device := identity;
        }
      }
    }

    /** The rules of one collection. */
    method JudgeRules(rules: seq<Rule>, collection: string) returns (out: seq<Report>)
      modifies this`signals, this`counters
      ensures Verdicts(signals, counters, out) == JudgeAll(Verdicts(old(signals), old(counters), []), rules, collection)
    {
      out := [];
      ghost var start := Verdicts(signals, counters, []);
      for i := 0 to |rules|
        invariant Verdicts(signals, counters, out) == JudgeAll(start, rules[..i], collection)
      {
        JudgeOneMore(start, rules, i, collection);
        JudgeAdds(Verdicts(signals, counters, out), rules[i], collection);
        var more := JudgeRule(rules[i], collection);
        out := out + more;
      }
      assert rules[..|rules|] == rules;
      assert Verdicts(signals, counters, out) == JudgeAll(start, rules, collection);
    }
  }

  lemma JudgeOneMore(v: Verdicts, rules: seq<Rule>, i: nat, collection: string)
    requires i < |rules|
    ensures JudgeAll(v, rules[..i + 1], collection) ==
      JudgeOne(JudgeAll(v, rules[..i], collection), rules[i], collection)
  {
    assert rules[..i + 1][..i] == rules[..i];
  }

  lemma JudgeAdds(v: Verdicts, rule: Rule, collection: string)
    ensures var one := JudgeOne(v.(out := []), rule, collection);
      JudgeOne(v, rule, collection) == one.(out := v.out + one.out)
  {
  }

  lemma FoldShort(s: Signal, events: seq<Event>)
    requires 1 <= |events| <= 2
    ensures Fold(s, events) == if |events| == 1 then After(s, events[0]) else After(After(s, events[0]), events[1])
    ensures Reports(s, events) == if |events| == 1 then Emitted(s, events[0])
      else Emitted(s, events[0]) + Emitted(After(s, events[0]), events[1])
  {
    assert events[..0] == [];
    if |events| == 2 {
      assert events[..1][..0] == [] && events[..1][0] == events[0];
      assert Fold(s, events[..1]) == After(Fold(s, []), events[0]);
      assert Reports(s, events[..1]) == Reports(s, []) + Emitted(Fold(s, []), events[0]);
    }
  }

  // ---- Rules do not disturb each other ----

  predicate Distinct(rules: seq<Rule>) {
    && (forall i, j :: 0 <= i < j < |rules| ==> rules[i].rule != rules[j].rule)
    && (forall i, j :: 0 <= i < j < |rules| && rules[i].Counting? && rules[j].Counting? ==>
         rules[i].name != rules[j].name)
  }

  lemma EligibleDistinct(o: Observation)
    requires Distinct(o.rules)
    ensures Distinct(Eligible(o))
  {
  }

  lemma {:induction false} CounterUntouched(v: Verdicts, rules: seq<Rule>, collection: string, name: string)
    requires forall i :: 0 <= i < |rules| && rules[i].Counting? ==> rules[i].name != name
    ensures CounterOf(JudgeAll(v, rules, collection).counters, name) == CounterOf(v.counters, name)
  {
    if rules != [] {
      CounterUntouched(v, rules[..|rules| - 1], collection, name);
    }
  }

  lemma {:induction false} SignalUntouched(v: Verdicts, rules: seq<Rule>, collection: string, rule: string)
    requires forall i :: 0 <= i < |rules| ==> rules[i].rule != rule
    ensures SignalOf(JudgeAll(v, rules, collection).signals, rule) == SignalOf(v.signals, rule)
  {
    if rules != [] {
      SignalUntouched(v, rules[..|rules| - 1], collection, rule);
    }
  }

  /** Whatever its place among the rules, each is judged exactly once, on the reading and the counter from
      before the collection. */
  lemma {:induction false} JudgedOnItsOwn(v: Verdicts, rules: seq<Rule>, collection: string, i: nat)
    requires Distinct(rules) && i < |rules|
    ensures SignalOf(JudgeAll(v, rules, collection).signals, rules[i].rule)
      == Fold(SignalOf(v.signals, rules[i].rule), Events(v.counters, rules[i], collection))
    decreases |rules|
  {
    hide Fold, Reports;
    var front, last := rules[..|rules| - 1], rules[|rules| - 1];
    if i < |front| {
      JudgedOnItsOwn(v, front, collection, i);
    } else {
      SignalUntouched(v, front, collection, last.rule);
      if last.Counting? {
        CounterUntouched(v, front, collection, last.name);
      }
    }
  }

  // ---- Runs of a source ----

  function SourceAt(run: seq<Observation>, n: nat): Source
    requires n <= |run|
    decreases n
  {
    if n == 0 then NEW else Observed(SourceAt(run, n - 1), run[n - 1])
  }

  function Judgements(counters: map<string, Counter>, rules: seq<Rule>, collection: string, rule: string): seq<Event> {
    if rules == [] then [] else
      Judgements(counters, rules[..|rules| - 1], collection, rule)
      + if rules[|rules| - 1].rule == rule then Events(counters, rules[|rules| - 1], collection) else []
  }

  function Interruptions(s: Source, o: Observation): seq<Event> {
    (if Changed(s, o) then [Interrupt] else []) + (if OtherDevice(s, o) then [Interrupt] else [])
  }

  /** Everything that happened to one rule in the first n collections. */
  function History(run: seq<Observation>, n: nat, rule: string): seq<Event>
    requires n <= |run|
    decreases n
  {
    if n == 0 then [] else
      var s, o := SourceAt(run, n - 1), run[n - 1];
      History(run, n - 1, rule)
        + if Repeats(s, o) then []
          else Interruptions(s, o) + Judgements(Ready(s, o).counters, Eligible(o), o.collection, rule)
  }

  lemma {:induction false} FoldAppend(s: Signal, a: seq<Event>, b: seq<Event>)
    ensures Fold(s, a + b) == Fold(Fold(s, a), b)
  {
    if b == [] {
      assert a + b == a;
    } else {
      FoldAppend(s, a, b[..|b| - 1]);
      assert (a + b)[..|a + b| - 1] == a + b[..|b| - 1];
    }
  }

  lemma {:induction false} JudgedAs(v: Verdicts, rules: seq<Rule>, collection: string, rule: string)
    requires Distinct(rules)
    ensures SignalOf(JudgeAll(v, rules, collection).signals, rule)
      == Fold(SignalOf(v.signals, rule), Judgements(v.counters, rules, collection, rule))
  {
    if rules != [] {
      var front, last := rules[..|rules| - 1], rules[|rules| - 1];
      JudgedAs(v, front, collection, rule);
      FoldAppend(SignalOf(v.signals, rule), Judgements(v.counters, front, collection, rule),
        if last.rule == rule then Events(v.counters, last, collection) else []);
      if last.Counting? {
        CounterUntouched(v, front, collection, last.name);
      }
    }
  }

  lemma ReadyAs(s: Source, o: Observation, rule: string)
    ensures SignalOf(Ready(s, o).signals, rule) == Fold(SignalOf(s.signals, rule), Interruptions(s, o))
  {
    if Interruptions(s, o) != [] {
      FoldShort(SignalOf(s.signals, rule), Interruptions(s, o));
    }
  }

  lemma {:induction false} AtIsFold(run: seq<Event>, n: nat)
    requires n <= |run|
    ensures At(run, n) == Fold(NO_SIGNAL, run[..n])
    decreases n
  {
    if n > 0 {
      AtIsFold(run, n - 1);
      assert run[..n][..n - 1] == run[..n - 1];
    }
  }

  lemma ObservedAs(s: Source, o: Observation, rule: string)
    requires Distinct(o.rules) && !Repeats(s, o)
    ensures SignalOf(Observed(s, o).signals, rule)
      == Fold(SignalOf(s.signals, rule),
        Interruptions(s, o) + Judgements(Ready(s, o).counters, Eligible(o), o.collection, rule))
  {
    hide Fold, JudgeAll, Judgements, Interruptions, Ready;
    var ready := Ready(s, o);
    ReadyAs(s, o, rule);
    EligibleDistinct(o);
    JudgedAs(Verdicts(ready.signals, ready.counters, []), Eligible(o), o.collection, rule);
    FoldAppend(SignalOf(s.signals, rule), Interruptions(s, o),
      Judgements(ready.counters, Eligible(o), o.collection, rule));
  }

  /** In every run of collections each signal is what its own history makes of it: what is proved of one
      rule over any run of events holds of every rule of every source. */
  lemma {:induction false} SignalFollowsItsHistory(run: seq<Observation>, n: nat, rule: string)
    requires n <= |run| && forall i :: 0 <= i < n ==> Distinct(run[i].rules)
    ensures SignalOf(SourceAt(run, n).signals, rule) == At(History(run, n, rule), |History(run, n, rule)|)
    decreases n
  {
    hide At, Fold, Observed, Judgements, Interruptions, Ready, Repeats, Distinct;
    var h := History(run, n, rule);
    AtIsFold(h, |h|);
    assert h[..|h|] == h;
    if n == 0 {
      FoldNothing();
    } else {
      var before := History(run, n - 1, rule);
      SignalFollowsItsHistory(run, n - 1, rule);
      AtIsFold(before, |before|);
      assert before[..|before|] == before;
      var s, o := SourceAt(run, n - 1), run[n - 1];
      if Repeats(s, o) {
        RepeatsKeep(s, o);
        assert h == before;
      } else {
        ObservedAs(s, o, rule);
        FoldAppend(NO_SIGNAL, before,
          Interruptions(s, o) + Judgements(Ready(s, o).counters, Eligible(o), o.collection, rule));
      }
    }
  }

  lemma FoldNothing()
    ensures Fold(NO_SIGNAL, []) == NO_SIGNAL
  {
  }

  lemma RepeatsKeep(s: Source, o: Observation)
    requires Repeats(s, o)
    ensures Observed(s, o) == s
  {
  }

  // ---- What a counter is compared with ----

  predicate Processed(run: seq<Observation>, k: nat)
    requires k < |run|
  {
    !Repeats(SourceAt(run, k), run[k])
  }

  predicate Interrupting(run: seq<Observation>, k: nat)
    requires k < |run|
  {
    Changed(SourceAt(run, k), run[k]) || OtherDevice(SourceAt(run, k), run[k])
  }

  predicate IsReading(r: Rule, name: string) {
    r.Counting? && r.name == name && r.reading.Some?
  }

  predicate Reads(rules: seq<Rule>, name: string, c: Counter) {
    exists i :: 0 <= i < |rules| && IsReading(rules[i], name) && rules[i].reading.value == c
  }

  predicate NoReading(rules: seq<Rule>, name: string) {
    forall i :: 0 <= i < |rules| ==> !IsReading(rules[i], name)
  }

  /** Collection m is the last before n that read the counter, and the source was not interrupted since. */
  predicate LastRead(run: seq<Observation>, m: nat, n: nat, name: string, c: Counter)
    requires n <= |run|
  {
    && m < n && Processed(run, m) && Reads(Eligible(run[m]), name, c)
    && forall k :: m < k < n && Processed(run, k) ==> !Interrupting(run, k) && NoReading(Eligible(run[k]), name)
  }

  ghost predicate WasRead(run: seq<Observation>, n: nat, name: string, c: Counter)
    requires n <= |run|
  {
    exists m: nat :: LastRead(run, m, n, name, c)
  }

  lemma {:induction false} CounterAfter(v: Verdicts, rules: seq<Rule>, collection: string, name: string)
    requires Distinct(rules)
    ensures NoReading(rules, name) ==>
      CounterOf(JudgeAll(v, rules, collection).counters, name) == CounterOf(v.counters, name)
    ensures forall c :: Reads(rules, name, c) ==> CounterOf(JudgeAll(v, rules, collection).counters, name) == Some(c)
  {
    hide Fold, Reports, Events;
    if rules != [] {
      var front, last := rules[..|rules| - 1], rules[|rules| - 1];
      CounterAfter(v, front, collection, name);
      forall c | Reads(rules, name, c) ensures CounterOf(JudgeAll(v, rules, collection).counters, name) == Some(c) {
        var i :| 0 <= i < |rules| && IsReading(rules[i], name) && rules[i].reading.value == c;
        if i < |front| {
          assert front[i] == rules[i] && Reads(front, name, c);
        }
      }
    }
  }

  lemma ReadsOrNot(rules: seq<Rule>, name: string)
    ensures NoReading(rules, name) || exists c :: Reads(rules, name, c)
  {
    if i :| 0 <= i < |rules| && IsReading(rules[i], name) {
      assert Reads(rules, name, rules[i].reading.value);
    }
  }

  /** One collection: the counter is what it read, or what it was unless the source was interrupted. */
  lemma CounterStep(run: seq<Observation>, n: nat, name: string)
    requires n < |run| && Distinct(run[n].rules)
    ensures var before, after :=
      CounterOf(SourceAt(run, n).counters, name), CounterOf(SourceAt(run, n + 1).counters, name);
      if !Processed(run, n) then after == before
      else && (NoReading(Eligible(run[n]), name) ==> after == if Interrupting(run, n) then None else before)
           && (forall c :: Reads(Eligible(run[n]), name, c) ==> after == Some(c))
  {
    var s, o := SourceAt(run, n), run[n];
    if Processed(run, n) {
      var ready := Ready(s, o);
      EligibleDistinct(o);
      CounterAfter(Verdicts(ready.signals, ready.counters, []), Eligible(o), o.collection, name);
      hide JudgeAll, Eligible, Reads, NoReading, Distinct;
    }
  }

  /** In every run the stored counter is the last reading since the last interruption. */
  lemma {:induction false} CounterIsLastRead(run: seq<Observation>, n: nat, name: string, c: Counter)
    requires n <= |run| && forall i :: 0 <= i < n ==> Distinct(run[i].rules)
    ensures CounterOf(SourceAt(run, n).counters, name) == Some(c) <==> WasRead(run, n, name, c)
    decreases n
  {
    hide Processed, Interrupting, Eligible, Reads, NoReading, Distinct, Observed;
    if n > 0 {
      CounterIsLastRead(run, n - 1, name, c);
      CounterStep(run, n - 1, name);
      hide SourceAt;
      ReadsOrNot(Eligible(run[n - 1]), name);
      OneReading(Eligible(run[n - 1]), name);
      if m: nat :| LastRead(run, m, n, name, c) {
        if m < n - 1 {
          assert LastRead(run, m, n - 1, name, c);
        }
      }
      var before := n - 1;
      if m: nat :| LastRead(run, m, before, name, c) {
        if !Processed(run, n - 1) || (!Interrupting(run, n - 1) && NoReading(Eligible(run[n - 1]), name)) {
          assert LastRead(run, m, n, name, c);
        }
      }
      if Processed(run, n - 1) && Reads(Eligible(run[n - 1]), name, c) {
        assert LastRead(run, n - 1, n, name, c);
      }
    }
  }

  lemma OneReading(rules: seq<Rule>, name: string)
    ensures forall c :: Reads(rules, name, c) ==> !NoReading(rules, name)
  {
  }

  predicate Concern(report: Report) {
    report.Reported?
  }

  /** The reports of one rule in collection n. */
  function RuleReports(run: seq<Observation>, n: nat, i: nat): seq<Report>
    requires n < |run| && i < |Eligible(run[n])|
  {
    var ready, rule := Ready(SourceAt(run, n), run[n]), Eligible(run[n])[i];
    Reports(SignalOf(ready.signals, rule.rule), Events(ready.counters, rule, run[n].collection))
  }

  function AllReports(v: Verdicts, rules: seq<Rule>, collection: string): seq<Report> {
    if rules == [] then [] else
      AllReports(v, rules[..|rules| - 1], collection)
      + Reports(SignalOf(v.signals, rules[|rules| - 1].rule), Events(v.counters, rules[|rules| - 1], collection))
  }

  /** What a collection reports is what its rules report one by one, each from the state before it. */
  lemma {:induction false} ReportsAreTheRules(v: Verdicts, rules: seq<Rule>, collection: string)
    requires Distinct(rules)
    ensures JudgeAll(v, rules, collection).out == v.out + AllReports(v, rules, collection)
  {
    hide Reports, Fold;
    if rules == [] {
      assert v.out + [] == v.out;
    } else {
      var front, last := rules[..|rules| - 1], rules[|rules| - 1];
      ReportsAreTheRules(v, front, collection);
      SignalUntouched(v, front, collection, last.rule);
      if last.Counting? {
        CounterUntouched(v, front, collection, last.name);
      }
      assert Events(JudgeAll(v, front, collection).counters, last, collection) == Events(v.counters, last, collection);
    }
  }

  predicate Worse(before: Counter, now: Counter, falling: bool) {
    if falling then now.value < before.value else now.value > before.value
  }

  lemma ConcernWhen(s: Signal, previous: Option<Counter>, reading: Option<Counter>, falling: bool, id: string)
    ensures (exists r :: r in Reports(s, CounterEvents(previous, reading, falling, id)) && Concern(r)) <==>
      previous.Some? && reading.Some? && previous.value.epoch == reading.value.epoch
        && Worse(previous.value, reading.value, falling)
  {
    var events := CounterEvents(previous, reading, falling, id);
    FoldShort(s, events);
    hide Fold, Reports;
    if events == [Judge(Some(true), false, id)] {
      var r := Emitted(s, events[0])[0];
      assert r in Reports(s, events) && Concern(r);
    }
  }

  lemma ReadyCounter(s: Source, o: Observation, name: string)
    ensures CounterOf(Ready(s, o).counters, name)
      == if Changed(s, o) || OtherDevice(s, o) then None else CounterOf(s.counters, name)
  {
  }

  /** In every run a counter rule reports a concern exactly when an earlier collection, the last that read
      the counter, left a reading of the same epoch from which the new one differs for the worse, and the
      source was not interrupted since.  What a counter showed when it was first read, or read again after
      an interruption or a reset, is history and never reported. */
  lemma ConcernNeedsChange(run: seq<Observation>, n: nat, i: nat)
    requires n < |run| && Processed(run, n) && i < |Eligible(run[n])| && Eligible(run[n])[i].Counting?
    requires forall k :: 0 <= k < n ==> Distinct(run[k].rules)
    ensures var rule := Eligible(run[n])[i];
      (exists r :: r in RuleReports(run, n, i) && Concern(r)) <==>
        && rule.reading.Some? && !Interrupting(run, n)
        && exists c :: WasRead(run, n, rule.name, c) && c.epoch == rule.reading.value.epoch
             && Worse(c, rule.reading.value, rule.falling)
  {
    var rule, s, o := Eligible(run[n])[i], SourceAt(run, n), run[n];
    ReadyCounter(s, o, rule.name);
    var previous := CounterOf(Ready(s, o).counters, rule.name);
    ConcernWhen(SignalOf(Ready(s, o).signals, rule.rule), previous, rule.reading, rule.falling,
      rule.rule + ":" + o.collection);
    hide SourceAt, Ready, Reports, Eligible, Distinct, WasRead, Concern, CounterEvents, Changed, OtherDevice;
    forall c ensures CounterOf(s.counters, rule.name) == Some(c) <==> WasRead(run, n, rule.name, c) {
      CounterIsLastRead(run, n, rule.name, c);
    }
  }
}
