/**
 Retrying deferred notifications: which intents are admitted when the outbox has little room.
 */
module AdmissionRetry {
  import Graph
  import opened Wrappers
  import opened Outbox
  import opened Attention
  import opened DeliveryInvariant

  /** A supply of UUIDs that are new and different from each other. */
  ghost predicate Supply(uuids: seq<Id>, drawn: set<Id>) {
    && (forall i :: 0 <= i < |uuids| ==> uuids[i] !in drawn)
    && (forall i, j :: 0 <= i < j < |uuids| ==> uuids[i] != uuids[j])
  }

  ghost predicate Snapshot(db: Db, ids: seq<Id>) {
    && (forall i :: 0 <= i < |ids| ==> ids[i] in db.episodes && PendingIntent(db.episodes[ids[i]]))
    && (forall i, j :: 0 <= i < j < |ids| ==> ids[i] != ids[j])
  }

  /** Still wanted: same settings, open, unacknowledged, not superseded and not expired. */
  predicate Wanted(s: Settings, e: Episode, now: int) {
    PendingIntent(e) && Stale(s, e).None? && !Expired(e, now)
  }

  /** What the head of the list does to the tables. */
  ghost function Head(db: Db, id: Id, now: int, row: Id): Admission
    requires id in db.episodes && PendingIntent(db.episodes[id])
  {
    var e := db.episodes[id];
    if Stale(db.settings, e).Some? then
      Admission(db.(episodes := CancelIntent(db.episodes, Some(id), Stale(db.settings, e).value, now)), true)
    else if Expired(e, now) then
      Admission(SetIntent(db, id,
        Some(e.intent.value.(state := IntentFailed, reason := "admission_expired", updatedAt := now))), true)
    else Admit(db, id, e.intent.value.revision, db.settings.revision, true, e.intent.value.createdAt, now, row)
  }

  /** The head leaves every other intent pending. */
  lemma HeadOthers(db: Db, id: Id, now: int, row: Id)
    requires id in db.episodes && PendingIntent(db.episodes[id])
    ensures forall j :: j in db.episodes && j != id ==>
      j in Head(db, id, now, row).db.episodes && Head(db, id, now, row).db.episodes[j] == db.episodes[j]
  {
    hide MakeRoom, HasRow;
  }

  lemma HeadSettings(db: Db, id: Id, now: int, row: Id)
    requires id in db.episodes && PendingIntent(db.episodes[id])
    ensures var a := Head(db, id, now, row).db;
      a.settings == db.settings.(admissionLimited := a.settings.admissionLimited)
  {
    hide MakeRoom, HasRow, Stale, Expired, NewRow, Deferred;
  }

  /** The head touches its own episode only and evicts nothing unfinished. */
  ghost predicate HeadFrame(db: Db, a: Admission, id: Id, row: Id) {
    && a.db.episodes.Keys == db.episodes.Keys
    && (forall j :: j in db.episodes && j != id ==> a.db.episodes[j] == db.episodes[j])
    && a.db.settings == db.settings.(admissionLimited := a.db.settings.admissionLimited)
    && db.drawn <= a.db.drawn <= db.drawn + {row}
    && ActiveKept(db.outbox, a.db.outbox)
  }

  ghost predicate ActiveKept(outbox: map<Id, Row>, outbox': map<Id, Row>) {
    forall r :: r in outbox && Active(outbox[r]) ==> r in outbox' && outbox'[r] == outbox[r]
  }

  /** Only a wanted head can stop the loop, and it does exactly when the outbox has no room. */
  ghost predicate HeadEffect(db: Db, a: Admission, id: Id, now: int, row: Id)
    requires id in db.episodes && PendingIntent(db.episodes[id]) && id in a.db.episodes
  {
    var e := db.episodes[id];
    if Wanted(db.settings, e, now) then
      && (a.admitted <==> |ActiveIds(db.outbox)| < MAX_OUTBOX)
      && (if a.admitted then
            && a.db.episodes[id].intent.None?
            && row in a.db.outbox
            && a.db.outbox[row] == NewRow(id, e.revision, db.settings.revision, true, e.intent.value.createdAt, now)
            && |ActiveIds(a.db.outbox)| == |ActiveIds(db.outbox)| + 1
          else
            && a.db.episodes[id].intent ==
                 Some(Deferred(e.revision, db.settings.revision, true, e.intent.value.createdAt, now)))
    else
      a.admitted && !PendingIntent(a.db.episodes[id]) && a.db.outbox == db.outbox
  }

  ghost predicate HeadStep(db: Db, a: Admission, id: Id, now: int, row: Id)
    requires id in db.episodes && PendingIntent(db.episodes[id])
  {
    HeadFrame(db, a, id, row) && HeadEffect(db, a, id, now, row)
  }

  lemma AdmittedActive(outbox: map<Id, Row>, row: Id, r: Row)
    requires row !in outbox && r.state.Queued?
    ensures var next := MakeRoom(outbox)[row := r];
      |ActiveIds(next)| == |ActiveIds(outbox)| + 1 && ActiveKept(outbox, next)
  {
    hide MakeRoom, ActiveIds;
    MakeRoomKeeps(outbox);
    DeferredActive(outbox);
    OneMoreActive(MakeRoom(outbox), row, r);
  }

  lemma OneMoreActive(outbox: map<Id, Row>, row: Id, r: Row)
    requires row !in outbox && r.state.Queued?
    ensures |ActiveIds(outbox[row := r])| == |ActiveIds(outbox)| + 1
  {
    assert ActiveIds(outbox[row := r]) == ActiveIds(outbox) + {row};
  }

  lemma DeferredActive(outbox: map<Id, Row>)
    ensures ActiveKept(outbox, MakeRoom(outbox))
  {
    MakeRoomKeeps(outbox);
    forall i | i in outbox && Active(outbox[i]) ensures i in MakeRoom(outbox) {
      assert i in ActiveIds(outbox);
    }
  }

  lemma WantedFacts(db: Db, id: Id, now: int, row: Id)
    requires DbOk(db, {}) && id in db.episodes && Wanted(db.settings, db.episodes[id], now) && row !in db.drawn
    ensures var e := db.episodes[id];
      && e.intent.value.revision == e.revision && e.revision in db.drawn && db.settings.revision in db.drawn
      && !Marked(e) && (id, e.revision) !in db.admitted && row !in db.outbox
  {
    assert EpisodeOk(db, id, {});
    assert row in db.outbox ==> RowOk(db, row);
  }

  lemma AdmitsHead(db: Db, a: Admission, id: Id, now: int, row: Id)
    requires id in db.episodes && Wanted(db.settings, db.episodes[id], now) && row !in db.outbox
    requires a.admitted <==> |ActiveIds(db.outbox)| < MAX_OUTBOX
    requires var e := db.episodes[id];
      Admits(db, a, id, NewRow(id, e.revision, db.settings.revision, true, e.intent.value.createdAt, now), row,
        Deferred(e.revision, db.settings.revision, true, e.intent.value.createdAt, now))
    ensures HeadStep(db, a, id, now, row)
  {
    hide MakeRoom, ActiveIds;
    if a.admitted {
      AdmittedActive(db.outbox, row, a.db.outbox[row]);
    } else {
      DeferredActive(db.outbox);
    }
  }

  lemma WantedHead(db: Db, id: Id, now: int, row: Id)
    requires DbOk(db, {}) && id in db.episodes && Wanted(db.settings, db.episodes[id], now) && row !in db.drawn
    ensures var a := Head(db, id, now, row);
      DbOk(a.db, {}) && Evolves(db, a.db) && HeadStep(db, a, id, now, row)
  {
    hide DbOk, Evolves, MakeRoom, ActiveIds, Admit, HeadStep;
    var e := db.episodes[id];
    WantedFacts(db, id, now, row);
    AdmitOk(db, id, e.revision, db.settings.revision, true, e.intent.value.createdAt, now, row);
    var a := Head(db, id, now, row);
    AdmitsHead(db, a, id, now, row);
    NoLongerExempt(a.db, id);
  }

  lemma ExpiredHead(db: Db, id: Id, now: int, row: Id)
    requires DbOk(db, {}) && id in db.episodes && PendingIntent(db.episodes[id])
    requires Stale(db.settings, db.episodes[id]).None? && Expired(db.episodes[id], now)
    ensures var a := Head(db, id, now, row);
      DbOk(a.db, {}) && Evolves(db, a.db) && HeadStep(db, a, id, now, row)
  {
    var e := db.episodes[id];
    var e' := e.(intent := Some(e.intent.value.(state := IntentFailed, reason := "admission_expired",
      updatedAt := now)));
    ExpiredSettled(db, id, e');
    hide DbOk, Evolves, ActiveIds, EpisodeOk, Settled, StartsWith;
    PutEpisodeOk(db, id, e', {});
    PutHeadStep(db, id, e', now, row);
    assert Head(db, id, now, row) == Admission(db.(episodes := db.episodes[id := e']), true);
    hide Head, HeadStep;
  }

  lemma PutHeadStep(db: Db, id: Id, e: Episode, now: int, row: Id)
    requires id in db.episodes && PendingIntent(db.episodes[id]) && !Wanted(db.settings, db.episodes[id], now)
    requires !PendingIntent(e)
    ensures HeadStep(db, Admission(db.(episodes := db.episodes[id := e]), true), id, now, row)
  {
  }

  lemma ExpiredSettled(db: Db, id: Id, e: Episode)
    requires DbOk(db, {}) && id in db.episodes && db.episodes[id].intent.Some?
    requires e == db.episodes[id].(intent := e.intent) && e.intent.Some? && e.intent.value.state.IntentFailed?
    requires e.intent.value.revision == db.episodes[id].intent.value.revision
    ensures Settled(db.(episodes := db.episodes[id := e]), id)
    ensures e.revision in db.drawn && e.intent.value.revision in db.drawn
    ensures e.marks.pending.Some? ==> StartsWith(e.sourceKey, DEVICE_PRESENCE)
  {
    assert EpisodeOk(db, id, {});
    hide OneOpenPerKey, RowsOk, HistoryOk, StartsWith;
  }

  lemma HeadOk(db: Db, id: Id, now: int, row: Id)
    requires DbOk(db, {}) && id in db.episodes && PendingIntent(db.episodes[id]) && row !in db.drawn
    ensures var a := Head(db, id, now, row);
      DbOk(a.db, {}) && Evolves(db, a.db) && HeadStep(db, a, id, now, row)
  {
    hide DbOk, Evolves, ActiveIds;
    var e := db.episodes[id];
    if Wanted(db.settings, e, now) {
      WantedHead(db, id, now, row);
    } else if Stale(db.settings, e).Some? {
      CancelOk(db, Some(id), Stale(db.settings, e).value, now, {});
    } else {
      ExpiredHead(db, id, now, row);
    }
  }

  lemma SnapshotTail(db: Db, ids: seq<Id>, a: Admission, now: int, row: Id)
    requires ids != [] && Snapshot(db, ids) && HeadStep(db, a, ids[0], now, row)
    ensures Snapshot(a.db, ids[1..])
    ensures forall j :: 0 < j < |ids| ==> ids[j] in a.db.episodes && a.db.episodes[ids[j]] == db.episodes[ids[j]]
  {
    forall j | 0 < j < |ids| ensures ids[j] in a.db.episodes && a.db.episodes[ids[j]] == db.episodes[ids[j]] {
      assert ids[0] != ids[j];
    }
    var tail := ids[1..];
    forall i | 0 <= i < |tail| ensures tail[i] in a.db.episodes && PendingIntent(a.db.episodes[tail[i]]) {
      assert tail[i] == ids[i + 1];
    }
  }

  lemma SupplyTail(uuids: seq<Id>, drawn: set<Id>, drawn': set<Id>)
    requires uuids != [] && Supply(uuids, drawn) && drawn' <= drawn + {uuids[0]}
    ensures Supply(uuids[1..], drawn')
  {
    forall i | 0 <= i < |uuids[1..]| ensures uuids[1..][i] !in drawn' {
      assert uuids[1..][i] == uuids[i + 1];
    }
  }

  /** RetryEach is the head followed by the same loop on the rest. */
  lemma RetryUnfolds(db: Db, ids: seq<Id>, now: int, uuids: seq<Id>)
    requires ids != [] && Snapshot(db, ids) && |uuids| >= |ids|
    requires HeadStep(db, Head(db, ids[0], now, uuids[0]), ids[0], now, uuids[0])
    ensures var a := Head(db, ids[0], now, uuids[0]);
      && Snapshot(a.db, ids[1..])
      && RetryEach(db, ids, now, uuids) == if a.admitted then RetryEach(a.db, ids[1..], now, uuids[1..]) else a.db
  {
    SnapshotTail(db, ids, Head(db, ids[0], now, uuids[0]), now, uuids[0]);
    hide MakeRoom, CancelIntent, Admit;
  }

  /** The loop touches the listed episodes only and evicts nothing unfinished. */
  ghost predicate RetryFrame(db: Db, db': Db, ids: seq<Id>) {
    && db'.settings == db.settings.(admissionLimited := db'.settings.admissionLimited)
    && db'.episodes.Keys == db.episodes.Keys
    && (forall j :: j in db.episodes && j !in ids ==> db'.episodes[j] == db.episodes[j])
    && ActiveKept(db.outbox, db'.outbox)
  }

  lemma RetryFrameExtends(db: Db, a: Admission, db': Db, ids: seq<Id>, row: Id)
    requires ids != [] && HeadFrame(db, a, ids[0], row) && RetryFrame(a.db, db', ids[1..])
    ensures RetryFrame(db, db', ids)
  {
    assert ids == [ids[0]] + ids[1..];
  }

  lemma RetryFrameStops(db: Db, a: Admission, ids: seq<Id>, row: Id)
    requires ids != [] && HeadFrame(db, a, ids[0], row)
    ensures RetryFrame(db, a.db, ids)
  {
  }

  lemma {:induction false} RetryEachOk(db: Db, ids: seq<Id>, now: int, uuids: seq<Id>)
    requires DbOk(db, {}) && Snapshot(db, ids) && |uuids| >= |ids| && Supply(uuids, db.drawn)
    ensures var db' := RetryEach(db, ids, now, uuids);
      DbOk(db', {}) && Evolves(db, db') && RetryFrame(db, db', ids)
    decreases |ids|
  {
    hide DbOk, Evolves, HeadFrame, HeadEffect, RetryFrame;
    if ids == [] {
      EvolvesItself(db);
      assert RetryFrame(db, db, []) by { NothingRetried(db); }
    } else {
      HeadOk(db, ids[0], now, uuids[0]);
      var a := Head(db, ids[0], now, uuids[0]);
      RetryUnfolds(db, ids, now, uuids);
      HeadDraws(db, a, ids[0], now, uuids[0]);
      SupplyTail(uuids, db.drawn, a.db.drawn);
      hide Head, RetryEach;
      if a.admitted {
        RetryEachOk(a.db, ids[1..], now, uuids[1..]);
        var db' := RetryEach(a.db, ids[1..], now, uuids[1..]);
        EvolvesTransitive(db, a.db, db', {});
        RetryFrameExtends(db, a, db', ids, uuids[0]);
      } else {
        RetryFrameStops(db, a, ids, uuids[0]);
      }
    }
  }

  lemma NothingRetried(db: Db)
    ensures RetryFrame(db, db, [])
  {
  }

  // ---- The longest feasible prefix ----

  /** How many wanted intents come before position i. */
  ghost function WantedBefore(db: Db, ids: seq<Id>, now: int, i: nat): nat
    requires i <= |ids| && Snapshot(db, ids)
  {
    if i == 0 then 0
    else WantedBefore(db, ids, now, i - 1) + if Wanted(db.settings, db.episodes[ids[i - 1]], now) then 1 else 0
  }

  lemma {:induction false} WantedBeforeTail(db: Db, ids: seq<Id>, a: Db, now: int, i: nat)
    requires 0 < i <= |ids| && Snapshot(db, ids) && Snapshot(a, ids[1..])
    requires a.settings == db.settings.(admissionLimited := a.settings.admissionLimited)
    requires forall j :: 0 < j < |ids| ==> ids[j] in a.episodes && a.episodes[ids[j]] == db.episodes[ids[j]]
    ensures WantedBefore(db, ids, now, i)
      == WantedBefore(a, ids[1..], now, i - 1) + if Wanted(db.settings, db.episodes[ids[0]], now) then 1 else 0
    decreases i
  {
    if i > 1 {
      WantedBeforeTail(db, ids, a, now, i - 1);
      assert ids[1..][i - 2] == ids[i - 1];
    }
  }

  /** The state of the i-th intent after a retry, given the room there was before it. */
  ghost predicate Outcome(db: Db, db': Db, id: Id, now: int, room: int, before: nat)
    requires id in db.episodes && PendingIntent(db.episodes[id])
  {
    var e := db.episodes[id];
    && id in db'.episodes
    && (if before < room then
          if Wanted(db.settings, e, now) then
            && db'.episodes[id].intent.None?
            && (exists r :: r in db'.outbox && r !in db.drawn
                  && db'.outbox[r] == NewRow(id, e.revision, db.settings.revision, true, e.intent.value.createdAt, now))
          else !PendingIntent(db'.episodes[id])
        else Wanted(db.settings, e, now) ==>
          && PendingIntent(db'.episodes[id])
          && db'.episodes[id].intent.value.revision == e.intent.value.revision
          && db'.episodes[id].intent.value.createdAt == e.intent.value.createdAt)
  }

  /** The first intent is settled by the head and left alone by the rest of the loop. */
  lemma FirstOutcome(db: Db, ids: seq<Id>, now: int, uuids: seq<Id>)
    requires DbOk(db, {}) && Snapshot(db, ids) && |uuids| >= |ids| && Supply(uuids, db.drawn) && ids != []
    ensures Outcome(db, RetryEach(db, ids, now, uuids), ids[0], now, MAX_OUTBOX - |ActiveIds(db.outbox)|, 0)
  {
    hide DbOk, Evolves, ActiveIds;
    Full(db);
    HeadOk(db, ids[0], now, uuids[0]);
    var a := Head(db, ids[0], now, uuids[0]);
    RetryUnfolds(db, ids, now, uuids);
    SupplyTail(uuids, db.drawn, a.db.drawn);
    hide Head, RetryEach;
    if a.admitted {
      RetryEachOk(a.db, ids[1..], now, uuids[1..]);
      NotInTail(ids);
      var db' := RetryEach(a.db, ids[1..], now, uuids[1..]);
      assert db'.episodes[ids[0]] == a.db.episodes[ids[0]];
      if Wanted(db.settings, db.episodes[ids[0]], now) {
        assert Active(a.db.outbox[uuids[0]]);
        assert db'.outbox[uuids[0]] == a.db.outbox[uuids[0]];
      }
    }
  }

  /** Moving from the tables after the head back to the tables before it. */
  lemma OutcomeBack(db: Db, a: Db, db': Db, id: Id, now: int, room: int, before: nat, taken: nat)
    requires id in db.episodes && PendingIntent(db.episodes[id]) && id in a.episodes
      && a.episodes[id] == db.episodes[id]
    requires a.settings == db.settings.(admissionLimited := a.settings.admissionLimited) && db.drawn <= a.drawn
    requires Outcome(a, db', id, now, room - taken, before)
    ensures Outcome(db, db', id, now, room, before + taken)
  {
  }

  lemma StoppedOutcome(db: Db, a: Db, id: Id, now: int, before: nat)
    requires id in db.episodes && PendingIntent(db.episodes[id]) && id in a.episodes
      && a.episodes[id] == db.episodes[id]
    ensures Outcome(db, a, id, now, 0, before)
  {
  }

  /** The outcome after the rest of the loop is the outcome of the whole loop. */
  lemma LaterOutcome(db: Db, ids: seq<Id>, now: int, i: nat, a: Admission, row: Id, db': Db)
    requires 0 < i < |ids| && Snapshot(db, ids) && DbOk(db, {}) && HeadStep(db, a, ids[0], now, row)
    requires Snapshot(a.db, ids[1..])
    requires if a.admitted then
        Outcome(a.db, db', ids[i], now, MAX_OUTBOX - |ActiveIds(a.db.outbox)|, WantedBefore(a.db, ids[1..], now, i - 1))
      else db' == a.db
    ensures Outcome(db, db', ids[i], now, MAX_OUTBOX - |ActiveIds(db.outbox)|, WantedBefore(db, ids, now, i))
  {
    hide DbOk, ActiveIds, Outcome, HeadStep, HeadEffect;
    HeadRoom(db, a, ids[0], now, row);
    SnapshotTail(db, ids, a, now, row);
    WantedBeforeTail(db, ids, a.db, now, i);
    hide WantedBefore, Wanted, Snapshot;
    if a.admitted {
      OutcomeBack(db, a.db, db', ids[i], now, MAX_OUTBOX - |ActiveIds(db.outbox)|,
        WantedBefore(a.db, ids[1..], now, i - 1),
        if Wanted(db.settings, db.episodes[ids[0]], now) then 1 else 0);
    } else {
      StoppedOutcome(db, a.db, ids[i], now, WantedBefore(db, ids, now, i));
    }
  }

  /** A retry admits exactly the longest prefix of still wanted intents, in (created_at, id) order,
      for which there is room: an intent with fewer than 1000 - (unfinished rows) wanted ones before
      it gets a queued row that keeps its creation time, and every later wanted intent stays pending
      with its creation time. */
  lemma {:induction false} RetryAdmitsLongestPrefix(db: Db, ids: seq<Id>, now: int, uuids: seq<Id>, i: nat)
    requires DbOk(db, {}) && Snapshot(db, ids) && |uuids| >= |ids| && Supply(uuids, db.drawn) && i < |ids|
    ensures Outcome(db, RetryEach(db, ids, now, uuids), ids[i], now,
      MAX_OUTBOX - |ActiveIds(db.outbox)|, WantedBefore(db, ids, now, i))
    decreases |ids|
  {
    hide DbOk, Evolves, ActiveIds, Outcome, HeadStep, WantedBefore, RetryEach;
    if i == 0 {
      FirstOutcome(db, ids, now, uuids);
      assert WantedBefore(db, ids, now, 0) == 0 by { NoneBefore(db, ids, now); }
    } else {
      HeadOk(db, ids[0], now, uuids[0]);
      var a := Head(db, ids[0], now, uuids[0]);
      RetryUnfolds(db, ids, now, uuids);
      HeadDraws(db, a, ids[0], now, uuids[0]);
      SupplyTail(uuids, db.drawn, a.db.drawn);
      hide Head;
      if a.admitted {
        RetryAdmitsLongestPrefix(a.db, ids[1..], now, uuids[1..], i - 1);
      }
      LaterOutcome(db, ids, now, i, a, uuids[0], RetryEach(db, ids, now, uuids));
    }
  }

  lemma NoneBefore(db: Db, ids: seq<Id>, now: int)
    requires Snapshot(db, ids)
    ensures WantedBefore(db, ids, now, 0) == 0
  {
  }

  lemma HeadDraws(db: Db, a: Admission, id: Id, now: int, row: Id)
    requires id in db.episodes && PendingIntent(db.episodes[id]) && HeadStep(db, a, id, now, row)
    ensures a.db.drawn <= db.drawn + {row}
  {
  }

  /** The room left after the head. */
  lemma HeadRoom(db: Db, a: Admission, id: Id, now: int, row: Id)
    requires DbOk(db, {}) && id in db.episodes && PendingIntent(db.episodes[id]) && HeadStep(db, a, id, now, row)
    ensures HeadFrame(db, a, id, row)
    ensures a.admitted ==>
      |ActiveIds(a.db.outbox)| == |ActiveIds(db.outbox)| + if Wanted(db.settings, db.episodes[id], now) then 1 else 0
    ensures !a.admitted ==> |ActiveIds(db.outbox)| == MAX_OUTBOX
  {
    Full(db);
    hide DbOk, HeadFrame, ActiveIds;
  }

  lemma Full(db: Db)
    requires DbOk(db, {})
    ensures |ActiveIds(db.outbox)| <= MAX_OUTBOX
  {
    CapacityIsActiveRows(db.outbox);
  }

  lemma NotInTail(ids: seq<Id>)
    requires ids != [] && forall i, j :: 0 <= i < j < |ids| ==> ids[i] != ids[j]
    ensures ids[0] !in ids[1..]
  {
    forall k | 0 <= k < |ids[1..]| ensures ids[1..][k] != ids[0] {
      assert ids[1..][k] == ids[k + 1];
    }
  }

  /** With at most 10 000 episodes the selection limit of 10 000 never cuts a pending intent off. */
  lemma SelectionIsComplete(db: Db)
    requires |db.episodes| <= MAX_EPISODES
    ensures Selected(db) == InOrder(PendingTimes(db.episodes))
    ensures forall id :: id in Selected(db) <==> id in db.episodes && PendingIntent(db.episodes[id])
  {
    var at := PendingTimes(db.episodes);
    InOrderKeys(at);
    assert at.Keys <= db.episodes.Keys;
    Graph.SubsetSize(at.Keys, db.episodes.Keys);
    assert |at| == |at.Keys|;
  }

  lemma RetryPendingOk(db: Db, now: int, uuids: seq<Id>)
    requires DbOk(db, {}) && |uuids| >= |Selected(db)| && Supply(uuids, db.drawn)
    ensures var db' := RetryPending(db, now, uuids);
      && DbOk(db', {}) && Evolves(db, db')
      && db'.settings == db.settings.(admissionLimited := db'.settings.admissionLimited)
      && ActiveKept(db.outbox, db'.outbox)
  {
    hide DbOk, Evolves, RetryEach, Selected, ActiveKept, Supply;
    SelectedPending(db);
    RetryEachOk(db, Selected(db), now, uuids);
    var each := RetryEach(db, Selected(db), now, uuids);
    RowsAndEpisodes(each, {});
    hide RowsOk, EpisodesOk;
    SettingsOk(each, each.settings.(admissionLimited := true), {});
    EvolvesTransitive(db, each, each.(settings := each.settings.(admissionLimited := true)), {});
  }
}
