/**
 How the readings of a collection find their series (server/src/cider_api.rs:213-239 and 556-703).  The
 name of a series depends on the freshness of the reading: a live reading of most fields is stored under
 another name than a failed attempt at the same field.  So a failure does not always interrupt the
 series whose rate it ought to interrupt; when it does not is stated and proved here.
 */
module MetricRouting {
  import opened Wrappers
  import opened RetainedReading

  /** One field of a collection: number is the unsigned value, if the text denotes one. */
  datatype Metric = Metric(
    name: string, labels: string, counter: bool, epoch: Option<string>, available: bool,
    freshness: Option<string>, text: string, number: Option<nat>)

  /** One attempt of a collector at a resource.  A failed one may list its fields as unavailable, or none. */
  datatype Collection = Collection(
    resource: string, collector: string, clock: string, mono: nat, observedAt: int, boot: string,
    generation: int, staleAfter: nat, metrics: seq<Metric>)

  datatype SeriesKey = SeriesKey(resource: string, collector: string, name: string, labels: string)

  type Tables = map<SeriesKey, Series>

  // ---- Names ----

  /** A catalogue name: storage.*, or cider.* for the one derived field. */
  predicate Qualified(name: string) {
    (|name| > 7 && name[7] == '.') || (|name| > 5 && name[5] == '.')
  }

  function DeviceRetryAlias(name: string): (alias: Option<string>)
    ensures alias.Some? ==> !Qualified(alias.value)
  {
    if name == "storage.device.read_retries_total" then Some("device_read_retries_total")
    else if name == "storage.device.write_retries_total" then Some("device_write_retries_total")
    else if name == "storage.device.read_accounted_time_nanoseconds_total" then Some("device_read_time_ns_total")
    else if name == "storage.device.write_accounted_time_nanoseconds_total" then Some("device_write_time_ns_total")
    else None
  }

  function DeviceAlias(name: string): (alias: Option<string>)
    ensures alias.Some? ==> !Qualified(alias.value)
  {
    if name == "storage.device.read_bytes_total" then Some("device_read_bytes_total")
    else if name == "storage.device.write_bytes_total" then Some("device_write_bytes_total")
    else if name == "storage.device.read_operations_total" then Some("device_read_ops_total")
    else if name == "storage.device.write_operations_total" then Some("device_write_ops_total")
    else if name == "storage.device.read_errors_total" then Some("device_read_errors_total")
    else if name == "storage.device.write_errors_total" then Some("device_write_errors_total")
    else None
  }

  function AtaAlias(name: string): (alias: Option<string>)
    ensures alias.Some? ==> !Qualified(alias.value)
  {
    if name == "storage.ata.reallocated_sectors" then Some("ata_reallocated_sectors")
    else if name == "storage.ata.current_pending_sectors" then Some("ata_current_pending_sectors")
    else if name == "storage.ata.offline_uncorrectable_sectors" then Some("ata_offline_uncorrectable_sectors")
    else None
  }

  function NvmeAlias(name: string): (alias: Option<string>)
    ensures alias.Some? ==> !Qualified(alias.value)
  {
    if name == "storage.nvme.media_errors_total" then Some("nvme_media_errors_total")
    else if name == "storage.nvme.critical_warning_bits" then Some("nvme_critical_warning")
    else if name == "storage.nvme.available_spare_percent" then Some("nvme_available_spare_percent")
    else if name == "storage.nvme.endurance_used_percent" then Some("nvme_percentage_used")
    else None
  }

  function MediaAlias(name: string): (alias: Option<string>)
    ensures alias.Some? ==> !Qualified(alias.value)
  {
    if name == "storage.media.smart_passed" then Some("smart_healthy")
    else if name == "storage.media.temperature_celsius" then Some("device_temperature_celsius")
    else None
  }

  function UsedAlias(name: string): (alias: Option<string>)
    ensures alias.Some? ==> !Qualified(alias.value)
  {
    if name == "storage.filesystem.block_accounted_used_bytes" || name == "storage.apfs.volume_used_bytes"
      || name == "cider.apfs.container_used_bytes" || name == "orchard.apfs.container_used_bytes" then
           Some("used_bytes")
    else None
  }

  function FilesystemAlias(name: string): (alias: Option<string>)
    ensures alias.Some? ==> !Qualified(alias.value)
  {
    if name == "storage.filesystem.total_bytes" || name == "storage.apfs.container_capacity_bytes" then
      Some("capacity_bytes")
    else if name == "storage.filesystem.free_bytes" || name == "storage.apfs.container_free_bytes" then
      Some("free_bytes")
    else if name == "storage.filesystem.available_bytes" then Some("available_bytes")
    else FilesAlias(name)
  }

  function FilesAlias(name: string): (alias: Option<string>)
    ensures alias.Some? ==> !Qualified(alias.value)
  {
    if name == "storage.filesystem.reported_files" then Some("files_total")
    else if name == "storage.filesystem.reported_free_files" then Some("files_free")
    else None
  }

  function ApfsAlias(name: string): (alias: Option<string>)
    ensures alias.Some? ==> !Qualified(alias.value)
  {
    if name == "storage.apfs.volume_quota_bytes" then Some("apfs_quota_bytes")
    else if name == "storage.apfs.volume_reserve_bytes" then Some("apfs_reserve_bytes")
    else if name == "storage.apfs.purgeable_bytes" then Some("apfs_purgeable_bytes")
    else if name == "storage.apfs.snapshot_count" then Some("snapshot_count")
    else None
  }

  function NfsAlias(name: string): (alias: Option<string>)
    ensures alias.Some? ==> !Qualified(alias.value)
  {
    if name == "storage.nfs.client.operations_total" then Some("nfs_operations_total")
    else if name == "storage.nfs.client.rpc_timeouts_total" then Some("nfs_rpc_timeouts_total")
    else if name == "storage.nfs.client.rpc_retries_total" then Some("nfs_retransmissions_total")
    else None
  }

  function QuotaGraceAlias(name: string): (alias: Option<string>)
    ensures alias.Some? ==> !Qualified(alias.value)
  {
    if name == "storage.nfs.quota.block_grace_seconds_raw" then Some("nfs_quota_block_grace_seconds_raw")
    else if name == "storage.nfs.quota.inode_grace_seconds_raw" then Some("nfs_quota_inode_grace_seconds_raw")
    else if name == "storage.nfs.quota.block_size_bytes" then Some("nfs_quota_block_size_bytes")
    else None
  }

  function QuotaAlias(name: string): (alias: Option<string>)
    ensures alias.Some? ==> !Qualified(alias.value)
  {
    if name == "storage.nfs.quota.status" then Some("nfs_quota_status")
    else if name == "storage.nfs.quota.active" then Some("nfs_quota_active")
    else if name == "storage.nfs.quota.used_bytes" then Some("nfs_quota_used_bytes")
    else if name == "storage.nfs.quota.block_soft_limit_bytes" then Some("nfs_quota_block_soft_limit_bytes")
    else if name == "storage.nfs.quota.block_hard_limit_bytes" then Some("nfs_quota_block_hard_limit_bytes")
    else if name == "storage.nfs.quota.used_inodes" then Some("nfs_quota_used_inodes")
    else if name == "storage.nfs.quota.inode_soft_limit" then Some("nfs_quota_inode_soft_limit")
    else if name == "storage.nfs.quota.inode_hard_limit" then Some("nfs_quota_inode_hard_limit")
    else None
  }

  /** metric_name, for a live reading. */
  function Alias(name: string): (alias: Option<string>)
    ensures alias.Some? ==> !Qualified(alias.value)
  {
    if DeviceRetryAlias(name).Some? then DeviceRetryAlias(name)
    else if DeviceAlias(name).Some? then DeviceAlias(name)
    else if AtaAlias(name).Some? then AtaAlias(name)
    else if NvmeAlias(name).Some? then NvmeAlias(name)
    else if MediaAlias(name).Some? then MediaAlias(name)
    else if UsedAlias(name).Some? then UsedAlias(name)
    else if FilesystemAlias(name).Some? then FilesystemAlias(name)
    else if ApfsAlias(name).Some? then ApfsAlias(name)
    else if NfsAlias(name).Some? then NfsAlias(name)
    else if QuotaGraceAlias(name).Some? then QuotaGraceAlias(name)
    else QuotaAlias(name)
  }

  predicate Aliased(name: string) {
    Alias(name).Some?
  }

  function LiveName(name: string): string {
    if Aliased(name) then Alias(name).value else name
  }

  predicate Live(m: Metric) {
    m.freshness == Some("live")
  }

  function MetricName(m: Metric): string {
    if Live(m) then LiveName(m.name) else m.name
  }

  function Route(c: Collection, m: Metric): SeriesKey {
    SeriesKey(c.resource, c.collector, MetricName(m), m.labels)
  }

  function AttemptOf(c: Collection, m: Metric): Attempt {
    Attempt(c.clock, c.mono, c.observedAt, c.boot, c.generation, m.counter, m.epoch, m.available, Live(m),
      m.text, m.number, c.staleAfter)
  }

  // ---- One collection ----

  function SeriesOf(t: Tables, k: SeriesKey): Series {
    if k in t then t[k] else EMPTY
  }

  function ProjectMetric(t: Tables, c: Collection, m: Metric): Option<Tables> {
    var s := Projected(SeriesOf(t, Route(c, m)), AttemptOf(c, m));
    if s.None? then None else Some(t[Route(c, m) := s.value])
  }

  /** None is the conflict that rolls the whole heartbeat back. */
  function ProjectAll(t: Tables, c: Collection, metrics: seq<Metric>): Option<Tables> {
    if metrics == [] then Some(t) else
      var front := ProjectAll(t, c, metrics[..|metrics| - 1]);
      if front.None? then None else ProjectMetric(front.value, c, metrics[|metrics| - 1])
  }

  lemma ProjectOneMore(t: Tables, c: Collection, metrics: seq<Metric>, i: nat)
    requires i < |metrics|
    ensures var front := ProjectAll(t, c, metrics[..i]);
      ProjectAll(t, c, metrics[..i + 1]) == if front.None? then None else ProjectMetric(front.value, c, metrics[i])
  {
    assert metrics[..i + 1][..i] == metrics[..i];
  }

  lemma {:induction false} ProjectAborts(t: Tables, c: Collection, metrics: seq<Metric>, i: nat)
    requires i <= |metrics| && ProjectAll(t, c, metrics[..i]).None?
    ensures ProjectAll(t, c, metrics).None?
    decreases |metrics| - i
  {
    if i == |metrics| {
      assert metrics[..i] == metrics;
    } else {
      ProjectOneMore(t, c, metrics, i);
      ProjectAborts(t, c, metrics, i + 1);
    }
  }

  class Store {
    var tables: Tables

    constructor ()
      ensures tables == map[]
    {
      tables := map[];
    }

    /** project_metric: one field, stored in the series its name and freshness lead to. */
    method Project(c: Collection, m: Metric) returns (ok: bool)
      modifies this
      ensures ProjectMetric(old(tables), c, m) == if ok then Some(tables) else None
      ensures !ok ==> tables == old(tables)
    {
      var key := Route(c, m);
      var a := AttemptOf(c, m);
      var series := SeriesOf(tables, key);
      var latest := true;
      var rate := Insufficient;
      if series.prior.Some? {
        var prior := series.prior.value;
        latest := prior.clock != a.clock || a.mono > prior.mono;
        if prior.clock != a.clock || prior.epoch != a.epoch {
          rate := Reset;
        } else if !Usable(prior) {
          rate := Unavailable;
        } else {
          var elapsed := Elapsed(prior, a);
          rate := Unavailable;
          if elapsed.Some? {
            var delta := Delta(prior, a);
            rate := if delta.Some? then Known(delta.value, elapsed.value) else Reset;
          }
        }
      }
      if !a.counter || !Usable(a) {
        rate := Unavailable;
      }
      if KeyOf(a) in series.samples {
        return false;
      }
      series := series.(samples := series.samples[KeyOf(a) := Sample(a, rate)]);
      if latest {
        series := series.(prior := Some(a));
        if series.shown.None? || Usable(a) || !series.shown.value.attempt.available
          || !series.shown.value.attempt.live {
          series := series.(shown := Some(Sample(a, rate)));
        }
      }
      tables := tables[key := series];
      return true;
    }

    /** The fields of one collection; a conflict leaves everything as it was. */
    method ProjectCollection(c: Collection) returns (ok: bool)
      modifies this
      ensures ProjectAll(old(tables), c, c.metrics) == if ok then Some(tables) else None
      ensures !ok ==> tables == old(tables)
    {
      var before := tables;
      for i := 0 to |c.metrics|
        invariant ProjectAll(before, c, c.metrics[..i]) == Some(tables)
      {
        hide ProjectMetric;
        ProjectOneMore(before, c, c.metrics, i);
        var stored := Project(c, c.metrics[i]);
        if !stored {
          ProjectAborts(before, c, c.metrics, i + 1);
          tables := before;
          return false;
        }
      }
      assert c.metrics[..|c.metrics|] == c.metrics;
      return true;
    }
  }

  // ---- Runs ----

  /** A projected collection, the monthly expiry of a continuity row, or the pruning of old samples.  A
      collection that is refused, repeated, of another clock or more than a day old is no event. */
  datatype Event = Collected(c: Collection) | Expired(key: SeriesKey) | Pruned(key: SeriesKey, samples: set<Key>)

  /** What the wire format guarantees: an unavailable field has no freshness, an available one has. */
  predicate MetricOk(m: Metric) {
    Qualified(m.name) && (m.available <==> m.freshness.Some?)
  }

  predicate EventOk(e: Event) {
    e.Collected? ==> forall i :: 0 <= i < |e.c.metrics| ==> MetricOk(e.c.metrics[i])
  }

  function Next(t: Tables, e: Event): Tables {
    match e
    case Collected(c) => if ProjectAll(t, c, c.metrics).Some? then ProjectAll(t, c, c.metrics).value else t
    case Expired(k) => t[k := SeriesOf(t, k).(prior := None)]
    case Pruned(k, samples) => t[k := SeriesOf(t, k).(samples := SeriesOf(t, k).samples - samples)]
  }

  function At(run: seq<Event>, n: nat): Tables
    requires n <= |run|
    decreases n
  {
    if n == 0 then map[] else Next(At(run, n - 1), run[n - 1])
  }

  // ---- Each series and the attempts that reach it ----

  function Recorded(c: Collection, metrics: seq<Metric>, k: SeriesKey): seq<RetainedReading.Event> {
    if metrics == [] then [] else
      Recorded(c, metrics[..|metrics| - 1], k)
      + if Route(c, metrics[|metrics| - 1]) == k then [Attempted(AttemptOf(c, metrics[|metrics| - 1]))] else []
  }

  /** What the first n events were for one series. */
  function Trace(run: seq<Event>, n: nat, k: SeriesKey): seq<RetainedReading.Event>
    requires n <= |run|
    decreases n
  {
    if n == 0 then [] else Trace(run, n - 1, k) + Heard(At(run, n - 1), run[n - 1], k)
  }

  /** What one series hears of an event. */
  function Heard(t: Tables, e: Event, k: SeriesKey): seq<RetainedReading.Event> {
    match e
    case Collected(c) => if ProjectAll(t, c, c.metrics).Some? then Recorded(c, c.metrics, k) else []
    case Expired(key) => if key == k then [PriorExpired] else []
    case Pruned(key, samples) => if key == k then [SamplesPruned(samples)] else []
  }

  function Final(trace: seq<RetainedReading.Event>): Series {
    RetainedReading.At(trace, |trace|)
  }

  lemma {:induction false} SameSoFar(a: seq<RetainedReading.Event>, e: RetainedReading.Event, n: nat)
    requires n <= |a|
    ensures RetainedReading.At(a + [e], n) == RetainedReading.At(a, n)
    decreases n
  {
    if n > 0 {
      SameSoFar(a, e, n - 1);
    }
  }

  lemma FinalNext(a: seq<RetainedReading.Event>, e: RetainedReading.Event)
    ensures Final(a + [e]) == RetainedReading.Next(Final(a), e)
  {
    SameSoFar(a, e, |a|);
  }

  lemma {:induction false} RecordedIs(t: Tables, c: Collection, metrics: seq<Metric>, k: SeriesKey,
          trace: seq<RetainedReading.Event>)
    requires ProjectAll(t, c, metrics).Some? && SeriesOf(t, k) == Final(trace)
    ensures SeriesOf(ProjectAll(t, c, metrics).value, k) == Final(trace + Recorded(c, metrics, k))
  {
    hide Final, Projected;
    if metrics == [] {
      assert trace + Recorded(c, metrics, k) == trace;
    } else {
      var front, last := metrics[..|metrics| - 1], metrics[|metrics| - 1];
      RecordedIs(t, c, front, k, trace);
      var before := trace + Recorded(c, front, k);
      if Route(c, last) == k {
        FinalNext(before, Attempted(AttemptOf(c, last)));
        assert trace + Recorded(c, metrics, k) == before + [Attempted(AttemptOf(c, last))];
      } else {
        assert trace + Recorded(c, metrics, k) == before;
      }
    }
  }

  /** In every run of collections each series is what the attempts recorded in it make of it: what is
      proved of one series over any run of attempts holds of every series of every node. */
  lemma {:induction false} SeriesFollowsItsTrace(run: seq<Event>, n: nat, k: SeriesKey)
    requires n <= |run|
    ensures SeriesOf(At(run, n), k) == Final(Trace(run, n, k))
    decreases n
  {
    hide Next, Heard;
    if n > 0 {
      SeriesFollowsItsTrace(run, n - 1, k);
      FollowsNext(At(run, n - 1), run[n - 1], k, Trace(run, n - 1, k));
    }
  }

  lemma FollowsNext(t: Tables, e: Event, k: SeriesKey, trace: seq<RetainedReading.Event>)
    requires SeriesOf(t, k) == Final(trace)
    ensures SeriesOf(Next(t, e), k) == Final(trace + Heard(t, e, k))
  {
    hide ProjectAll, Recorded, Final;
    assert trace + [] == trace;
    match e
    case Collected(c) =>
      if ProjectAll(t, c, c.metrics).Some? {
        RecordedIs(t, c, c.metrics, k, trace);
      }
    case Expired(key) =>
      FinalNext(trace, PriorExpired);
    case Pruned(key, samples) =>
      FinalNext(trace, SamplesPruned(samples));
  }

  // ---- When a rate spans a failure ----

  /** What a collector reads of a resource; its live readings are stored under LiveKey. */
  datatype Field = Field(resource: string, collector: string, name: string, labels: string)

  function LiveKey(f: Field): SeriesKey {
    SeriesKey(f.resource, f.collector, LiveName(f.name), f.labels)
  }

  predicate Of(c: Collection, f: Field) {
    c.resource == f.resource && c.collector == f.collector
  }

  predicate IsField(m: Metric, f: Field) {
    m.name == f.name && m.labels == f.labels
  }

  /** The collection lists the field, with or without a value. */
  predicate Lists(c: Collection, f: Field) {
    Of(c, f) && exists i :: 0 <= i < |c.metrics| && IsField(c.metrics[i], f)
  }

  /** The attempt brought no usable reading for the series that holds the field's live readings. */
  predicate Failed(c: Collection, f: Field) {
    forall i :: 0 <= i < |c.metrics| && Route(c, c.metrics[i]) == LiveKey(f) ==> !Usable(AttemptOf(c, c.metrics[i]))
  }

  predicate Applied(run: seq<Event>, k: nat)
    requires k < |run|
  {
    run[k].Collected? && ProjectAll(At(run, k), run[k].c, run[k].c.metrics).Some?
  }

  function PriorAt(run: seq<Event>, n: nat, f: Field): Option<Attempt>
    requires n <= |run|
  {
    SeriesOf(At(run, n), LiveKey(f)).prior
  }

  /** A delivery older, on the same clock, than the reading p. */
  predicate Delayed(c: Collection, p: Attempt) {
    c.clock == p.clock && c.mono <= p.mono
  }

  /** The attempt is recorded in the very series of the field's live readings, as its newest. */
  predicate Interrupts(run: seq<Event>, k: nat, f: Field, p: Attempt)
    requires k < |run|
  {
    Applied(run, k) && Lists(run[k].c, f) && !Aliased(f.name) && !Delayed(run[k].c, p)
  }

  predicate Reaches(c: Collection, metrics: seq<Metric>, k: SeriesKey) {
    exists i :: 0 <= i < |metrics| && Route(c, metrics[i]) == k
  }

  lemma DelaysItself(c: Collection, m: Metric)
    ensures Delayed(c, AttemptOf(c, m))
  {
  }

  lemma PriorProjected(s: Series, c: Collection, m: Metric)
    requires Projected(s, AttemptOf(c, m)).Some?
    ensures Projected(s, AttemptOf(c, m)).value.prior ==
      if s.prior.Some? && Delayed(c, s.prior.value) then s.prior else Some(AttemptOf(c, m))
  {
  }

  /** All fields of a collection have one clock and one time, so only the first to reach a series counts. */
  lemma {:induction false} PriorAfter(t: Tables, c: Collection, metrics: seq<Metric>, k: SeriesKey)
    requires ProjectAll(t, c, metrics).Some?
    ensures var before, after := SeriesOf(t, k), SeriesOf(ProjectAll(t, c, metrics).value, k);
      if !Reaches(c, metrics, k) then after == before
      else if before.prior.Some? && Delayed(c, before.prior.value) then after.prior == before.prior
      else exists i :: 0 <= i < |metrics| && Route(c, metrics[i]) == k && after.prior == Some(AttemptOf(c, metrics[i]))
  {
    hide Delayed, AttemptOf, Projected;
    if metrics != [] {
      var front, last := metrics[..|metrics| - 1], metrics[|metrics| - 1];
      PriorAfter(t, c, front, k);
      PriorProjected(SeriesOf(ProjectAll(t, c, front).value, Route(c, last)), c, last);
      forall m: Metric ensures Delayed(c, AttemptOf(c, m)) {
        DelaysItself(c, m);
      }
      var before := SeriesOf(t, k);
      if Reaches(c, front, k) {
        var i :| 0 <= i < |front| && Route(c, front[i]) == k;
        assert metrics[i] == front[i];
        assert Reaches(c, metrics, k);
        if !(before.prior.Some? && Delayed(c, before.prior.value)) {
          var j :| 0 <= j < |front| && Route(c, front[j]) == k
            && SeriesOf(ProjectAll(t, c, front).value, k).prior == Some(AttemptOf(c, front[j]));
          assert metrics[j] == front[j];
        }
      } else if Route(c, last) == k {
        assert metrics[|metrics| - 1] == last;
      }
    }
  }

  /** A failed attempt reaches the live series exactly when it lists the field and the field has no alias. */
  lemma FailureReaches(c: Collection, f: Field)
    requires EventOk(Collected(c)) && Failed(c, f)
    ensures Reaches(c, c.metrics, LiveKey(f)) <==> Lists(c, f) && !Aliased(f.name)
  {
    if Lists(c, f) && !Aliased(f.name) {
      var i :| 0 <= i < |c.metrics| && IsField(c.metrics[i], f);
      assert Route(c, c.metrics[i]) == LiveKey(f);
    }
    if Reaches(c, c.metrics, LiveKey(f)) {
      var i :| 0 <= i < |c.metrics| && Route(c, c.metrics[i]) == LiveKey(f);
      assert MetricOk(c.metrics[i]) && !Live(c.metrics[i]);
      assert IsField(c.metrics[i], f);
    }
  }

  /** Between i and n the collector never succeeded in reading the field, and its series did not expire. */
  predicate OnlyFailures(run: seq<Event>, i: nat, n: nat, f: Field)
    requires n <= |run|
  {
    forall k :: i < k < n ==>
      EventOk(run[k]) && run[k] != Expired(LiveKey(f)) && (run[k].Collected? ==> Failed(run[k].c, f))
  }

  ghost predicate Interrupted(run: seq<Event>, i: nat, n: nat, f: Field, p: Attempt)
    requires n <= |run|
  {
    exists k :: i < k < n && Interrupts(run, k, f, p)
  }

  lemma InterruptedStep(run: seq<Event>, i: nat, n: nat, f: Field, p: Attempt)
    requires i < n < |run|
    ensures Interrupted(run, i, n + 1, f, p) <==> Interrupted(run, i, n, f, p) || Interrupts(run, n, f, p)
  {
    hide Interrupts;
  }

  lemma {:induction false} PriorThroughFailures(run: seq<Event>, i: nat, n: nat, f: Field, p: Attempt)
    requires i < n <= |run| && OnlyFailures(run, i, n, f)
    requires PriorAt(run, i + 1, f) == Some(p) && Usable(p)
    ensures if Interrupted(run, i, n, f, p) then PriorAt(run, n, f).Some? && !Usable(PriorAt(run, n, f).value)
      else PriorAt(run, n, f) == Some(p)
    decreases n
  {
    hide PriorAt, Applied, Lists, Aliased, Delayed, Failed, EventOk;
    if i + 1 < n {
      hide Interrupted;
      PriorThroughFailures(run, i, n - 1, f, p);
      InterruptedStep(run, i, n - 1, f, p);
      FailureStep(run, n - 1, f);
    }
  }

  lemma FailureStep(run: seq<Event>, k: nat, f: Field)
    requires k < |run| && EventOk(run[k]) && run[k] != Expired(LiveKey(f))
      && (run[k].Collected? ==> Failed(run[k].c, f))
    ensures if Applied(run, k) && Lists(run[k].c, f) && !Aliased(f.name)
          && !(PriorAt(run, k, f).Some? && Delayed(run[k].c, PriorAt(run, k, f).value))
      then PriorAt(run, k + 1, f).Some? && !Usable(PriorAt(run, k + 1, f).value)
      else PriorAt(run, k + 1, f) == PriorAt(run, k, f)
  {
    if Applied(run, k) {
      FailureReaches(run[k].c, f);
      PriorAfter(At(run, k), run[k].c, run[k].c.metrics, LiveKey(f));
    }
  }

  /** Event n brings the field's next usable reading, comparable with p, as the first of its series. */
  predicate NextReading(run: seq<Event>, n: nat, f: Field, p: Attempt, q: nat)
    requires n < |run|
  {
    && run[n].Collected? && Of(run[n].c, f) && q < |run[n].c.metrics| && IsField(run[n].c.metrics[q], f)
    && Live(run[n].c.metrics[q]) && !Reaches(run[n].c, run[n].c.metrics[..q], LiveKey(f))
    && var a := AttemptOf(run[n].c, run[n].c.metrics[q]);
       a.counter && Usable(a) && a.clock == p.clock && a.epoch == p.epoch && Elapsed(p, a).Some? && Delta(p, a).Some?
  }

  /** When a rate averages over failures.  Between a usable reading and the next one every attempt of the
      collector failed; the rate stored with the next one spans them all if and only if every one of
      those attempts that lists the field at all lists it under a name that has an alias, or was
      delivered late. */
  lemma RateSpansFailures(run: seq<Event>, i: nat, n: nat, f: Field, p: Attempt, q: nat)
    requires i < n < |run| && OnlyFailures(run, i, n, f)
    requires PriorAt(run, i + 1, f) == Some(p) && Usable(p) && NextReading(run, n, f, p, q)
    ensures var a := AttemptOf(run[n].c, run[n].c.metrics[q]);
      RateOf(PriorAt(run, n, f), a) == Known(a.number.value - p.number.value, a.mono - p.mono) <==>
        forall k :: i < k < n && Applied(run, k) && Lists(run[k].c, f) ==> Aliased(f.name) || Delayed(run[k].c, p)
    ensures var a := AttemptOf(run[n].c, run[n].c.metrics[q]);
      RateOf(PriorAt(run, n, f), a).Known? <==>
        forall k :: i < k < n && Applied(run, k) && Lists(run[k].c, f) ==> Aliased(f.name) || Delayed(run[k].c, p)
  {
    hide RateOf, Usable, Elapsed, Delta, At, Reaches, OnlyFailures;
    PriorThroughFailures(run, i, n, f, p);
    NotInterrupted(run, i, n, f, p);
    var a := AttemptOf(run[n].c, run[n].c.metrics[q]);
    RateFrom(PriorAt(run, n, f), p, a);
    hide Interrupted, PriorAt, NextReading, Applied, Lists, Aliased, Delayed;
  }

  lemma NotInterrupted(run: seq<Event>, i: nat, n: nat, f: Field, p: Attempt)
    requires n <= |run|
    ensures !Interrupted(run, i, n, f, p) <==>
      forall k :: i < k < n && Applied(run, k) && Lists(run[k].c, f) ==> Aliased(f.name) || Delayed(run[k].c, p)
  {
    hide Lists, Aliased, Delayed;
    if !Interrupted(run, i, n, f, p) {
      forall k | i < k < n && Applied(run, k) && Lists(run[k].c, f) ensures Aliased(f.name) || Delayed(run[k].c, p) {
        assert !Interrupts(run, k, f, p);
      }
    }
  }

  lemma RateFrom(prior: Option<Attempt>, p: Attempt, a: Attempt)
    requires a.counter && Usable(a) && Usable(p) && a.clock == p.clock && a.epoch == p.epoch
    requires Elapsed(p, a).Some? && Delta(p, a).Some?
    ensures prior == Some(p) ==> RateOf(prior, a) == Known(a.number.value - p.number.value, a.mono - p.mono)
    ensures prior.Some? && !Usable(prior.value) ==> !RateOf(prior, a).Known?
  {
  }

  predicate Holds(t: Tables, k: SeriesKey, sample: Sample) {
    KeyOf(sample.attempt) in SeriesOf(t, k).samples && SeriesOf(t, k).samples[KeyOf(sample.attempt)] == sample
  }

  /** And that rate is the one stored with the reading. */
  lemma StoredRate(run: seq<Event>, n: nat, f: Field, p: Attempt, q: nat)
    requires n < |run| && NextReading(run, n, f, p, q) && Applied(run, n)
    ensures var a := AttemptOf(run[n].c, run[n].c.metrics[q]);
      Holds(At(run, n + 1), LiveKey(f), Sample(a, RateOf(PriorAt(run, n, f), a)))
  {
    var c := run[n].c;
    assert c.metrics[..|c.metrics|] == c.metrics;
    SampleStored(At(run, n), c, q, |c.metrics|, LiveKey(f), At(run, n + 1));
  }

  lemma {:induction false} SampleStored(t: Tables, c: Collection, q: nat, n: nat, k: SeriesKey, t': Tables)
    requires q < n <= |c.metrics| && ProjectAll(t, c, c.metrics[..n]) == Some(t')
    requires Route(c, c.metrics[q]) == k && !Reaches(c, c.metrics[..q], k)
    ensures Holds(t', k, Sample(AttemptOf(c, c.metrics[q]), RateOf(SeriesOf(t, k).prior, AttemptOf(c, c.metrics[q]))))
    decreases n
  {
    hide RateOf, Holds, Projected, ProjectMetric, Route, AttemptOf;
    ProjectOneMore(t, c, c.metrics, n - 1);
    var before := ProjectAll(t, c, c.metrics[..n - 1]).value;
    if q == n - 1 {
      PriorAfter(t, c, c.metrics[..q], k);
      SampleAdded(before, c, c.metrics[q], t');
      hide ProjectAll, Reaches;
    } else {
      SampleStored(t, c, q, n - 1, k, before);
      SampleKept(before, c, c.metrics[n - 1], t', k,
        Sample(AttemptOf(c, c.metrics[q]), RateOf(SeriesOf(t, k).prior, AttemptOf(c, c.metrics[q]))));
      hide ProjectAll, Reaches;
    }
  }

  lemma SampleAdded(t: Tables, c: Collection, m: Metric, t': Tables)
    requires ProjectMetric(t, c, m) == Some(t')
    ensures var k, a := Route(c, m), AttemptOf(c, m); Holds(t', k, Sample(a, RateOf(SeriesOf(t, k).prior, a)))
  {
  }

  lemma SampleKept(t: Tables, c: Collection, m: Metric, t': Tables, k: SeriesKey, sample: Sample)
    requires ProjectMetric(t, c, m) == Some(t') && Holds(t, k, sample)
    ensures Holds(t', k, sample)
  {
  }

  // ---- The shortest runs with a failure in the middle ----

  function Counter(name: string, number: nat): Metric {
    Metric(name, "", true, Some("epoch"), true, Some("live"), "", Some(number))
  }

  function FailedCounter(name: string): Metric {
    Metric(name, "", true, None, false, None, "", None)
  }

  function CollectedAt(second: nat, metrics: seq<Metric>): Event {
    Collected(Collection("disk", "iokit", "clock", second * SECOND_NS, second * 1000, "boot", 1, 90, metrics))
  }

  /** Readings at 0 s and 10 s, and an attempt at 5 s that lists the field as failed, or lists nothing. */
  function FailureInBetween(name: string, listed: bool): seq<Event> {
    [CollectedAt(0, [Counter(name, 100)]), CollectedAt(5, if listed then [FailedCounter(name)] else []),
     CollectedAt(10, [Counter(name, 300)])]
  }

  lemma ProjectOne(t: Tables, c: Collection, m: Metric)
    ensures ProjectAll(t, c, [m]) == ProjectMetric(t, c, m)
  {
    assert [m][..0] == [];
    assert ProjectAll(t, c, []) == Some(t);
  }

  lemma AfterFirst(name: string, listed: bool)
    ensures var run := FailureInBetween(name, listed);
      var f := Field("disk", "iokit", name, "");
      var s := SeriesOf(At(run, 1), LiveKey(f));
      && s.prior == Some(AttemptOf(run[0].c, Counter(name, 100)))
      && s.samples.Keys == {KeyOf(AttemptOf(run[0].c, Counter(name, 100)))}
      && At(run, 1).Keys == {LiveKey(f)}
  {
    var run := FailureInBetween(name, listed);
    assert At(run, 0) == map[] && At(run, 1) == Next(map[], run[0]);
    ProjectOne(map[], run[0].c, Counter(name, 100));
  }

  lemma SecondApplied(name: string, listed: bool)
    ensures Applied(FailureInBetween(name, listed), 1)
  {
    var run := FailureInBetween(name, listed);
    AfterFirst(name, listed);
    hide At, Alias;
    if listed {
      ProjectOne(At(run, 1), run[1].c, FailedCounter(name));
    }
  }

  lemma MiddleFails(name: string, listed: bool)
    requires Qualified(name)
    ensures var run, f := FailureInBetween(name, listed), Field("disk", "iokit", name, "");
      OnlyFailures(run, 0, 2, f) && (Lists(run[1].c, f) <==> listed)
  {
    hide Alias;
    var run := FailureInBetween(name, listed);
    if listed {
      assert IsField(run[1].c.metrics[0], Field("disk", "iokit", name, ""));
    }
  }

  lemma EndsReading(name: string, listed: bool)
    ensures var run, f := FailureInBetween(name, listed), Field("disk", "iokit", name, "");
      NextReading(run, 2, f, AttemptOf(run[0].c, Counter(name, 100)), 0)
  {
    hide Alias;
    assert FailureInBetween(name, listed)[2].c.metrics[..0] == [];
  }

  /** The rate of the reading at 10 s is measured over the whole 10 s, across the failure, exactly when the
      field has an alias or the failed attempt listed nothing. */
  lemma FailureIsSpanned(name: string, listed: bool)
    requires Qualified(name)
    ensures var run := FailureInBetween(name, listed);
      var rate := RateOf(PriorAt(run, 2, Field("disk", "iokit", name, "")), AttemptOf(run[2].c, Counter(name, 300)));
      && (rate == Known(200, 10 * SECOND_NS) <==> Aliased(name) || !listed)
      && (rate.Known? <==> Aliased(name) || !listed)
  {
    var run := FailureInBetween(name, listed);
    var f := Field("disk", "iokit", name, "");
    var p := AttemptOf(run[0].c, Counter(name, 100));
    AfterFirst(name, listed);
    SecondApplied(name, listed);
    MiddleFails(name, listed);
    EndsReading(name, listed);
    assert Usable(p) && !Delayed(run[1].c, p);
    hide At, Aliased, Applied, RateOf, OnlyFailures, NextReading, Lists, Delayed, PriorAt;
    RateSpansFailures(run, 0, 2, f, p, 0);
  }

  /** Bytes read from a disk: a failed attempt is kept under another name than the readings, and never shows in
      their rate. */
  lemma ReadBytesSpanFailure()
    ensures var name := "storage.device.read_bytes_total";
      var run := FailureInBetween(name, true);
      && Route(run[2].c, Counter(name, 300)) == SeriesKey("disk", "iokit", "device_read_bytes_total", "")
      && Route(run[1].c, FailedCounter(name)) == SeriesKey("disk", "iokit", name, "")
      && RateOf(PriorAt(run, 2, Field("disk", "iokit", name, "")), AttemptOf(run[2].c, Counter(name, 300))) ==
        Known(200, 10 * SECOND_NS)
  {
    ReadBytesAliased();
    hide At, Alias, Aliased, Qualified, RateOf, PriorAt;
    FailureIsSpanned("storage.device.read_bytes_total", true);
  }

  lemma ReadBytesAliased()
    ensures Qualified("storage.device.read_bytes_total") && Aliased("storage.device.read_bytes_total")
    ensures LiveName("storage.device.read_bytes_total") == "device_read_bytes_total"
  {
    assert DeviceRetryAlias("storage.device.read_bytes_total").None?;
    assert DeviceAlias("storage.device.read_bytes_total") == Some("device_read_bytes_total");
  }
}
