/** Whole runs of the state store: observations with their evictions, an import, saves, and restarts from the file. */
module StoreRuns {
  import opened Prelude
  import opened Kubernetes
  import opened StoreState
  import opened Persistence

  /** The store in memory with its mark for saving, and the state the file on disk was last written from. */
  datatype Machine = Machine(cfg: Config, st: State, dirty: bool, disk: Option<State>)

  /** `Observe` and `Import` carry the victims chosen among equally old records; a restart may change the
      configuration. */
  datatype Op =
    | Observe(pod: Pod, deleted: bool, bootstrap: bool, now: Time, goneApps: set<string>, gonePods: set<string>)
    | Import(apps: seq<ApplicationRecord>, pods: seq<PodRecord>, backfill: seq<nat>, goneApps: set<string>,
        gonePods: set<string>)
    | Save(written: bool)
    | Restart(cfg: Config, file: Snapshot, order: seq<nat>)

  /** The file holds records only; without a file it holds none. */
  function OnFile(m: Machine): State {
    if m.disk.Some? then m.disk.value else EMPTY
  }

  function Imported(st: State, op: Op): State
    requires op.Import? && BackfillOrder(op.apps, op.backfill)
  {
    IngestPods(IngestApps(st, op.apps, op.backfill), op.pods)
  }

  ghost predicate Steps(m: Machine, op: Op, m': Machine) {
    match op
    case Observe(pod, deleted, bootstrap, now, goneApps, gonePods) =>
      if Tracked(pod) then
        && Upserts(m.cfg, m.st, pod, deleted, bootstrap, now, goneApps, gonePods, m'.st)
        && m' == m.(st := m'.st, dirty := m.dirty || Marks(m.st, pod, bootstrap, goneApps, gonePods))
      else m' == m
    case Import(apps, pods, backfill, goneApps, gonePods) =>
      if apps == [] && pods == [] then m' == m
      else
        && BackfillOrder(apps, backfill)
        && Evicts(m.cfg, Imported(m.st, op), goneApps, gonePods, m'.st)
        && m' == m.(st := m'.st, dirty := true)
    case Save(written) => m' == m.(dirty := false, disk := if m.dirty && written then Some(m.st) else m.disk)
    case Restart(cfg, file, order) =>
      if m.disk.None? then m' == Machine(cfg, EMPTY, false, None)
      else
        && Snapshots(file, m.disk.value) && BackfillOrder(file.apps, order)
        && m' == Machine(cfg, Loaded(cfg, file, order), Loaded(cfg, file, order) != Restored(file, order), m.disk)
  }

  /** The times a pod carries are at or after the zero time, and the clock is past it. Bootstrap never deletes. */
  predicate Plausible(op: Op) {
    op.Observe? ==>
      && (op.bootstrap ==> !op.deleted)
      && op.now > 0 && op.pod.creation >= 0
      && forall i :: 0 <= i < |op.pod.containers| && op.pod.containers[i].Terminated? ==>
          op.pod.containers[i].finishedAt >= 0
  }

  /** No pod phase spells a status that podwatcher derives itself. */
  predicate KnownPhase(op: Op) {
    op.Observe? ==> op.pod.phase !in {"succeeded", "failed", "deleted"}
  }

  /** A record this store could have written itself, apart from a missing change stamp. */
  predicate Writable(rec: ApplicationRecord) {
    AppHolds(rec.applicationID, rec.(changedAt := 1)) && rec.changedAt >= 0
  }

  /** The last record under its id or key, which is the one an import keeps. */
  predicate LastApp(records: seq<ApplicationRecord>, i: nat)
    requires i < |records|
  {
    forall j :: i < j < |records| ==> records[j].applicationID != records[i].applicationID
  }

  predicate LastPod(records: seq<PodRecord>, i: nat)
    requires i < |records|
  {
    forall j :: i < j < |records| ==> RecordKey(records[j]) != RecordKey(records[i])
  }

  /** The application is known already, or imported. */
  predicate Known(st: State, op: Op, id: string)
    requires op.Import?
  {
    id in st.apps || exists j :: 0 <= j < |op.apps| && op.apps[j].applicationID == id
  }

  predicate AppFits(op: Op, i: nat)
    requires op.Import? && i < |op.apps|
  {
    LastApp(op.apps, i) && op.apps[i].applicationID !in op.goneApps ==> Writable(op.apps[i])
  }

  /** A driver needs its application even if it is overwritten or evicted, because its index entry stays. */
  predicate PodFits(st: State, op: Op, i: nat)
    requires op.Import? && i < |op.pods|
  {
    var rec := op.pods[i];
    && (rec.role == "driver" ==> Known(st, op, rec.applicationID))
    && (LastPod(op.pods, i) && RecordKey(rec) !in op.gonePods && rec.applicationID !in op.goneApps ==>
          PodHolds(RecordKey(rec), rec) && Known(st, op, rec.applicationID))
  }

  /** Every imported record that is neither overwritten nor evicted at once is one this store could have written, with a
      known application; and so is the application of every imported driver. */
  predicate Importable(st: State, op: Op)
    requires op.Import?
  {
    (forall i :: 0 <= i < |op.apps| ==> AppFits(op, i)) && (forall i :: 0 <= i < |op.pods| ==> PodFits(st, op, i))
  }

  /** What the environment contributes to a step. */
  predicate Admits(st: State, op: Op) {
    Plausible(op) && KnownPhase(op) && (op.Import? ==> Importable(st, op))
  }

  /** A run of a new store without a file. */
  ghost predicate Runs(trace: seq<Machine>, ops: seq<Op>) {
    && |trace| == |ops| + 1
    && trace[0] == Machine(trace[0].cfg, EMPTY, false, None)
    && Segment(trace, ops)
  }

  ghost predicate StepAt(trace: seq<Machine>, ops: seq<Op>, i: nat)
    requires i < |ops| && |trace| == |ops| + 1
  {
    Admits(trace[i].st, ops[i]) && Steps(trace[i], ops[i], trace[i + 1])
  }

  /** A stretch of a run, from any state. */
  ghost predicate Segment(trace: seq<Machine>, ops: seq<Op>) {
    && |trace| == |ops| + 1
    && forall i :: 0 <= i < |ops| ==> StepAt(trace, ops, i)
  }

  // ----- What every state of a run satisfies -----

  /** The lifecycle of an application: a terminal status has a finish time, a deletion a deletion time and a finish. */
  predicate LifecycleHolds(rec: ApplicationRecord) {
    && (rec.status == "succeeded" || rec.status == "failed" ==> rec.finishedAt.Some?)
    && (rec.status == "deleted" ==> rec.deletedAt.Some?)
    && (rec.deletedAt.Some? ==> rec.finishedAt.Some?)
  }

  predicate AppHolds(id: string, rec: ApplicationRecord) {
    && id != "" && rec.applicationID == id
    && rec.changedAt > 0
    && (rec.finishedAt.Some? ==> rec.finishedAt.value > 0)
    && LifecycleHolds(rec)
  }

  predicate PodHolds(k: string, rec: PodRecord) {
    && k != "" && rec.uid == k
    && (rec.status == "deleted" ==> rec.deletedAt.Some?)
    && (rec.containerFinishedAt.Some? ==> rec.containerStartedAt.Some?)
  }

  /** Every pod's application exists, and the driver index names known applications only. */
  predicate NoOrphans(st: State) {
    && (forall k :: k in st.pods ==> st.pods[k].applicationID in st.apps)
    && st.drivers.Keys <= st.apps.Keys
  }

  predicate Settled(cfg: Config, st: State) {
    && (|st.apps| <= cfg.maxApps || DeletedApps(st) == {})
    && (|st.pods| <= cfg.maxPods || Reclaimable(st) == {})
  }

  /** What holds of every record, whatever the limits. */
  predicate Sound(st: State) {
    && (forall id :: id in st.apps ==> AppHolds(id, st.apps[id]))
    && (forall k :: k in st.pods ==> PodHolds(k, st.pods[k]))
    && NoOrphans(st)
    && st.lastChanged >= 0
  }

  predicate MachineHolds(m: Machine) {
    Sound(m.st) && (m.disk.Some? ==> Sound(m.disk.value))
  }

  predicate MachineSettled(m: Machine) {
    Settled(m.cfg, m.st) && (m.disk.Some? ==> Settled(m.cfg, m.disk.value))
  }

  // ----- One record -----

  /** The lifecycle survives an observation exactly when a raw phase does not spell an undue terminal status. */
  lemma LifecycleKept(rec: ApplicationRecord, pod: Pod, deleted: bool, now: Time)
    requires LifecycleHolds(rec) && IsDriver(pod)
    ensures LifecycleHolds(Advanced(rec, pod, deleted, now)) <==>
              deleted || ((pod.phase == "succeeded" || pod.phase == "failed" ==> rec.finishedAt.Some?)
                          && (pod.phase == "deleted" ==> rec.deletedAt.Some?))
  {
  }

  /** A driver whose phase is spelled like a derived status gets that status without a finish time. */
  lemma RawPhaseBreaksLifecycle(rec: ApplicationRecord, pod: Pod, now: Time)
    requires LifecycleHolds(rec) && rec.finishedAt.None? && IsDriver(pod) && pod.phase == "succeeded"
    ensures !LifecycleHolds(Advanced(rec, pod, false, now))
  {
    LifecycleKept(rec, pod, false, now);
  }

  lemma {:induction false} FinishIsReal(containers: seq<ContainerState>, fallback: Option<Time>)
    requires forall i :: 0 <= i < |containers| && containers[i].Terminated? ==> containers[i].finishedAt >= 0
    ensures TimesFrom(containers, fallback).1.Some? ==> TimesFrom(containers, fallback).1.value > 0
  {
    if containers != [] { FinishIsReal(containers[1..], fallback); }
  }

  lemma AppAfterHolds(cfg: Config, st: State, op: Op)
    requires op.Observe? && Plausible(op) && KnownPhase(op) && Tracked(op.pod)
    requires AppId(op.pod) in st.apps ==> AppHolds(AppId(op.pod), st.apps[AppId(op.pod)])
    ensures AppHolds(AppId(op.pod), AppAfter(cfg, st, op.pod, op.deleted, op.now).(changedAt := 1))
    ensures AppId(op.pod) in st.apps ==>
              AppAfter(cfg, st, op.pod, op.deleted, op.now).changedAt == st.apps[AppId(op.pod)].changedAt
  {
    FinishIsReal(op.pod.containers, op.pod.startTime);
    var rec := Identified(cfg, AppBefore(st, op.pod, op.now), op.pod);
    assert LifecycleHolds(rec);
    if IsDriver(op.pod) { LifecycleKept(rec, op.pod, op.deleted, op.now); }
  }

  lemma StampIsReal(cfg: Config, st: State, op: Op)
    requires op.Observe? && Plausible(op) && KnownPhase(op) && Tracked(op.pod) && st.lastChanged >= 0
    requires AppId(op.pod) in st.apps ==> AppHolds(AppId(op.pod), st.apps[AppId(op.pod)])
    ensures StampFor(cfg, st, op.pod, op.deleted, op.bootstrap, op.now) > 0
    ensures Reports(cfg, st, op.pod, op.deleted, op.bootstrap, op.now) ==>
              StampFor(cfg, st, op.pod, op.deleted, op.bootstrap, op.now) >= st.lastChanged
  {
    AppAfterHolds(cfg, st, op);
  }

  lemma AppKeeps(cfg: Config, st: State, op: Op)
    requires op.Observe? && Plausible(op) && KnownPhase(op) && Tracked(op.pod)
    requires (forall id :: id in st.apps ==> AppHolds(id, st.apps[id])) && st.lastChanged >= 0
    ensures var st' := UpsertApp(cfg, st, op.pod, op.deleted, op.bootstrap, op.now);
            && (forall id :: id in st'.apps ==> AppHolds(id, st'.apps[id]))
            && st'.apps.Keys == st.apps.Keys + {AppId(op.pod)} && st'.lastChanged >= st.lastChanged
  {
    AppAfterHolds(cfg, st, op);
    StampIsReal(cfg, st, op);
  }

  lemma PodSeenHolds(cfg: Config, st: State, op: Op)
    requires op.Observe? && Plausible(op) && KnownPhase(op) && Tracked(op.pod)
    requires PodKey(op.pod) in st.pods ==> PodHolds(PodKey(op.pod), st.pods[PodKey(op.pod)])
    ensures var rec := UpsertPod(cfg, st, op.pod, op.deleted, op.bootstrap, op.now).pods[PodKey(op.pod)];
            && PodHolds(PodKey(op.pod), rec) && rec.applicationID == AppId(op.pod) && rec.role == SparkRole(op.pod)
  {
  }

  lemma PodKeeps(cfg: Config, st: State, op: Op)
    requires op.Observe? && Plausible(op) && KnownPhase(op) && Tracked(op.pod)
    requires forall k :: k in st.pods ==> PodHolds(k, st.pods[k])
    ensures var st' := UpsertPod(cfg, st, op.pod, op.deleted, op.bootstrap, op.now);
            && (forall k :: k in st'.pods ==> PodHolds(k, st'.pods[k]))
            && st'.pods.Keys == st.pods.Keys + {PodKey(op.pod)}
            && st'.pods[PodKey(op.pod)].applicationID == AppId(op.pod)
            && st'.pods[PodKey(op.pod)].role == SparkRole(op.pod)
  {
    PodSeenHolds(cfg, st, op);
  }

  // ----- One observation -----

  /** Eviction leaves a kind of record within its limit or with nothing left to evict. */
  lemma EvictionConverges(gone: set<string>, candidates: set<string>, at: string -> Time, size: nat, limit: nat)
    requires OldestFirst(gone, candidates, at, Overflow(size, limit)) && |candidates| <= size
    ensures size - |gone| <= limit || gone == candidates
  {
    if size - |gone| > limit {
      SubsetSize(gone, candidates);
      assert candidates == gone + (candidates - gone);
    }
  }

  lemma AppsSettle(cfg: Config, st: State, gone: set<string>)
    requires EvictsApps(cfg, st, gone) && "" !in DeletedApps(st)
    ensures |WithoutApps(st, gone).apps| <= cfg.maxApps || DeletedApps(WithoutApps(st, gone)) == {}
  {
    AppsLeft(st, gone);
    SubsetSize(DeletedApps(st), st.apps.Keys);
    EvictionConverges(gone, DeletedApps(st), AppDeletedAt(st), |st.apps|, cfg.maxApps);
  }

  lemma PodsSettle(cfg: Config, st: State, gone: set<string>)
    requires EvictsPods(cfg, st, gone)
    ensures |WithoutPods(st, gone).pods| <= cfg.maxPods || Reclaimable(WithoutPods(st, gone)) == {}
  {
    PodsLeft(st, gone);
    SubsetSize(Reclaimable(st), st.pods.Keys);
    EvictionConverges(gone, Reclaimable(st), PodDeletedAt(st), |st.pods|, cfg.maxPods);
    assert Reclaimable(WithoutPods(st, gone)) == Reclaimable(st) - gone;
  }

  lemma AppHalfIsSound(cfg: Config, st: State, op: Op)
    requires op.Observe? && Plausible(op) && KnownPhase(op) && Tracked(op.pod) && Sound(st)
    ensures var half := UpsertApp(cfg, st, op.pod, op.deleted, op.bootstrap, op.now);
            Sound(half) && AppId(op.pod) in half.apps
  {
    AppKeeps(cfg, st, op);
    var half := UpsertApp(cfg, st, op.pod, op.deleted, op.bootstrap, op.now);
    assert half.pods == st.pods && half.drivers == st.drivers;
  }

  lemma PodHalfIsSound(cfg: Config, st: State, op: Op)
    requires op.Observe? && Plausible(op) && KnownPhase(op) && Tracked(op.pod) && Sound(st) && AppId(op.pod) in st.apps
    ensures Sound(UpsertPod(cfg, st, op.pod, op.deleted, op.bootstrap, op.now))
  {
    PodKeeps(cfg, st, op);
  }

  lemma RecordedIsSound(cfg: Config, st: State, op: Op)
    requires op.Observe? && Plausible(op) && KnownPhase(op) && Tracked(op.pod) && Sound(st)
    ensures Sound(Recorded(cfg, st, op.pod, op.deleted, op.bootstrap, op.now))
  {
    AppHalfIsSound(cfg, st, op);
    PodHalfIsSound(cfg, UpsertApp(cfg, st, op.pod, op.deleted, op.bootstrap, op.now), op);
  }

  lemma EvictedIsSound(cfg: Config, st: State, goneApps: set<string>, gonePods: set<string>, st': State)
    requires Sound(st) && Evicts(cfg, st, goneApps, gonePods, st')
    ensures Sound(st')
  {
    Survivors(cfg, st, goneApps, gonePods, st');
    FewerAreSound(st, goneApps, st');
  }

  lemma FewerAreSound(st: State, goneApps: set<string>, st': State)
    requires Sound(st) && st'.lastChanged == st.lastChanged
    requires st'.apps == st.apps - goneApps && st'.drivers == st.drivers - goneApps
    requires forall k :: k in st'.pods ==>
               k in st.pods && st'.pods[k] == st.pods[k] && st.pods[k].applicationID !in goneApps
    ensures Sound(st')
  {
  }

  lemma PodEvictionKeepsApps(st: State, gone: set<string>)
    ensures WithoutPods(st, gone).apps == st.apps && DeletedApps(WithoutPods(st, gone)) == DeletedApps(st)
  {
  }

  /** After both passes each map is within its limit or has nothing left to evict, unless an application under the empty
      id was deleted. */
  lemma EvictionSettles(cfg: Config, st: State, goneApps: set<string>, gonePods: set<string>, st': State)
    requires Evicts(cfg, st, goneApps, gonePods, st') && "" !in DeletedApps(st)
    ensures Settled(cfg, st')
  {
    PodEvictionKeepsApps(WithoutApps(st, goneApps), gonePods);
    AppsSettle(cfg, st, goneApps);
    PodsSettle(cfg, WithoutApps(st, goneApps), gonePods);
  }

  /** A deleted application under the empty id can stop the eviction of one deleted after it. */
  lemma EmptyIdStopsEviction(cfg: Config, st: State)
    requires cfg.maxApps == 1 && st.pods == map[] && st.apps.Keys == {"", "a"}
    requires st.apps[""].deletedAt == Some(1) && st.apps["a"].deletedAt == Some(2)
    ensures Evicts(cfg, st, {}, {}, st) && !Settled(cfg, st)
    ensures exists st' :: Evicts(cfg, st, {"a"}, {}, st') && Settled(cfg, st')
  {
    NothingGone(st);
    EitherIsAllowed(cfg, st);
    OneIsEnough(cfg, st, WithoutApps(st, {"a"}));
  }

  lemma EitherIsAllowed(cfg: Config, st: State)
    requires cfg.maxApps == 1 && st.pods == map[] && st.apps.Keys == {"", "a"}
    requires st.apps[""].deletedAt == Some(1) && st.apps["a"].deletedAt == Some(2)
    ensures |st.apps| == 2 && DeletedApps(st) == {"", "a"} && Reclaimable(st) == {}
    ensures EvictsApps(cfg, st, {}) && EvictsApps(cfg, st, {"a"})
  {
    assert |{"", "a"}| == 2 && |st.apps| == |st.apps.Keys|;
    assert DeletedApps(st) == {"", "a"} && DeletedApps(st) - {""} == {"a"};
  }

  lemma OneIsEnough(cfg: Config, st: State, left: State)
    requires cfg.maxApps == 1 && st.pods == map[] && EvictsApps(cfg, st, {"a"}) && left == WithoutApps(st, {"a"})
    requires st.apps.Keys == {"", "a"} && |st.apps| == 2
    ensures Evicts(cfg, st, {"a"}, {}, left) && Settled(cfg, left)
  {
    NothingGone(left);
    AppsLeft(st, {"a"});
    assert Reclaimable(left) == {};
  }

  /** One observation with its evictions keeps every record sound and leaves the store settled. */
  lemma ObserveKeeps(cfg: Config, st: State, op: Op, st': State)
    requires op.Observe? && Plausible(op) && KnownPhase(op) && Tracked(op.pod) && Sound(st)
    requires Upserts(cfg, st, op.pod, op.deleted, op.bootstrap, op.now, op.goneApps, op.gonePods, st')
    ensures Sound(st') && Settled(cfg, st')
  {
    var recorded := Recorded(cfg, st, op.pod, op.deleted, op.bootstrap, op.now);
    RecordedIsSound(cfg, st, op);
    EvictedIsSound(cfg, recorded, op.goneApps, op.gonePods, st');
    EvictionSettles(cfg, recorded, op.goneApps, op.gonePods, st');
  }

  // ----- Import -----

  lemma Stamping(records: seq<ApplicationRecord>, order: seq<nat>, i: nat)
    requires BackfillOrder(records, order) && i < |records|
    ensures var stamped := StampInTurn(records, order, BackfillStart(records, order));
            && |stamped| == |records| && stamped[i] == records[i].(changedAt := stamped[i].changedAt)
            && (stamped[i].changedAt > 0 <==> records[i].changedAt >= 0)
  {
    BackfillRebuildsClock(EMPTY, records, order);
    if records[i].changedAt == 0 {
      var k :| 0 <= k < |order| && order[k] == i;
    }
  }

  /** The last record under an id is the one filed. */
  lemma {:induction false} IndexedAt(apps: map<string, ApplicationRecord>, records: seq<ApplicationRecord>, i: nat)
    requires i < |records| && LastApp(records, i)
    ensures Lookup(IndexApps(apps, records), records[i].applicationID) == Some(records[i])
  {
    var n := |records| - 1;
    if i < n {
      assert LastApp(records[..n], i);
      IndexedAt(apps, records[..n], i);
    }
  }

  /** A filed record is the last one under its id, or was there before. */
  lemma {:induction false} IndexedFrom(apps: map<string, ApplicationRecord>, records: seq<ApplicationRecord>,
                                       id: string) returns (from: Option<nat>)
    requires id in IndexApps(apps, records)
    ensures from.None? ==> id in apps && IndexApps(apps, records)[id] == apps[id]
    ensures from.Some? ==>
              && from.value < |records| && LastApp(records, from.value)
              && records[from.value].applicationID == id && IndexApps(apps, records)[id] == records[from.value]
  {
    if records == [] {
      from := None;
    } else {
      var n := |records| - 1;
      if records[n].applicationID == id {
        from := Some(n);
      } else {
        from := IndexedFrom(apps, records[..n], id);
      }
    }
  }

  lemma {:induction false} StaysIndexed(apps: map<string, ApplicationRecord>, records: seq<ApplicationRecord>,
                                        id: string)
    requires id in apps || exists i :: 0 <= i < |records| && records[i].applicationID == id
    ensures id in IndexApps(apps, records)
  {
    if records != [] {
      var n := |records| - 1;
      if records[n].applicationID != id {
        assert forall i :: 0 <= i < n ==> records[..n][i] == records[i];
        StaysIndexed(apps, records[..n], id);
      }
    }
  }

  lemma {:induction false} IngestedAt(st: State, records: seq<PodRecord>, i: nat)
    requires i < |records| && LastPod(records, i)
    ensures Lookup(IngestPods(st, records).pods, RecordKey(records[i])) == Some(records[i])
  {
    var n := |records| - 1;
    if i < n {
      assert LastPod(records[..n], i);
      IngestedAt(st, records[..n], i);
    }
  }

  lemma {:induction false} IngestedFrom(st: State, records: seq<PodRecord>, k: string) returns (from: Option<nat>)
    requires k in IngestPods(st, records).pods
    ensures from.None? ==> k in st.pods && IngestPods(st, records).pods[k] == st.pods[k]
    ensures from.Some? ==>
              && from.value < |records| && LastPod(records, from.value)
              && RecordKey(records[from.value]) == k && IngestPods(st, records).pods[k] == records[from.value]
  {
    if records == [] {
      from := None;
    } else {
      var n := |records| - 1;
      if RecordKey(records[n]) == k {
        from := Some(n);
      } else {
        from := IngestedFrom(st, records[..n], k);
      }
    }
  }

  lemma {:induction false} DriverIngested(st: State, records: seq<PodRecord>, i: nat)
    requires i < |records| && records[i].role == "driver"
    ensures records[i].applicationID in IngestPods(st, records).drivers
  {
    var n := |records| - 1;
    if i < n { DriverIngested(st, records[..n], i); }
  }

  lemma {:induction false} DriverFrom(st: State, records: seq<PodRecord>, a: string) returns (from: Option<nat>)
    requires a in IngestPods(st, records).drivers
    ensures from.None? ==> a in st.drivers
    ensures from.Some? ==>
              from.value < |records| && records[from.value].role == "driver" && records[from.value].applicationID == a
  {
    if records == [] {
      from := None;
    } else {
      var n := |records| - 1;
      if records[n].role == "driver" && records[n].applicationID == a {
        from := Some(n);
      } else {
        from := DriverFrom(st, records[..n], a);
      }
    }
  }

  lemma {:induction false} IngestedPodsKeepTheRest(st: State, records: seq<PodRecord>)
    ensures IngestPods(st, records).apps == st.apps && IngestPods(st, records).lastChanged == st.lastChanged
  {
    if records != [] { IngestedPodsKeepTheRest(st, records[..|records| - 1]); }
  }

  /** An application is filed after the import exactly when it is known. */
  lemma ImportedIsKnown(st: State, op: Op, id: string)
    requires op.Import? && BackfillOrder(op.apps, op.backfill)
    ensures id in Imported(st, op).apps <==> Known(st, op, id)
  {
    var stamped := StampInTurn(op.apps, op.backfill, BackfillStart(op.apps, op.backfill));
    IngestedPodsKeepTheRest(IngestApps(st, op.apps, op.backfill), op.pods);
    forall j | 0 <= j < |op.apps|
      ensures |stamped| == |op.apps| && stamped[j].applicationID == op.apps[j].applicationID
    {
      Stamping(op.apps, op.backfill, j);
    }
    if op.apps == [] { assert op.backfill == []; }
    if id in Imported(st, op).apps {
      var from := IndexedFrom(st.apps, stamped, id);
    } else if Known(st, op, id) {
      if id !in st.apps {
        var j :| 0 <= j < |op.apps| && op.apps[j].applicationID == id;
        assert stamped[j].applicationID == id;
      }
      StaysIndexed(st.apps, stamped, id);
    }
  }

  /** The record kept under the id of an imported one. */
  lemma ImportedApp(st: State, op: Op, i: nat)
    requires op.Import? && BackfillOrder(op.apps, op.backfill) && i < |op.apps| && LastApp(op.apps, i)
    ensures var id := op.apps[i].applicationID;
            id in Imported(st, op).apps && (AppHolds(id, Imported(st, op).apps[id]) <==> Writable(op.apps[i]))
  {
    var stamped := StampInTurn(op.apps, op.backfill, BackfillStart(op.apps, op.backfill));
    Stamping(op.apps, op.backfill, i);
    forall j | i < j < |op.apps|
      ensures stamped[j].applicationID != stamped[i].applicationID
    {
      Stamping(op.apps, op.backfill, j);
    }
    IndexedAt(st.apps, stamped, i);
    IngestedPodsKeepTheRest(IngestApps(st, op.apps, op.backfill), op.pods);
  }

  lemma ImportedAppFrom(st: State, op: Op, id: string) returns (from: Option<nat>)
    requires op.Import? && BackfillOrder(op.apps, op.backfill) && id in Imported(st, op).apps
    ensures from.None? ==> id in st.apps && Imported(st, op).apps[id] == st.apps[id]
    ensures from.Some? ==> from.value < |op.apps| && op.apps[from.value].applicationID == id
                           && LastApp(op.apps, from.value)
  {
    var stamped := StampInTurn(op.apps, op.backfill, BackfillStart(op.apps, op.backfill));
    IngestedPodsKeepTheRest(IngestApps(st, op.apps, op.backfill), op.pods);
    if op.apps == [] { assert op.backfill == []; }
    forall j | 0 <= j < |op.apps|
      ensures |stamped| == |op.apps| && stamped[j].applicationID == op.apps[j].applicationID
    {
      Stamping(op.apps, op.backfill, j);
    }
    from := IndexedFrom(st.apps, stamped, id);
  }

  lemma AppsOfImport(st: State, op: Op, id: string)
    requires op.Import? && BackfillOrder(op.apps, op.backfill) && Sound(st) && id in Imported(st, op).apps
    requires id !in op.goneApps && forall i :: 0 <= i < |op.apps| ==> AppFits(op, i)
    ensures AppHolds(id, Imported(st, op).apps[id])
  {
    var from := ImportedAppFrom(st, op, id);
    if from.Some? {
      assert AppFits(op, from.value);
      ImportedApp(st, op, from.value);
    }
  }

  lemma PodsOfImport(st: State, op: Op, k: string)
    requires op.Import? && BackfillOrder(op.apps, op.backfill) && Sound(st) && k in Imported(st, op).pods
    requires k !in op.gonePods && Imported(st, op).pods[k].applicationID !in op.goneApps
    requires forall i :: 0 <= i < |op.pods| ==> PodFits(st, op, i)
    ensures PodHolds(k, Imported(st, op).pods[k])
            && Imported(st, op).pods[k].applicationID in Imported(st, op).apps
  {
    var from := IngestedFrom(IngestApps(st, op.apps, op.backfill), op.pods, k);
    if from.Some? { assert PodFits(st, op, from.value); }
    ImportedIsKnown(st, op, Imported(st, op).pods[k].applicationID);
  }

  lemma DriversOfImport(st: State, op: Op, a: string)
    requires op.Import? && BackfillOrder(op.apps, op.backfill) && Sound(st) && a in Imported(st, op).drivers
    requires forall i :: 0 <= i < |op.pods| ==> PodFits(st, op, i)
    ensures a in Imported(st, op).apps
  {
    var from := DriverFrom(IngestApps(st, op.apps, op.backfill), op.pods, a);
    if from.Some? { assert PodFits(st, op, from.value); }
    ImportedIsKnown(st, op, a);
  }

  /** What both passes leave. */
  lemma Survivors(cfg: Config, st: State, goneApps: set<string>, gonePods: set<string>, st': State)
    requires Evicts(cfg, st, goneApps, gonePods, st')
    ensures goneApps <= st.apps.Keys && "" !in goneApps
    ensures st'.apps == st.apps - goneApps && st'.drivers == st.drivers - goneApps && st'.lastChanged == st.lastChanged
    ensures forall k :: k in st'.pods <==>
              k in st.pods && k !in gonePods && st.pods[k].applicationID !in goneApps
    ensures forall k :: k in st'.pods ==> st'.pods[k] == st.pods[k]
  {
  }

  /** Applications are evicted first: a pod record leaves before its application only if the store needs its room even
      after that. */
  lemma NoPodLeavesInVain(cfg: Config, st: State, goneApps: set<string>, gonePods: set<string>, st': State, k: string)
    requires Evicts(cfg, st, goneApps, gonePods, st')
    requires k in st.pods && k !in st'.pods && st.pods[k].applicationID in st'.apps
    ensures |st'.pods| >= cfg.maxPods
  {
    Survivors(cfg, st, goneApps, gonePods, st');
    PodPass(cfg, WithoutApps(st, goneApps), gonePods);
  }

  lemma ImportIsSound(cfg: Config, st: State, op: Op, st': State)
    requires op.Import? && BackfillOrder(op.apps, op.backfill) && Sound(st) && Importable(st, op)
    requires Evicts(cfg, Imported(st, op), op.goneApps, op.gonePods, st')
    ensures Sound(st')
  {
    var imported := Imported(st, op);
    Survivors(cfg, imported, op.goneApps, op.gonePods, st');
    IngestedPodsKeepTheRest(IngestApps(st, op.apps, op.backfill), op.pods);
    forall id | id in st'.apps
      ensures AppHolds(id, st'.apps[id])
    {
      AppsOfImport(st, op, id);
    }
    forall k | k in st'.pods
      ensures PodHolds(k, st'.pods[k]) && st'.pods[k].applicationID in st'.apps
    {
      PodsOfImport(st, op, k);
    }
    forall a | a in st'.drivers
      ensures a in st'.apps
    {
      DriversOfImport(st, op, a);
    }
  }

  lemma ImportSettles(cfg: Config, st: State, op: Op, st': State)
    requires op.Import? && BackfillOrder(op.apps, op.backfill) && Sound(st) && Importable(st, op)
    requires Evicts(cfg, Imported(st, op), op.goneApps, op.gonePods, st')
    ensures Settled(cfg, st')
  {
    ImportIsSound(cfg, st, op, st');
    Survivors(cfg, Imported(st, op), op.goneApps, op.gonePods, st');
    NoEmptyId(st');
    EvictionSettles(cfg, Imported(st, op), op.goneApps, op.gonePods, st');
  }

  lemma NoEmptyId(st: State)
    requires Sound(st)
    ensures "" !in st.apps
  {
  }

  /** An import, with its evictions, leaves a sound store sound exactly when it is importable. */
  lemma ImportSoundExactly(cfg: Config, st: State, op: Op, st': State)
    requires op.Import? && BackfillOrder(op.apps, op.backfill) && Sound(st)
    requires Evicts(cfg, Imported(st, op), op.goneApps, op.gonePods, st')
    ensures Sound(st') <==> Importable(st, op)
  {
    if Importable(st, op) {
      ImportIsSound(cfg, st, op, st');
    } else if Sound(st') {
      forall i | 0 <= i < |op.apps|
        ensures AppFits(op, i)
      {
        SoundNeedsApp(cfg, st, op, st', i);
      }
      forall i | 0 <= i < |op.pods|
        ensures PodFits(st, op, i)
      {
        SoundNeedsPod(cfg, st, op, st', i);
      }
    }
  }

  lemma SoundNeedsApp(cfg: Config, st: State, op: Op, st': State, i: nat)
    requires op.Import? && BackfillOrder(op.apps, op.backfill) && Sound(st') && i < |op.apps|
    requires Evicts(cfg, Imported(st, op), op.goneApps, op.gonePods, st')
    ensures AppFits(op, i)
  {
    Survivors(cfg, Imported(st, op), op.goneApps, op.gonePods, st');
    if LastApp(op.apps, i) && op.apps[i].applicationID !in op.goneApps {
      ImportedApp(st, op, i);
      assert op.apps[i].applicationID in st'.apps;
    }
  }

  lemma SoundNeedsPod(cfg: Config, st: State, op: Op, st': State, i: nat)
    requires op.Import? && BackfillOrder(op.apps, op.backfill) && Sound(st') && i < |op.pods|
    requires Evicts(cfg, Imported(st, op), op.goneApps, op.gonePods, st')
    ensures PodFits(st, op, i)
  {
    var half := IngestApps(st, op.apps, op.backfill);
    if op.pods[i].role == "driver" {
      DriverIngested(half, op.pods, i);
      IndexedDriverIsKnown(cfg, Imported(st, op), op, st', op.pods[i].applicationID);
    }
    if LastPod(op.pods, i) && RecordKey(op.pods[i]) !in op.gonePods && op.pods[i].applicationID !in op.goneApps {
      IngestedAt(half, op.pods, i);
      SurvivingPodHolds(cfg, Imported(st, op), op, st', RecordKey(op.pods[i]));
    }
    ImportedIsKnown(st, op, op.pods[i].applicationID);
  }

  lemma IndexedDriverIsKnown(cfg: Config, imported: State, op: Op, st': State, a: string)
    requires op.Import? && Sound(st') && Evicts(cfg, imported, op.goneApps, op.gonePods, st') && a in imported.drivers
    ensures a in imported.apps
  {
    Survivors(cfg, imported, op.goneApps, op.gonePods, st');
    assert a !in op.goneApps ==> a in st'.drivers;
  }

  lemma SurvivingPodHolds(cfg: Config, imported: State, op: Op, st': State, k: string)
    requires op.Import? && Sound(st') && Evicts(cfg, imported, op.goneApps, op.gonePods, st')
    requires k in imported.pods && k !in op.gonePods && imported.pods[k].applicationID !in op.goneApps
    ensures PodHolds(k, imported.pods[k]) && imported.pods[k].applicationID in imported.apps
  {
    Survivors(cfg, imported, op.goneApps, op.gonePods, st');
    assert k in st'.pods;
  }

  /** The record of a live driver. */
  function DriverRecord(uid: string, app: string): PodRecord {
    PodRecord(uid, "", app, "ns", uid, "", "driver", "", map[], "Running", "running", 7, None, None, None, 7, 7, None)
  }

  lemma OrphanAlone(op: Op)
    requires op == Import([], [DriverRecord("u", "a")], [], {}, {})
    ensures Imported(EMPTY, op) == EMPTY.(pods := map["u" := DriverRecord("u", "a")], drivers := map["a" := "u"])
  {
    assert op.pods[..0] == [];
  }

  /** A live pod record without its application, imported into an empty store. */
  lemma OrphanBreaksImport(cfg: Config, op: Op)
    requires op == Import([], [DriverRecord("u", "a")], [], {}, {})
    ensures Evicts(cfg, Imported(EMPTY, op), {}, {}, Imported(EMPTY, op))
    ensures Sound(EMPTY) && !Sound(Imported(EMPTY, op))
  {
    OrphanAlone(op);
    var st := EMPTY.(pods := map["u" := DriverRecord("u", "a")], drivers := map["a" := "u"]);
    assert DeletedApps(st) == {} && Reclaimable(st) == {};
    NothingGone(st);
    assert st.pods["u"].applicationID !in st.apps;
  }

  // ----- Restarts -----

  lemma SoundIsFiled(st: State)
    requires Sound(st)
    ensures Filed(st)
  {
  }

  lemma StampIsSound(cfg: Config, st: State)
    requires Sound(st)
    ensures Sound(StampCluster(cfg, st))
  {
    StampKeepsTheRest(cfg, st);
    ReclusteredIsSound(st, StampCluster(cfg, st));
  }

  lemma ReclusteredIsSound(st: State, st': State)
    requires Sound(st) && st'.apps.Keys == st.apps.Keys && st'.pods.Keys == st.pods.Keys
    requires st'.drivers == st.drivers && st'.lastChanged == st.lastChanged
    requires forall id :: id in st.apps ==> st'.apps[id] == st.apps[id].(cluster := st'.apps[id].cluster)
    requires forall k :: k in st.pods ==> st'.pods[k] == st.pods[k].(cluster := st'.pods[k].cluster)
    ensures Sound(st')
  {
  }

  lemma RestartKeeps(cfg: Config, saved: State, file: Snapshot, order: seq<nat>)
    requires Sound(saved) && Snapshots(file, saved) && BackfillOrder(file.apps, order)
    ensures Sound(Loaded(cfg, file, order))
  {
    SoundIsFiled(saved);
    ReloadRestores(saved, file, order);
    SameRecordsSound(saved, Restored(file, order));
    StampIsSound(cfg, Restored(file, order));
  }

  lemma SameRecordsSound(a: State, b: State)
    requires Sound(a) && b == State(a.apps, a.pods, b.drivers, b.lastChanged) && b.lastChanged >= 0
    requires IndexesDrivers(b.pods, b.drivers)
    ensures Sound(b)
  {
  }

  /** A restart under limits no lower than before finds the store settled. */
  lemma RestartSettles(cfg: Config, before: Config, saved: State, file: Snapshot, order: seq<nat>)
    requires Sound(saved) && Snapshots(file, saved) && BackfillOrder(file.apps, order)
    requires Settled(before, saved) && before.maxApps <= cfg.maxApps && before.maxPods <= cfg.maxPods
    ensures Settled(cfg, Loaded(cfg, file, order)) && Settled(cfg, saved)
  {
    SoundIsFiled(saved);
    ReloadRestores(saved, file, order);
    SameRecordsSettled(cfg, saved, Restored(file, order));
    StampSettles(cfg, Restored(file, order));
  }

  lemma SameRecordsSettled(cfg: Config, a: State, b: State)
    requires Settled(cfg, a) && b == State(a.apps, a.pods, b.drivers, b.lastChanged)
    ensures Settled(cfg, b)
  {
    assert DeletedApps(a) == DeletedApps(b) && Reclaimable(a) == Reclaimable(b);
  }

  lemma StampSettles(cfg: Config, st: State)
    requires Settled(cfg, st)
    ensures Settled(cfg, StampCluster(cfg, st))
  {
    var st' := StampCluster(cfg, st);
    StampKeepsTheRest(cfg, st);
    assert |st'.apps| == |st'.apps.Keys| && |st'.pods| == |st'.pods.Keys|;
    assert DeletedApps(st') == DeletedApps(st);
    assert Reclaimable(st') == Reclaimable(st);
  }

  // ----- Whole runs -----

  lemma StepKeeps(m: Machine, op: Op, m': Machine)
    requires MachineHolds(m) && Admits(m.st, op) && Steps(m, op, m')
    ensures MachineHolds(m')
  {
    match op
    case Observe(pod, _, _, _, _, _) => if Tracked(pod) { ObserveKeeps(m.cfg, m.st, op, m'.st); }
    case Import(apps, pods, _, _, _) => if apps != [] || pods != [] { ImportIsSound(m.cfg, m.st, op, m'.st); }
    case Save(_) =>
    case Restart(cfg, file, order) => if m.disk.Some? { RestartKeeps(cfg, m.disk.value, file, order); }
  }

  lemma HoldsAfter(trace: seq<Machine>, ops: seq<Op>, n: nat)
    requires Segment(trace, ops) && n < |ops| && MachineHolds(trace[n])
    ensures MachineHolds(trace[n + 1])
  {
    assert StepAt(trace, ops, n);
    StepKeeps(trace[n], ops[n], trace[n + 1]);
  }

  /** In every state of every run, whatever is observed, evicted, imported, saved and reloaded, under whatever
      configuration: records are filed under their own non-empty id, every pod's application exists, and the lifecycle
      holds; in memory and on disk. */
  lemma {:induction false} RunHolds(trace: seq<Machine>, ops: seq<Op>, n: nat)
    requires Segment(trace, ops) && MachineHolds(trace[0]) && n <= |ops|
    ensures MachineHolds(trace[n])
  {
    if n > 0 {
      RunHolds(trace, ops, n - 1);
      HoldsAfter(trace, ops, n - 1);
    }
  }

  /** A restart that does not lower a limit. */
  predicate LimitsKept(m: Machine, op: Op) {
    op.Restart? ==> m.cfg.maxApps <= op.cfg.maxApps && m.cfg.maxPods <= op.cfg.maxPods
  }

  lemma EmptyIsSettled(cfg: Config)
    ensures Sound(EMPTY) && Settled(cfg, EMPTY)
  {
  }

  lemma StepSettles(m: Machine, op: Op, m': Machine)
    requires MachineHolds(m) && MachineSettled(m) && LimitsKept(m, op) && Admits(m.st, op) && Steps(m, op, m')
    ensures MachineSettled(m')
  {
    match op
    case Observe(pod, _, _, _, _, _) => if Tracked(pod) { ObserveKeeps(m.cfg, m.st, op, m'.st); }
    case Import(apps, pods, _, _, _) => if apps != [] || pods != [] { ImportSettles(m.cfg, m.st, op, m'.st); }
    case Save(_) =>
    case Restart(cfg, file, order) =>
      if m.disk.Some? { RestartSettles(cfg, m.cfg, m.disk.value, file, order); } else { EmptyIsSettled(cfg); }
  }

  lemma SettlesAt(trace: seq<Machine>, ops: seq<Op>, n: nat)
    requires Segment(trace, ops) && MachineHolds(trace[0]) && n < |ops|
    requires MachineSettled(trace[n]) && LimitsKept(trace[n], ops[n])
    ensures MachineSettled(trace[n + 1])
  {
    RunHolds(trace, ops, n);
    assert StepAt(trace, ops, n);
    StepSettles(trace[n], ops[n], trace[n + 1]);
  }

  /** As long as no restart lowers a limit, both maps are always within their limit or with nothing left to evict. */
  lemma {:induction false} RunSettled(trace: seq<Machine>, ops: seq<Op>, n: nat)
    requires Segment(trace, ops) && MachineHolds(trace[0]) && MachineSettled(trace[0]) && n <= |ops|
    requires forall i {:trigger ops[i]} :: 0 <= i < |ops| ==> LimitsKept(trace[i], ops[i])
    ensures MachineSettled(trace[n])
  {
    if n > 0 {
      RunSettled(trace, ops, n - 1);
      SettlesAt(trace, ops, n - 1);
    }
  }

  /** In terms of the records: over its limit, a store holds no deleted application, or no deleted pod record but those
      of drivers of known applications. */
  predicate OnlyNeeded(cfg: Config, st: State) {
    && (|st.apps| > cfg.maxApps ==> forall id :: id in st.apps ==> st.apps[id].deletedAt.None?)
    && (|st.pods| > cfg.maxPods ==> forall k :: k in st.pods && st.pods[k].deletedAt.Some? ==>
          st.pods[k].role == "driver" && st.pods[k].applicationID in st.apps)
  }

  /** So it is in every state of such a run, in memory and on disk. */
  lemma RunHoldsOnlyNeeded(trace: seq<Machine>, ops: seq<Op>, n: nat)
    requires Segment(trace, ops) && MachineHolds(trace[0]) && MachineSettled(trace[0]) && n <= |ops|
    requires forall i {:trigger ops[i]} :: 0 <= i < |ops| ==> LimitsKept(trace[i], ops[i])
    ensures OnlyNeeded(trace[n].cfg, trace[n].st)
    ensures trace[n].disk.Some? ==> OnlyNeeded(trace[n].cfg, trace[n].disk.value)
  {
    RunSettled(trace, ops, n);
    SettledIsNeeded(trace[n].cfg, trace[n].st);
    if trace[n].disk.Some? { SettledIsNeeded(trace[n].cfg, trace[n].disk.value); }
  }

  lemma SettledIsNeeded(cfg: Config, st: State)
    ensures Settled(cfg, st) <==> OnlyNeeded(cfg, st)
  {
    forall id
      ensures id in DeletedApps(st) <==> id in st.apps && st.apps[id].deletedAt.Some?
    {
    }
    forall k
      ensures k in Reclaimable(st) <==> k in st.pods && Expendable(st, st.pods[k])
    {
    }
  }

  /** A new store starts that way. */
  lemma RunsStartSound(trace: seq<Machine>, ops: seq<Op>)
    requires Runs(trace, ops)
    ensures MachineHolds(trace[0]) && MachineSettled(trace[0])
  {
    EmptyIsSettled(trace[0].cfg);
  }
}
