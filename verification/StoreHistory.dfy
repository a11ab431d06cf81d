/** What a stretch of a run leaves alone: set-once times, bootstrapped records, replays, and all but one per
    eviction. */
module StoreHistory {
  import opened Prelude
  import opened Kubernetes
  import opened StoreState
  import opened Persistence
  import opened StoreRuns
  import opened StoreTheorems

  /** Retained in every state of a stretch. */
  predicate Retained(trace: seq<Machine>, id: string) {
    forall i :: 0 <= i < |trace| ==> id in trace[i].st.apps
  }

  // ----- Set-once times -----

  /** A finish time, a deletion time and a namespace, once known, stay; so does the time the application was first seen,
      and its creation only moves back. */
  predicate KeepsOnce(a: ApplicationRecord, b: ApplicationRecord) {
    && b.firstSeenAt == a.firstSeenAt && b.createdAt <= a.createdAt
    && (a.finishedAt.Some? ==> b.finishedAt == a.finishedAt)
    && (a.deletedAt.Some? ==> b.deletedAt == a.deletedAt)
    && (a.namespace != "" ==> b.namespace == a.namespace)
  }

  /** A restart finds in the file what the record in memory had settled; an import leaves the record alone. */
  predicate FileKeeps(m: Machine, op: Op, id: string)
    requires id in m.st.apps
  {
    && !op.Import?
    && (op.Restart? ==> m.disk.Some? && id in m.disk.value.apps && KeepsOnce(m.st.apps[id], m.disk.value.apps[id]))
  }

  lemma ObserveKeepsTimes(cfg: Config, st: State, op: Op, st': State, id: string)
    requires op.Observe? && id in st.apps && id in st'.apps
    requires Upserts(cfg, st, op.pod, op.deleted, op.bootstrap, op.now, op.goneApps, op.gonePods, st')
    ensures KeepsOnce(st.apps[id], st'.apps[id])
  {
    AppsPassThrough(cfg, st, op, st');
  }

  /** The applications after a restart are those on file, up to the cluster; none is stamped above the clock. */
  lemma RestartedApps(m: Machine, op: Op, m': Machine)
    requires op.Restart? && MachineHolds(m) && Steps(m, op, m')
    ensures m'.disk == m.disk && m'.st.apps.Keys == OnFile(m).apps.Keys
    ensures forall id :: id in m'.st.apps ==>
              && m'.st.apps[id] == OnFile(m).apps[id].(cluster := m'.st.apps[id].cluster)
              && m'.st.apps[id].changedAt <= m'.st.lastChanged
  {
    if m.disk.Some? {
      SoundIsFiled(m.disk.value);
      ReloadRestores(m.disk.value, op.file, op.order);
      StampKeepsTheRest(op.cfg, Restored(op.file, op.order));
      RestartDominates(op.cfg, m.disk.value, op.file, op.order, 1);
    }
  }

  /** A restart keeps them exactly when the file had them. */
  lemma RestartKeepsExactly(m: Machine, op: Op, m': Machine, id: string)
    requires op.Restart? && MachineHolds(m) && Steps(m, op, m') && id in m.st.apps && id in m'.st.apps
    ensures KeepsOnce(m.st.apps[id], m'.st.apps[id]) <==> FileKeeps(m, op, id)
  {
    RestartedApps(m, op, m');
    ClusterAside(m.st.apps[id], OnFile(m).apps[id], m'.st.apps[id]);
  }

  lemma ClusterAside(a: ApplicationRecord, file: ApplicationRecord, b: ApplicationRecord)
    requires b == file.(cluster := b.cluster)
    ensures KeepsOnce(a, b) <==> KeepsOnce(a, file)
  {
  }

  /** A running application as a file may hold it. */
  function RunningApp(id: string): ApplicationRecord {
    ApplicationRecord(id, "", "", "", "ns", "", "running", 7, 7, 7, 7, None, None)
  }

  /** The same, finished. */
  function FinishedApp(id: string): ApplicationRecord {
    RunningApp(id).(status := "succeeded", finishedAt := Some(9), changedAt := 9)
  }

  lemma AloneIsSound(rec: ApplicationRecord)
    requires AppHolds(rec.applicationID, rec)
    ensures Sound(EMPTY.(apps := map[rec.applicationID := rec]))
  {
  }

  /** A crash between the finish and the next save: the restart has forgotten the finish. */
  lemma RestartCanForget(m: Machine, op: Op, m': Machine)
    requires m.st == EMPTY.(apps := map["a" := FinishedApp("a")])
    requires m.disk == Some(EMPTY.(apps := map["a" := RunningApp("a")]))
    requires op == Restart(m.cfg, Snapshot([RunningApp("a")], []), []) && Steps(m, op, m')
    ensures MachineHolds(m) && "a" in m'.st.apps && !KeepsOnce(m.st.apps["a"], m'.st.apps["a"])
  {
    AloneIsSound(FinishedApp("a"));
    AloneIsSound(RunningApp("a"));
    RestartedApps(m, op, m');
    FinishIsForgotten(m'.st.apps["a"]);
  }

  lemma FinishIsForgotten(rec: ApplicationRecord)
    requires rec == RunningApp("a").(cluster := rec.cluster)
    ensures !KeepsOnce(FinishedApp("a"), rec)
  {
  }

  /** That restart is a step. */
  lemma ForgettingIsAStep(m: Machine, op: Op)
    requires m.disk == Some(EMPTY.(apps := map["a" := RunningApp("a")]))
    requires op == Restart(m.cfg, Snapshot([RunningApp("a")], []), [])
    ensures exists m' :: Steps(m, op, m')
  {
    var saved, file := m.disk.value, op.file;
    assert saved.apps["a"] in saved.apps.Values;
    assert Snapshots(file, saved);
    assert BackfillOrder(file.apps, []);
    var st := Loaded(op.cfg, file, []);
    assert Steps(m, op, Machine(op.cfg, st, st != Restored(file, []), m.disk));
  }

  lemma StepKeepsTimes(m: Machine, op: Op, m': Machine, id: string)
    requires MachineHolds(m) && Steps(m, op, m') && id in m.st.apps && id in m'.st.apps && FileKeeps(m, op, id)
    ensures KeepsOnce(m.st.apps[id], m'.st.apps[id])
  {
    match op
    case Observe(pod, _, _, _, _, _) => if Tracked(pod) { ObserveKeepsTimes(m.cfg, m.st, op, m'.st, id); }
    case Import(_, _, _, _, _) =>
    case Save(_) =>
    case Restart(_, _, _) => RestartKeepsExactly(m, op, m', id);
  }

  /** The record of an application in every state of a stretch. */
  function Versions(trace: seq<Machine>, id: string): (recs: seq<ApplicationRecord>)
    requires Retained(trace, id)
    ensures |recs| == |trace| && forall k :: 0 <= k < |recs| ==> recs[k] == trace[k].st.apps[id]
  {
    seq(|trace|, k requires 0 <= k < |trace| => trace[k].st.apps[id])
  }

  lemma {:induction false} KeepsOnceChain(recs: seq<ApplicationRecord>, i: nat, j: nat)
    requires i <= j < |recs| && forall k {:trigger recs[k]} :: 0 < k < |recs| ==> KeepsOnce(recs[k - 1], recs[k])
    ensures KeepsOnce(recs[i], recs[j])
    decreases j
  {
    if i < j { KeepsOnceChain(recs, i, j - 1); }
  }

  /** Finish time, deletion time and namespace are set once while the record is retained, over any stretch of a run. */
  lemma TimesSetOnce(trace: seq<Machine>, ops: seq<Op>, id: string, i: nat, j: nat)
    requires Segment(trace, ops) && MachineHolds(trace[0]) && Retained(trace, id) && i <= j <= |ops|
    requires forall k {:trigger ops[k]} :: 0 <= k < |ops| ==> FileKeeps(trace[k], ops[k], id)
    ensures KeepsOnce(trace[i].st.apps[id], trace[j].st.apps[id])
  {
    var recs := Versions(trace, id);
    forall k {:trigger recs[k]} | 0 < k < |recs|
      ensures KeepsOnce(recs[k - 1], recs[k])
    {
      KeepsOnceAt(trace, ops, id, k - 1);
    }
    KeepsOnceChain(recs, i, j);
  }

  lemma KeepsOnceAt(trace: seq<Machine>, ops: seq<Op>, id: string, k: nat)
    requires Segment(trace, ops) && MachineHolds(trace[0]) && Retained(trace, id) && k < |ops|
    requires FileKeeps(trace[k], ops[k], id)
    ensures KeepsOnce(trace[k].st.apps[id], trace[k + 1].st.apps[id])
  {
    RunHolds(trace, ops, k);
    assert StepAt(trace, ops, k);
    StepKeepsTimes(trace[k], ops[k], trace[k + 1], id);
  }

  // ----- Bootstrap -----

  predicate Bootstraps(op: Op) {
    op.Observe? && op.bootstrap
  }

  /** A bootstrap deletes nothing: every deletion time was there before. */
  predicate NothingDeleted(a: State, b: State) {
    && (forall id :: id in b.apps && b.apps[id].deletedAt.Some? ==>
          id in a.apps && a.apps[id].deletedAt == b.apps[id].deletedAt)
    && (forall k :: k in b.pods && b.pods[k].deletedAt.Some? ==>
          k in a.pods && a.pods[k].deletedAt == b.pods[k].deletedAt)
  }

  lemma AppBootstrapped(cfg: Config, st: State, op: Op)
    requires Bootstraps(op) && Plausible(op)
    ensures var st' := UpsertApp(cfg, st, op.pod, op.deleted, op.bootstrap, op.now);
            && st'.lastChanged == st.lastChanged && st'.pods == st.pods && NothingDeleted(st, st')
            && forall id :: id in st.apps ==>
                 st'.apps[id].changedAt == st.apps[id].changedAt && st'.apps[id].deletedAt == st.apps[id].deletedAt
  {
  }

  lemma PodBootstrapped(cfg: Config, st: State, op: Op)
    requires Bootstraps(op) && Plausible(op)
    ensures var st' := UpsertPod(cfg, st, op.pod, op.deleted, op.bootstrap, op.now);
            st'.lastChanged == st.lastChanged && st'.apps == st.apps && NothingDeleted(st, st')
  {
  }

  lemma EvictionDeletesNothing(cfg: Config, st: State, goneApps: set<string>, gonePods: set<string>, st': State)
    requires Evicts(cfg, st, goneApps, gonePods, st')
    ensures st'.lastChanged == st.lastChanged && st'.apps == st.apps - goneApps && NothingDeleted(st, st')
  {
  }

  lemma BootstrapStep(m: Machine, op: Op, m': Machine)
    requires Bootstraps(op) && Plausible(op) && Steps(m, op, m')
    ensures m'.st.lastChanged == m.st.lastChanged
    ensures NothingDeleted(m.st, m'.st)
    ensures forall id :: id in m.st.apps && id in m'.st.apps ==>
              m'.st.apps[id].changedAt == m.st.apps[id].changedAt && m'.st.apps[id].deletedAt == m.st.apps[id].deletedAt
  {
    if Tracked(op.pod) {
      var half := UpsertApp(m.cfg, m.st, op.pod, op.deleted, op.bootstrap, op.now);
      var recorded := UpsertPod(m.cfg, half, op.pod, op.deleted, op.bootstrap, op.now);
      AppBootstrapped(m.cfg, m.st, op);
      PodBootstrapped(m.cfg, half, op);
      EvictionDeletesNothing(m.cfg, recorded, op.goneApps, op.gonePods, m'.st);
    }
  }

  /** Any sequence of bootstraps leaves the clock, and the change and deletion times of every record retained
      throughout, unchanged, and marks nothing deleted. */
  lemma {:induction false} BootstrapFrame(trace: seq<Machine>, ops: seq<Op>, n: nat)
    requires Segment(trace, ops) && n <= |ops| && forall i :: 0 <= i < |ops| ==> Bootstraps(ops[i])
    ensures trace[n].st.lastChanged == trace[0].st.lastChanged
    ensures NothingDeleted(trace[0].st, trace[n].st)
    ensures forall id :: Retained(trace, id) ==>
              && trace[n].st.apps[id].changedAt == trace[0].st.apps[id].changedAt
              && trace[n].st.apps[id].deletedAt == trace[0].st.apps[id].deletedAt
  {
    if n > 0 {
      BootstrapFrame(trace, ops, n - 1);
      BootstrapAt(trace, ops, n - 1);
    }
    forall id | Retained(trace, id)
      ensures SameTimes(trace[0].st, trace[n].st, id)
    {
      RetainedFrame(trace, ops, id, n);
    }
  }

  /** Change and deletion time of the record are the same in both states. */
  predicate SameTimes(a: State, b: State, id: string) {
    && id in a.apps && id in b.apps
    && b.apps[id].changedAt == a.apps[id].changedAt && b.apps[id].deletedAt == a.apps[id].deletedAt
  }

  lemma BootstrapAt(trace: seq<Machine>, ops: seq<Op>, n: nat)
    requires Segment(trace, ops) && n < |ops| && Bootstraps(ops[n])
    ensures trace[n + 1].st.lastChanged == trace[n].st.lastChanged
    ensures NothingDeleted(trace[n].st, trace[n + 1].st)
    ensures forall id :: id in trace[n].st.apps && id in trace[n + 1].st.apps ==>
              SameTimes(trace[n].st, trace[n + 1].st, id)
  {
    assert StepAt(trace, ops, n);
    BootstrapStep(trace[n], ops[n], trace[n + 1]);
  }

  lemma {:induction false} RetainedFrame(trace: seq<Machine>, ops: seq<Op>, id: string, n: nat)
    requires Segment(trace, ops) && n <= |ops| && forall i :: 0 <= i < |ops| ==> Bootstraps(ops[i])
    requires Retained(trace, id)
    ensures SameTimes(trace[0].st, trace[n].st, id)
  {
    if n > 0 {
      RetainedFrame(trace, ops, id, n - 1);
      BootstrapAt(trace, ops, n - 1);
    }
  }

  /** The anchor of a new record: its finish time, else the pod's creation, else the time of the call. */
  lemma BootstrapAnchors(cfg: Config, st: State, op: Op, st': State)
    requires Bootstraps(op) && Plausible(op) && Tracked(op.pod) && AppId(op.pod) !in st.apps
             && AppId(op.pod) in st'.apps
    requires Upserts(cfg, st, op.pod, op.deleted, op.bootstrap, op.now, op.goneApps, op.gonePods, st')
    ensures var (rec, finish) := (st'.apps[AppId(op.pod)], ContainerTimes(op.pod).1);
            if IsDriver(op.pod) && Terminal(op.pod) then rec.changedAt
                == (if finish.Some? then finish.value else op.now)
            else rec.changedAt == (if op.pod.creation != 0 then op.pod.creation else op.now)
  {
    AppsPassThrough(cfg, st, op, st');
  }

  // ----- What is reported -----

  /** The change stamp moves on these occasions only: a new application, or a driver whose status differs, or whose
      finish or deletion is the first; executors of known applications never move it. */
  lemma ReportsExactly(cfg: Config, st: State, op: Op)
    requires op.Observe? && Tracked(op.pod)
    ensures Reports(cfg, st, op.pod, op.deleted, op.bootstrap, op.now) <==>
              !op.bootstrap
              && (AppId(op.pod) !in st.apps
                  || (SparkRole(op.pod) == "driver"
                      && (st.apps[AppId(op.pod)].status != PodStatus(op.pod, op.deleted)
                          || ((op.deleted || Terminal(op.pod)) && st.apps[AppId(op.pod)].finishedAt.None?)
                          || (op.deleted && st.apps[AppId(op.pod)].deletedAt.None?))))
  {
  }

  // ----- What a pod record tells -----

  /** The record describes this pod as it was observed. */
  predicate Tells(rec: PodRecord, pod: Pod, deleted: bool) {
    && rec.applicationID == AppId(pod) && rec.role == SparkRole(pod) && rec.executorID == Label(pod, "spark-exec-id")
    && rec.namespace == pod.namespace && rec.name == pod.name && rec.node == pod.node && rec.labels == pod.labels
    && rec.phase == pod.phase && rec.status == PodStatus(pod, deleted)
    && (pod.creation != 0 ==> rec.createdAt <= pod.creation)
    && (ContainerTimes(pod).0.Some? ==> rec.containerStartedAt == ContainerTimes(pod).0)
    && (pod.deletion.Some? ==> rec.deletionTimestamp == pod.deletion)
  }

  /** A step that leaves a pod record to the file at most. */
  predicate LeavesPod(m: Machine, op: Op, key: string)
    requires key in m.st.pods
  {
    && !op.Import?
    && (op.Observe? && Tracked(op.pod) ==> PodKey(op.pod) != key)
    && (op.Restart? ==> m.disk.Some? && key in m.disk.value.pods && m.disk.value.pods[key] == m.st.pods[key])
  }

  lemma ObservedPodTells(cfg: Config, st: State, op: Op, st': State)
    requires op.Observe? && PodKey(op.pod) in st'.pods
    requires Upserts(cfg, st, op.pod, op.deleted, op.bootstrap, op.now, op.goneApps, op.gonePods, st')
    ensures Tells(st'.pods[PodKey(op.pod)], op.pod, op.deleted)
  {
    PodsPassThrough(cfg, st, op, st');
  }

  lemma ObserveLeavesPod(cfg: Config, st: State, op: Op, st': State, key: string)
    requires op.Observe? && PodKey(op.pod) != key && key in st.pods && key in st'.pods
    requires Upserts(cfg, st, op.pod, op.deleted, op.bootstrap, op.now, op.goneApps, op.gonePods, st')
    ensures st'.pods[key] == st.pods[key]
  {
    PodsPassThrough(cfg, st, op, st');
  }

  lemma StepLeavesPod(m: Machine, op: Op, m': Machine, key: string)
    requires MachineHolds(m) && Steps(m, op, m') && key in m.st.pods && key in m'.st.pods && LeavesPod(m, op, key)
    ensures m'.st.pods[key] == m.st.pods[key].(cluster := m'.st.pods[key].cluster)
  {
    match op
    case Observe(pod, _, _, _, _, _) => if Tracked(pod) { ObserveLeavesPod(m.cfg, m.st, op, m'.st, key); }
    case Import(_, _, _, _, _) =>
    case Save(_) =>
    case Restart(cfg, file, order) => RestartedPods(m, op, m');
  }

  lemma RestartedPods(m: Machine, op: Op, m': Machine)
    requires op.Restart? && m.disk.Some? && MachineHolds(m) && Steps(m, op, m')
    ensures forall k :: k in m'.st.pods ==>
              k in m.disk.value.pods && m'.st.pods[k] == m.disk.value.pods[k].(cluster := m'.st.pods[k].cluster)
  {
    SoundIsFiled(m.disk.value);
    ReloadRestores(m.disk.value, op.file, op.order);
    StampKeepsTheRest(op.cfg, Restored(op.file, op.order));
  }

  /** The pod record is there after every step from `i` to `j`. */
  predicate PodStays(trace: seq<Machine>, key: string, i: nat, j: nat) {
    i < j < |trace| && forall k :: i < k <= j ==> key in trace[k].st.pods
  }

  ghost predicate LeftBetween(trace: seq<Machine>, ops: seq<Op>, key: string, i: nat, j: nat)
    requires |trace| == |ops| + 1 && PodStays(trace, key, i, j)
  {
    forall k {:trigger LeftAt(trace, ops, key, k)} :: i < k < j ==>
      key in trace[k].st.pods && LeftAt(trace, ops, key, k)
  }

  ghost predicate LeftAt(trace: seq<Machine>, ops: seq<Op>, key: string, k: nat)
    requires |trace| == |ops| + 1 && k < |ops| && key in trace[k].st.pods
  {
    LeavesPod(trace[k], ops[k], key)
  }

  lemma PodToldAt(trace: seq<Machine>, ops: seq<Op>, i: nat)
    requires Segment(trace, ops) && i < |ops| && ops[i].Observe? && Tracked(ops[i].pod)
    requires PodKey(ops[i].pod) in trace[i + 1].st.pods
    ensures Tells(trace[i + 1].st.pods[PodKey(ops[i].pod)], ops[i].pod, ops[i].deleted)
  {
    assert StepAt(trace, ops, i);
    ObservedPodTells(trace[i].cfg, trace[i].st, ops[i], trace[i + 1].st);
  }

  /** The pod record is there and tells this observation. */
  predicate ToldAt(trace: seq<Machine>, pod: Pod, deleted: bool, k: nat)
    requires k < |trace|
  {
    PodKey(pod) in trace[k].st.pods && Tells(trace[k].st.pods[PodKey(pod)], pod, deleted)
  }

  lemma StillTold(trace: seq<Machine>, ops: seq<Op>, k: nat, pod: Pod, deleted: bool)
    requires Segment(trace, ops) && MachineHolds(trace[0]) && k < |ops| && ToldAt(trace, pod, deleted, k)
    requires PodKey(pod) in trace[k + 1].st.pods && LeavesPod(trace[k], ops[k], PodKey(pod))
    ensures ToldAt(trace, pod, deleted, k + 1)
  {
    PodLeftAt(trace, ops, k, PodKey(pod));
  }

  lemma PodLeftAt(trace: seq<Machine>, ops: seq<Op>, k: nat, key: string)
    requires Segment(trace, ops) && MachineHolds(trace[0]) && k < |ops|
    requires key in trace[k].st.pods && key in trace[k + 1].st.pods && LeavesPod(trace[k], ops[k], key)
    ensures trace[k + 1].st.pods[key] == trace[k].st.pods[key].(cluster := trace[k + 1].st.pods[key].cluster)
  {
    RunHolds(trace, ops, k);
    assert StepAt(trace, ops, k);
    StepLeavesPod(trace[k], ops[k], trace[k + 1], key);
  }

  /** A retained pod record tells the last observation of its key: nothing else in a run touches it. */
  lemma {:induction false} PodTellsLast(trace: seq<Machine>, ops: seq<Op>, i: nat, j: nat)
    requires Segment(trace, ops) && MachineHolds(trace[0]) && i < j <= |ops| && ops[i].Observe? && Tracked(ops[i].pod)
    requires PodStays(trace, PodKey(ops[i].pod), i, j) && LeftBetween(trace, ops, PodKey(ops[i].pod), i, j)
    ensures ToldAt(trace, ops[i].pod, ops[i].deleted, j)
    decreases j
  {
    if j == i + 1 {
      PodToldAt(trace, ops, i);
    } else {
      PodTellsLast(trace, ops, i, j - 1);
      assert LeftAt(trace, ops, PodKey(ops[i].pod), j - 1);
      StillTold(trace, ops, j - 1, ops[i].pod, ops[i].deleted);
    }
  }

  // ----- Replays -----

  /** Both records already say what the observation would make them say, apart from their update times. */
  predicate Reflects(cfg: Config, st: State, op: Op)
    requires op.Observe?
  {
    var (id, key) := (AppId(op.pod), PodKey(op.pod));
    && id in st.apps && AppAfter(cfg, st, op.pod, op.deleted, op.now) == st.apps[id]
    && key in st.pods && PodSeen(cfg, st.pods[key], op.pod, op.deleted, false, op.now)
        == st.pods[key].(lastUpdatedAt := op.now)
    && (IsDriver(op.pod) ==> Lookup(st.drivers, id) == Some(key))
  }

  /** Only the two update times differ. */
  function Refreshed(st: State, id: string, key: string, now: Time): State
    requires id in st.apps && key in st.pods
  {
    st.(apps := st.apps[id := st.apps[id].(lastUpdatedAt := now)],
        pods := st.pods[key := st.pods[key].(lastUpdatedAt := now)])
  }

  /** The same pod, seen in the same condition, live. */
  predicate Repeats(op: Op, again: Op) {
    op.Observe? && again.Observe? && again.pod == op.pod && again.deleted == op.deleted && !again.bootstrap
  }

  lemma AppSeenAgain(cfg: Config, st: State, op: Op, again: Op)
    requires Repeats(op, again)
    ensures var seen := UpsertApp(cfg, st, op.pod, op.deleted, op.bootstrap, op.now);
            AppAfter(cfg, seen, again.pod, again.deleted, again.now) == seen.apps[AppId(op.pod)]
  {
  }

  lemma PodSeenAgain(cfg: Config, rec: PodRecord, op: Op, again: Op)
    requires Repeats(op, again) && Plausible(op)
    ensures var seen := PodSeen(cfg, rec, op.pod, op.deleted, op.bootstrap, op.now);
            PodSeen(cfg, seen, again.pod, again.deleted, false, again.now) == seen.(lastUpdatedAt := again.now)
  {
  }

  lemma RecordedReflects(cfg: Config, st: State, op: Op, again: Op)
    requires Repeats(op, again) && Plausible(op)
    ensures Reflects(cfg, Recorded(cfg, st, op.pod, op.deleted, op.bootstrap, op.now), again)
  {
    var half := UpsertApp(cfg, st, op.pod, op.deleted, op.bootstrap, op.now);
    var recorded := UpsertPod(cfg, half, op.pod, op.deleted, op.bootstrap, op.now);
    var key := PodKey(op.pod);
    var rec := if key in half.pods then half.pods[key] else NewPod(op.pod, op.now);
    AppSeenAgain(cfg, st, op, again);
    PodSeenAgain(cfg, rec, op, again);
    assert recorded.pods[key] == PodSeen(cfg, rec, op.pod, op.deleted, op.bootstrap, op.now);
  }

  /** The records, and the index entry, of one application and one of its pods are the same in both states. */
  predicate SameHere(a: State, b: State, id: string, key: string) {
    && id in a.apps && id in b.apps && b.apps[id] == a.apps[id]
    && key in a.pods && key in b.pods && b.pods[key] == a.pods[key]
    && Lookup(b.drivers, id) == Lookup(a.drivers, id)
  }

  lemma SameReflects(cfg: Config, a: State, b: State, op: Op)
    requires op.Observe? && Reflects(cfg, a, op) && SameHere(a, b, AppId(op.pod), PodKey(op.pod))
    ensures Reflects(cfg, b, op)
  {
  }

  lemma EvictionIsSameHere(cfg: Config, st: State, goneApps: set<string>, gonePods: set<string>, st': State,
      id: string, key: string)
    requires Evicts(cfg, st, goneApps, gonePods, st') && id in st'.apps && key in st'.pods
    ensures SameHere(st, st', id, key)
  {
  }

  lemma ReflectedIsRefreshed(cfg: Config, st: State, op: Op)
    requires op.Observe? && !op.bootstrap && Reflects(cfg, st, op)
    ensures !Reports(cfg, st, op.pod, op.deleted, false, op.now)
    ensures Recorded(cfg, st, op.pod, op.deleted, false, op.now) == Refreshed(st, AppId(op.pod), PodKey(op.pod), op.now)
  {
    var half := UpsertApp(cfg, st, op.pod, op.deleted, false, op.now);
    assert half.apps == st.apps[AppId(op.pod) := st.apps[AppId(op.pod)].(lastUpdatedAt := op.now)];
    assert half.pods == st.pods && half.drivers == st.drivers && half.lastChanged == st.lastChanged;
    assert IsDriver(op.pod) ==> st.drivers[AppId(op.pod) := PodKey(op.pod)] == st.drivers;
  }

  lemma RefreshedSizes(st: State, id: string, key: string, now: Time)
    requires id in st.apps && key in st.pods
    ensures |Refreshed(st, id, key, now).apps| == |st.apps| && |Refreshed(st, id, key, now).pods| == |st.pods|
  {
    var r := Refreshed(st, id, key, now);
    assert r.apps.Keys == st.apps.Keys && r.pods.Keys == st.pods.Keys;
  }

  lemma RefreshedDeletions(st: State, id: string, key: string, now: Time)
    requires id in st.apps && key in st.pods
    ensures DeletedApps(Refreshed(st, id, key, now)) == DeletedApps(st)
    ensures Reclaimable(Refreshed(st, id, key, now)) == Reclaimable(st)
  {
  }

  lemma RefreshedIsSettled(cfg: Config, st: State, id: string, key: string, now: Time)
    requires Settled(cfg, st) && id in st.apps && key in st.pods
    ensures Settled(cfg, Refreshed(st, id, key, now))
  {
    RefreshedSizes(st, id, key, now);
    RefreshedDeletions(st, id, key, now);
  }

  /** A settled state loses nothing. */
  lemma SettledEvictsNothing(cfg: Config, st: State, goneApps: set<string>, gonePods: set<string>, st': State)
    requires Settled(cfg, st) && Evicts(cfg, st, goneApps, gonePods, st')
    ensures goneApps == {} && gonePods == {} && st' == st
  {
    NothingOver(goneApps, DeletedApps(st), |st.apps|, cfg.maxApps);
    NothingGone(st);
    NothingOver(gonePods, Reclaimable(st), |st.pods|, cfg.maxPods);
  }

  lemma NothingOver(gone: set<string>, candidates: set<string>, size: nat, limit: nat)
    requires gone <= candidates && |gone| <= Least(Overflow(size, limit), |candidates|)
             && (size <= limit || candidates == {})
    ensures gone == {}
  {
  }

  /** A replay of what the records already say reports nothing, evicts nothing and changes the two update times only. */
  lemma ReplayRefreshes(cfg: Config, st: State, op: Op, st': State)
    requires op.Observe? && !op.bootstrap && Settled(cfg, st) && Reflects(cfg, st, op)
    requires Upserts(cfg, st, op.pod, op.deleted, op.bootstrap, op.now, op.goneApps, op.gonePods, st')
    ensures op.goneApps == {} && op.gonePods == {} && st' == Refreshed(st, AppId(op.pod), PodKey(op.pod), op.now)
    ensures !Reports(cfg, st, op.pod, op.deleted, op.bootstrap, op.now)
  {
    ReflectedIsRefreshed(cfg, st, op);
    RefreshedIsSettled(cfg, st, AppId(op.pod), PodKey(op.pod), op.now);
    SettledEvictsNothing(cfg, Refreshed(st, AppId(op.pod), PodKey(op.pod), op.now), op.goneApps, op.gonePods, st');
  }

  /** A step between an observation and its replay that concerns other applications and other pods. */
  predicate Elsewhere(op: Op, id: string, key: string) {
    op.Save? || (op.Observe? && (Tracked(op.pod) ==> AppId(op.pod) != id && PodKey(op.pod) != key))
  }

  lemma RecordedElsewhere(cfg: Config, st: State, op: Op, id: string, key: string)
    requires op.Observe? && AppId(op.pod) != id && PodKey(op.pod) != key && id in st.apps && key in st.pods
    ensures SameHere(st, Recorded(cfg, st, op.pod, op.deleted, op.bootstrap, op.now), id, key)
  {
  }

  lemma StepElsewhere(m: Machine, op: Op, m': Machine, id: string, key: string)
    requires Steps(m, op, m') && Elsewhere(op, id, key)
    requires id in m.st.apps && key in m.st.pods && id in m'.st.apps && key in m'.st.pods
    ensures SameHere(m.st, m'.st, id, key) && m'.cfg == m.cfg
  {
    if op.Observe? && Tracked(op.pod) {
      RecordedElsewhere(m.cfg, m.st, op, id, key);
      EvictionIsSameHere(m.cfg, Recorded(m.cfg, m.st, op.pod, op.deleted, op.bootstrap, op.now),
                         op.goneApps, op.gonePods, m'.st, id, key);
    }
  }

  lemma ObservedReflects(m: Machine, op: Op, again: Op, m': Machine)
    requires Repeats(op, again) && Plausible(op) && Tracked(op.pod) && Steps(m, op, m')
    requires AppId(op.pod) in m'.st.apps && PodKey(op.pod) in m'.st.pods
    ensures Reflects(m'.cfg, m'.st, again)
  {
    var recorded := Recorded(m.cfg, m.st, op.pod, op.deleted, op.bootstrap, op.now);
    RecordedReflects(m.cfg, m.st, op, again);
    EvictionIsSameHere(m.cfg, recorded, op.goneApps, op.gonePods, m'.st, AppId(op.pod), PodKey(op.pod));
    SameReflects(m.cfg, recorded, m'.st, again);
  }

  /** Application and pod are retained from after step `i` to step `j`, and the steps between concern others. */
  ghost predicate Untouched(trace: seq<Machine>, ops: seq<Op>, id: string, key: string, i: nat, j: nat)
    requires |trace| == |ops| + 1 && i < j <= |ops|
  {
    && (forall k {:trigger ThereAt(trace, id, key, k)} :: i < k <= j ==> ThereAt(trace, id, key, k))
    && (forall k {:trigger ElsewhereAt(ops, id, key, k)} :: i < k < j ==> ElsewhereAt(ops, id, key, k))
  }

  ghost predicate ThereAt(trace: seq<Machine>, id: string, key: string, k: nat)
    requires k < |trace|
  {
    id in trace[k].st.apps && key in trace[k].st.pods
  }

  ghost predicate ElsewhereAt(ops: seq<Op>, id: string, key: string, k: nat)
    requires k < |ops|
  {
    Elsewhere(ops[k], id, key)
  }

  lemma ReflectsFirst(trace: seq<Machine>, ops: seq<Op>, i: nat, again: Op)
    requires Segment(trace, ops) && i < |ops| && Repeats(ops[i], again) && Tracked(again.pod)
    requires ThereAt(trace, AppId(again.pod), PodKey(again.pod), i + 1)
    ensures Reflects(trace[i + 1].cfg, trace[i + 1].st, again)
  {
    assert StepAt(trace, ops, i);
    ObservedReflects(trace[i], ops[i], again, trace[i + 1]);
  }

  lemma ReflectsNext(trace: seq<Machine>, ops: seq<Op>, k: nat, again: Op)
    requires Segment(trace, ops) && k < |ops| && again.Observe? && Reflects(trace[k].cfg, trace[k].st, again)
    requires ElsewhereAt(ops, AppId(again.pod), PodKey(again.pod), k)
    requires ThereAt(trace, AppId(again.pod), PodKey(again.pod), k + 1)
    ensures Reflects(trace[k + 1].cfg, trace[k + 1].st, again)
  {
    assert StepAt(trace, ops, k);
    StepElsewhere(trace[k], ops[k], trace[k + 1], AppId(again.pod), PodKey(again.pod));
    SameReflects(trace[k].cfg, trace[k].st, trace[k + 1].st, again);
  }

  lemma {:induction false} StillReflects(trace: seq<Machine>, ops: seq<Op>, i: nat, j: nat, again: Op)
    requires Segment(trace, ops) && i < j <= |ops| && Repeats(ops[i], again) && Tracked(again.pod)
    requires Untouched(trace, ops, AppId(again.pod), PodKey(again.pod), i, j)
    ensures Reflects(trace[j].cfg, trace[j].st, again)
    decreases j
  {
    assert ThereAt(trace, AppId(again.pod), PodKey(again.pod), j);
    if j == i + 1 {
      ReflectsFirst(trace, ops, i, again);
    } else {
      StillReflects(trace, ops, i, j - 1, again);
      assert ElsewhereAt(ops, AppId(again.pod), PodKey(again.pod), j - 1);
      ReflectsNext(trace, ops, j - 1, again);
    }
  }

  /** A replayed observation whose records are still retained, and were left alone in between, reports nothing, evicts
      nothing and refreshes the two update times only, however late it comes. */
  lemma ReplayIsQuiet(trace: seq<Machine>, ops: seq<Op>, i: nat, j: nat)
    requires Segment(trace, ops) && MachineHolds(trace[0]) && MachineSettled(trace[0]) && i < j < |ops|
    requires forall k {:trigger ops[k]} :: 0 <= k < |ops| ==> LimitsKept(trace[k], ops[k])
    requires Repeats(ops[i], ops[j]) && Tracked(ops[j].pod)
    requires Untouched(trace, ops, AppId(ops[j].pod), PodKey(ops[j].pod), i, j)
    ensures ops[j].goneApps == {} && ops[j].gonePods == {}
    ensures AppId(ops[j].pod) in trace[j].st.apps && PodKey(ops[j].pod) in trace[j].st.pods
    ensures trace[j + 1].st == Refreshed(trace[j].st, AppId(ops[j].pod), PodKey(ops[j].pod), ops[j].now)
  {
    StillReflects(trace, ops, i, j, ops[j]);
    RunSettled(trace, ops, j);
    assert StepAt(trace, ops, j);
    ReplayRefreshes(trace[j].cfg, trace[j].st, ops[j], trace[j + 1].st);
  }

  // ----- Eviction from a settled store -----

  lemma AtMostOne(s: set<string>, x: string)
    requires s <= {x}
    ensures |s| <= 1
  {
    SubsetSize(s, {x});
  }

  /** `r` differs from `st` in one application and one pod record at most. */
  predicate Touches(st: State, r: State, id: string, key: string) {
    && r.apps.Keys == st.apps.Keys + {id} && (forall a :: a in st.apps && a != id ==> r.apps[a] == st.apps[a])
    && r.pods.Keys == st.pods.Keys + {key} && (forall k :: k in st.pods && k != key ==> r.pods[k] == st.pods[k])
  }

  lemma RecordedTouches(cfg: Config, st: State, op: Op)
    requires op.Observe?
    ensures Touches(st, Recorded(cfg, st, op.pod, op.deleted, op.bootstrap, op.now), AppId(op.pod), PodKey(op.pod))
  {
  }

  lemma OneMoreAtMost(size: nat, grown: nat, limit: nat, candidates: set<string>, x: string, gone: set<string>)
    requires grown <= size + 1 && (size <= limit || candidates <= {x})
    requires gone <= candidates && |gone| <= Overflow(grown, limit)
    ensures |gone| <= 1
  {
    if candidates <= {x} { AtMostOne(gone, x); }
  }

  lemma OnlyThatApp(st: State, r: State, id: string, key: string)
    requires Touches(st, r, id, key)
    ensures |r.apps| <= |st.apps| + 1
    ensures DeletedApps(st) == {} ==> DeletedApps(r) <= {id}
  {
  }

  lemma OneMorePod(st: State, r: State, id: string, key: string, gone: set<string>)
    requires Touches(st, r, id, key)
    ensures |WithoutApps(r, gone).pods| <= |st.pods| + 1
  {
    var left := WithoutApps(r, gone);
    assert left.pods.Keys <= r.pods.Keys;
    SubsetSize(left.pods.Keys, r.pods.Keys);
    assert |r.pods.Keys| <= |st.pods.Keys| + 1;
  }

  lemma OnlyThatPod(st: State, r: State, id: string, key: string, gone: set<string>)
    requires Touches(st, r, id, key) && Reclaimable(st) == {}
    ensures Reclaimable(WithoutApps(r, gone)) <= {key}
  {
  }

  lemma OneOfEachAtMost(cfg: Config, st: State, r: State, id: string, key: string, goneApps: set<string>,
      gonePods: set<string>)
    requires Touches(st, r, id, key) && Settled(cfg, st)
    requires goneApps <= DeletedApps(r) && |goneApps| <= Overflow(|r.apps|, cfg.maxApps)
    requires var left := WithoutApps(r, goneApps);
             gonePods <= Reclaimable(left) && |gonePods| <= Overflow(|left.pods|, cfg.maxPods)
    ensures |goneApps| <= 1 && |gonePods| <= 1
  {
    var left := WithoutApps(r, goneApps);
    OnlyThatApp(st, r, id, key);
    OneMorePod(st, r, id, key, goneApps);
    if Reclaimable(st) == {} { OnlyThatPod(st, r, id, key, goneApps); }
    OneMoreAtMost(|st.apps|, |r.apps|, cfg.maxApps, DeletedApps(r), id, goneApps);
    OneMoreAtMost(|st.pods|, |left.pods|, cfg.maxPods, Reclaimable(left), key, gonePods);
  }

  lemma AppEvictionIsSmall(cfg: Config, st: State, gone: set<string>)
    requires EvictsApps(cfg, st, gone)
    ensures gone <= DeletedApps(st) && |gone| <= Overflow(|st.apps|, cfg.maxApps)
  {
  }

  lemma PodEvictionIsSmall(cfg: Config, st: State, gone: set<string>)
    requires EvictsPods(cfg, st, gone)
    ensures gone <= Reclaimable(st) && |gone| <= Overflow(|st.pods|, cfg.maxPods)
  {
  }

  lemma EvictionIsSmall(cfg: Config, st: State, goneApps: set<string>, gonePods: set<string>, st': State)
    requires Evicts(cfg, st, goneApps, gonePods, st')
    ensures goneApps <= DeletedApps(st) && |goneApps| <= Overflow(|st.apps|, cfg.maxApps)
    ensures var left := WithoutApps(st, goneApps);
            gonePods <= Reclaimable(left) && |gonePods| <= Overflow(|left.pods|, cfg.maxPods)
    ensures forall k :: k in st.pods && k !in st'.pods ==> st.pods[k].applicationID in goneApps || k in gonePods
  {
    AppEvictionIsSmall(cfg, st, goneApps);
    PodEvictionIsSmall(cfg, WithoutApps(st, goneApps), gonePods);
    Survivors(cfg, st, goneApps, gonePods, st');
  }

  lemma OneEachFrom(cfg: Config, st: State, r: State, id: string, key: string, goneApps: set<string>,
                    gonePods: set<string>, st': State)
    requires Touches(st, r, id, key) && Settled(cfg, st) && Evicts(cfg, r, goneApps, gonePods, st')
    ensures |goneApps| <= 1 && |gonePods| <= 1 && ("" !in st.apps && id != "" ==> Settled(cfg, st'))
    ensures forall k :: k in r.pods && k !in st'.pods ==> r.pods[k].applicationID in goneApps || k in gonePods
  {
    EvictionIsSmall(cfg, r, goneApps, gonePods, st');
    OneOfEachAtMost(cfg, st, r, id, key, goneApps, gonePods);
    if "" !in r.apps { EvictionSettles(cfg, r, goneApps, gonePods, st'); }
  }

  /** From a settled state one observation evicts at most one application and, beyond that application's own pods, at
      most one pod record; the state is settled again. */
  lemma OneEvictionAtMost(cfg: Config, st: State, op: Op, st': State)
    requires op.Observe? && Settled(cfg, st)
    requires Upserts(cfg, st, op.pod, op.deleted, op.bootstrap, op.now, op.goneApps, op.gonePods, st')
    ensures |op.goneApps| <= 1 && |op.gonePods| <= 1
    ensures "" !in st.apps && Tracked(op.pod) ==> Settled(cfg, st')
    ensures var recorded := Recorded(cfg, st, op.pod, op.deleted, op.bootstrap, op.now);
            forall k :: k in recorded.pods && k !in st'.pods ==>
              recorded.pods[k].applicationID in op.goneApps || k in op.gonePods
  {
    var recorded := Recorded(cfg, st, op.pod, op.deleted, op.bootstrap, op.now);
    RecordedTouches(cfg, st, op);
    OneEachFrom(cfg, st, recorded, AppId(op.pod), PodKey(op.pod), op.goneApps, op.gonePods, st');
  }
}
