/** When a store that is not marked for saving equals its file. */
module StoreSaving {
  import opened Prelude
  import opened Kubernetes
  import opened StoreState
  import opened Persistence
  import opened StoreRuns
  import opened StoreTheorems

  predicate SameRecords(a: State, b: State) {
    a.apps == b.apps && a.pods == b.pods
  }

  /** A clean store has the records of its file. */
  predicate Saved(m: Machine) {
    !m.dirty ==> SameRecords(OnFile(m), m.st)
  }

  /** The observation marks the store for saving. */
  predicate MarksStore(st: State, op: Op)
    requires op.Observe?
  {
    Marks(st, op.pod, op.bootstrap, op.goneApps, op.gonePods)
  }

  /** The application record says all the observation says, and was last updated at this very time. */
  predicate AppSays(cfg: Config, rec: ApplicationRecord, pod: Pod, now: Time) {
    && rec.lastUpdatedAt == now && (pod.creation != 0 ==> rec.createdAt <= pod.creation)
    && (cfg.cluster != "" ==> rec.cluster == cfg.cluster) && (rec.namespace == "" ==> pod.namespace == "")
    && (Label(pod, "spark-app-name") != "" ==> rec.sparkAppName == Label(pod, "spark-app-name"))
    && (Label(pod, "spark-app-selector") != "" ==> rec.sparkAppSelector == Label(pod, "spark-app-selector"))
    && (IsDriver(pod) ==>
          && rec.driverPodName == pod.name && rec.status == PodStatus(pod, false)
          && (Terminal(pod) ==> rec.finishedAt.Some?))
  }

  /** So does the pod record, and its update time is the one a bootstrap gives. */
  predicate PodSays(cfg: Config, rec: PodRecord, pod: Pod, now: Time) {
    var (started, finished) := ContainerTimes(pod);
    && rec.lastUpdatedAt == OrElse(started, OrElse(NonZero(pod.creation), now))
    && (pod.creation != 0 ==> rec.createdAt <= pod.creation) && (cfg.cluster != "" ==> rec.cluster == cfg.cluster)
    && rec.applicationID == AppId(pod) && rec.role == SparkRole(pod) && rec.executorID == Label(pod, "spark-exec-id")
    && rec.namespace == pod.namespace && rec.name == pod.name && rec.node == pod.node && rec.labels == pod.labels
    && rec.phase == pod.phase && rec.status == PodStatus(pod, false)
    && (started.Some? ==> rec.containerStartedAt == started)
    && (started.Some? && finished.Some? ==> rec.containerFinishedAt == finished)
    && (pod.deletion.Some? ==> rec.deletionTimestamp == pod.deletion)
  }

  /** A bootstrap of a known application and pod whose records say it all already. */
  predicate SaysNothingNew(cfg: Config, st: State, op: Op)
    requires op.Observe?
  {
    && AppId(op.pod) in st.apps && AppSays(cfg, st.apps[AppId(op.pod)], op.pod, op.now)
    && PodKey(op.pod) in st.pods && PodSays(cfg, st.pods[PodKey(op.pod)], op.pod, op.now)
  }

  /** What a step must be for a clean store to keep its file's records: a live observation, a bootstrap that creates or
      evicts, an import, a write that succeeds, a restart; or a step that has nothing to save. */
  predicate KeepsSaved(m: Machine, op: Op) {
    match op
    case Observe(pod, _, _, _, _, _) =>
      Tracked(pod) ==> m.dirty || MarksStore(m.st, op) || SaysNothingNew(m.cfg, m.st, op)
    case Import(_, _, _, _, _) => true
    case Save(written) => !m.dirty || written || SameRecords(OnFile(m), m.st)
    case Restart(_, _, _) => true
  }

  lemma AppUnmoved(cfg: Config, st: State, op: Op)
    requires op.Observe? && op.bootstrap && !op.deleted && AppId(op.pod) in st.apps
    ensures UpsertApp(cfg, st, op.pod, op.deleted, op.bootstrap, op.now).apps == st.apps <==>
              AppSays(cfg, st.apps[AppId(op.pod)], op.pod, op.now)
  {
    var id, half := AppId(op.pod), UpsertApp(cfg, st, op.pod, op.deleted, op.bootstrap, op.now);
    assert half.apps == st.apps <==> half.apps[id] == st.apps[id];
  }

  lemma PodUnmoved(cfg: Config, st: State, op: Op)
    requires op.Observe? && op.bootstrap && !op.deleted && PodKey(op.pod) in st.pods
    ensures UpsertPod(cfg, st, op.pod, op.deleted, op.bootstrap, op.now).pods == st.pods <==>
              PodSays(cfg, st.pods[PodKey(op.pod)], op.pod, op.now)
  {
    var key, recorded := PodKey(op.pod), UpsertPod(cfg, st, op.pod, op.deleted, op.bootstrap, op.now);
    assert recorded.pods == st.pods <==> recorded.pods[key] == st.pods[key];
  }

  lemma UnmovedExactly(cfg: Config, st: State, op: Op)
    requires op.Observe? && Plausible(op) && !MarksStore(st, op)
    ensures SameRecords(st, Recorded(cfg, st, op.pod, op.deleted, op.bootstrap, op.now)) <==>
              SaysNothingNew(cfg, st, op)
  {
    var half := UpsertApp(cfg, st, op.pod, op.deleted, op.bootstrap, op.now);
    assert half.pods == st.pods;
    AppUnmoved(cfg, st, op);
    PodUnmoved(cfg, half, op);
    assert Recorded(cfg, st, op.pod, op.deleted, op.bootstrap, op.now).apps == half.apps;
  }

  lemma UnmarkedIsRecorded(cfg: Config, st: State, op: Op, st': State)
    requires op.Observe? && op.goneApps == {} && op.gonePods == {}
    requires Upserts(cfg, st, op.pod, op.deleted, op.bootstrap, op.now, op.goneApps, op.gonePods, st')
    ensures st' == Recorded(cfg, st, op.pod, op.deleted, op.bootstrap, op.now)
  {
    NothingGone(Recorded(cfg, st, op.pod, op.deleted, op.bootstrap, op.now));
  }

  lemma RestartIsSaved(m: Machine, op: Op, m': Machine)
    requires op.Restart? && MachineHolds(m) && Steps(m, op, m')
    ensures Saved(m')
  {
    if m.disk.Some? {
      SoundIsFiled(m.disk.value);
      ReloadRestores(m.disk.value, op.file, op.order);
    }
  }

  lemma ObserveSavedExactly(m: Machine, op: Op, m': Machine)
    requires op.Observe? && Tracked(op.pod) && Plausible(op) && Steps(m, op, m') && Saved(m)
    ensures Saved(m') <==> m.dirty || MarksStore(m.st, op) || SaysNothingNew(m.cfg, m.st, op)
  {
    if !m.dirty && !MarksStore(m.st, op) {
      UnmarkedIsRecorded(m.cfg, m.st, op, m'.st);
      UnmovedExactly(m.cfg, m.st, op);
    }
  }

  /** Those are exactly the steps that keep a clean store equal to its file. */
  lemma SavedExactly(m: Machine, op: Op, m': Machine)
    requires MachineHolds(m) && Plausible(op) && Steps(m, op, m') && Saved(m)
    ensures Saved(m') <==> KeepsSaved(m, op)
  {
    match op
    case Observe(pod, _, _, _, _, _) => if Tracked(pod) { ObserveSavedExactly(m, op, m'); }
    case Import(_, _, _, _, _) =>
    case Save(_) =>
    case Restart(_, _, _) => RestartIsSaved(m, op, m');
  }

  lemma SavedAfter(trace: seq<Machine>, ops: seq<Op>, n: nat)
    requires Segment(trace, ops) && MachineHolds(trace[0]) && n < |ops| && Saved(trace[n])
             && KeepsSaved(trace[n], ops[n])
    ensures Saved(trace[n + 1])
  {
    RunHolds(trace, ops, n);
    assert StepAt(trace, ops, n);
    SavedExactly(trace[n], ops[n], trace[n + 1]);
  }

  /** Over a whole run of such steps a clean store always has the records of its file. */
  lemma {:induction false} RunSaved(trace: seq<Machine>, ops: seq<Op>, n: nat)
    requires Segment(trace, ops) && MachineHolds(trace[0]) && Saved(trace[0]) && n <= |ops|
    requires forall i {:trigger ops[i]} :: 0 <= i < |ops| ==> KeepsSaved(trace[i], ops[i])
    ensures Saved(trace[n])
  {
    if n > 0 {
      RunSaved(trace, ops, n - 1);
      SavedAfter(trace, ops, n - 1);
    }
  }

  // ----- The failing steps -----

  /** Every bootstrap of a known application and pod at another time is lost to the file of a clean store, unless it
      evicts. */
  lemma LaterRefreshIsNotSaved(m: Machine, op: Op, m': Machine)
    requires op.Observe? && Tracked(op.pod) && Plausible(op) && Steps(m, op, m') && Saved(m) && !m.dirty
    requires !MarksStore(m.st, op) && op.now != m.st.apps[AppId(op.pod)].lastUpdatedAt
    ensures !m'.dirty && !Saved(m')
  {
    ObserveSavedExactly(m, op, m');
  }

  /** For one, a driver bootstrapped twice. */
  lemma RefreshIsNotSaved(m: Machine, op: Op, m': Machine)
    requires m.st == Recorded(m.cfg, EMPTY, Driver("a", "u", 7), false, true, 10) && m.disk == Some(m.st) && !m.dirty
    requires op == Observe(Driver("a", "u", 7), false, true, 20, {}, {})
    requires m' == m.(st := Recorded(m.cfg, m.st, op.pod, false, true, 20))
    ensures Saved(m) && Steps(m, op, m') && !Saved(m')
  {
    DriverFacts("a", "u", 7);
    NewcomerFacts(m.cfg, Observe(op.pod, false, true, 10, {}, {}));
    RefreshedDriver(m.cfg, m.st, op.pod, 20);
    KnownBootstrap(m, op, m');
    LaterRefreshIsNotSaved(m, op, m');
  }

  lemma KnownBootstrap(m: Machine, op: Op, m': Machine)
    requires op.Observe? && op.bootstrap && Tracked(op.pod) && op.goneApps == {} && op.gonePods == {}
    requires AppId(op.pod) in m.st.apps && PodKey(op.pod) in m.st.pods
    requires m'.st == Recorded(m.cfg, m.st, op.pod, op.deleted, op.bootstrap, op.now) && m' == m.(st := m'.st)
    requires DeletedApps(m'.st) == {} && Reclaimable(m'.st) == {}
    ensures !MarksStore(m.st, op) && Steps(m, op, m')
  {
    KnownIsUnmarked(m.st, op);
    NothingEvicted(m.cfg, m'.st);
  }

  lemma KnownIsUnmarked(st: State, op: Op)
    requires op.Observe? && op.bootstrap && op.goneApps == {} && op.gonePods == {}
    requires AppId(op.pod) in st.apps && PodKey(op.pod) in st.pods
    ensures !MarksStore(st, op)
  {
  }

  lemma RefreshedDriver(cfg: Config, st: State, pod: Pod, now: Time)
    requires st.apps.Keys == {AppId(pod)} && st.pods.Keys == {PodKey(pod)}
    requires st.apps[AppId(pod)].deletedAt.None? && st.pods[PodKey(pod)].deletedAt.None?
    ensures var st' := Recorded(cfg, st, pod, false, true, now); DeletedApps(st') == {} && Reclaimable(st') == {}
  {
  }

  /** A failed write leaves a clean store with an old file. */
  lemma FailedWriteIsNotRetried(m: Machine, m': Machine)
    requires m.dirty && !SameRecords(OnFile(m), m.st) && Steps(m, Save(false), m')
    ensures Saved(m) && !m'.dirty && !Saved(m')
  {
  }
}
