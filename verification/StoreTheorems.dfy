/** What runs of the state store keep: the driver index and the change clock. */
module StoreTheorems {
  import opened Prelude
  import opened Kubernetes
  import opened StoreState
  import opened Persistence
  import opened StoreRuns

  // ----- The driver index -----

  /** The entry names the pod for another application, or names it although it is no driver any more. */
  predicate Stale(st: State, op: Op, a: string)
    requires op.Observe? && a in st.drivers
  {
    st.drivers[a] == PodKey(op.pod) && !(a == AppId(op.pod) && IsDriver(op.pod))
  }

  /** The observation makes no index entry stale, or evicts its application at once. */
  predicate GuardsIndex(st: State, op: Op) {
    && !op.Import?
    && (op.Observe? && Tracked(op.pod) ==> forall a :: a in st.drivers && Stale(st, op, a) ==> a in op.goneApps)
  }

  /** The index is right for the applications outside `gone`. */
  ghost predicate IndexesOutside(st: State, gone: set<string>) {
    && (forall a :: a in st.drivers && a !in gone ==>
          st.drivers[a] in st.pods && st.pods[st.drivers[a]].role == "driver"
          && st.pods[st.drivers[a]].applicationID == a)
    && (forall k :: k in st.pods && st.pods[k].role == "driver" && st.pods[k].applicationID !in gone ==>
          st.pods[k].applicationID in st.drivers)
  }

  lemma EntrySurvives(st: State, st': State, key: string, rec: PodRecord, gone: set<string>)
    requires IndexesDrivers(st.pods, st.drivers) && st'.pods == st.pods[key := rec]
    requires st'.drivers == if rec.role == "driver" then st.drivers[rec.applicationID := key] else st.drivers
    requires forall a :: a in st.drivers && st.drivers[a] == key ==>
               a in gone || (a == rec.applicationID && rec.role == "driver")
    ensures IndexesOutside(st', gone)
  {
  }

  lemma PodHalf(cfg: Config, st: State, op: Op) returns (rec: PodRecord)
    requires op.Observe? && Tracked(op.pod)
    ensures rec.applicationID == AppId(op.pod) && (rec.role == "driver" <==> IsDriver(op.pod))
    ensures var recorded := Recorded(cfg, st, op.pod, op.deleted, op.bootstrap, op.now);
            && recorded.pods == st.pods[PodKey(op.pod) := rec]
            && recorded.drivers == if rec.role == "driver" then st.drivers[rec.applicationID := PodKey(op.pod)]
                                   else st.drivers
  {
    rec := Recorded(cfg, st, op.pod, op.deleted, op.bootstrap, op.now).pods[PodKey(op.pod)];
  }

  lemma GuardedIndex(cfg: Config, st: State, op: Op)
    requires op.Observe? && Tracked(op.pod) && IndexesDrivers(st.pods, st.drivers) && GuardsIndex(st, op)
    ensures IndexesOutside(Recorded(cfg, st, op.pod, op.deleted, op.bootstrap, op.now), op.goneApps)
  {
    var rec := PodHalf(cfg, st, op);
    forall a | a in st.drivers && st.drivers[a] == PodKey(op.pod) && !(a == rec.applicationID && rec.role == "driver")
      ensures a in op.goneApps
    {
      assert Stale(st, op, a);
    }
    EntrySurvives(st, Recorded(cfg, st, op.pod, op.deleted, op.bootstrap, op.now), PodKey(op.pod), rec, op.goneApps);
  }

  /** Eviction removes the entries of the applications it removes; without orphans no driver record is reclaimable. */
  lemma EvictionLeavesIndex(cfg: Config, st: State, goneApps: set<string>, gonePods: set<string>, st': State)
    requires NoOrphans(st) && IndexesOutside(st, goneApps) && Evicts(cfg, st, goneApps, gonePods, st')
    ensures IndexesDrivers(st'.pods, st'.drivers)
  {
    DriversStay(cfg, st, goneApps, gonePods, st');
    Survivors(cfg, st, goneApps, gonePods, st');
  }

  lemma DriversStay(cfg: Config, st: State, goneApps: set<string>, gonePods: set<string>, st': State)
    requires NoOrphans(st) && Evicts(cfg, st, goneApps, gonePods, st')
    ensures forall k :: k in st.pods && st.pods[k].role == "driver" && st.pods[k].applicationID !in goneApps ==>
              k in st'.pods
  {
  }

  /** Otherwise a wrong entry stays as it is. */
  lemma WrongEntryStays(cfg: Config, st: State, goneApps: set<string>, gonePods: set<string>, st': State, a: string)
    requires Evicts(cfg, st, goneApps, gonePods, st') && a in st.drivers && a !in goneApps && st.drivers[a] in st.pods
    requires !(st.pods[st.drivers[a]].role == "driver" && st.pods[st.drivers[a]].applicationID == a)
    ensures !IndexesDrivers(st'.pods, st'.drivers)
  {
    Survivors(cfg, st, goneApps, gonePods, st');
    assert a in st'.drivers;
  }

  lemma StaleIsWrong(cfg: Config, st: State, op: Op, a: string)
    requires op.Observe? && Tracked(op.pod) && a in st.drivers && Stale(st, op, a)
    ensures var recorded := Recorded(cfg, st, op.pod, op.deleted, op.bootstrap, op.now);
            && a in recorded.drivers && recorded.drivers[a] in recorded.pods
            && !(recorded.pods[recorded.drivers[a]].role == "driver"
                 && recorded.pods[recorded.drivers[a]].applicationID == a)
  {
    var rec := PodHalf(cfg, st, op);
  }

  lemma GuardedSurvives(cfg: Config, st: State, op: Op, st': State)
    requires op.Observe? && Plausible(op) && KnownPhase(op) && Tracked(op.pod) && Sound(st)
    requires IndexesDrivers(st.pods, st.drivers) && GuardsIndex(st, op)
    requires Upserts(cfg, st, op.pod, op.deleted, op.bootstrap, op.now, op.goneApps, op.gonePods, st')
    ensures IndexesDrivers(st'.pods, st'.drivers)
  {
    GuardedIndex(cfg, st, op);
    RecordedIsSound(cfg, st, op);
    EvictionLeavesIndex(cfg, Recorded(cfg, st, op.pod, op.deleted, op.bootstrap, op.now), op.goneApps, op.gonePods,
                        st');
  }

  lemma StaleStays(cfg: Config, st: State, op: Op, st': State, a: string)
    requires op.Observe? && Tracked(op.pod) && a in st.drivers && Stale(st, op, a) && a !in op.goneApps
    requires Upserts(cfg, st, op.pod, op.deleted, op.bootstrap, op.now, op.goneApps, op.gonePods, st')
    ensures !IndexesDrivers(st'.pods, st'.drivers)
  {
    StaleIsWrong(cfg, st, op, a);
    WrongEntryStays(cfg, Recorded(cfg, st, op.pod, op.deleted, op.bootstrap, op.now), op.goneApps, op.gonePods, st', a);
  }

  lemma StaleEntry(st: State, op: Op) returns (a: string)
    requires op.Observe? && Tracked(op.pod) && !GuardsIndex(st, op)
    ensures a in st.drivers && Stale(st, op, a) && a !in op.goneApps
  {
    a :| a in st.drivers && Stale(st, op, a) && a !in op.goneApps;
  }

  lemma UnguardedBreaks(cfg: Config, st: State, op: Op, st': State)
    requires op.Observe? && Tracked(op.pod) && !GuardsIndex(st, op)
    requires Upserts(cfg, st, op.pod, op.deleted, op.bootstrap, op.now, op.goneApps, op.gonePods, st')
    ensures !IndexesDrivers(st'.pods, st'.drivers)
  {
    var a := StaleEntry(st, op);
    StaleStays(cfg, st, op, st', a);
  }

  /** A right index is right after an observation and its evictions exactly under that guard. */
  lemma IndexSurvives(cfg: Config, st: State, op: Op, st': State)
    requires op.Observe? && Plausible(op) && KnownPhase(op) && Tracked(op.pod) && Sound(st)
    requires IndexesDrivers(st.pods, st.drivers)
    requires Upserts(cfg, st, op.pod, op.deleted, op.bootstrap, op.now, op.goneApps, op.gonePods, st')
    ensures IndexesDrivers(st'.pods, st'.drivers) <==> GuardsIndex(st, op)
  {
    if GuardsIndex(st, op) {
      GuardedSurvives(cfg, st, op, st');
    } else {
      UnguardedBreaks(cfg, st, op, st');
    }
  }

  /** One guarded observation keeps the index right, and a driver record leaves only because its application did. */
  lemma ObserveKeepsIndex(cfg: Config, st: State, op: Op, st': State)
    requires op.Observe? && Plausible(op) && KnownPhase(op) && Tracked(op.pod) && Sound(st)
    requires GuardsIndex(st, op) && IndexesDrivers(st.pods, st.drivers)
    requires Upserts(cfg, st, op.pod, op.deleted, op.bootstrap, op.now, op.goneApps, op.gonePods, st')
    ensures IndexesDrivers(st'.pods, st'.drivers)
    ensures var recorded := Recorded(cfg, st, op.pod, op.deleted, op.bootstrap, op.now);
            forall k :: k in recorded.pods && recorded.pods[k].role == "driver" && k !in st'.pods ==>
              recorded.pods[k].applicationID in op.goneApps
  {
    var recorded := Recorded(cfg, st, op.pod, op.deleted, op.bootstrap, op.now);
    IndexSurvives(cfg, st, op, st');
    RecordedIsSound(cfg, st, op);
    DriversStay(cfg, recorded, op.goneApps, op.gonePods, st');
  }

  lemma RestartKeepsIndex(cfg: Config, saved: State, file: Snapshot, order: seq<nat>)
    requires Sound(saved) && Snapshots(file, saved) && BackfillOrder(file.apps, order)
    ensures IndexesDrivers(Loaded(cfg, file, order).pods, Loaded(cfg, file, order).drivers)
  {
    SoundIsFiled(saved);
    LoadRestores(cfg, saved, file, order);
  }

  ghost predicate MachineIndexed(m: Machine) {
    IndexesDrivers(m.st.pods, m.st.drivers) && (m.disk.Some? ==>
        IndexesDrivers(m.disk.value.pods, m.disk.value.drivers))
  }

  lemma StepKeepsIndex(m: Machine, op: Op, m': Machine)
    requires MachineHolds(m) && Admits(m.st, op) && Steps(m, op, m')
    requires GuardsIndex(m.st, op) && MachineIndexed(m)
    ensures MachineIndexed(m')
  {
    match op
    case Observe(pod, _, _, _, _, _) => if Tracked(pod) { ObserveKeepsIndex(m.cfg, m.st, op, m'.st); }
    case Import(_, _, _, _, _) =>
    case Save(_) =>
    case Restart(cfg, file, order) => if m.disk.Some? { RestartKeepsIndex(cfg, m.disk.value, file, order); }
  }

  lemma IndexedAfter(trace: seq<Machine>, ops: seq<Op>, n: nat)
    requires Segment(trace, ops) && MachineHolds(trace[0]) && n < |ops|
    requires MachineIndexed(trace[n]) && GuardsIndex(trace[n].st, ops[n])
    ensures MachineIndexed(trace[n + 1])
  {
    RunHolds(trace, ops, n);
    assert StepAt(trace, ops, n);
    StepKeepsIndex(trace[n], ops[n], trace[n + 1]);
  }

  /** Over any stretch of a run whose observations are guarded, the index names, for exactly the applications with a
      driver record, one of their driver records; in memory and on disk. */
  lemma {:induction false} RunIndexed(trace: seq<Machine>, ops: seq<Op>, n: nat)
    requires Segment(trace, ops) && MachineHolds(trace[0]) && MachineIndexed(trace[0]) && n <= |ops|
    requires forall i {:trigger ops[i]} :: 0 <= i < |ops| ==> GuardsIndex(trace[i].st, ops[i])
    ensures MachineIndexed(trace[n])
  {
    if n > 0 {
      RunIndexed(trace, ops, n - 1);
      IndexedAfter(trace, ops, n - 1);
    }
  }

  /** The application and role a pod key stands for. */
  type Identity = string -> (string, string)

  /** Pods keep the identity their key stands for. */
  predicate Stable(op: Op, who: Identity) {
    && !op.Import?
    && (op.Observe? && Tracked(op.pod) ==> who(PodKey(op.pod)) == (AppId(op.pod), SparkRole(op.pod)))
  }

  predicate Named(st: State, who: Identity) {
    forall k :: k in st.pods ==> who(k) == (st.pods[k].applicationID, st.pods[k].role)
  }

  predicate MachineNamed(m: Machine, who: Identity) {
    Named(m.st, who) && (m.disk.Some? ==> Named(m.disk.value, who))
  }

  /** Such an observation is guarded. */
  lemma StableIsGuarded(st: State, op: Op, who: Identity)
    requires Stable(op, who) && Named(st, who) && IndexesDrivers(st.pods, st.drivers)
    ensures GuardsIndex(st, op)
  {
  }

  lemma ObserveKeepsNames(cfg: Config, st: State, op: Op, who: Identity, st': State)
    requires op.Observe? && Tracked(op.pod) && Stable(op, who) && Named(st, who)
    requires Upserts(cfg, st, op.pod, op.deleted, op.bootstrap, op.now, op.goneApps, op.gonePods, st')
    ensures Named(st', who)
  {
    PodsPassThrough(cfg, st, op, st');
  }

  lemma StepKeepsNames(m: Machine, op: Op, who: Identity, m': Machine)
    requires MachineHolds(m) && Steps(m, op, m') && Stable(op, who) && MachineNamed(m, who)
    ensures MachineNamed(m', who)
  {
    match op
    case Observe(pod, _, _, _, _, _) => if Tracked(pod) { ObserveKeepsNames(m.cfg, m.st, op, who, m'.st); }
    case Import(_, _, _, _, _) =>
    case Save(_) =>
    case Restart(cfg, file, order) =>
      if m.disk.Some? {
        SoundIsFiled(m.disk.value);
        LoadRestores(cfg, m.disk.value, file, order);
        StampKeepsTheRest(cfg, m.disk.value);
      }
  }

  lemma NamedAfter(trace: seq<Machine>, ops: seq<Op>, who: Identity, n: nat)
    requires Segment(trace, ops) && MachineHolds(trace[0]) && n < |ops|
    requires Stable(ops[n], who) && MachineNamed(trace[n], who) && MachineIndexed(trace[n])
    ensures MachineNamed(trace[n + 1], who) && MachineIndexed(trace[n + 1])
  {
    RunHolds(trace, ops, n);
    assert StepAt(trace, ops, n);
    StableIsGuarded(trace[n].st, ops[n], who);
    IndexedAfter(trace, ops, n);
    StepKeepsNames(trace[n], ops[n], who, trace[n + 1]);
  }

  /** Pods with stable identities keep every step guarded and the index right, over any stretch of a run. */
  lemma {:induction false} StableRunIndexed(trace: seq<Machine>, ops: seq<Op>, who: Identity, n: nat)
    requires Segment(trace, ops) && MachineHolds(trace[0]) && n <= |ops|
    requires MachineNamed(trace[0], who) && MachineIndexed(trace[0])
    requires forall i :: 0 <= i < |ops| ==> Stable(ops[i], who)
    ensures MachineNamed(trace[n], who) && MachineIndexed(trace[n])
  {
    if n > 0 {
      StableRunIndexed(trace, ops, who, n - 1);
      NamedAfter(trace, ops, who, n - 1);
    }
  }

  /** A running driver pod. */
  function Driver(app: string, uid: string, creation: Time): Pod {
    Pod("ns", app, uid, "1", map["spark-role" := "driver", "appSparkID" := app], "", "Running", creation,
        None, None, [])
  }

  lemma DriverFacts(app: string, uid: string, creation: Time)
    requires app != "" && uid != ""
    ensures var pod := Driver(app, uid, creation);
            AppId(pod) == app && IsDriver(pod) && Tracked(pod) && PodKey(pod) == uid && !Terminal(pod)
  {
  }

  /** A bootstrapped driver in an empty store. */
  lemma NewcomerFacts(cfg: Config, op: Op)
    requires op.Observe? && op.bootstrap && !op.deleted && Tracked(op.pod) && IsDriver(op.pod) && !Terminal(op.pod)
             && op.pod.creation > 0
    ensures var st := Recorded(cfg, EMPTY, op.pod, op.deleted, op.bootstrap, op.now);
            && st.apps.Keys == {AppId(op.pod)} && st.pods.Keys == {PodKey(op.pod)}
            && st.apps[AppId(op.pod)].changedAt == op.pod.creation
            && st.apps[AppId(op.pod)].lastUpdatedAt == op.now
            && st.apps[AppId(op.pod)].deletedAt.None? && st.pods[PodKey(op.pod)].deletedAt.None?
            && DeletedApps(st) == {} && Reclaimable(st) == {}
  {
  }

  lemma NothingEvicted(cfg: Config, st: State)
    requires DeletedApps(st) == {} && Reclaimable(st) == {}
    ensures Evicts(cfg, st, {}, {}, st)
  {
    NothingGone(st);
  }

  /** A second running driver beside undeleted records. */
  lemma SecondDriver(cfg: Config, st: State, op: Op)
    requires op.Observe? && !op.deleted && Tracked(op.pod) && IsDriver(op.pod) && !Terminal(op.pod)
    requires DeletedApps(st) == {} && forall k :: k in st.pods ==> st.pods[k].deletedAt.None?
    ensures var st' := Recorded(cfg, st, op.pod, op.deleted, op.bootstrap, op.now);
            && DeletedApps(st') == {} && Reclaimable(st') == {}
            && forall k :: k in st'.pods ==> st'.pods[k].deletedAt.None?
  {
  }

  /** A pod that changes its application id leaves a wrong entry behind: two observations of a new store. */
  lemma RelabelBreaksIndex(cfg: Config, first: Op, second: Op)
    requires first == Observe(Driver("a", "u", 1), false, false, 10, {}, {})
    requires second == Observe(Driver("b", "u", 1), false, false, 20, {}, {})
    ensures var st := Recorded(cfg, EMPTY, first.pod, false, false, 10);
            var st' := Recorded(cfg, st, second.pod, false, false, 20);
            && Upserts(cfg, EMPTY, first.pod, false, false, 10, {}, {}, st)
            && Upserts(cfg, st, second.pod, false, false, 20, {}, {}, st')
            && IndexesDrivers(st.pods, st.drivers) && !IndexesDrivers(st'.pods, st'.drivers)
  {
    DriverFacts("a", "u", 1);
    DriverFacts("b", "u", 1);
    var st := Recorded(cfg, EMPTY, first.pod, false, false, 10);
    OneDriverIndexed(cfg, first);
    SecondDriver(cfg, EMPTY, first);
    NothingEvicted(cfg, st);
    RelabelledDriver(cfg, st, second);
  }

  lemma OneDriverIndexed(cfg: Config, op: Op)
    requires op.Observe? && Tracked(op.pod) && IsDriver(op.pod)
    ensures var st := Recorded(cfg, EMPTY, op.pod, op.deleted, op.bootstrap, op.now);
            IndexesDrivers(st.pods, st.drivers) && st.drivers == map[AppId(op.pod) := PodKey(op.pod)]
  {
    var rec := PodHalf(cfg, EMPTY, op);
  }

  lemma RelabelledDriver(cfg: Config, st: State, op: Op)
    requires op.Observe? && !op.deleted && Tracked(op.pod) && IsDriver(op.pod) && !Terminal(op.pod)
    requires DeletedApps(st) == {} && forall k :: k in st.pods ==> st.pods[k].deletedAt.None?
    requires "a" in st.drivers && st.drivers["a"] == PodKey(op.pod) && AppId(op.pod) != "a"
    ensures var st' := Recorded(cfg, st, op.pod, op.deleted, op.bootstrap, op.now);
            && Upserts(cfg, st, op.pod, op.deleted, op.bootstrap, op.now, {}, {}, st')
            && !IndexesDrivers(st'.pods, st'.drivers)
  {
    SecondDriver(cfg, st, op);
    NothingEvicted(cfg, Recorded(cfg, st, op.pod, op.deleted, op.bootstrap, op.now));
    StaleIsWrong(cfg, st, op, "a");
  }

  /** The joined view equals what a scan of all pods finds, whenever each application has one driver record. */
  lemma ViewIsScan(st: State, rec: ApplicationRecord, k: string)
    requires IndexesDrivers(st.pods, st.drivers) && OneDriverPerApp(st)
    ensures k in st.pods && st.pods[k].role == "driver" && st.pods[k].applicationID == rec.applicationID ==>
              View(st, rec) == ApplicationView(rec, st.pods[k].phase, st.pods[k].labels)
    ensures (forall l :: l in st.pods ==>
               !(st.pods[l].role == "driver" && st.pods[l].applicationID == rec.applicationID)) ==>
              View(st, rec) == ApplicationView(rec, "", map[])
  {
  }

  // ----- What passes through eviction -----

  /** After its application half an observation only removes application records. */
  lemma AppsPassThrough(cfg: Config, st: State, op: Op, st': State)
    requires op.Observe?
    requires Upserts(cfg, st, op.pod, op.deleted, op.bootstrap, op.now, op.goneApps, op.gonePods, st')
    ensures var half := UpsertApp(cfg, st, op.pod, op.deleted, op.bootstrap, op.now);
            st'.lastChanged == half.lastChanged && st'.apps == half.apps - op.goneApps
  {
  }

  /** After its pod half an observation only removes pod records. */
  lemma PodsPassThrough(cfg: Config, st: State, op: Op, st': State)
    requires op.Observe?
    requires Upserts(cfg, st, op.pod, op.deleted, op.bootstrap, op.now, op.goneApps, op.gonePods, st')
    ensures var half := UpsertPod(cfg, st, op.pod, op.deleted, op.bootstrap, op.now);
            forall k :: k in st'.pods ==> k in half.pods && st'.pods[k] == half.pods[k]
  {
    var recorded := Recorded(cfg, st, op.pod, op.deleted, op.bootstrap, op.now);
    PodHalfAlone(cfg, st, op);
    assert forall k :: k in st'.pods ==> k in recorded.pods && st'.pods[k] == recorded.pods[k];
  }

  /** The pod half does not look at the applications. */
  lemma PodHalfAlone(cfg: Config, st: State, op: Op)
    requires op.Observe?
    ensures Recorded(cfg, st, op.pod, op.deleted, op.bootstrap, op.now).pods
         == UpsertPod(cfg, st, op.pod, op.deleted, op.bootstrap, op.now).pods
  {
  }

  // ----- The change clock -----

  /** Change stamps lie at least 1ms apart, none above the clock. */
  predicate Spaced(st: State) {
    && (forall a :: a in st.apps ==> st.apps[a].changedAt <= st.lastChanged)
    && (forall a, b :: a in st.apps && b in st.apps && a != b ==> Apart(st.apps[a].changedAt, st.apps[b].changedAt))
  }

  predicate Apart(s: Time, t: Time) {
    s + MILLISECOND <= t || t + MILLISECOND <= s
  }

  /** A reported change draws a stamp at least 1ms above every retained one; otherwise all stamps and the clock stay. */
  ghost predicate Stamped(st: State, id: string, reports: bool, st': State) {
    if reports then
      && (forall a :: a in st.apps ==> st.apps[a].changedAt + MILLISECOND <= st'.lastChanged)
      && (id in st'.apps ==> st'.apps[id].changedAt == st'.lastChanged)
      && (forall a :: a in st'.apps && a != id ==> a in st.apps && st'.apps[a].changedAt == st.apps[a].changedAt)
      && st.lastChanged < st'.lastChanged
    else
      && st'.lastChanged == st.lastChanged
      && forall a :: a in st'.apps ==> a in st.apps && st'.apps[a].changedAt == st.apps[a].changedAt
  }

  /** A bootstrap meets an application the store already knows. */
  predicate NoNewcomer(st: State, op: Op) {
    !op.Import? && (op.Observe? && op.bootstrap && Tracked(op.pod) ==> AppId(op.pod) in st.apps)
  }

  lemma StampedIsSpaced(st: State, id: string, reports: bool, st': State)
    requires Spaced(st) && Stamped(st, id, reports, st')
    ensures Spaced(st')
  {
  }

  lemma AppIsStamped(cfg: Config, st: State, op: Op)
    requires op.Observe? && Plausible(op) && KnownPhase(op) && Tracked(op.pod) && Sound(st) && Spaced(st)
    requires NoNewcomer(st, op)
    ensures Stamped(st, AppId(op.pod), Reports(cfg, st, op.pod, op.deleted, op.bootstrap, op.now),
                    UpsertApp(cfg, st, op.pod, op.deleted, op.bootstrap, op.now))
  {
  }

  /** So it is for every live observation, whatever the supplied clock, and for a bootstrap of a known application. */
  lemma LiveStamp(cfg: Config, st: State, op: Op, st': State)
    requires op.Observe? && Plausible(op) && KnownPhase(op) && Tracked(op.pod) && Sound(st) && Spaced(st)
    requires NoNewcomer(st, op)
    requires Upserts(cfg, st, op.pod, op.deleted, op.bootstrap, op.now, op.goneApps, op.gonePods, st')
    ensures Stamped(st, AppId(op.pod), Reports(cfg, st, op.pod, op.deleted, op.bootstrap, op.now), st')
    ensures Spaced(st')
  {
    AppIsStamped(cfg, st, op);
    AppsPassThrough(cfg, st, op, st');
    assert Stamped(st, AppId(op.pod), Reports(cfg, st, op.pod, op.deleted, op.bootstrap, op.now), st');
    StampedIsSpaced(st, AppId(op.pod), Reports(cfg, st, op.pod, op.deleted, op.bootstrap, op.now), st');
  }

  /** A newcomer's application half. */
  lemma NewcomerStamp(cfg: Config, st: State, op: Op)
    requires op.Observe? && op.bootstrap && !op.deleted && AppId(op.pod) !in st.apps
    ensures var (id, st') := (AppId(op.pod), UpsertApp(cfg, st, op.pod, op.deleted, op.bootstrap, op.now));
            && st'.apps.Keys == st.apps.Keys + {id} && (forall a :: a in st.apps ==> st'.apps[a] == st.apps[a])
            && st'.apps[id].changedAt
                 == Anchor(op.pod, AppAfter(cfg, st, op.pod, op.deleted, op.now), op.now)
            && st'.apps[id].deletedAt.None? && st'.lastChanged == st.lastChanged
  {
  }

  lemma OneMoreStamp(apps: map<string, ApplicationRecord>, gone: set<string>, id: string, anchor: Time, st: State,
                     st': State)
    requires Spaced(st) && id !in st.apps && id !in gone && st'.lastChanged == st.lastChanged
    requires apps.Keys == st.apps.Keys + {id} && (forall a :: a in st.apps ==> apps[a] == st.apps[a])
    requires apps[id].changedAt == anchor && st'.apps == apps - gone
    ensures Spaced(st') <==>
              anchor <= st.lastChanged && forall a :: a in st.apps && a !in gone ==>
                Apart(st.apps[a].changedAt, anchor)
  {
    assert id in st'.apps && st'.apps[id].changedAt == anchor;
    if Spaced(st') {
      forall a | a in st.apps && a !in gone
        ensures Apart(st.apps[a].changedAt, anchor)
      {
        assert Apart(st'.apps[a].changedAt, st'.apps[id].changedAt);
      }
    }
  }

  /** A newcomer's anchor is no later than the clock and at least 1ms from the stamp of every application that stays. */
  predicate AnchorFits(cfg: Config, st: State, op: Op)
    requires op.Observe?
  {
    var anchor := Anchor(op.pod, AppAfter(cfg, st, op.pod, op.deleted, op.now), op.now);
    anchor <= st.lastChanged && forall a :: a in st.apps && a !in op.goneApps ==> Apart(st.apps[a].changedAt, anchor)
  }

  /** A bootstrapped newcomer, with the evictions it causes, leaves the stamps spaced exactly when its anchor fits. */
  lemma NewcomerKeepsSpacing(cfg: Config, st: State, op: Op, st': State)
    requires op.Observe? && op.bootstrap && Plausible(op) && AppId(op.pod) !in st.apps && Spaced(st)
    requires Upserts(cfg, st, op.pod, op.deleted, op.bootstrap, op.now, op.goneApps, op.gonePods, st')
    ensures Spaced(st') <==> AnchorFits(cfg, st, op)
  {
    var half := UpsertApp(cfg, st, op.pod, op.deleted, op.bootstrap, op.now);
    NewcomerStamp(cfg, st, op);
    AppsPassThrough(cfg, st, op, st');
    NewcomerStays(cfg, half, op, st');
    OneMoreStamp(half.apps, op.goneApps, AppId(op.pod), half.apps[AppId(op.pod)].changedAt, st, st');
  }

  /** A record that is not deleted is not evicted. */
  lemma NewcomerStays(cfg: Config, half: State, op: Op, st': State)
    requires op.Observe? && AppId(op.pod) in half.apps && half.apps[AppId(op.pod)].deletedAt.None?
    requires Evicts(cfg, UpsertPod(cfg, half, op.pod, op.deleted, op.bootstrap, op.now), op.goneApps, op.gonePods, st')
    ensures AppId(op.pod) !in op.goneApps
  {
  }

  /** The first bootstrap of an empty store already stamps above the clock. */
  lemma NewcomerCanBreakSpacing(cfg: Config, op: Op)
    requires op == Observe(Driver("a", "u", 7), false, true, 101, {}, {})
    ensures var st' := Recorded(cfg, EMPTY, op.pod, op.deleted, op.bootstrap, op.now);
            && Upserts(cfg, EMPTY, op.pod, op.deleted, op.bootstrap, op.now, {}, {}, st')
            && Spaced(EMPTY) && !Spaced(st')
  {
    DriverFacts("a", "u", 7);
    NewcomerFacts(cfg, op);
    NothingEvicted(cfg, Recorded(cfg, EMPTY, op.pod, op.deleted, op.bootstrap, op.now));
    NewcomerKeepsSpacing(cfg, EMPTY, op, Recorded(cfg, EMPTY, op.pod, op.deleted, op.bootstrap, op.now));
  }

  /** A reload puts the clock at the largest stamp on file, so every later live stamp exceeds all of them. */
  lemma RestartDominates(cfg: Config, saved: State, file: Snapshot, order: seq<nat>, now: Time)
    requires Sound(saved) && Snapshots(file, saved) && BackfillOrder(file.apps, order) && now > 0
    ensures var st := Loaded(cfg, file, order);
            && st.apps.Keys == saved.apps.Keys
            && (forall a :: a in saved.apps ==> st.apps[a].changedAt == saved.apps[a].changedAt
                                                && st.apps[a].changedAt <= st.lastChanged
                                                && st.apps[a].changedAt + MILLISECOND <= NextStamp(st.lastChanged, now))
  {
    SoundIsFiled(saved);
    ReloadRestores(saved, file, order);
    StampKeepsTheRest(cfg, Restored(file, order));
    forall a | a in saved.apps
      ensures saved.apps[a].changedAt > 0
    {
      assert AppHolds(a, saved.apps[a]);
    }
  }

  predicate MachineSpaced(m: Machine) {
    Spaced(m.st) && (m.disk.Some? ==> Spaced(m.disk.value))
  }

  lemma RestartKeepsSpacing(cfg: Config, saved: State, file: Snapshot, order: seq<nat>)
    requires Sound(saved) && Spaced(saved) && Snapshots(file, saved) && BackfillOrder(file.apps, order)
    ensures Spaced(Loaded(cfg, file, order))
  {
    RestartDominates(cfg, saved, file, order, 1);
  }

  /** No import, and the anchor of a bootstrapped newcomer fits. */
  predicate GuardsSpacing(m: Machine, op: Op) {
    !op.Import? && (op.Observe? && Tracked(op.pod) && !NoNewcomer(m.st, op) ==> AnchorFits(m.cfg, m.st, op))
  }

  lemma ObserveKeepsSpacing(m: Machine, op: Op, m': Machine)
    requires op.Observe? && Tracked(op.pod) && MachineHolds(m) && Admits(m.st, op) && Steps(m, op, m')
    requires GuardsSpacing(m, op) && Spaced(m.st)
    ensures Spaced(m'.st)
  {
    if NoNewcomer(m.st, op) {
      LiveStamp(m.cfg, m.st, op, m'.st);
    } else {
      NewcomerKeepsSpacing(m.cfg, m.st, op, m'.st);
    }
  }

  lemma StepKeepsSpacing(m: Machine, op: Op, m': Machine)
    requires MachineHolds(m) && Admits(m.st, op) && Steps(m, op, m') && GuardsSpacing(m, op) && MachineSpaced(m)
    ensures MachineSpaced(m')
  {
    match op
    case Observe(pod, _, _, _, _, _) => if Tracked(pod) { ObserveKeepsSpacing(m, op, m'); }
    case Import(_, _, _, _, _) =>
    case Save(_) =>
    case Restart(cfg, file, order) => if m.disk.Some? { RestartKeepsSpacing(cfg, m.disk.value, file, order); }
  }

  lemma SpacedAfter(trace: seq<Machine>, ops: seq<Op>, n: nat)
    requires Segment(trace, ops) && MachineHolds(trace[0]) && n < |ops|
    requires GuardsSpacing(trace[n], ops[n]) && MachineSpaced(trace[n])
    ensures MachineSpaced(trace[n + 1])
  {
    RunHolds(trace, ops, n);
    assert StepAt(trace, ops, n);
    StepKeepsSpacing(trace[n], ops[n], trace[n + 1]);
  }

  /** Over any stretch of a run in which the anchors of bootstrapped newcomers fit, from any state with spaced stamps,
      even when the supplied clock repeats or goes back: all retained stamps stay at least 1ms apart and none is above
      the clock. */
  lemma {:induction false} RunSpaced(trace: seq<Machine>, ops: seq<Op>, n: nat)
    requires Segment(trace, ops) && MachineHolds(trace[0]) && MachineSpaced(trace[0]) && n <= |ops|
    requires forall i {:trigger ops[i]} :: 0 <= i < |ops| ==> GuardsSpacing(trace[i], ops[i])
    ensures MachineSpaced(trace[n])
  {
    if n > 0 {
      RunSpaced(trace, ops, n - 1);
      SpacedAfter(trace, ops, n - 1);
    }
  }

  /** In such a stretch every observation but a bootstrapped newcomer is stamped that way: a reported change above all,
      otherwise nothing moves. */
  lemma RunStamps(trace: seq<Machine>, ops: seq<Op>, n: nat)
    requires Segment(trace, ops) && MachineHolds(trace[0]) && MachineSpaced(trace[0])
    requires n < |ops| && ops[n].Observe? && Tracked(ops[n].pod) && NoNewcomer(trace[n].st, ops[n])
    requires forall i {:trigger ops[i]} :: 0 <= i < |ops| ==> GuardsSpacing(trace[i], ops[i])
    ensures Stamped(trace[n].st, AppId(ops[n].pod),
                    Reports(trace[n].cfg, trace[n].st, ops[n].pod, ops[n].deleted, ops[n].bootstrap, ops[n].now),
                    trace[n + 1].st)
  {
    RunHolds(trace, ops, n);
    assert StepAt(trace, ops, n);
    RunSpaced(trace, ops, n);
    StampedAt(trace[n], ops[n], trace[n + 1]);
  }

  lemma StampedAt(m: Machine, op: Op, m': Machine)
    requires MachineHolds(m) && Admits(m.st, op) && Steps(m, op, m') && op.Observe? && Tracked(op.pod)
    requires NoNewcomer(m.st, op) && Spaced(m.st)
    ensures Stamped(m.st, AppId(op.pod), Reports(m.cfg, m.st, op.pod, op.deleted, op.bootstrap, op.now), m'.st)
  {
    LiveStamp(m.cfg, m.st, op, m'.st);
  }

  // ----- Stores with anchors -----

  /** No stamp is above both the clock and the latest anchor. */
  predicate Under(st: State, anchor: Time) {
    forall a :: a in st.apps ==> st.apps[a].changedAt <= anchor || st.apps[a].changedAt <= st.lastChanged
  }

  predicate MachineUnder(m: Machine, anchor: Time) {
    Under(m.st, anchor) && (m.disk.Some? ==> Under(m.disk.value, anchor))
  }

  /** Live observations come at least 1ms after the latest anchor, and no newcomer is anchored later than that. */
  predicate PastAnchor(m: Machine, op: Op, anchor: Time) {
    && !op.Import?
    && (op.Observe? && Tracked(op.pod) ==>
          if !op.bootstrap then anchor + MILLISECOND <= op.now
          else AppId(op.pod) in m.st.apps
               || Anchor(op.pod, AppAfter(m.cfg, m.st, op.pod, op.deleted, op.now), op.now) <= anchor)
  }

  /** A reported change is stamped at least 1ms above every retained stamp, anchors included. */
  predicate StampedAbove(st: State, id: string, st': State) {
    && (forall a :: a in st.apps ==> st.apps[a].changedAt + MILLISECOND <= st'.lastChanged)
    && (id in st'.apps ==> st'.apps[id].changedAt == st'.lastChanged)
    && st.lastChanged < st'.lastChanged
  }

  lemma AppStaysUnder(cfg: Config, st: State, op: Op, anchor: Time)
    requires op.Observe? && Plausible(op) && KnownPhase(op) && Tracked(op.pod) && Sound(st) && Under(st, anchor)
    requires if !op.bootstrap then anchor + MILLISECOND <= op.now
             else AppId(op.pod) in st.apps
                  || Anchor(op.pod, AppAfter(cfg, st, op.pod, op.deleted, op.now), op.now) <= anchor
    ensures var st' := UpsertApp(cfg, st, op.pod, op.deleted, op.bootstrap, op.now);
            && Under(st', anchor)
            && (Reports(cfg, st, op.pod, op.deleted, op.bootstrap, op.now) ==> StampedAbove(st, AppId(op.pod), st'))
  {
    forall a | a in st.apps
      ensures st.apps[a].changedAt > 0
    {
      assert AppHolds(a, st.apps[a]);
    }
  }

  lemma ObserveStaysUnder(m: Machine, op: Op, m': Machine, anchor: Time)
    requires MachineHolds(m) && Admits(m.st, op) && Steps(m, op, m') && op.Observe? && Tracked(op.pod)
    requires Under(m.st, anchor) && PastAnchor(m, op, anchor)
    ensures Under(m'.st, anchor)
    ensures Reports(m.cfg, m.st, op.pod, op.deleted, op.bootstrap, op.now) ==> StampedAbove(m.st, AppId(op.pod), m'.st)
  {
    AppStaysUnder(m.cfg, m.st, op, anchor);
    AppsPassThrough(m.cfg, m.st, op, m'.st);
  }

  lemma StepStaysUnder(m: Machine, op: Op, m': Machine, anchor: Time)
    requires MachineHolds(m) && Admits(m.st, op) && Steps(m, op, m')
    requires MachineUnder(m, anchor) && PastAnchor(m, op, anchor)
    ensures MachineUnder(m', anchor)
  {
    match op
    case Observe(pod, _, _, _, _, _) => if Tracked(pod) { ObserveStaysUnder(m, op, m', anchor); }
    case Import(_, _, _, _, _) =>
    case Save(_) =>
    case Restart(cfg, file, order) => if m.disk.Some? { RestartDominates(cfg, m.disk.value, file, order, 1); }
  }

  lemma UnderAfter(trace: seq<Machine>, ops: seq<Op>, anchor: Time, n: nat)
    requires Segment(trace, ops) && MachineHolds(trace[0]) && n < |ops|
    requires PastAnchor(trace[n], ops[n], anchor) && MachineUnder(trace[n], anchor)
    ensures MachineUnder(trace[n + 1], anchor)
  {
    RunHolds(trace, ops, n);
    assert StepAt(trace, ops, n);
    StepStaysUnder(trace[n], ops[n], trace[n + 1], anchor);
  }

  lemma {:induction false} RunStaysUnder(trace: seq<Machine>, ops: seq<Op>, anchor: Time, n: nat)
    requires Segment(trace, ops) && MachineHolds(trace[0]) && MachineUnder(trace[0], anchor) && n <= |ops|
    requires forall i {:trigger ops[i]} :: 0 <= i < |ops| ==> PastAnchor(trace[i], ops[i], anchor)
    ensures MachineUnder(trace[n], anchor)
  {
    if n > 0 {
      RunStaysUnder(trace, ops, anchor, n - 1);
      UnderAfter(trace, ops, anchor, n - 1);
    }
  }

  /** Newcomers included: as long as live observations come at least 1ms after every anchor, each reported change is
      stamped at least 1ms above every retained stamp. */
  lemma RunStampsAboveAnchors(trace: seq<Machine>, ops: seq<Op>, anchor: Time, n: nat)
    requires Segment(trace, ops) && MachineHolds(trace[0]) && MachineUnder(trace[0], anchor)
    requires forall i {:trigger ops[i]} :: 0 <= i < |ops| ==> PastAnchor(trace[i], ops[i], anchor)
    requires n < |ops| && ops[n].Observe? && Tracked(ops[n].pod)
    requires Reports(trace[n].cfg, trace[n].st, ops[n].pod, ops[n].deleted, ops[n].bootstrap, ops[n].now)
    ensures StampedAbove(trace[n].st, AppId(ops[n].pod), trace[n + 1].st)
  {
    RunHolds(trace, ops, n);
    assert StepAt(trace, ops, n);
    RunStaysUnder(trace, ops, anchor, n);
    ObserveStaysUnder(trace[n], ops[n], trace[n + 1], anchor);
  }
}
