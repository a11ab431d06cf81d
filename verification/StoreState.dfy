/** Application and pod records, and what each store operation does to them. */
module StoreState {
  import opened Prelude
  import opened Kubernetes

  datatype ApplicationRecord = ApplicationRecord(
    applicationID: string,
    cluster: string,
    sparkAppName: string,
    sparkAppSelector: string,
    namespace: string,
    driverPodName: string,
    status: string,
    changedAt: Time,
    createdAt: Time,
    firstSeenAt: Time,
    lastUpdatedAt: Time,
    finishedAt: Option<Time>,
    deletedAt: Option<Time>)

  datatype PodRecord = PodRecord(
    uid: string,
    cluster: string,
    applicationID: string,
    namespace: string,
    name: string,
    node: string,
    role: string,
    executorID: string,
    labels: map<string, string>,
    phase: string,
    status: string,
    createdAt: Time,
    containerStartedAt: Option<Time>,
    containerFinishedAt: Option<Time>,
    deletionTimestamp: Option<Time>,
    firstSeenAt: Time,
    lastUpdatedAt: Time,
    deletedAt: Option<Time>)

  datatype ApplicationView = ApplicationView(
    app: ApplicationRecord,
    driverPhase: string,
    driverLabels: map<string, string>)

  /** The three coupled maps and the change clock. */
  datatype State = State(
    apps: map<string, ApplicationRecord>,
    pods: map<string, PodRecord>,
    drivers: map<string, string>,
    lastChanged: Time)

  datatype Config = Config(cluster: string, maxApps: nat, maxPods: nat)

  const EMPTY := State(map[], map[], map[], 0)

  // ----- Reading a pod -----

  function PodStatus(pod: Pod, deleted: bool): string {
    if deleted then "deleted"
    else if pod.phase == "Succeeded" then "succeeded"
    else if pod.phase == "Failed" then "failed"
    else if pod.phase == "Running" then "running"
    else if pod.phase == "Pending" then "pending"
    else pod.phase
  }

  predicate Terminal(pod: Pod) {
    pod.phase == "Succeeded" || pod.phase == "Failed"
  }

  function NonZero(t: Time): Option<Time> {
    if t == 0 then None else Some(t)
  }

  /** Start and finish of the first container that is running or terminated, else the pod's start time. */
  function ContainerTimes(pod: Pod): (Option<Time>, Option<Time>) {
    TimesFrom(pod.containers, pod.startTime)
  }

  function TimesFrom(containers: seq<ContainerState>, fallback: Option<Time>): (Option<Time>, Option<Time>) {
    if containers == [] then (fallback, None)
    else
      match containers[0]
      case Terminated(started, finished) => (NonZero(started), NonZero(finished))
      case Running(started) => (Some(started), None)
      case Waiting => TimesFrom(containers[1..], fallback)
  }

  /** The first container that is running or terminated. */
  predicate FirstStarted(containers: seq<ContainerState>, i: nat) {
    i < |containers| && !containers[i].Waiting? && forall j :: 0 <= j < i ==> containers[j].Waiting?
  }

  /** That container alone decides start and finish. */
  lemma {:induction false} TimesAt(containers: seq<ContainerState>, fallback: Option<Time>, i: nat)
    requires FirstStarted(containers, i)
    ensures TimesFrom(containers, fallback)
         == match containers[i]
            case Terminated(started, finished) =>
              (if started != 0 then Some(started) else None, if finished != 0 then Some(finished) else None)
            case Running(started) => (Some(started), None)
  {
    if i > 0 { TimesAt(containers[1..], fallback, i - 1); }
  }

  lemma {:induction false} NoTimes(containers: seq<ContainerState>, fallback: Option<Time>)
    requires forall i: nat :: !FirstStarted(containers, i)
    ensures TimesFrom(containers, fallback) == (fallback, None)
  {
    if containers != [] {
      assert !FirstStarted(containers, 0);
      forall i: nat
        ensures !FirstStarted(containers[1..], i)
      {
        assert !FirstStarted(containers, i + 1);
      }
      NoTimes(containers[1..], fallback);
    }
  }

  function OrElse(t: Option<Time>, fallback: Time): Time {
    if t.Some? then t.value else fallback
  }

  // ----- The application half of an observation -----

  function NewApp(pod: Pod, appID: string, now: Time): ApplicationRecord {
    ApplicationRecord(appID, "", "", "", pod.namespace, "", "unknown", 0, OrElse(NonZero(pod.creation), now), now, 0,
        None, None)
  }

  /** Earliest known creation time. */
  function Earlier(createdAt: Time, creation: Time): Time {
    if creation != 0 && creation < createdAt then creation else createdAt
  }

  function Preferred(value: string, fallback: string): string {
    if value != "" then value else fallback
  }

  function Identified(cfg: Config, rec: ApplicationRecord, pod: Pod): ApplicationRecord {
    rec.(createdAt := Earlier(rec.createdAt, pod.creation),
         cluster := Preferred(cfg.cluster, rec.cluster),
         namespace := Preferred(rec.namespace, pod.namespace),
         sparkAppName := Preferred(Label(pod, "spark-app-name"), rec.sparkAppName),
         sparkAppSelector := Preferred(Label(pod, "spark-app-selector"), rec.sparkAppSelector))
  }

  /** Only the driver pod moves the lifecycle; finish and deletion times are set once. */
  function Advanced(rec: ApplicationRecord, pod: Pod, deleted: bool, now: Time): ApplicationRecord {
    if !IsDriver(pod) then rec
    else
      rec.(driverPodName := pod.name,
           status := PodStatus(pod, deleted),
           finishedAt := if (deleted || Terminal(pod)) && rec.finishedAt.None?
               then Some(OrElse(ContainerTimes(pod).1, now)) else rec.finishedAt,
           deletedAt := if deleted && rec.deletedAt.None? then Some(now) else rec.deletedAt)
  }

  /** The lifecycle fields a feed consumer follows. */
  function Lifecycle(rec: ApplicationRecord): (string, Option<Time>, Option<Time>) {
    (rec.status, rec.finishedAt, rec.deletedAt)
  }

  /** The next change stamp: never earlier than 1ms after the last one. */
  function NextStamp(lastChanged: Time, now: Time): Time {
    if lastChanged != 0 && now < lastChanged + MILLISECOND then lastChanged + MILLISECOND else now
  }

  function Anchor(pod: Pod, rec: ApplicationRecord, now: Time): Time {
    if rec.finishedAt.Some? then rec.finishedAt.value else OrElse(NonZero(pod.creation), now)
  }

  /** The record an observation starts from. */
  function AppBefore(st: State, pod: Pod, now: Time): ApplicationRecord {
    if AppId(pod) in st.apps then st.apps[AppId(pod)] else NewApp(pod, AppId(pod), now)
  }

  function AppAfter(cfg: Config, st: State, pod: Pod, deleted: bool, now: Time): ApplicationRecord {
    Advanced(Identified(cfg, AppBefore(st, pod, now), pod), pod, deleted, now)
  }

  /** A live observation that the feed reports: a new application, or a moved lifecycle. */
  predicate Reports(cfg: Config, st: State, pod: Pod, deleted: bool, bootstrap: bool, now: Time) {
    !bootstrap
    && (AppId(pod) !in st.apps
        || Lifecycle(AppAfter(cfg, st, pod, deleted, now)) != Lifecycle(st.apps[AppId(pod)]))
  }

  function StampFor(cfg: Config, st: State, pod: Pod, deleted: bool, bootstrap: bool, now: Time): Time {
    var after := AppAfter(cfg, st, pod, deleted, now);
    if Reports(cfg, st, pod, deleted, bootstrap, now) then NextStamp(st.lastChanged, now)
    else if bootstrap && AppId(pod) !in st.apps then Anchor(pod, after, now)
    else after.changedAt
  }

  function UpsertApp(cfg: Config, st: State, pod: Pod, deleted: bool, bootstrap: bool, now: Time): State {
    var rec := AppAfter(cfg, st, pod, deleted, now);
    var changedAt := StampFor(cfg, st, pod, deleted, bootstrap, now);
    st.(apps := st.apps[AppId(pod) := rec.(changedAt := changedAt, lastUpdatedAt := now)],
        lastChanged := if Reports(cfg, st, pod, deleted, bootstrap, now) then changedAt else st.lastChanged)
  }

  // ----- The pod half -----

  function NewPod(pod: Pod, now: Time): PodRecord {
    PodRecord(PodKey(pod), "", "", pod.namespace, pod.name, "", "", "", map[], "", "",
        OrElse(NonZero(pod.creation), now),
        None, None, None, now, 0, None)
  }

  function PodDescribed(cfg: Config, rec: PodRecord, pod: Pod, deleted: bool): PodRecord {
    rec.(createdAt := Earlier(rec.createdAt, pod.creation),
         cluster := Preferred(cfg.cluster, rec.cluster),
         applicationID := AppId(pod), namespace := pod.namespace, name := pod.name, node := pod.node,
         role := SparkRole(pod), executorID := Label(pod, "spark-exec-id"), labels := pod.labels,
         phase := pod.phase, status := PodStatus(pod, deleted))
  }

  function PodTimed(rec: PodRecord, pod: Pod, deleted: bool, bootstrap: bool, now: Time): PodRecord {
    var (started, finished) := ContainerTimes(pod);
    rec.(containerStartedAt := if started.Some? then started else rec.containerStartedAt,
         containerFinishedAt := if started.Some? && finished.Some? then finished else rec.containerFinishedAt,
         deletionTimestamp := if pod.deletion.Some? then pod.deletion else rec.deletionTimestamp,
         lastUpdatedAt := if bootstrap then OrElse(started, OrElse(NonZero(pod.creation), now)) else now,
         deletedAt := if !bootstrap && deleted && rec.deletedAt.None? then Some(now) else rec.deletedAt)
  }

  function PodSeen(cfg: Config, rec: PodRecord, pod: Pod, deleted: bool, bootstrap: bool, now: Time): PodRecord {
    PodTimed(PodDescribed(cfg, rec, pod, deleted), pod, deleted, bootstrap, now)
  }

  function UpsertPod(cfg: Config, st: State, pod: Pod, deleted: bool, bootstrap: bool, now: Time): State {
    var key := PodKey(pod);
    var rec := if key in st.pods then st.pods[key] else NewPod(pod, now);
    st.(pods := st.pods[key := PodSeen(cfg, rec, pod, deleted, bootstrap, now)],
        drivers := if IsDriver(pod) then st.drivers[AppId(pod) := key] else st.drivers)
  }

  /** Both halves of an observation, before any eviction. */
  function Recorded(cfg: Config, st: State, pod: Pod, deleted: bool, bootstrap: bool, now: Time): State {
    UpsertPod(cfg, UpsertApp(cfg, st, pod, deleted, bootstrap, now), pod, deleted, bootstrap, now)
  }

  predicate Tracked(pod: Pod) {
    SparkRole(pod) != ""
  }

  // ----- Eviction -----

  function DeletedApps(st: State): set<string> {
    set id | id in st.apps && st.apps[id].deletedAt.Some?
  }

  /** The cascade: applications, their index entries and all their pods. */
  function WithoutApps(st: State, gone: set<string>): State {
    st.(apps := st.apps - gone, drivers := st.drivers - gone,
        pods := map k | k in st.pods && st.pods[k].applicationID !in gone :: st.pods[k])
  }

  /** Deleted pod records, except the driver of an application still known. */
  function Reclaimable(st: State): set<string> {
    set k | k in st.pods && st.pods[k].deletedAt.Some?
            && !(st.pods[k].role == "driver" && st.pods[k].applicationID in st.apps)
  }

  function WithoutPods(st: State, gone: set<string>): State {
    st.(pods := st.pods - gone)
  }

  function Overflow(size: nat, limit: nat): nat {
    if size > limit then size - limit else 0
  }

  function Least(a: nat, b: nat): nat {
    if a <= b then a else b
  }

  /** `gone` takes as many of the candidates as the overflow asks for, the oldest first. */
  ghost predicate OldestFirst(gone: set<string>, candidates: set<string>, at: string -> Time, overflow: nat) {
    && gone <= candidates
    && |gone| == Least(overflow, |candidates|)
    && forall a, b :: a in gone && b in candidates && b !in gone ==> at(a) <= at(b)
  }

  function AppDeletedAt(st: State): string -> Time {
    id => if id in st.apps then OrElse(st.apps[id].deletedAt, 0) else 0
  }

  function PodDeletedAt(st: State): string -> Time {
    k => if k in st.pods then OrElse(st.pods[k].deletedAt, 0) else 0
  }

  /** The scan for the oldest deletion reads the empty id as "none found": a deleted application under it is never
      evicted, and restarts the scan when it is met, so that one deleted after it can be passed over. */
  predicate PassedOver(st: State, id: string) {
    "" in DeletedApps(st) && AppDeletedAt(st)("") < AppDeletedAt(st)(id)
  }

  /** What the scan can do with a deleted application under the empty id: the order and the number hold up to those
      passed over. */
  ghost predicate EvictsAround(cfg: Config, st: State, gone: set<string>) {
    var candidates := DeletedApps(st) - {""};
    && gone <= candidates
    && |gone| <= Least(Overflow(|st.apps|, cfg.maxApps), |candidates|)
    && (|gone| < Least(Overflow(|st.apps|, cfg.maxApps), |candidates|) ==>
          forall b :: b in candidates && b !in gone ==> PassedOver(st, b))
    && forall a, b :: a in gone && b in candidates && b !in gone ==>
         AppDeletedAt(st)(a) <= AppDeletedAt(st)(b) || PassedOver(st, b)
  }

  ghost predicate EvictsApps(cfg: Config, st: State, gone: set<string>) {
    if "" in DeletedApps(st) then EvictsAround(cfg, st, gone)
    else OldestFirst(gone, DeletedApps(st), AppDeletedAt(st), Overflow(|st.apps|, cfg.maxApps))
  }

  ghost predicate EvictsPods(cfg: Config, st: State, gone: set<string>) {
    OldestFirst(gone, Reclaimable(st), PodDeletedAt(st), Overflow(|st.pods|, cfg.maxPods))
  }

  /** Both eviction passes, applications first; the victims are a choice among equally old records. */
  ghost predicate Evicts(cfg: Config, st: State, goneApps: set<string>, gonePods: set<string>, st': State) {
    && EvictsApps(cfg, st, goneApps)
    && EvictsPods(cfg, WithoutApps(st, goneApps), gonePods)
    && st' == WithoutPods(WithoutApps(st, goneApps), gonePods)
  }

  /** One observation with its evictions. */
  ghost predicate Upserts(cfg: Config, st: State, pod: Pod, deleted: bool, bootstrap: bool, now: Time,
                          goneApps: set<string>, gonePods: set<string>, st': State) {
    Evicts(cfg, Recorded(cfg, st, pod, deleted, bootstrap, now), goneApps, gonePods, st')
  }

  // ----- Eviction, record by record -----

  /** Some deleted applications left, with exactly their pods and index entries. */
  ghost predicate Cascades(before: State, after: State) {
    var gone := before.apps.Keys - after.apps.Keys;
    && after.lastChanged == before.lastChanged
    && (forall id :: id in after.apps ==> id in before.apps && after.apps[id] == before.apps[id])
    && (forall id :: id in gone ==> before.apps[id].deletedAt.Some?)
    && (forall k :: k in after.pods ==> k in before.pods && after.pods[k] == before.pods[k])
    && (forall k :: k in before.pods ==> (k !in after.pods <==> before.pods[k].applicationID in gone))
    && (forall a :: a in after.drivers ==> a in before.drivers && after.drivers[a] == before.drivers[a])
    && (forall a :: a in before.drivers ==> (a !in after.drivers <==> a in gone))
  }

  /** If the store stays over its limit, no application that stays is deleted; none that leaves was deleted later than a
      deleted one that stays; and no more leave than the limit asks for. */
  ghost predicate AppsInTurn(before: State, after: State, limit: nat) {
    && (after.apps != before.apps ==> |after.apps| >= limit)
    && (|after.apps| > limit ==> forall id :: id in after.apps ==> after.apps[id].deletedAt.None?)
    && forall a, b :: (a in before.apps && a !in after.apps && b in after.apps && after.apps[b].deletedAt.Some? ==>
                         OrElse(before.apps[a].deletedAt, 0) <= after.apps[b].deletedAt.value)
  }

  /** A deleted record that the pod pass may take: any but the driver of a known application. */
  predicate Expendable(st: State, rec: PodRecord) {
    rec.deletedAt.Some? && !(rec.role == "driver" && rec.applicationID in st.apps)
  }

  /** The same of the pod pass, which leaves everything but pod records alone. */
  ghost predicate PodsInTurn(before: State, after: State, limit: nat) {
    && after == before.(pods := after.pods)
    && (forall k :: k in after.pods ==> k in before.pods && after.pods[k] == before.pods[k])
    && (forall k :: k in before.pods && k !in after.pods ==> Expendable(before, before.pods[k]))
    && (after.pods != before.pods ==> |after.pods| >= limit)
    && (|after.pods| > limit ==> forall k :: k in after.pods ==> !Expendable(before, after.pods[k]))
    && forall k, l :: (k in before.pods && k !in after.pods && l in after.pods && Expendable(before, after.pods[l]) ==>
                         OrElse(before.pods[k].deletedAt, 0) <= after.pods[l].deletedAt.value)
  }

  lemma NoneLeft(gone: set<string>, candidates: set<string>, size: nat, limit: nat)
    requires gone <= candidates && |gone| == Least(Overflow(size, limit), |candidates|) && |candidates| <= size
    ensures size - |gone| > limit ==> gone == candidates
    ensures gone != {} ==> size - |gone| >= limit
  {
    if size - |gone| > limit {
      SubsetSize(gone, candidates);
      assert candidates == gone + (candidates - gone);
    }
  }

  lemma ReclaimableIsExpendable(st: State, k: string)
    ensures k in Reclaimable(st) <==> k in st.pods && Expendable(st, st.pods[k])
  {
  }

  lemma PodPassOrder(cfg: Config, st: State, gone: set<string>)
    requires EvictsPods(cfg, st, gone)
    ensures gone <= Reclaimable(st) && (gone != {} ==> |st.pods| - |gone| >= cfg.maxPods)
    ensures |st.pods| - |gone| > cfg.maxPods ==> gone == Reclaimable(st)
    ensures forall k, l :: k in gone && l in Reclaimable(st) && l !in gone ==>
              OrElse(st.pods[k].deletedAt, 0) <= OrElse(st.pods[l].deletedAt, 0)
  {
    SubsetSize(Reclaimable(st), st.pods.Keys);
    NoneLeft(gone, Reclaimable(st), |st.pods|, cfg.maxPods);
    forall k, l | k in gone && l in Reclaimable(st) && l !in gone
      ensures OrElse(st.pods[k].deletedAt, 0) <= OrElse(st.pods[l].deletedAt, 0)
    {
      assert PodDeletedAt(st)(k) <= PodDeletedAt(st)(l);
    }
  }

  lemma PodPass(cfg: Config, st: State, gone: set<string>)
    requires EvictsPods(cfg, st, gone)
    ensures PodsInTurn(st, WithoutPods(st, gone), cfg.maxPods)
  {
    PodPassOrder(cfg, st, gone);
    PodsLeft(st, gone);
    forall k
      ensures k in Reclaimable(st) <==> k in st.pods && Expendable(st, st.pods[k])
    {
      ReclaimableIsExpendable(st, k);
    }
    if gone == {} { NothingGone(st); }
  }

  lemma AppPassOrder(cfg: Config, st: State, gone: set<string>)
    requires EvictsApps(cfg, st, gone) && "" !in st.apps
    ensures |st.apps| - |gone| > cfg.maxApps ==> gone == DeletedApps(st)
    ensures forall a, b :: a in gone && b in DeletedApps(st) && b !in gone ==>
              OrElse(st.apps[a].deletedAt, 0) <= OrElse(st.apps[b].deletedAt, 0)
  {
    SubsetSize(DeletedApps(st), st.apps.Keys);
    NoneLeft(gone, DeletedApps(st), |st.apps|, cfg.maxApps);
    forall a, b | a in gone && b in DeletedApps(st) && b !in gone
      ensures OrElse(st.apps[a].deletedAt, 0) <= OrElse(st.apps[b].deletedAt, 0)
    {
      assert AppDeletedAt(st)(a) <= AppDeletedAt(st)(b);
    }
  }

  lemma AppPassSize(cfg: Config, st: State, gone: set<string>)
    requires EvictsApps(cfg, st, gone)
    ensures gone <= DeletedApps(st) && (gone != {} ==> |st.apps| - |gone| >= cfg.maxApps)
  {
  }

  lemma AppPassInTurn(cfg: Config, st: State, gone: set<string>)
    requires EvictsApps(cfg, st, gone) && "" !in st.apps
    ensures AppsInTurn(st, WithoutApps(st, gone), cfg.maxApps)
  {
    AppPassSize(cfg, st, gone);
    AppPassOrder(cfg, st, gone);
    AppsLeft(st, gone);
    RemovedInTurn(st, WithoutApps(st, gone), gone, cfg.maxApps);
  }

  lemma RemovedInTurn(st: State, after: State, gone: set<string>, limit: nat)
    requires after.apps == st.apps - gone && gone <= DeletedApps(st) && (gone != {} ==> |after.apps| >= limit)
    requires |after.apps| > limit ==> gone == DeletedApps(st)
    requires forall a, b :: a in gone && b in DeletedApps(st) && b !in gone ==>
               OrElse(st.apps[a].deletedAt, 0) <= OrElse(st.apps[b].deletedAt, 0)
    ensures AppsInTurn(st, after, limit)
  {
    if gone == {} { assert after.apps == st.apps; }
    forall b | b in after.apps && after.apps[b].deletedAt.Some?
      ensures b in DeletedApps(st) && b !in gone
    {
    }
  }

  lemma AppPassCascades(st: State, gone: set<string>)
    requires gone <= DeletedApps(st)
    ensures Cascades(st, WithoutApps(st, gone))
  {
    assert st.apps.Keys - WithoutApps(st, gone).apps.Keys == gone;
  }

  lemma AppPass(cfg: Config, st: State, gone: set<string>)
    requires EvictsApps(cfg, st, gone)
    ensures Cascades(st, WithoutApps(st, gone))
    ensures "" !in st.apps ==> AppsInTurn(st, WithoutApps(st, gone), cfg.maxApps)
  {
    AppPassSize(cfg, st, gone);
    AppPassCascades(st, gone);
    if "" !in st.apps { AppPassInTurn(cfg, st, gone); }
  }

  /** An observation that marks the store for saving. */
  predicate Marks(st: State, pod: Pod, bootstrap: bool, goneApps: set<string>, gonePods: set<string>) {
    !bootstrap || Creates(st, pod) || Removes(goneApps, gonePods)
  }

  predicate Creates(st: State, pod: Pod) {
    AppId(pod) !in st.apps || PodKey(pod) !in st.pods
  }

  predicate Removes(goneApps: set<string>, gonePods: set<string>) {
    goneApps != {} || gonePods != {}
  }

  // ----- Reading the store -----

  /** An application joined with its driver pod through the index. */
  function View(st: State, rec: ApplicationRecord): ApplicationView {
    var id := rec.applicationID;
    if id in st.drivers && st.drivers[id] in st.pods then
      ApplicationView(rec, st.pods[st.drivers[id]].phase, st.pods[st.drivers[id]].labels)
    else ApplicationView(rec, "", map[])
  }

  // ----- Sets and sequences -----

  function Elements(ids: seq<string>): set<string> {
    set id | id in ids
  }

  lemma {:induction false} DistinctSize(s: seq<string>)
    requires forall i, j :: 0 <= i < j < |s| ==> s[i] != s[j]
    ensures |Elements(s)| == |s|
  {
    if s != [] {
      var front := s[..|s| - 1];
      DistinctSize(front);
      assert Elements(s) == Elements(front) + {s[|s| - 1]};
    }
  }

  lemma SubsetSize(a: set<string>, b: set<string>)
    requires a <= b
    ensures |a| <= |b|
    ensures |b - a| == |b| - |a|
  {
  }

  // ----- Lemmas on eviction -----

  lemma NothingGone(st: State)
    ensures WithoutApps(st, {}) == st && WithoutPods(st, {}) == st
  {
  }

  lemma AppsLeft(st: State, gone: set<string>)
    requires gone <= st.apps.Keys
    ensures |WithoutApps(st, gone).apps| == |st.apps| - |gone|
    ensures DeletedApps(WithoutApps(st, gone)) == DeletedApps(st) - gone
  {
  }

  lemma PodsLeft(st: State, gone: set<string>)
    requires gone <= st.pods.Keys
    ensures |WithoutPods(st, gone).pods| == |st.pods| - |gone|
  {
  }
}
