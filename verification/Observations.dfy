/** What one observation leaves in the two records, in terms of the pod that was observed. */
module Observations {
  import opened Prelude
  import opened Kubernetes
  import opened StoreState
  import opened StoreRuns
  import opened StoreTheorems

  /** The labels name the pod a driver or an executor of this application. */
  predicate Belongs(pod: Pod, role: string, app: string) {
    && (role == "driver" || role == "executor") && app != ""
    && "spark-role" in pod.labels && pod.labels["spark-role"] == role
    && "appSparkID" in pod.labels && pod.labels["appSparkID"] == app
  }

  /** Exactly such pods are recorded. */
  lemma RecordedPodsBelong(pod: Pod)
    ensures Tracked(pod) <==> Belongs(pod, SparkRole(pod), AppId(pod))
    ensures forall role, app :: Belongs(pod, role, app) ==>
              Tracked(pod) && SparkRole(pod) == role && AppId(pod) == app && (IsDriver(pod) <==> role == "driver")
  {
  }

  /** The label, if it is there and not empty, else the fallback. */
  predicate Labelled(value: string, pod: Pod, key: string, fallback: string) {
    value == if key in pod.labels && pod.labels[key] != "" then pod.labels[key] else fallback
  }

  // ----- The application record -----

  /** Names and times of the application: the earliest creation, the first namespace, the latest non-empty labels. */
  predicate AppNamed(cfg: Config, before: Option<ApplicationRecord>, rec: ApplicationRecord, pod: Pod, app: string,
                     now: Time) {
    && rec.lastUpdatedAt == now
    && match before
       case None =>
         && rec.applicationID == app && rec.firstSeenAt == now && rec.cluster == cfg.cluster
         && rec.namespace == pod.namespace && rec.createdAt == (if pod.creation != 0 then pod.creation else now)
         && Labelled(rec.sparkAppName, pod, "spark-app-name", "")
         && Labelled(rec.sparkAppSelector, pod, "spark-app-selector", "")
       case Some(b) =>
         && rec.applicationID == b.applicationID && rec.firstSeenAt == b.firstSeenAt
         && rec.cluster == (if cfg.cluster != "" then cfg.cluster else b.cluster)
         && rec.namespace == (if b.namespace != "" then b.namespace else pod.namespace)
         && rec.createdAt == (if pod.creation != 0 && pod.creation < b.createdAt then pod.creation else b.createdAt)
         && Labelled(rec.sparkAppName, pod, "spark-app-name", b.sparkAppName)
         && Labelled(rec.sparkAppSelector, pod, "spark-app-selector", b.sparkAppSelector)
  }

  predicate StatusIs(status: string, pod: Pod, deleted: bool) {
    && (deleted ==> status == "deleted")
    && (!deleted && pod.phase == "Succeeded" ==> status == "succeeded")
    && (!deleted && pod.phase == "Failed" ==> status == "failed")
    && (!deleted && pod.phase == "Running" ==> status == "running")
    && (!deleted && pod.phase == "Pending" ==> status == "pending")
    && (!deleted && pod.phase !in {"Succeeded", "Failed", "Running", "Pending"} ==> status == pod.phase)
  }

  /** The finish of the first container that is not waiting, if it has ended and says when; else the time of the
      call. */
  ghost predicate FinishIs(finish: Option<Time>, pod: Pod, now: Time) {
    && (forall i: nat :: FirstStarted(pod.containers, i) ==>
          finish == if pod.containers[i].Terminated? && pod.containers[i].finishedAt != 0
                    then Some(pod.containers[i].finishedAt) else Some(now))
    && ((forall i: nat :: !FirstStarted(pod.containers, i)) ==> finish == Some(now))
  }

  /** Executors leave the lifecycle alone; a driver sets name and status, and finish and deletion once. */
  ghost predicate AppAdvanced(before: Option<ApplicationRecord>, rec: ApplicationRecord, pod: Pod, role: string,
                        deleted: bool, now: Time) {
    var ended := deleted || pod.phase == "Succeeded" || pod.phase == "Failed";
    var (finish, deletion) :=
      if before.Some? then (before.value.finishedAt, before.value.deletedAt) else (None, None);
    if role == "driver" then
      && rec.driverPodName == pod.name && StatusIs(rec.status, pod, deleted)
      && (if finish.Some? || !ended then rec.finishedAt == finish else FinishIs(rec.finishedAt, pod, now))
      && rec.deletedAt == (if deletion.None? && deleted then Some(now) else deletion)
    else
      && rec.finishedAt == finish && rec.deletedAt == deletion
      && rec.driverPodName == (if before.Some? then before.value.driverPodName else "")
      && rec.status == (if before.Some? then before.value.status else "unknown")
  }

  lemma TimesAreFirst(pod: Pod)
    ensures forall i: nat :: FirstStarted(pod.containers, i) ==>
              ContainerTimes(pod) == match pod.containers[i]
                 case Terminated(started, finished) =>
                   (if started != 0 then Some(started) else None, if finished != 0 then Some(finished) else None)
                 case Running(started) => (Some(started), None)
    ensures (forall i: nat :: !FirstStarted(pod.containers, i)) ==> ContainerTimes(pod) == (pod.startTime, None)
  {
    if i: nat :| FirstStarted(pod.containers, i) {
      forall i: nat | FirstStarted(pod.containers, i)
        ensures ContainerTimes(pod) == match pod.containers[i]
                  case Terminated(started, finished) =>
                    (if started != 0 then Some(started) else None, if finished != 0 then Some(finished) else None)
                  case Running(started) => (Some(started), None)
      {
        TimesAt(pod.containers, pod.startTime, i);
      }
    } else {
      NoTimes(pod.containers, pod.startTime);
    }
  }

  lemma FinishIsFirst(pod: Pod, now: Time)
    ensures FinishIs(Some(OrElse(ContainerTimes(pod).1, now)), pod, now)
  {
    TimesAreFirst(pod);
  }

  lemma AppHalfNamed(cfg: Config, st: State, op: Op, role: string, app: string)
    requires op.Observe? && Belongs(op.pod, role, app)
    ensures var rec := UpsertApp(cfg, st, op.pod, op.deleted, op.bootstrap, op.now).apps[app];
            AppNamed(cfg, Lookup(st.apps, app), rec, op.pod, app, op.now)
  {
    RecordedPodsBelong(op.pod);
  }

  lemma AppHalfAdvanced(cfg: Config, st: State, op: Op, role: string, app: string)
    requires op.Observe? && Belongs(op.pod, role, app)
    ensures var rec := UpsertApp(cfg, st, op.pod, op.deleted, op.bootstrap, op.now).apps[app];
            AppAdvanced(Lookup(st.apps, app), rec, op.pod, role, op.deleted, op.now)
  {
    RecordedPodsBelong(op.pod);
    FinishIsFirst(op.pod, op.now);
  }

  /** An application retained by an observation of one of its pods, live or bootstrapped, field by field. */
  lemma AppTellsObservation(cfg: Config, st: State, op: Op, role: string, app: string, st': State)
    requires op.Observe? && Belongs(op.pod, role, app) && app in st'.apps
    requires Upserts(cfg, st, op.pod, op.deleted, op.bootstrap, op.now, op.goneApps, op.gonePods, st')
    ensures AppNamed(cfg, Lookup(st.apps, app), st'.apps[app], op.pod, app, op.now)
    ensures AppAdvanced(Lookup(st.apps, app), st'.apps[app], op.pod, role, op.deleted, op.now)
  {
    AppsPassThrough(cfg, st, op, st');
    AppHalfNamed(cfg, st, op, role, app);
    AppHalfAdvanced(cfg, st, op, role, app);
  }

  lemma NewcomerHalf(cfg: Config, st: State, op: Op, role: string, app: string)
    requires op.Observe? && op.bootstrap && !op.deleted && Belongs(op.pod, role, app) && app !in st.apps
    ensures var rec := UpsertApp(cfg, st, op.pod, op.deleted, op.bootstrap, op.now).apps[app];
            if role == "driver" && (op.pod.phase == "Succeeded" || op.pod.phase == "Failed") then
              FinishIs(Some(rec.changedAt), op.pod, op.now)
            else rec.changedAt == if op.pod.creation != 0 then op.pod.creation else op.now
  {
    RecordedPodsBelong(op.pod);
    FinishIsFirst(op.pod, op.now);
  }

  /** A new record is bootstrapped to its finish, else its pod's creation, else the time of the call. */
  lemma NewcomerIsAnchored(cfg: Config, st: State, op: Op, role: string, app: string, st': State)
    requires op.Observe? && op.bootstrap && !op.deleted && Belongs(op.pod, role, app)
    requires app in st'.apps && app !in st.apps
    requires Upserts(cfg, st, op.pod, op.deleted, op.bootstrap, op.now, op.goneApps, op.gonePods, st')
    ensures if role == "driver" && (op.pod.phase == "Succeeded" || op.pod.phase == "Failed") then
              FinishIs(Some(st'.apps[app].changedAt), op.pod, op.now)
            else st'.apps[app].changedAt == if op.pod.creation != 0 then op.pod.creation else op.now
  {
    AppsPassThrough(cfg, st, op, st');
    NewcomerHalf(cfg, st, op, role, app);
  }

  lemma OthersInHalf(cfg: Config, st: State, op: Op, role: string, app: string)
    requires op.Observe? && Belongs(op.pod, role, app)
    ensures var half := UpsertApp(cfg, st, op.pod, op.deleted, op.bootstrap, op.now);
            forall a :: a in half.apps && a != app ==> a in st.apps && half.apps[a] == st.apps[a]
    ensures var half := UpsertPod(cfg, st, op.pod, op.deleted, op.bootstrap, op.now);
            forall k :: k in half.pods && k != KeyOf(op.pod) ==> k in st.pods && half.pods[k] == st.pods[k]
  {
    RecordedPodsBelong(op.pod);
  }

  /** The records of no other application and of no other pod change. */
  lemma OthersUntouched(cfg: Config, st: State, op: Op, role: string, app: string, st': State)
    requires op.Observe? && Belongs(op.pod, role, app)
    requires Upserts(cfg, st, op.pod, op.deleted, op.bootstrap, op.now, op.goneApps, op.gonePods, st')
    ensures forall a :: a in st'.apps && a != app ==> a in st.apps && st'.apps[a] == st.apps[a]
    ensures forall k :: k in st'.pods && k != KeyOf(op.pod) ==> k in st.pods && st'.pods[k] == st.pods[k]
  {
    AppsPassThrough(cfg, st, op, st');
    PodsPassThrough(cfg, st, op, st');
    OthersInHalf(cfg, st, op, role, app);
  }

  // ----- The pod record -----

  function KeyOf(pod: Pod): string {
    if pod.uid != "" then pod.uid else pod.namespace + "/" + pod.name
  }

  /** The record describes the pod as it was observed. */
  predicate PodDescribes(cfg: Config, before: Option<PodRecord>, rec: PodRecord, pod: Pod, role: string, app: string,
                         deleted: bool, now: Time) {
    && rec.applicationID == app && rec.role == role && rec.namespace == pod.namespace && rec.name == pod.name
    && rec.node == pod.node && rec.labels == pod.labels && rec.phase == pod.phase
    && StatusIs(rec.status, pod, deleted)
    && rec.executorID == (if "spark-exec-id" in pod.labels then pod.labels["spark-exec-id"] else "")
    && match before
       case None =>
         && rec.uid == KeyOf(pod) && rec.firstSeenAt == now && rec.cluster == cfg.cluster
         && rec.createdAt == (if pod.creation != 0 then pod.creation else now)
       case Some(b) =>
         && rec.uid == b.uid && rec.firstSeenAt == b.firstSeenAt
         && rec.cluster == (if cfg.cluster != "" then cfg.cluster else b.cluster)
         && rec.createdAt == (if pod.creation != 0 && pod.creation < b.createdAt then pod.creation else b.createdAt)
  }

  /** Start and finish follow the first container that is not waiting, or the pod's start time if all are; what is not
      told stays. */
  ghost predicate PodRuns(before: Option<PodRecord>, rec: PodRecord, pod: Pod) {
    var (started, finished) :=
      if before.Some? then (before.value.containerStartedAt, before.value.containerFinishedAt) else (None, None);
    && (forall i: nat :: FirstStarted(pod.containers, i) ==>
          match pod.containers[i]
          case Running(s) => rec.containerStartedAt == Some(s) && rec.containerFinishedAt == finished
          case Terminated(s, f) =>
            && rec.containerStartedAt == (if s != 0 then Some(s) else started)
            && rec.containerFinishedAt == (if s != 0 && f != 0 then Some(f) else finished))
    && ((forall i: nat :: !FirstStarted(pod.containers, i)) ==>
          && rec.containerStartedAt == (if pod.startTime.Some? then pod.startTime else started)
          && rec.containerFinishedAt == finished)
  }

  /** A live observation is dated by the call and a first deletion with it; a bootstrap by the start it told, else the
      creation, else the call, and it deletes nothing. */
  ghost predicate PodDated(before: Option<PodRecord>, rec: PodRecord, pod: Pod, deleted: bool, bootstrap: bool,
                           now: Time) {
    var (deletion, removal) :=
      if before.Some? then (before.value.deletedAt, before.value.deletionTimestamp) else (None, None);
    && rec.deletionTimestamp == (if pod.deletion.Some? then pod.deletion else removal)
    && rec.deletedAt == (if deletion.None? && deleted && !bootstrap then Some(now) else deletion)
    && (!bootstrap ==> rec.lastUpdatedAt == now)
    && (bootstrap ==>
          var fallback := if pod.creation != 0 then pod.creation else now;
          && (forall i: nat :: FirstStarted(pod.containers, i) ==>
                rec.lastUpdatedAt == if pod.containers[i].Running? || pod.containers[i].startedAt != 0
                                     then pod.containers[i].startedAt else fallback)
          && ((forall i: nat :: !FirstStarted(pod.containers, i)) ==>
                rec.lastUpdatedAt == if pod.startTime.Some? then pod.startTime.value else fallback))
  }

  lemma PodHalfDescribes(cfg: Config, st: State, op: Op, role: string, app: string)
    requires op.Observe? && Belongs(op.pod, role, app)
    ensures var pods := UpsertPod(cfg, st, op.pod, op.deleted, op.bootstrap, op.now).pods;
            KeyOf(op.pod) in pods
            && PodDescribes(cfg, Lookup(st.pods, KeyOf(op.pod)), pods[KeyOf(op.pod)], op.pod, role, app, op.deleted,
                            op.now)
  {
    RecordedPodsBelong(op.pod);
  }

  lemma PodHalfTimes(cfg: Config, st: State, op: Op)
    requires op.Observe?
    ensures var pods := UpsertPod(cfg, st, op.pod, op.deleted, op.bootstrap, op.now).pods;
            && KeyOf(op.pod) in pods && PodRuns(Lookup(st.pods, KeyOf(op.pod)), pods[KeyOf(op.pod)], op.pod)
            && PodDated(Lookup(st.pods, KeyOf(op.pod)), pods[KeyOf(op.pod)], op.pod, op.deleted, op.bootstrap, op.now)
  {
    TimesAreFirst(op.pod);
  }

  /** A pod record retained by an observation of its pod, live or bootstrapped, field by field. */
  lemma PodTellsObservation(cfg: Config, st: State, op: Op, role: string, app: string, st': State)
    requires op.Observe? && Belongs(op.pod, role, app) && KeyOf(op.pod) in st'.pods
    requires Upserts(cfg, st, op.pod, op.deleted, op.bootstrap, op.now, op.goneApps, op.gonePods, st')
    ensures var (before, rec) := (Lookup(st.pods, KeyOf(op.pod)), st'.pods[KeyOf(op.pod)]);
            && PodDescribes(cfg, before, rec, op.pod, role, app, op.deleted, op.now)
            && PodRuns(before, rec, op.pod) && PodDated(before, rec, op.pod, op.deleted, op.bootstrap, op.now)
  {
    PodsPassThrough(cfg, st, op, st');
    PodHalfDescribes(cfg, st, op, role, app);
    PodHalfTimes(cfg, st, op);
  }
}
