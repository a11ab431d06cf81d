/** Completion summaries: what is published of an application once it has finished. */
module Completions {
  import opened Prelude
  import opened Kubernetes
  import opened StoreState
  import opened StoreRuns
  import opened StoreTheorems
  import opened StoreHistory

  /** `namespace` and `applicationID` identify the document within the cluster. */
  datatype Completion = Completion(
    namespace: string,
    applicationID: string,
    podName: string,
    queue: string,
    finishedAt: Time,
    status: string)

  /** Deletion after success or failure retains the actual outcome. */
  function Outcome(view: ApplicationView): string {
    if view.driverPhase == "Failed" then "failed"
    else if view.driverPhase == "Succeeded" then "succeeded"
    else view.app.status
  }

  /** The summary published after an observation of `pod` left the store in `st`. */
  function Summary(st: State, pod: Pod): Option<Completion> {
    var id := AppId(pod);
    if SparkRole(pod) != "driver" || id !in st.apps || st.apps[id].finishedAt.None? then None
    else
      var view := View(st, st.apps[id]);
      Some(Completion(view.app.namespace, view.app.applicationID, view.app.driverPodName,
                      if "queue" in view.driverLabels then view.driverLabels["queue"] else "",
                      view.app.finishedAt.value, Outcome(view)))
  }

  /** While its application is retained an observed driver is what the join finds. */
  lemma DriverIsJoined(cfg: Config, st: State, op: Op, st': State)
    requires op.Observe? && SparkRole(op.pod) == "driver" && AppId(op.pod) in st'.apps
    requires Upserts(cfg, st, op.pod, op.deleted, op.bootstrap, op.now, op.goneApps, op.gonePods, st')
    ensures st'.apps[AppId(op.pod)].applicationID == AppId(op.pod) ==>
              && View(st', st'.apps[AppId(op.pod)]).driverPhase == op.pod.phase
              && View(st', st'.apps[AppId(op.pod)]).driverLabels == op.pod.labels
  {
    var half := UpsertApp(cfg, st, op.pod, op.deleted, op.bootstrap, op.now);
    var recorded := UpsertPod(cfg, half, op.pod, op.deleted, op.bootstrap, op.now);
    var key := PodKey(op.pod);
    assert recorded.pods[key].role == "driver" && recorded.pods[key].applicationID == AppId(op.pod);
    assert recorded.pods[key].phase == op.pod.phase && recorded.pods[key].labels == op.pod.labels;
    SeenDriverStays(cfg, recorded, AppId(op.pod), key, op.goneApps, op.gonePods);
  }

  lemma SeenDriverStays(cfg: Config, st: State, id: string, key: string, goneApps: set<string>, gonePods: set<string>)
    requires id in st.apps && id in st.drivers && st.drivers[id] == key && id !in goneApps
    requires key in st.pods && st.pods[key].role == "driver" && st.pods[key].applicationID == id
    requires gonePods <= Reclaimable(WithoutApps(st, goneApps))
    ensures var st' := WithoutPods(WithoutApps(st, goneApps), gonePods);
            id in st'.drivers && st'.drivers[id] == key && key in st'.pods && st'.pods[key] == st.pods[key]
  {
  }

  lemma SeenHalf(cfg: Config, st: State, op: Op)
    requires op.Observe? && IsDriver(op.pod)
    requires AppId(op.pod) in st.apps ==> st.apps[AppId(op.pod)].applicationID == AppId(op.pod)
    ensures var rec := UpsertApp(cfg, st, op.pod, op.deleted, op.bootstrap, op.now).apps[AppId(op.pod)];
            && rec.applicationID == AppId(op.pod) && rec.driverPodName == op.pod.name
            && rec.status == PodStatus(op.pod, op.deleted) && (op.pod.namespace != "" ==> rec.namespace != "")
            && (rec.finishedAt.Some? <==> op.deleted || Terminal(op.pod)
                                          || (AppId(op.pod) in st.apps && st.apps[AppId(op.pod)].finishedAt.Some?))
  {
  }

  /** What the retained record of an observed application says of its lifecycle. */
  lemma SeenApp(cfg: Config, st: State, op: Op, st': State)
    requires op.Observe? && SparkRole(op.pod) == "driver" && AppId(op.pod) in st'.apps && Sound(st)
    requires Upserts(cfg, st, op.pod, op.deleted, op.bootstrap, op.now, op.goneApps, op.gonePods, st')
    ensures var rec := st'.apps[AppId(op.pod)];
            && rec.applicationID == AppId(op.pod) && rec.driverPodName == op.pod.name
            && rec.status == PodStatus(op.pod, op.deleted) && (op.pod.namespace != "" ==> rec.namespace != "")
            && (rec.finishedAt.Some? <==> op.deleted || Terminal(op.pod)
                                          || (AppId(op.pod) in st.apps && st.apps[AppId(op.pod)].finishedAt.Some?))
  {
    AppsPassThrough(cfg, st, op, st');
    SeenHalf(cfg, st, op);
  }

  /** Status and phase decide the published status. */
  lemma SummaryMeans(st: State, pod: Pod, deleted: bool)
    requires SparkRole(pod) == "driver" && AppId(pod) in st.apps
    requires st.apps[AppId(pod)].applicationID == AppId(pod) && st.apps[AppId(pod)].driverPodName == pod.name
    requires st.apps[AppId(pod)].status == PodStatus(pod, deleted)
    requires View(st, st.apps[AppId(pod)]).driverPhase == pod.phase
             && View(st, st.apps[AppId(pod)]).driverLabels == pod.labels
    ensures Summary(st, pod).Some? <==> st.apps[AppId(pod)].finishedAt.Some?
    ensures Summary(st, pod).Some? ==>
              && Summarises(Summary(st, pod).value, pod, deleted)
              && FromRecord(Summary(st, pod).value, st.apps[AppId(pod)])
  {
  }

  /** The summary names the application and its driver, and tells how the driver ended. */
  predicate Summarises(c: Completion, pod: Pod, deleted: bool) {
    && c.applicationID == AppId(pod) && c.podName == pod.name && c.queue == Label(pod, "queue")
    && c.status == (if pod.phase == "Succeeded" then "succeeded"
                    else if pod.phase == "Failed" then "failed"
                    else PodStatus(pod, deleted))
  }

  /** Namespace and finish are the application's. */
  predicate FromRecord(c: Completion, rec: ApplicationRecord) {
    c.namespace == rec.namespace && Some(c.finishedAt) == rec.finishedAt
  }

  /** A driver is summarised exactly when it is deleted, terminal, or its application finished before; a driver last
      seen Succeeded or Failed is published with that outcome, even by its deletion. */
  lemma CompletionOutcome(cfg: Config, st: State, op: Op, st': State)
    requires op.Observe? && SparkRole(op.pod) == "driver" && AppId(op.pod) in st'.apps && Sound(st)
    requires Upserts(cfg, st, op.pod, op.deleted, op.bootstrap, op.now, op.goneApps, op.gonePods, st')
    ensures Summary(st', op.pod).Some? <==>
              op.deleted || Terminal(op.pod) || (AppId(op.pod) in st.apps && st.apps[AppId(op.pod)].finishedAt.Some?)
    ensures Summary(st', op.pod).Some? ==>
              && Summarises(Summary(st', op.pod).value, op.pod, op.deleted)
              && FromRecord(Summary(st', op.pod).value, st'.apps[AppId(op.pod)])
  {
    SeenApp(cfg, st, op, st');
    DriverIsJoined(cfg, st, op, st');
    SummaryMeans(st', op.pod, op.deleted);
  }

  lemma ObservedHasNamespace(trace: seq<Machine>, ops: seq<Op>, i: nat)
    requires Segment(trace, ops) && MachineHolds(trace[0]) && i < |ops| && ops[i].Observe?
    requires SparkRole(ops[i].pod) == "driver" && AppId(ops[i].pod) in trace[i + 1].st.apps
    requires ops[i].pod.namespace != ""
    ensures trace[i + 1].st.apps[AppId(ops[i].pod)].namespace != ""
  {
    RunHolds(trace, ops, i);
    assert StepAt(trace, ops, i);
    SeenApp(trace[i].cfg, trace[i].st, ops[i], trace[i + 1].st);
  }

  lemma SummaryInRun(trace: seq<Machine>, ops: seq<Op>, i: nat, id: string)
    requires Segment(trace, ops) && MachineHolds(trace[0]) && i < |ops| && ops[i].Observe?
    requires AppId(ops[i].pod) == id && Summary(trace[i + 1].st, ops[i].pod).Some?
    ensures var c := Summary(trace[i + 1].st, ops[i].pod).value;
            && id in trace[i + 1].st.apps && c.applicationID == id && c.namespace == trace[i + 1].st.apps[id].namespace
            && trace[i + 1].st.apps[id].finishedAt == Some(c.finishedAt)
            && (ops[i].pod.namespace != "" ==> c.namespace != "")
  {
    RunHolds(trace, ops, i + 1);
    SummaryOf(trace[i + 1].st, ops[i].pod);
    assert AppHolds(id, trace[i + 1].st.apps[id]);
    if ops[i].pod.namespace != "" { ObservedHasNamespace(trace, ops, i); }
  }

  /** All completion summaries of an application retained over a stretch of a run carry one finish time and one document
      identity, as soon as one of its drivers had a namespace. */
  lemma OneFinishPerApp(trace: seq<Machine>, ops: seq<Op>, i: nat, j: nat, id: string)
    requires Segment(trace, ops) && MachineHolds(trace[0]) && Retained(trace, id) && i < j < |ops|
    requires forall k {:trigger ops[k]} :: 0 <= k < |ops| ==> FileKeeps(trace[k], ops[k], id)
    requires ops[i].Observe? && AppId(ops[i].pod) == id && Summary(trace[i + 1].st, ops[i].pod).Some?
    requires ops[j].Observe? && AppId(ops[j].pod) == id && Summary(trace[j + 1].st, ops[j].pod).Some?
    ensures var (a, b) := (Summary(trace[i + 1].st, ops[i].pod).value, Summary(trace[j + 1].st, ops[j].pod).value);
            && a.finishedAt == b.finishedAt && a.applicationID == b.applicationID == id
            && (a.namespace != "" || ops[i].pod.namespace != "" ==> a.namespace == b.namespace)
  {
    SummaryInRun(trace, ops, i, id);
    SummaryInRun(trace, ops, j, id);
    TimesSetOnce(trace, ops, id, i + 1, j + 1);
  }

  lemma SummaryOf(st: State, pod: Pod)
    requires Summary(st, pod).Some?
    ensures var (rec, c) := (st.apps[AppId(pod)], Summary(st, pod).value);
            rec.finishedAt == Some(c.finishedAt) && rec.namespace == c.namespace && rec.applicationID == c.applicationID
  {
  }
}
