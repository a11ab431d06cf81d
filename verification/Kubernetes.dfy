/** The part of a Kubernetes pod object that podwatcher reads. */
module Kubernetes {
  import opened Prelude

  datatype ContainerState =
    | Terminated(startedAt: Time, finishedAt: Time)
    | Running(startedAt: Time)
    | Waiting

  datatype Pod = Pod(
    namespace: string,
    name: string,
    uid: string,
    resourceVersion: string,
    labels: map<string, string>,
    node: string,
    phase: string,
    creation: Time,
    deletion: Option<Time>,
    startTime: Option<Time>,
    containers: seq<ContainerState>)

  /** The cache key of a pod: namespace/name, or the bare name without a namespace. */
  function MetaKey(pod: Pod): string {
    if pod.namespace != "" then pod.namespace + "/" + pod.name else pod.name
  }

  function Label(pod: Pod, key: string): string {
    if key in pod.labels then pod.labels[key] else ""
  }

  /** The Spark application id of a pod; empty when the pod is not tracked. */
  function AppId(pod: Pod): string {
    Label(pod, "appSparkID")
  }

  /** driver, executor, or empty for a pod outside any Spark application. */
  function SparkRole(pod: Pod): string {
    var role := Label(pod, "spark-role");
    if (role != "driver" && role != "executor") || AppId(pod) == "" then "" else role
  }

  predicate IsDriver(pod: Pod) {
    Label(pod, "spark-role") == "driver"
  }

  /** Identity of a pod in the state store: its UID, else namespace/name. */
  function PodKey(pod: Pod): string {
    if pod.uid != "" then pod.uid else pod.namespace + "/" + pod.name
  }
}
