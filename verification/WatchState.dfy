/** What one watch event or one listed pod does to the pod cache, the handler and the position. */
module WatchState {
  import opened Kubernetes
  import opened ResourceVersion

  datatype Kind = Added | Modified | Deleted
  datatype Event = Event(kind: Kind, pod: Pod)

  /** A call made into the event handler. */
  datatype Call =
    | OnAdd(pod: Pod, initial: bool)
    | OnUpdate(previous: Pod, pod: Pod)
    | OnDelete(pod: Pod)

  type PodCache = map<string, Pod>

  /** The watcher's in-memory state, lost in a crash. */
  datatype Volatile = Volatile(lastRV: string, dirty: bool, synced: bool, cache: PodCache)

  function SetRV(v: Volatile, rv: string): Volatile {
    if rv == "" || rv == v.lastRV then v else v.(lastRV := rv, dirty := true)
  }

  function ClearRV(v: Volatile): Volatile {
    v.(lastRV := "", dirty := false)
  }

  /** Does the cache already hold this version of the pod, or a newer one? */
  predicate UpToDate(cache: PodCache, pod: Pod) {
    MetaKey(pod) in cache && RvAtLeast(cache[MetaKey(pod)].resourceVersion, pod.resourceVersion)
  }

  /** Handler calls for a pod observed alive. */
  function ObserveCalls(cache: PodCache, pod: Pod): seq<Call> {
    if UpToDate(cache, pod) then []
    else if MetaKey(pod) in cache then [OnUpdate(cache[MetaKey(pod)], pod)]
    else [OnAdd(pod, false)]
  }

  function Observe(cache: PodCache, pod: Pod): PodCache {
    if UpToDate(cache, pod) then cache else cache[MetaKey(pod) := pod]
  }

  function Calls(cache: PodCache, e: Event): seq<Call> {
    if e.kind.Deleted? then [OnDelete(e.pod)] else ObserveCalls(cache, e.pod)
  }

  function Apply(cache: PodCache, e: Event): PodCache {
    if e.kind.Deleted? then cache - {MetaKey(e.pod)} else Observe(cache, e.pod)
  }

  /** One watch event handled to the end. */
  function Handle(v: Volatile, e: Event): Volatile {
    SetRV(v.(cache := Apply(v.cache, e)), e.pod.resourceVersion)
  }

  /** The cache after it is replaced by a list; the last pod under a key wins. */
  function CacheOf(items: seq<Pod>): PodCache {
    if items == [] then map[]
    else CacheOf(items[..|items| - 1])[MetaKey(items[|items| - 1]) := items[|items| - 1]]
  }

  function InitialCalls(items: seq<Pod>): seq<Call> {
    seq(|items|, i requires 0 <= i < |items| => OnAdd(items[i], true))
  }

  /** The pod a live call carries has been shown to the handler. */
  ghost predicate Seen(log: seq<Call>, pod: Pod) {
    exists c :: c in log && !c.OnDelete? && c.pod == pod
  }

  /** A visiting order: every key once. */
  ghost predicate EnumeratesKeys(todo: seq<string>, keys: set<string>) {
    && (forall x :: x in todo <==> x in keys)
    && (forall i, j :: 0 <= i < j < |todo| ==> todo[i] != todo[j])
  }
}
