/** The watcher, its checkpoint savers, its checkpoint store and the cluster, interleaved step by step. */
module WatchProtocol {
  import opened Prelude
  import opened Kubernetes
  import opened ResourceVersion
  import opened WatchState
  import opened Cluster
  import ResumeStore

  /** Where the watch goroutine stands. `n` is the event index at which a list was taken. */
  datatype Task =
    | Idle
    | Seeding(n: nat, items: seq<Pod>, done: nat)
    | Listing(n: nat, rv: string, items: seq<Pod>, done: nat)
    | Merging(n: nat, rv: string, todo: seq<string>)
    | Pruning(n: nat, rv: string, todo: seq<string>)
    | Watching(next: nat)
    | Handled(next: nat)
    | Stored(next: nat)

  /** The periodic saver, and the one that Stop runs. */
  datatype Saver = Periodic | Final

  datatype World = World(
    now: nat,                      // events committed by the cluster so far
    persisted: Option<string>,     // content of the checkpoint store
    abandoned: set<string>,        // versions of saves given up on or cut off by a crash: they may still land
    guard: Option<ResumeStore.Guard>,   // of a checkpoint store that has one
    running: bool,
    v: Volatile,
    task: Task,
    periodic: Option<string>,      // version a save in flight carries
    final: Option<string>,
    log: seq<Call>,                // history: every handler call, across restarts
    lists: set<nat>,               // history: event indexes of completed relists
    listed: nat)                   // history: index of the list behind the current cache

  /** The load at start: from a store without a guard, or as the guarded store's service answers it. */
  datatype Load = Plain(ok: bool) | Guarded(response: ResumeStore.Response)

  /** What a save was answered: by the file system, or by the service of a guarded store, if that answered. */
  datatype Reply = Files(ok: bool) | Service(response: ResumeStore.Response)

  datatype Action =
    | Commit
    | Start(load: Load)
    | Crash
    | Land(rv: string)
    | Seed(items: seq<Pod>)
    | List(rv: string, items: seq<Pod>)
    | Reconcile(rv: string, todo: seq<string>)
    | Prune(todo: seq<string>)
    | Work
    | OpenWatch
    | Bookmark(rv: string)
    | CloseWatch
    | Gone
    | BeginSave(saver: Saver)
    | EndSave(saver: Saver, written: bool, reply: Reply)

  const FRESH := Volatile("", false, false, map[])

  const INITIAL := World(0, None, {}, None, false, FRESH, Idle, None, None, [], {}, 0)

  function InFlight(w: World, s: Saver): Option<string> {
    if s.Periodic? then w.periodic else w.final
  }

  function WithFlight(w: World, s: Saver, rv: Option<string>): World {
    if s.Periodic? then w.(periodic := rv) else w.(final := rv)
  }

  /** A load answers what the checkpoint store holds, when it answers. */
  predicate Answers(persisted: Option<string>, load: Load) {
    match load
    case Plain(_) => true
    case Guarded(response) =>
      && (response.Status? && response.code == 404 ==> persisted.None?)
      && (response.Status? && response.code == 200 && response.envelope.Some? ==> persisted == response.envelope)
  }

  /** The version a load yields, empty when it yields none. */
  function LoadedRV(persisted: Option<string>, load: Load): string {
    match load
    case Plain(ok) => if ok && persisted.Some? then persisted.value else ""
    case Guarded(response) =>
      if ResumeStore.Establishes(ResumeStore.Request.Load(response))
          && response.code == 200 then response.envelope.value else ""
  }

  /** The guard of a process that has just started. */
  function FreshGuard(load: Load): Option<ResumeStore.Guard> {
    match load
    case Plain(_) => None
    case Guarded(response) => Some(ResumeStore.Served(ResumeStore.Guard(false, []), ResumeStore.Request.Load(response)))
  }

  /** A save of this version is sent to the checkpoint store. */
  predicate Sends(w: World, rv: string) {
    w.guard.None? || ResumeStore.LetsThrough(w.guard.value, rv)
  }

  /** The guard after a save. */
  function SavedGuard(w: World, rv: string, reply: Reply): Option<ResumeStore.Guard> {
    if w.guard.Some? && reply.Service? then
      Some(ResumeStore.Served(w.guard.value, ResumeStore.Request.Save(rv, reply.response)))
    else w.guard
  }

  /** The save reports failure to the watcher. */
  predicate Failed(w: World, reply: Reply) {
    match reply
    case Files(ok) => !ok
    case Service(response) => w.guard.Some? && ResumeStore.SaveFails(w.guard.value, response)
  }

  /** The reply says that the version was written: a file replaced, or an answer between 200 and 299. */
  predicate Confirms(reply: Reply) {
    match reply
    case Files(ok) => ok
    case Service(response) => response.Status? && 200 <= response.code <= 299
  }

  /** The versions of the saves in flight. */
  function InTransit(w: World): set<string> {
    (if w.periodic.Some? && Sends(w, w.periodic.value) then {w.periodic.value} else {})
    + (if w.final.Some? && Sends(w, w.final.value) then {w.final.value} else {})
  }

  /** A list taken now reports a version that covers every event so far and none to come. */
  ghost predicate ListVersion(h: History, now: nat, rv: string)
    requires Increasing(h)
  {
    Numeric(rv) && IndexOf(h, rv) == now
  }

  ghost predicate Enabled(h: History, w: World, a: Action)
    requires Increasing(h)
  {
    match a
    case Commit => w.now < |h|
    case Start(load) => !w.running && Answers(w.persisted, load)
    case Crash => w.running
    case Land(rv) => rv in w.abandoned
    case Seed(items) =>
      && w.running && w.task.Idle? && w.v.lastRV != "" && !w.v.synced
      && w.now <= |h| && Enumerates(items, StateAt(h, w.now))
    case List(rv, items) =>
      && w.running && w.task.Idle? && w.v.lastRV == "" && !w.v.synced
      && w.now <= |h| && Enumerates(items, StateAt(h, w.now)) && ListVersion(h, w.now, rv)
    case Reconcile(rv, todo) =>
      && w.running && w.task.Idle? && w.v.lastRV == "" && w.v.synced
      && w.now <= |h| && EnumeratesKeys(todo, StateAt(h, w.now).Keys) && ListVersion(h, w.now, rv)
    case Prune(todo) =>
      w.running && w.task.Merging? && w.task.todo == [] && EnumeratesKeys(todo, w.v.cache.Keys)
    case Work =>
      w.running && (
        match w.task
        case Idle => false
        case Merging(n, _, todo) => todo != [] && n <= |h| && todo[0] in StateAt(h, n)
        case Pruning(n, _, todo) => n <= |h| && (todo != [] ==> todo[0] in w.v.cache)
        case Watching(next) => next < w.now <= |h|
        case Handled(next) => next < |h|
        case Stored(next) => next < |h|
        case _ => true)
    case OpenWatch => w.running && w.task.Idle? && w.v.synced && Numeric(w.v.lastRV)
    case Bookmark(rv) => w.running && w.task.Watching? && Numeric(rv) && IndexOf(h, rv) == w.task.next
    case CloseWatch => w.running && w.task.Watching?
    case Gone => w.running && (w.task.Watching? || (w.task.Idle? && w.v.synced && w.v.lastRV != ""))
    case BeginSave(s) => w.running && InFlight(w, s).None?
    case EndSave(s, written, reply) =>
      && w.running && InFlight(w, s).Some? && (reply.Service? <==> w.guard.Some?)
      && (if Sends(w, InFlight(w, s).value) then Confirms(reply) ==> written else !written)
  }

  /** A pod of the initial list or of the snapshot is shown to the handler. */
  function Show(w: World, pod: Pod, rest: Task): World {
    w.(log := w.log + [OnAdd(pod, true)], task := rest)
  }

  /** The snapshot becomes the cache; the position stays. */
  function FinishSeed(w: World): World
    requires w.task.Seeding?
  {
    w.(v := w.v.(cache := CacheOf(w.task.items), synced := true), listed := w.task.n, task := Idle)
  }

  /** The initial list becomes the cache and its version the position. */
  function FinishList(w: World): World
    requires w.task.Listing?
  {
    w.(v := SetRV(w.v.(cache := CacheOf(w.task.items)), w.task.rv).(synced := true),
       lists := w.lists + {w.task.n}, listed := w.task.n, task := Idle)
  }

  /** Reconcile meets one listed pod. */
  function MergeNext(h: History, w: World): World
    requires w.task.Merging? && w.task.todo != [] && w.task.n <= |h| && w.task.todo[0] in StateAt(h, w.task.n)
  {
    var pod := StateAt(h, w.task.n)[w.task.todo[0]];
    w.(log := w.log + ObserveCalls(w.v.cache, pod), v := w.v.(cache := Observe(w.v.cache, pod)),
       task := Merging(w.task.n, w.task.rv, w.task.todo[1..]))
  }

  /** Reconcile meets one cached pod. */
  function PruneNext(h: History, w: World): World
    requires w.task.Pruning? && w.task.todo != [] && w.task.n <= |h| && w.task.todo[0] in w.v.cache
  {
    var key := w.task.todo[0];
    var rest := Pruning(w.task.n, w.task.rv, w.task.todo[1..]);
    if key in StateAt(h, w.task.n) then w.(task := rest)
    else w.(log := w.log + [OnDelete(w.v.cache[key])], v := w.v.(cache := w.v.cache - {key}), task := rest)
  }

  function FinishReconcile(w: World): World
    requires w.task.Pruning?
  {
    w.(v := SetRV(w.v, w.task.rv), lists := w.lists + {w.task.n}, listed := w.task.n, task := Idle)
  }

  function DispatchNext(h: History, w: World): World
    requires w.task.Watching? && w.task.next < |h|
  {
    w.(log := w.log + Calls(w.v.cache, h[w.task.next]), task := Handled(w.task.next))
  }

  function StoreNext(h: History, w: World): World
    requires w.task.Handled? && w.task.next < |h|
  {
    w.(v := w.v.(cache := Apply(w.v.cache, h[w.task.next])), task := Stored(w.task.next))
  }

  function MoveNext(h: History, w: World): World
    requires w.task.Stored? && w.task.next < |h|
  {
    w.(v := SetRV(w.v, h[w.task.next].pod.resourceVersion), task := Watching(w.task.next + 1))
  }

  function WorkStep(h: History, w: World): World
    requires Increasing(h) && Enabled(h, w, Work)
  {
    match w.task
    case Seeding(n, items, done) =>
      if done < |items| then Show(w, items[done], Seeding(n, items, done + 1)) else FinishSeed(w)
    case Listing(n, rv, items, done) =>
      if done < |items| then Show(w, items[done], Listing(n, rv, items, done + 1)) else FinishList(w)
    case Merging(_, _, _) => MergeNext(h, w)
    case Pruning(_, _, todo) => if todo != [] then PruneNext(h, w) else FinishReconcile(w)
    case Watching(_) => DispatchNext(h, w)
    case Handled(_) => StoreNext(h, w)
    case Stored(_) => MoveNext(h, w)
  }

  function Step(h: History, w: World, a: Action): World
    requires Increasing(h) && Enabled(h, w, a)
  {
    match a
    case Commit => w.(now := w.now + 1)
    case Start(load) =>
      w.(running := true, guard := FreshGuard(load), v := FRESH.(lastRV := LoadedRV(w.persisted, load)), task := Idle)
    case Crash =>
      w.(running := false, v := FRESH, task := Idle, periodic := None, final := None,
          abandoned := w.abandoned + InTransit(w))
    case Land(rv) => w.(persisted := Some(rv), abandoned := w.abandoned - {rv})
    case Seed(items) => w.(task := Seeding(w.now, items, 0))
    case List(rv, items) => w.(task := Listing(w.now, rv, items, 0))
    case Reconcile(rv, todo) => w.(task := Merging(w.now, rv, todo))
    case Prune(todo) => w.(task := Pruning(w.task.n, w.task.rv, todo))
    case Work => WorkStep(h, w)
    case OpenWatch => w.(task := Watching(IndexOf(h, w.v.lastRV)))
    case Bookmark(rv) => w.(v := SetRV(w.v, rv))
    case CloseWatch => w.(task := Idle)
    case Gone => w.(v := ClearRV(w.v), task := Idle)
    case BeginSave(s) =>
      var flight := if w.v.dirty && w.v.lastRV != "" then Some(w.v.lastRV) else None;
      WithFlight(w.(v := w.v.(dirty := false)), s, flight)
    case EndSave(s, written, reply) =>
      var rv := InFlight(w, s).value;
      WithFlight(w.(persisted := if written then Some(rv) else w.persisted,
                    abandoned := if Sends(w, rv) && !written then w.abandoned + {rv} else w.abandoned,
                    guard := SavedGuard(w, rv, reply),
                    v := if Failed(w, reply) then w.v.(dirty := true) else w.v), s, None)
  }

  /** Every action of a run is enabled where it is taken. */
  ghost predicate Runs(h: History, w: World, run: seq<Action>)
    requires Increasing(h)
    decreases |run|
  {
    run == [] || (Enabled(h, w, run[0]) && Runs(h, Step(h, w, run[0]), run[1..]))
  }

  function After(h: History, w: World, run: seq<Action>): World
    requires Increasing(h) && Runs(h, w, run)
    decreases |run|
  {
    if run == [] then w else After(h, Step(h, w, run[0]), run[1..])
  }
}
