/** What every reachable state of the watch protocol satisfies. */
module WatchSafety {
  import opened Prelude
  import opened Kubernetes
  import opened ResourceVersion
  import opened WatchState
  import opened Cluster
  import opened Replay
  import opened WatchProtocol

  /** Event `i` has reached the handler: a deletion as such, a live version as itself or a newer one. */
  ghost predicate Delivered(h: History, log: seq<Call>, i: nat)
    requires i < |h|
  {
    if h[i].kind.Deleted? then OnDelete(h[i].pod) in log
    else exists c :: c in log && !c.OnDelete? && MetaKey(c.pod) == MetaKey(h[i].pod)
                     && RvAtLeast(c.pod.resourceVersion, h[i].pod.resourceVersion)
  }

  /** Every pod alive at `n` has been shown to the handler. */
  ghost predicate Shown(h: History, log: seq<Call>, n: nat)
    requires n <= |h|
  {
    forall x :: x in StateAt(h, n) ==> Seen(log, StateAt(h, n)[x])
  }

  /** All events before `n` are subsumed by the relist at `base` or were delivered one by one. */
  ghost predicate AccountedFrom(h: History, w: World, base: nat, n: nat)
    requires n <= |h|
  {
    base in w.lists && base <= n && forall i :: base <= i < n ==> Delivered(h, w.log, i)
  }

  ghost predicate Accounted(h: History, w: World, n: nat)
    requires n <= |h|
  {
    exists base :: AccountedFrom(h, w, base, n)
  }

  /** A position that is safe to resume from. */
  ghost predicate SafePosition(h: History, w: World, rv: string)
    requires Increasing(h)
  {
    Numeric(rv) && IndexOf(h, rv) <= w.now <= |h| && Accounted(h, w, IndexOf(h, rv))
  }

  ghost predicate SafeIfAny(h: History, w: World, rv: Option<string>)
    requires Increasing(h)
  {
    rv.Some? ==> SafePosition(h, w, rv.value)
  }

  /** What the watch goroutine's own invariant speaks about. */
  datatype Local = Local(now: nat, listed: nat, cache: PodCache, lastRV: string, synced: bool, log: seq<Call>,
      task: Task)

  function LocalOf(w: World): Local {
    Local(w.now, w.listed, w.v.cache, w.v.lastRV, w.v.synced, w.log, w.task)
  }

  /** Every cached pod is a version the cluster held at `n` or before, and the handler has seen it. */
  ghost predicate Historic(h: History, cache: PodCache, log: seq<Call>, n: nat)
    requires n <= |h|
  {
    forall x :: x in cache ==>
      Seen(log, cache[x]) && Held(h, n, x, cache[x])
  }

  /** At some point up to `n` the cluster held this version under `x`. */
  ghost predicate Held(h: History, n: nat, x: string, pod: Pod)
    requires n <= |h|
  {
    exists i :: 0 <= i <= n && Lookup(StateAt(h, i), x) == Some(pod)
  }

  /** The cache is at event index `m`, or between it and the list that seeded the cache. */
  ghost predicate InStep(h: History, cache: PodCache, listed: nat, m: nat)
    requires m <= |h| && listed <= |h|
  {
    Between(h, cache, m, Max(m, listed))
  }

  ghost predicate AtPosition(h: History, rv: string, m: nat)
    requires Increasing(h)
  {
    Numeric(rv) && IndexOf(h, rv) == m
  }

  ghost predicate ShownUpTo(log: seq<Call>, items: seq<Pod>, done: nat) {
    done <= |items| && forall i :: 0 <= i < done ==> Seen(log, items[i])
  }

  ghost predicate MergedUpTo(h: History, cache: PodCache, n: nat, todo: seq<string>)
    requires n <= |h|
  {
    && (forall x :: x in todo ==> x in StateAt(h, n))
    && (forall x :: x in StateAt(h, n) ==> x in todo || Lookup(cache, x) == Some(StateAt(h, n)[x]))
  }

  ghost predicate PrunedUpTo(h: History, cache: PodCache, n: nat, todo: seq<string>)
    requires n <= |h|
  {
    && MergedUpTo(h, cache, n, [])
    && (forall x :: x in cache ==> x in StateAt(h, n) || x in todo)
  }

  ghost predicate Received(h: History, cache: PodCache, log: seq<Call>, next: nat)
    requires next < |h|
  {
    Delivered(h, log, next) && (!h[next].kind.Deleted? ==> UpToDate(cache, h[next].pod) || Seen(log, h[next].pod))
  }

  ghost predicate TaskInv(h: History, l: Local)
    requires Increasing(h) && l.now <= |h| && l.listed <= l.now
  {
    match l.task
    case Idle => l.synced && Numeric(l.lastRV) ==> InStep(h, l.cache, l.listed, IndexOf(h, l.lastRV))
    case Seeding(n, items, done) =>
      && !l.synced && n <= l.now && Numeric(l.lastRV) && IndexOf(h, l.lastRV) <= n
      && Enumerates(items, StateAt(h, n)) && ShownUpTo(l.log, items, done)
    case Listing(n, rv, items, done) =>
      && !l.synced && l.lastRV == "" && n <= l.now && AtPosition(h, rv, n)
      && Enumerates(items, StateAt(h, n)) && ShownUpTo(l.log, items, done)
    case Merging(n, rv, todo) =>
      && l.synced && l.lastRV == "" && n <= l.now && AtPosition(h, rv, n)
      && Historic(h, l.cache, l.log, n) && MergedUpTo(h, l.cache, n, todo)
    case Pruning(n, rv, todo) =>
      && l.synced && l.lastRV == "" && n <= l.now && AtPosition(h, rv, n)
      && Historic(h, l.cache, l.log, n) && PrunedUpTo(h, l.cache, n, todo)
    case Watching(next) =>
      l.synced && next <= l.now && AtPosition(h, l.lastRV, next) && InStep(h, l.cache, l.listed, next)
    case Handled(next) =>
      && l.synced && next < l.now && AtPosition(h, l.lastRV, next) && InStep(h, l.cache, l.listed, next)
      && Received(h, l.cache, l.log, next)
    case Stored(next) =>
      && l.synced && next < l.now && AtPosition(h, l.lastRV, next) && InStep(h, l.cache, l.listed, next + 1)
      && Delivered(h, l.log, next)
  }

  ghost predicate LocalInv(h: History, l: Local)
    requires Increasing(h)
  {
    && l.now <= |h| && l.listed <= l.now
    && Historic(h, l.cache, l.log, l.now)
    && TaskInv(h, l)
    && (!l.synced ==> l.cache == map[])
  }

  ghost predicate Inv(h: History, w: World)
    requires Increasing(h)
  {
    && w.listed <= w.now <= |h|
    && SafeIfAny(h, w, w.persisted)
    && SafeIfAny(h, w, w.periodic)
    && SafeIfAny(h, w, w.final)
    && (forall rv :: rv in w.abandoned ==> SafePosition(h, w, rv))
    && (w.v.lastRV != "" ==> SafePosition(h, w, w.v.lastRV))
    && (if w.running then LocalInv(h, LocalOf(w)) else Down(w))
  }

  /** Nothing in memory survives a crash. */
  predicate Down(w: World) {
    w.v == FRESH && w.task.Idle? && w.periodic.None? && w.final.None?
  }

  /** A relist counts only once everything it listed has been shown to the handler. */
  ghost predicate ListsShown(h: History, w: World) {
    forall n :: n in w.lists ==> n <= w.now && n <= |h| && Shown(h, w.log, n)
  }

  /** The history variables only grow, so a safe position stays safe. */
  ghost predicate Grows(w: World, w': World) {
    && (forall c :: c in w.log ==> c in w'.log)
    && w.lists <= w'.lists
    && w.now <= w'.now
  }

  lemma DeliveredGrows(h: History, log: seq<Call>, log': seq<Call>, i: nat)
    requires i < |h| && Delivered(h, log, i) && forall c :: c in log ==> c in log'
    ensures Delivered(h, log', i)
  {
  }

  lemma AccountedGrows(h: History, w: World, w': World, n: nat)
    requires n <= |h| && Accounted(h, w, n) && Grows(w, w')
    ensures Accounted(h, w', n)
  {
    var base: nat :| AccountedFrom(h, w, base, n);
    forall i: nat | base <= i < n
      ensures Delivered(h, w'.log, i)
    {
      DeliveredGrows(h, w.log, w'.log, i);
    }
    assert AccountedFrom(h, w', base, n);
  }

  lemma SafeGrows(h: History, w: World, w': World, rv: string)
    requires Increasing(h) && SafePosition(h, w, rv) && Grows(w, w') && w'.now <= |h|
    ensures SafePosition(h, w', rv)
  {
    AccountedGrows(h, w, w', IndexOf(h, rv));
  }

  /** A version already known to be safe in `w`. */
  ghost predicate Known(w: World, rv: Option<string>) {
    || rv.None? || rv == w.persisted || rv == w.periodic || rv == w.final
    || (w.v.lastRV != "" && rv == Some(w.v.lastRV)) || rv.value in w.abandoned
  }

  lemma KnownIsSafe(h: History, w: World, w': World, rv: Option<string>)
    requires Increasing(h) && Inv(h, w) && Grows(w, w') && w'.now <= |h| && Known(w, rv)
    ensures SafeIfAny(h, w', rv)
  {
    if rv.Some? { SafeGrows(h, w, w', rv.value); }
  }

  /** What a step must still show once growth has carried the rest over. */
  lemma Carry(h: History, w: World, w': World)
    requires Increasing(h) && Inv(h, w) && Grows(w, w') && w'.listed <= w'.now <= |h|
    requires Known(w, w'.persisted) && Known(w, w'.periodic) && Known(w, w'.final)
    requires forall rv :: rv in w'.abandoned ==> Known(w, Some(rv))
    requires w'.v.lastRV == "" || Known(w, Some(w'.v.lastRV)) || SafePosition(h, w', w'.v.lastRV)
    requires if w'.running then LocalInv(h, LocalOf(w')) else Down(w')
    ensures Inv(h, w')
  {
    KnownIsSafe(h, w, w', w'.persisted);
    KnownIsSafe(h, w, w', w'.periodic);
    KnownIsSafe(h, w, w', w'.final);
    forall rv | rv in w'.abandoned
      ensures SafePosition(h, w', rv)
    {
      KnownIsSafe(h, w, w', Some(rv));
    }
    if Known(w, Some(w'.v.lastRV)) { KnownIsSafe(h, w, w', Some(w'.v.lastRV)); }
  }

  /** The goroutine worked on cache and handler only. */
  lemma CarryWork(h: History, w: World, w': World)
    requires Increasing(h) && Inv(h, w) && w.running
    requires w' == w.(log := w'.log, task := w'.task, listed := w'.listed,
             v := w.v.(cache := w'.v.cache, synced := w'.v.synced))
    requires w'.listed <= w.now && forall c :: c in w.log ==> c in w'.log
    requires LocalInv(h, LocalOf(w'))
    ensures Inv(h, w')
  {
    assert Grows(w, w');
    Carry(h, w, w');
  }

  lemma TimePasses(h: History, l: Local, now: nat)
    requires Increasing(h) && LocalInv(h, l) && l.now <= now <= |h|
    ensures LocalInv(h, l.(now := now))
  {
  }

  lemma LaterKeeps(h: History, w: World, w': World)
    requires Increasing(h) && Inv(h, w) && w' == w.(now := w'.now) && w.now <= w'.now <= |h|
    ensures Inv(h, w')
  {
    if w.running {
      TimePasses(h, LocalOf(w), w'.now);
      assert LocalOf(w') == LocalOf(w).(now := w'.now);
    }
    Carry(h, w, w');
  }

  lemma CommitKeeps(h: History, w: World)
    requires Increasing(h) && Inv(h, w) && Enabled(h, w, Commit)
    ensures Inv(h, Step(h, w, Commit))
  {
    var w' := Step(h, w, Commit);
    assert w' == w.(now := w.now + 1);
    LaterKeeps(h, w, w');
  }

  /** A start, a crash, and a save landing late. */
  lemma RestartKeeps(h: History, w: World, a: Action)
    requires Increasing(h) && Inv(h, w) && Enabled(h, w, a) && (a.Start? || a.Crash? || a.Land?)
    ensures Inv(h, Step(h, w, a))
  {
    Carry(h, w, Step(h, w, a));
  }

  lemma BeginSaveKeeps(h: History, w: World, saver: Saver)
    requires Increasing(h) && Inv(h, w) && Enabled(h, w, BeginSave(saver))
    ensures Inv(h, Step(h, w, BeginSave(saver)))
  {
    var w' := Step(h, w, BeginSave(saver));
    assert LocalOf(w') == LocalOf(w);
    Carry(h, w, w');
  }

  lemma EndSaveKeeps(h: History, w: World, saver: Saver, written: bool, reply: Reply)
    requires Increasing(h) && Inv(h, w) && Enabled(h, w, EndSave(saver, written, reply))
    ensures Inv(h, Step(h, w, EndSave(saver, written, reply)))
  {
    var w' := Step(h, w, EndSave(saver, written, reply));
    SavedStep(h, w, saver, written, reply);
    Carry(h, w, w');
  }

  lemma SavedStep(h: History, w: World, saver: Saver, written: bool, reply: Reply)
    requires Increasing(h) && Enabled(h, w, EndSave(saver, written, reply))
    ensures var w' := Step(h, w, EndSave(saver, written, reply));
            && w'.running && Grows(w, w') && w'.now == w.now && w'.listed == w.listed && LocalOf(w') == LocalOf(w)
            && w'.v.lastRV == w.v.lastRV && Known(w, w'.persisted) && Known(w, w'.periodic) && Known(w, w'.final)
            && forall rv :: rv in w'.abandoned ==> Known(w, Some(rv))
  {
  }

  /** The goroutine turns to another task without touching cache or handler. */
  lemma TurnKeeps(h: History, w: World, a: Action)
    requires Increasing(h) && Inv(h, w) && Enabled(h, w, a)
    requires a.Seed? || a.List? || a.Reconcile? || a.Prune? || a.OpenWatch? || a.CloseWatch? || a.Gone?
    ensures Inv(h, Step(h, w, a))
  {
    var w' := Step(h, w, a);
    TurnKeepsLocal(h, w, a);
    Carry(h, w, w');
  }

  lemma TurnKeepsLocal(h: History, w: World, a: Action)
    requires Increasing(h) && Inv(h, w) && Enabled(h, w, a)
    requires a.Seed? || a.List? || a.Reconcile? || a.Prune? || a.OpenWatch? || a.CloseWatch? || a.Gone?
    ensures LocalInv(h, LocalOf(Step(h, w, a)))
  {
  }

  lemma BookmarkKeeps(h: History, w: World, rv: string)
    requires Increasing(h) && Inv(h, w) && Enabled(h, w, Bookmark(rv))
    ensures Inv(h, Step(h, w, Bookmark(rv)))
  {
    var w' := Step(h, w, Bookmark(rv));
    AccountedGrows(h, w, w', w.task.next);
    Carry(h, w, w');
  }

  /** Handling an event delivers it: by its own call, or because the cached pod is as new. */
  lemma CallsDeliver(h: History, cache: PodCache, log: seq<Call>, next: nat)
    requires next < |h| && forall x :: x in cache ==> Seen(log, cache[x]) && MetaKey(cache[x]) == x
    ensures Received(h, cache, log + Calls(cache, h[next]), next)
  {
  }

  lemma CachedKeys(h: History, l: Local)
    requires Increasing(h) && LocalInv(h, l)
    ensures forall x :: x in l.cache ==> Seen(l.log, l.cache[x]) && MetaKey(l.cache[x]) == x
  {
    forall x | x in l.cache
      ensures MetaKey(l.cache[x]) == x
    {
      var i: nat :| i <= l.now && Lookup(StateAt(h, i), x) == Some(l.cache[x]);
      var _ := AliveVersion(h, i, x);
    }
  }

  lemma LogGrows(h: History, cache: PodCache, log: seq<Call>, log': seq<Call>, n: nat)
    requires n <= |h| && Historic(h, cache, log, n) && forall c :: c in log ==> c in log'
    ensures Historic(h, cache, log', n)
  {
  }

  lemma HandlingKeeps(h: History, w: World)
    requires Increasing(h) && Inv(h, w) && w.running && w.task.Watching? && w.task.next < w.now
    ensures Inv(h, DispatchNext(h, w))
  {
    var w' := DispatchNext(h, w);
    CachedKeys(h, LocalOf(w));
    CallsDeliver(h, w.v.cache, w.log, w.task.next);
    LogGrows(h, w.v.cache, w.log, w'.log, w.now);
    CarryWork(h, w, w');
  }

  lemma StoredIsHistoric(h: History, cache: PodCache, log: seq<Call>, next: nat, now: nat)
    requires next < now <= |h| && Historic(h, cache, log, now) && Received(h, cache, log, next)
    ensures Historic(h, Apply(cache, h[next]), log, now)
  {
    assert Lookup(StateAt(h, next + 1), MetaKey(h[next].pod)) == if h[next].kind.Deleted? then None
        else Some(h[next].pod);
  }

  lemma StoringLocal(h: History, l: Local, next: nat)
    requires Increasing(h) && LocalInv(h, l) && l.task == Handled(next)
    ensures LocalInv(h, l.(cache := Apply(l.cache, h[next]), task := Stored(next)))
  {
    BetweenStep(h, l.cache, next, Max(next, l.listed));
    StoredIsHistoric(h, l.cache, l.log, next, l.now);
  }

  lemma StoringKeeps(h: History, w: World)
    requires Increasing(h) && Inv(h, w) && w.running && w.task.Handled?
    ensures Inv(h, StoreNext(h, w))
  {
    var w', next := StoreNext(h, w), w.task.next;
    StoringLocal(h, LocalOf(w), next);
    assert LocalOf(w') == LocalOf(w).(cache := Apply(w.v.cache, h[next]), task := Stored(next));
    CarryWork(h, w, w');
  }

  lemma AccountNext(h: History, w: World, n: nat)
    requires n < |h| && Accounted(h, w, n) && Delivered(h, w.log, n)
    ensures Accounted(h, w, n + 1)
  {
    var base: nat :| AccountedFrom(h, w, base, n);
    assert AccountedFrom(h, w, base, n + 1);
  }

  lemma PositionLocal(h: History, l: Local, next: nat)
    requires Increasing(h) && LocalInv(h, l) && l.task == Stored(next)
    ensures LocalInv(h, l.(lastRV := h[next].pod.resourceVersion, task := Watching(next + 1)))
    ensures AtPosition(h, h[next].pod.resourceVersion, next + 1)
  {
    IndexOfEvent(h, next);
  }

  lemma PositionKeeps(h: History, w: World)
    requires Increasing(h) && Inv(h, w) && w.running && w.task.Stored?
    ensures Inv(h, MoveNext(h, w))
  {
    var next := w.task.next;
    var w' := MoveNext(h, w);
    PositionLocal(h, LocalOf(w), next);
    assert LocalOf(w') == LocalOf(w).(lastRV := h[next].pod.resourceVersion, task := Watching(next + 1));
    AccountNext(h, w, next);
    AccountedGrows(h, w, w', next + 1);
    Carry(h, w, w');
  }

  lemma ShownGrowsBy(log: seq<Call>, items: seq<Pod>, done: nat)
    requires done < |items| && ShownUpTo(log, items, done)
    ensures ShownUpTo(log + [OnAdd(items[done], true)], items, done + 1)
  {
  }

  /** One more pod of the snapshot is shown to the handler. */
  lemma ShowSeedKeeps(h: History, w: World, n: nat, items: seq<Pod>, done: nat)
    requires Increasing(h) && Inv(h, w) && w.running && done < |items| && w.task == Seeding(n, items, done)
    ensures Inv(h, Show(w, items[done], Seeding(n, items, done + 1)))
  {
    var w' := Show(w, items[done], Seeding(n, items, done + 1));
    ShownGrowsBy(w.log, items, done);
    LogGrows(h, w.v.cache, w.log, w'.log, w.now);
    CarryWork(h, w, w');
  }

  /** One more pod of the initial list is shown to the handler. */
  lemma ShowListKeeps(h: History, w: World, n: nat, rv: string, items: seq<Pod>, done: nat)
    requires Increasing(h) && Inv(h, w) && w.running && done < |items| && w.task == Listing(n, rv, items, done)
    ensures Inv(h, Show(w, items[done], Listing(n, rv, items, done + 1)))
  {
    var w' := Show(w, items[done], Listing(n, rv, items, done + 1));
    ShownGrowsBy(w.log, items, done);
    LogGrows(h, w.v.cache, w.log, w'.log, w.now);
    CarryWork(h, w, w');
  }

  lemma ListedIsHistoric(h: History, log: seq<Call>, items: seq<Pod>, n: nat)
    requires n <= |h| && Enumerates(items, StateAt(h, n)) && ShownUpTo(log, items, |items|)
    ensures Shown(h, log, n)
    ensures forall now :: n <= now <= |h| ==> Historic(h, StateAt(h, n), log, now)
  {
  }

  /** The snapshot replaces the cache without moving the position. */
  lemma SeedKeeps(h: History, w: World)
    requires Increasing(h) && Inv(h, w) && w.running && w.task.Seeding? && w.task.done == |w.task.items|
    ensures Inv(h, FinishSeed(w))
  {
    var w' := FinishSeed(w);
    CacheOfListing(w.task.items, StateAt(h, w.task.n));
    ListedIsHistoric(h, w.log, w.task.items, w.task.n);
    assert InStep(h, w'.v.cache, w.task.n, IndexOf(h, w.v.lastRV));
    CarryWork(h, w, w');
  }

  /** A completed relist is itself the account of every event before it. */
  lemma RelistAccounts(h: History, w: World, rv: string, n: nat)
    requires Increasing(h) && AtPosition(h, rv, n) && n in w.lists && n <= w.now <= |h|
    ensures SafePosition(h, w, rv)
  {
    assert AccountedFrom(h, w, n, n);
  }

  lemma ListKeeps(h: History, w: World)
    requires Increasing(h) && Inv(h, w) && w.running && w.task.Listing? && w.task.done == |w.task.items|
    ensures Inv(h, FinishList(w))
  {
    var w' := FinishList(w);
    var n := w.task.n;
    CacheOfListing(w.task.items, StateAt(h, n));
    ListedIsHistoric(h, w.log, w.task.items, n);
    RelistAccounts(h, w', w.task.rv, n);
    assert InStep(h, w'.v.cache, n, n);
    Carry(h, w, w');
  }

  /** A cached pod at least as new as the listed one is the listed one. */
  lemma UpToDateIsListed(h: History, cache: PodCache, log: seq<Call>, n: nat, x: string)
    requires Increasing(h) && n <= |h| && Historic(h, cache, log, n) && x in StateAt(h, n)
    requires UpToDate(cache, StateAt(h, n)[x])
    ensures MetaKey(StateAt(h, n)[x]) == x && cache[x] == StateAt(h, n)[x]
  {
    var _ := AliveVersion(h, n, x);
    var i: nat :| i <= n && Lookup(StateAt(h, i), x) == Some(cache[x]);
    AliveMonotone(h, i, n, x);
  }

  lemma MergeStaysHistoric(h: History, cache: PodCache, log: seq<Call>, n: nat, x: string)
    requires n <= |h| && Historic(h, cache, log, n) && x in StateAt(h, n)
    ensures var pod := StateAt(h, n)[x];
            Historic(h, Observe(cache, pod), log + ObserveCalls(cache, pod), n)
  {
    var pod := StateAt(h, n)[x];
    var _ := AliveVersion(h, n, x);
    var log' := log + ObserveCalls(cache, pod);
    LogGrows(h, cache, log, log', n);
    if !UpToDate(cache, pod) {
      assert log'[|log|].pod == pod && log'[|log|] in log';
      assert Lookup(StateAt(h, n), x) == Some(pod);
    }
  }

  lemma MergeProgress(h: History, cache: PodCache, log: seq<Call>, n: nat, todo: seq<string>)
    requires Increasing(h) && n <= |h| && Historic(h, cache, log, n) && todo != [] && MergedUpTo(h, cache, n, todo)
    ensures MergedUpTo(h, Observe(cache, StateAt(h, n)[todo[0]]), n, todo[1..])
  {
    var x := todo[0];
    var _ := AliveVersion(h, n, x);
    if UpToDate(cache, StateAt(h, n)[x]) { UpToDateIsListed(h, cache, log, n, x); }
    assert forall y :: y in todo <==> y == x || y in todo[1..];
  }

  lemma HistoricLater(h: History, cache: PodCache, log: seq<Call>, n: nat, now: nat)
    requires n <= now <= |h| && Historic(h, cache, log, n)
    ensures Historic(h, cache, log, now)
  {
  }

  lemma MergeKeeps(h: History, w: World)
    requires Increasing(h) && Inv(h, w) && w.running && w.task.Merging? && w.task.todo != []
    ensures Inv(h, MergeNext(h, w))
  {
    var w' := MergeNext(h, w);
    MergeStaysHistoric(h, w.v.cache, w.log, w.task.n, w.task.todo[0]);
    MergeProgress(h, w.v.cache, w.log, w.task.n, w.task.todo);
    HistoricLater(h, w'.v.cache, w'.log, w.task.n, w.now);
    assert LocalInv(h, LocalOf(w'));
    CarryWork(h, w, w');
  }

  lemma PruneProgress(h: History, cache: PodCache, n: nat, todo: seq<string>)
    requires n <= |h| && todo != [] && PrunedUpTo(h, cache, n, todo)
    ensures PrunedUpTo(h, if todo[0] in StateAt(h, n) then cache else cache - {todo[0]}, n, todo[1..])
  {
  }

  lemma RemovalStaysHistoric(h: History, cache: PodCache, log: seq<Call>, c: Call, n: nat, x: string)
    requires n <= |h| && Historic(h, cache, log, n)
    ensures Historic(h, cache - {x}, log + [c], n)
  {
  }

  lemma PruneKeeps(h: History, w: World)
    requires Increasing(h) && Inv(h, w) && w.running && w.task.Pruning? && w.task.todo != []
             && w.task.todo[0] in w.v.cache
    ensures Inv(h, PruneNext(h, w))
  {
    var w' := PruneNext(h, w);
    var x := w.task.todo[0];
    PruneProgress(h, w.v.cache, w.task.n, w.task.todo);
    RemovalStaysHistoric(h, w.v.cache, w.log, OnDelete(w.v.cache[x]), w.task.n, x);
    HistoricLater(h, w'.v.cache, w'.log, w.task.n, w.now);
    assert LocalInv(h, LocalOf(w'));
    CarryWork(h, w, w');
  }

  /** With nothing left to merge or prune the cache is the listed state. */
  lemma PrunedIsListed(h: History, cache: PodCache, log: seq<Call>, n: nat)
    requires n <= |h| && PrunedUpTo(h, cache, n, []) && Historic(h, cache, log, n)
    ensures cache == StateAt(h, n) && Shown(h, log, n)
  {
  }

  lemma ReconcileEnds(h: History, w: World)
    requires Increasing(h) && Inv(h, w) && w.running && w.task.Pruning? && w.task.todo == []
    ensures Inv(h, FinishReconcile(w))
  {
    var w' := FinishReconcile(w);
    var n := w.task.n;
    PrunedIsListed(h, w.v.cache, w.log, n);
    RelistAccounts(h, w', w.task.rv, n);
    RelistLocal(h, LocalOf(w), w.task.rv, n);
    assert LocalOf(w') == LocalOf(w).(listed := n, lastRV := w.task.rv, task := Idle);
    Carry(h, w, w');
  }

  /** A cache equal to the listed state is in step with the list's version. */
  lemma RelistLocal(h: History, l: Local, rv: string, n: nat)
    requires Increasing(h) && LocalInv(h, l) && l.synced
    requires n <= l.now && AtPosition(h, rv, n) && l.cache == StateAt(h, n)
    ensures LocalInv(h, l.(listed := n, lastRV := rv, task := Idle))
  {
  }

  lemma SeedingStep(h: History, w: World, n: nat, items: seq<Pod>, done: nat)
    requires Increasing(h) && Enabled(h, w, Work) && w.task == Seeding(n, items, done)
    ensures WorkStep(h, w)
         == if done < |items| then Show(w, items[done], Seeding(n, items, done + 1)) else FinishSeed(w)
  {
  }

  lemma SeedingKeeps(h: History, w: World, n: nat, items: seq<Pod>, done: nat)
    requires Increasing(h) && Inv(h, w) && Enabled(h, w, Work) && w.task == Seeding(n, items, done)
    ensures Inv(h, WorkStep(h, w))
  {
    SeedingStep(h, w, n, items, done);
    if done < |items| {
      ShowSeedKeeps(h, w, n, items, done);
    } else {
      assert ShownUpTo(w.log, items, done);
      SeedKeeps(h, w);
    }
  }

  lemma ListingKeeps(h: History, w: World, n: nat, rv: string, items: seq<Pod>, done: nat)
    requires Increasing(h) && Inv(h, w) && Enabled(h, w, Work) && w.task == Listing(n, rv, items, done)
    ensures Inv(h, WorkStep(h, w))
  {
    if done < |items| { ShowListKeeps(h, w, n, rv, items, done); } else { ListKeeps(h, w); }
  }

  lemma ReconcilingKeeps(h: History, w: World)
    requires Increasing(h) && Inv(h, w) && Enabled(h, w, Work) && (w.task.Merging? || w.task.Pruning?)
    ensures Inv(h, WorkStep(h, w))
  {
    match w.task
    case Merging(_, _, _) => MergeKeeps(h, w);
    case Pruning(_, _, todo) => if todo != [] { PruneKeeps(h, w); } else { ReconcileEnds(h, w); }
  }

  lemma WatchingKeeps(h: History, w: World)
    requires Increasing(h) && Inv(h, w) && Enabled(h, w, Work)
             && (w.task.Watching? || w.task.Handled? || w.task.Stored?)
    ensures Inv(h, WorkStep(h, w))
  {
    match w.task
    case Watching(_) => HandlingKeeps(h, w);
    case Handled(_) => StoringKeeps(h, w);
    case Stored(_) => PositionKeeps(h, w);
  }

  lemma WorkKeeps(h: History, w: World)
    requires Increasing(h) && Inv(h, w) && Enabled(h, w, Work)
    ensures Inv(h, WorkStep(h, w))
  {
    match w.task
    case Seeding(n, items, done) => SeedingKeeps(h, w, n, items, done);
    case Listing(n, rv, items, done) => ListingKeeps(h, w, n, rv, items, done);
    case Merging(_, _, _) => ReconcilingKeeps(h, w);
    case Pruning(_, _, _) => ReconcilingKeeps(h, w);
    case _ => WatchingKeeps(h, w);
  }

  lemma SavingKeeps(h: History, w: World, a: Action)
    requires Increasing(h) && Inv(h, w) && Enabled(h, w, a) && (a.BeginSave? || a.EndSave?)
    ensures Inv(h, Step(h, w, a))
  {
    if a.BeginSave? { BeginSaveKeeps(h, w, a.saver); } else { EndSaveKeeps(h, w, a.saver, a.written, a.reply); }
  }

  /** Every step keeps the invariant. */
  lemma StepKeeps(h: History, w: World, a: Action)
    requires Increasing(h) && Inv(h, w) && Enabled(h, w, a)
    ensures Inv(h, Step(h, w, a))
  {
    if a.Commit? {
      CommitKeeps(h, w);
    } else if a.Start? || a.Crash? || a.Land? {
      RestartKeeps(h, w, a);
    } else if a.BeginSave? || a.EndSave? {
      SavingKeeps(h, w, a);
    } else if a.Bookmark? {
      BookmarkKeeps(h, w, a.rv);
    } else if a.Work? {
      WorkKeeps(h, w);
    } else {
      TurnKeeps(h, w, a);
    }
  }

  /** The invariant holds after every run, whatever the interleaving. */
  lemma {:induction false} RunKeeps(h: History, w: World, run: seq<Action>)
    requires Increasing(h) && Inv(h, w) && Runs(h, w, run)
    ensures Inv(h, After(h, w, run))
    decreases |run|
  {
    if run != [] {
      StepKeeps(h, w, run[0]);
      RunKeeps(h, Step(h, w, run[0]), run[1..]);
    }
  }
}
