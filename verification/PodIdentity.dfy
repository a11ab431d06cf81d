/** Which pods are one and the same: what the watcher and the store do, in terms of namespaces, names and UIDs. */
module PodIdentity {
  import opened Kubernetes
  import opened ResourceVersion
  import opened WatchState
  import opened Cluster
  import opened WatchProtocol
  import opened WatchSafety
  import opened WatchTheorems
  import opened PodInformer

  /** Namespaces, names and UIDs contain no slash. */
  predicate Plain(pod: Pod) {
    '/' !in pod.namespace && '/' !in pod.name && '/' !in pod.uid
  }

  predicate SameName(p: Pod, q: Pod) {
    p.namespace == q.namespace && p.name == q.name
  }

  lemma ShorterDiffers(a: string, b: string, c: string, d: string)
    requires |a| < |c| && '/' !in c
    ensures a + "/" + b != c + "/" + d
  {
    assert (a + "/" + b)[|a|] == '/' && (c + "/" + d)[|a|] == c[|a|];
  }

  /** Around a slash, parts without one can be told apart. */
  lemma JoinIsUnique(a: string, b: string, c: string, d: string)
    requires '/' !in a && '/' !in c
    ensures a + "/" + b == c + "/" + d <==> a == c && b == d
  {
    var s, t := a + "/" + b, c + "/" + d;
    if |a| < |c| {
      ShorterDiffers(a, b, c, d);
    } else if |c| < |a| {
      ShorterDiffers(c, d, a, b);
    } else {
      assert a == s[..|a|] && c == t[..|c|] && b == s[|a| + 1..] && d == t[|c| + 1..];
    }
  }

  lemma JoinHasSlash(a: string, b: string, s: string)
    requires '/' !in s
    ensures a + "/" + b != s
  {
    assert (a + "/" + b)[|a|] == '/';
  }

  /** Two pods share a cache key exactly when namespace and name agree. */
  lemma CacheKeyIsName(p: Pod, q: Pod)
    requires Plain(p) && Plain(q)
    ensures MetaKey(p) == MetaKey(q) <==> SameName(p, q)
  {
    JoinIsUnique(p.namespace, p.name, q.namespace, q.name);
    JoinHasSlash(p.namespace, p.name, q.name);
    JoinHasSlash(q.namespace, q.name, p.name);
  }

  /** Two pods share a store record exactly when their UIDs agree, or both have none and namespace and name agree. */
  lemma StoreKeyIsIdentity(p: Pod, q: Pod)
    requires Plain(p) && Plain(q)
    ensures PodKey(p) == PodKey(q) <==> p.uid == q.uid && (p.uid == "" ==> SameName(p, q))
  {
    JoinIsUnique(p.namespace, p.name, q.namespace, q.name);
    JoinHasSlash(p.namespace, p.name, q.uid);
    JoinHasSlash(q.namespace, q.name, p.uid);
  }

  // ----- One watch event -----

  /** A cache as the watcher keeps it: every pod under its own key. */
  ghost predicate PlainCache(cache: PodCache) {
    Keyed(cache) && forall x :: x in cache ==> Plain(cache[x])
  }

  lemma CachedUnder(cache: PodCache, p: Pod)
    requires PlainCache(cache)
    ensures p in cache.Values <==> MetaKey(p) in cache && cache[MetaKey(p)] == p
  {
  }

  lemma CachedAtKey(cache: PodCache, pod: Pod)
    requires PlainCache(cache) && Plain(pod)
    ensures MetaKey(pod) in cache <==> exists q :: q in cache.Values && SameName(q, pod)
    ensures MetaKey(pod) in cache ==> SameName(cache[MetaKey(pod)], pod)
  {
    if MetaKey(pod) in cache {
      var q := cache[MetaKey(pod)];
      CacheKeyIsName(q, pod);
      assert q in cache.Values;
    }
    forall q | q in cache.Values && SameName(q, pod)
      ensures MetaKey(pod) in cache
    {
      CacheKeyIsName(q, pod);
    }
  }

  /** The pods of every other namespace and name stay as they are. */
  lemma OthersStay(v: Volatile, e: Event, p: Pod)
    requires PlainCache(v.cache) && Plain(e.pod) && !SameName(p, e.pod) && Plain(p)
    ensures p in Handle(v, e).cache.Values <==> p in v.cache.Values
  {
    CacheKeyIsName(p, e.pod);
    var cache := Apply(v.cache, e);
    HandledIsPlain(v, e);
    CachedUnder(v.cache, p);
    CachedUnder(cache, p);
  }

  lemma HandledIsPlain(v: Volatile, e: Event)
    requires PlainCache(v.cache) && Plain(e.pod)
    ensures PlainCache(Handle(v, e).cache)
  {
  }

  /** A pod whose namespace and name are not cached is an addition, never an update, whatever else is cached. */
  lemma NewNameIsAdded(v: Volatile, e: Event)
    requires PlainCache(v.cache) && Plain(e.pod) && !e.kind.Deleted?
    requires forall q :: q in v.cache.Values ==> !SameName(q, e.pod)
    ensures Calls(v.cache, e) == [OnAdd(e.pod, false)] && e.pod in Handle(v, e).cache.Values
  {
    CachedAtKey(v.cache, e.pod);
    HandledIsPlain(v, e);
    CachedUnder(Apply(v.cache, e), e.pod);
  }

  /** A newer version of a cached pod updates just that pod; any other version changes nothing. */
  lemma KnownNameIsUpdated(v: Volatile, e: Event, q: Pod)
    requires PlainCache(v.cache) && Plain(e.pod) && !e.kind.Deleted? && q in v.cache.Values && SameName(q, e.pod)
    ensures if RvAtLeast(q.resourceVersion, e.pod.resourceVersion) then
              Calls(v.cache, e) == [] && Handle(v, e).cache == v.cache
            else Calls(v.cache, e) == [OnUpdate(q, e.pod)] && e.pod in Handle(v, e).cache.Values
                 && q !in Handle(v, e).cache.Values
  {
    CacheKeyIsName(q, e.pod);
    HandledIsPlain(v, e);
    CachedUnder(Apply(v.cache, e), e.pod);
    CachedUnder(Apply(v.cache, e), q);
  }

  /** A deletion is always dispatched and leaves no version of that pod behind. */
  lemma DeletedNameIsGone(v: Volatile, e: Event, q: Pod)
    requires PlainCache(v.cache) && Plain(e.pod) && e.kind.Deleted? && SameName(q, e.pod) && Plain(q)
    ensures Calls(v.cache, e) == [OnDelete(e.pod)] && q !in Handle(v, e).cache.Values
  {
    CacheKeyIsName(q, e.pod);
    HandledIsPlain(v, e);
    CachedUnder(Apply(v.cache, e), q);
  }

  // ----- A list -----

  /** A list names each pod once. */
  ghost predicate NamedOnce(items: seq<Pod>) {
    && (forall i :: 0 <= i < |items| ==> Plain(items[i]))
    && (forall i, j :: 0 <= i < j < |items| ==> !SameName(items[i], items[j]))
  }

  /** A cache replaced by a list holds exactly the listed pods. */
  lemma {:induction false} ListedAreCached(items: seq<Pod>, p: Pod)
    requires NamedOnce(items)
    ensures PlainCache(CacheOf(items)) && (p in CacheOf(items).Values <==> p in items)
  {
    if items != [] {
      var n := |items| - 1;
      ListedAreCached(items[..n], p);
      ListedAreCached(items[..n], items[n]);
      assert items == items[..n] + [items[n]];
      if p in items[..n] {
        var i :| 0 <= i < n && items[i] == p;
        CacheKeyIsName(items[i], items[n]);
      }
      CachedUnder(CacheOf(items[..n]), p);
      CachedUnder(CacheOf(items), p);
    }
  }

  lemma AllListedAreCached(items: seq<Pod>)
    requires NamedOnce(items)
    ensures PlainCache(CacheOf(items)) && forall p :: p in CacheOf(items).Values <==> p in items
  {
    if items == [] {
    } else {
      ListedAreCached(items, items[0]);
    }
    forall p
      ensures p in CacheOf(items).Values <==> p in items
    {
      ListedAreCached(items, p);
    }
  }

  /** A cached pod is listed, in no newer version. */
  ghost predicate StillNewest(before: PodCache, items: seq<Pod>, p: Pod) {
    p in before.Values && exists q :: q in items && SameName(p, q) && RvAtLeast(p.resourceVersion, q.resourceVersion)
  }

  /** A listed pod is cached in no version, or in an older one. */
  ghost predicate NowNewest(before: PodCache, items: seq<Pod>, p: Pod) {
    && p in items
    && forall q :: q in before.Values && SameName(p, q) ==> !RvAtLeast(q.resourceVersion, p.resourceVersion)
  }

  /** Reconcile leaves exactly these. */
  lemma ReconciledByName(before: PodCache, items: seq<Pod>, p: Pod)
    requires PlainCache(before) && NamedOnce(items)
    ensures p in Reconciled(before, CacheOf(items)).Values <==>
              StillNewest(before, items, p) || NowNewest(before, items, p)
  {
    var listed := CacheOf(items);
    AllListedAreCached(items);
    if p in Reconciled(before, listed).Values {
      ReconciledIsNewest(before, items, p);
    } else if StillNewest(before, items, p) || NowNewest(before, items, p) {
      NewestIsReconciled(before, items, p);
    }
  }

  lemma ReconciledIsNewest(before: PodCache, items: seq<Pod>, p: Pod)
    requires PlainCache(before) && NamedOnce(items) && p in Reconciled(before, CacheOf(items)).Values
    ensures StillNewest(before, items, p) || NowNewest(before, items, p)
  {
    var listed := CacheOf(items);
    AllListedAreCached(items);
    var x :| x in listed && Reconciled(before, listed)[x] == p;
    var q := listed[x];
    assert q in listed.Values;
    if UpToDate(before, q) && x in before {
      assert p == before[x] && p in before.Values;
      CacheKeyIsName(p, q);
    } else {
      forall r | r in before.Values && SameName(p, r)
        ensures !RvAtLeast(r.resourceVersion, p.resourceVersion)
      {
        CacheKeyIsName(p, r);
      }
    }
  }

  lemma NewestIsReconciled(before: PodCache, items: seq<Pod>, p: Pod)
    requires PlainCache(before) && NamedOnce(items) && (StillNewest(before, items, p) || NowNewest(before, items, p))
    ensures p in Reconciled(before, CacheOf(items)).Values
  {
    var listed := CacheOf(items);
    AllListedAreCached(items);
    if StillNewest(before, items, p) {
      var q :| q in items && SameName(p, q) && RvAtLeast(p.resourceVersion, q.resourceVersion);
      assert q in listed.Values;
      CacheKeyIsName(p, q);
      assert Reconciled(before, listed)[MetaKey(q)] == p;
    } else {
      assert p in listed.Values && listed[MetaKey(p)] == p;
      if MetaKey(p) in before {
        CachedAtKey(before, p);
        assert before[MetaKey(p)] in before.Values;
      }
      assert Reconciled(before, listed)[MetaKey(p)] == p;
    }
  }

  /** And it makes exactly these handler calls, each once. */
  ghost predicate OwedByName(before: PodCache, items: seq<Pod>, c: Call) {
    match c
    case OnAdd(pod, initial) => !initial && pod in items && forall q :: q in before.Values ==> !SameName(q, pod)
    case OnUpdate(previous, pod) =>
      && pod in items && previous in before.Values && SameName(previous, pod)
      && !RvAtLeast(previous.resourceVersion, pod.resourceVersion)
    case OnDelete(pod) => pod in before.Values && forall q :: q in items ==> !SameName(q, pod)
  }

  lemma OwedIsByName(before: PodCache, items: seq<Pod>, c: Call)
    requires PlainCache(before) && NamedOnce(items)
    ensures Owed(before, CacheOf(items), c) <==> OwedByName(before, items, c)
  {
    var listed := CacheOf(items);
    AllListedAreCached(items);
    match c
    case OnAdd(pod, _) =>
      CachedUnder(listed, pod);
      if pod in items { CachedAtKey(before, pod); }
    case OnUpdate(previous, pod) =>
      CachedUnder(listed, pod);
      if pod in items {
        CachedAtKey(before, pod);
        CachedUnder(before, previous);
        if previous in before.Values { CacheKeyIsName(previous, pod); }
      }
    case OnDelete(pod) =>
      CachedUnder(before, pod);
      if pod in before.Values { CachedAtKey(listed, pod); }
  }

  lemma ReconcileByName(before: PodCache, items: seq<Pod>, order: Order, c: Call)
    requires PlainCache(before) && NamedOnce(items) && Visits(before, CacheOf(items), order)
    ensures c in ReconcileCalls(before, CacheOf(items), order) <==> OwedByName(before, items, c)
    ensures Distinct(ReconcileCalls(before, CacheOf(items), order))
  {
    AllListedAreCached(items);
    ReconcileIsExact(before, CacheOf(items), order);
    OwedIsByName(before, items, c);
  }

  /** An event has reached the handler: a deletion as such, a live pod as itself or a newer version of that name. */
  ghost predicate DeliveredByName(log: seq<Call>, e: Event) {
    if e.kind.Deleted? then OnDelete(e.pod) in log
    else exists c :: c in log && !c.OnDelete? && SameName(c.pod, e.pod)
                     && RvAtLeast(c.pod.resourceVersion, e.pod.resourceVersion)
  }

  lemma DeliveredIsByName(h: History, log: seq<Call>, i: nat)
    requires i < |h| && Plain(h[i].pod) && forall c :: c in log ==> Plain(c.pod)
    ensures Delivered(h, log, i) <==> DeliveredByName(log, h[i])
  {
    forall c | c in log
      ensures MetaKey(c.pod) == MetaKey(h[i].pod) <==> SameName(c.pod, h[i].pod)
    {
      CacheKeyIsName(c.pod, h[i].pod);
    }
  }

  // ----- The cluster -----

  ghost predicate PlainHistory(h: History) {
    forall i :: 0 <= i < |h| ==> Plain(h[i].pod)
  }

  /** The pod was added or modified before event `n`, and no later event of the same namespace and name came since. */
  ghost predicate AliveAfter(h: History, n: nat, p: Pod)
    requires n <= |h|
  {
    exists i :: 0 <= i < n && h[i].pod == p && !h[i].kind.Deleted?
                && forall j :: i < j < n ==> !SameName(h[j].pod, p)
  }

  lemma {:induction false} StateIsPlain(h: History, n: nat)
    requires PlainHistory(h) && n <= |h|
    ensures PlainCache(StateAt(h, n))
  {
    if n > 0 { StateIsPlain(h, n - 1); }
  }

  lemma AliveNext(h: History, n: nat, p: Pod)
    requires n < |h|
    ensures AliveAfter(h, n + 1, p) <==>
              if SameName(h[n].pod, p) then h[n].pod == p && !h[n].kind.Deleted? else AliveAfter(h, n, p)
  {
    if AliveAfter(h, n, p) && !SameName(h[n].pod, p) {
      var i :| 0 <= i < n && h[i].pod == p && !h[i].kind.Deleted? && forall j :: i < j < n ==> !SameName(h[j].pod, p);
      assert forall j :: i < j < n + 1 ==> !SameName(h[j].pod, p);
    }
    if AliveAfter(h, n + 1, p) {
      var i :| 0 <= i < n + 1 && h[i].pod == p && !h[i].kind.Deleted?
        && forall j :: i < j < n + 1 ==> !SameName(h[j].pod, p);
      if i < n { assert forall j :: i < j < n ==> !SameName(h[j].pod, p); }
    }
  }

  /** The state the theorems on histories speak of holds exactly the pods alive, namespace by namespace. */
  lemma {:induction false} StateIsAlive(h: History, n: nat, p: Pod)
    requires PlainHistory(h) && n <= |h| && Plain(p)
    ensures p in StateAt(h, n).Values <==> AliveAfter(h, n, p)
  {
    StateIsPlain(h, n);
    if n > 0 {
      var last := h[n - 1].pod;
      StateIsPlain(h, n - 1);
      StateIsAlive(h, n - 1, p);
      AliveNext(h, n - 1, p);
      CacheKeyIsName(last, p);
      CachedUnder(StateAt(h, n - 1), p);
      CachedUnder(StateAt(h, n), p);
    }
  }

  /** In every reachable state of the watch protocol a synced watcher past its last list caches exactly the pods alive
      at its position. */
  lemma CachedAreAlive(h: History, run: seq<Action>, p: Pod)
    requires Increasing(h) && PlainHistory(h) && Plain(p)
    requires Runs(h, INITIAL, run) && CaughtUp(h, After(h, INITIAL, run))
    ensures var w := After(h, INITIAL, run);
            && IndexOf(h, w.v.lastRV) <= |h|
            && (p in w.v.cache.Values <==> AliveAfter(h, IndexOf(h, w.v.lastRV), p))
  {
    CacheIsClusterState(h, run);
    StateIsAlive(h, IndexOf(h, After(h, INITIAL, run).v.lastRV), p);
  }
}
