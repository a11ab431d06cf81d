/** The pod watcher as it runs: one goroutine's methods over its fields. */
module PodInformer {
  import opened Prelude
  import opened Kubernetes
  import opened ResourceVersion
  import opened WatchState
  import opened ResumeStore

  datatype PodList = PodList(items: seq<Pod>, resourceVersion: string)

  datatype WatchEvent = Bookmark(rv: string) | Change(event: Event) | Failure(gone: bool)

  /** The outcome of opening a watch, and everything it delivers before it closes. */
  datatype Stream = OpenFailed(gone: bool) | Opened(events: seq<WatchEvent>)

  datatype Outcome = Closed | Failed | VersionGone

  /** What the cluster answers during one round of the run loop; None is a failed list. */
  datatype Round = Round(list: Option<PodList>, stream: Stream)

  ghost predicate Keyed(cache: PodCache) {
    forall x :: x in cache ==> MetaKey(cache[x]) == x
  }

  // ----- What the methods compute -----

  function Observed(v: Volatile, e: WatchEvent): Volatile {
    match e
    case Bookmark(rv) => SetRV(v, rv)
    case Change(event) => Handle(v, event)
    case Failure(_) => v
  }

  function ObservedCalls(v: Volatile, e: WatchEvent): seq<Call> {
    if e.Change? then Calls(v.cache, e.event) else []
  }

  /** The events of a stream up to the first that reports the version gone. */
  function Watched(v: Volatile, events: seq<WatchEvent>): Volatile
    decreases |events|
  {
    if events == [] || events[0] == Failure(true) then v else Watched(Observed(v, events[0]), events[1..])
  }

  /** The handler calls once the stream has been handled, given those made before. */
  function WatchedLog(v: Volatile, log: seq<Call>, events: seq<WatchEvent>): (r: seq<Call>)
    ensures log <= r
    decreases |events|
  {
    if events == [] || events[0] == Failure(true) then log
    else WatchedLog(Observed(v, events[0]), log + ObservedCalls(v, events[0]), events[1..])
  }

  /** The cache after merging a list: the listed keys, each at the newer of the two versions. */
  function Reconciled(cache: PodCache, listed: PodCache): PodCache {
    map x | x in listed :: if UpToDate(cache, listed[x]) && x in cache then cache[x] else listed[x]
  }

  /** A call reconcile owes its handler: a new pod, a strictly newer version, or a vanished pod. */
  ghost predicate Owed(before: PodCache, listed: PodCache, c: Call) {
    var key := MetaKey(c.pod);
    match c
    case OnAdd(pod, initial) => !initial && Lookup(listed, key) == Some(pod) && key !in before
    case OnUpdate(previous, pod) => Lookup(listed, key) == Some(pod) && Lookup(before, key) == Some(previous)
        && !UpToDate(before, pod)
    case OnDelete(pod) => key !in listed && Lookup(before, key) == Some(pod)
  }

  ghost predicate Distinct<T>(s: seq<T>) {
    forall i, j :: 0 <= i < j < |s| ==> s[i] != s[j]
  }

  ghost predicate ExactDiff(before: PodCache, listed: PodCache, calls: seq<Call>) {
    Distinct(calls) && forall c :: c in calls <==> Owed(before, listed, c)
  }

  /** The orders in which reconcile visits the listed and the cached keys. */
  datatype Order = Order(merge: seq<string>, prune: seq<string>)

  /** The cache after the listed pods of some keys have been merged in turn. */
  function MergedBy(cache: PodCache, listed: PodCache, order: seq<string>): PodCache {
    if order == [] then cache
    else
      var (front, key) := (MergedBy(cache, listed, order[..|order| - 1]), order[|order| - 1]);
      if key in listed then Observe(front, listed[key]) else front
  }

  /** The handler calls this makes. */
  function MergeCalls(cache: PodCache, listed: PodCache, order: seq<string>): seq<Call> {
    if order == [] then []
    else
      var (front, key) := (order[..|order| - 1], order[|order| - 1]);
      MergeCalls(cache, listed, front)
      + if key in listed then ObserveCalls(MergedBy(cache, listed, front), listed[key]) else []
  }

  /** The handler calls of the second loop over the merged cache. */
  function PruneCalls(merged: PodCache, listed: PodCache, order: seq<string>): seq<Call> {
    if order == [] then []
    else
      PruneCalls(merged, listed, order[..|order| - 1]) + Vanished(merged, listed, order[|order| - 1])
  }

  /** The call owed to a cached key that is no longer listed. */
  function Vanished(merged: PodCache, listed: PodCache, key: string): seq<Call> {
    if key in merged && key !in listed then [OnDelete(merged[key])] else []
  }

  function ReconcileCalls(before: PodCache, listed: PodCache, order: Order): seq<Call> {
    MergeCalls(before, listed, order.merge) + PruneCalls(MergedBy(before, listed, order.merge), listed, order.prune)
  }

  /** Reconcile visits every listed key once and then every cached key once. */
  ghost predicate Visits(before: PodCache, listed: PodCache, order: Order) {
    && EnumeratesKeys(order.merge, listed.Keys)
    && EnumeratesKeys(order.prune, MergedBy(before, listed, order.merge).Keys)
  }

  function Relisted(v: Volatile, initial: bool, list: PodList): Volatile {
    var cache := if initial then CacheOf(list.items) else Reconciled(v.cache, CacheOf(list.items));
    SetRV(v.(cache := cache), list.resourceVersion)
  }

  /** The state in which a round opens its watch, or None when its list fails. */
  function Prepared(v: Volatile, list: Option<PodList>): Option<Volatile> {
    if v.lastRV != "" && v.synced then Some(v)
    else if list.None? then None
    else if v.lastRV == "" then Some(Relisted(v, !v.synced, list.value).(synced := true))
    else Some(v.(cache := CacheOf(list.value.items), synced := true))
  }

  /** One round of the run loop, with the position cleared when the version is gone. */
  function Rounded(v: Volatile, round: Round): Volatile {
    match Prepared(v, round.list)
    case None => v
    case Some(ready) =>
      match round.stream
      case OpenFailed(gone) => if gone then ClearRV(ready) else ready
      case Opened(events) =>
        if Failure(true) in events then ClearRV(Watched(ready, events)) else Watched(ready, events)
  }

  /** The handler calls a round makes before it opens its watch. */
  function PreparedCalls(v: Volatile, list: Option<PodList>, order: Order): seq<Call> {
    if list.None? || (v.lastRV != "" && v.synced) then []
    else if v.lastRV == "" && v.synced then ReconcileCalls(v.cache, CacheOf(list.value.items), order)
    else InitialCalls(list.value.items)
  }

  /** All handler calls once the round is over, given those made before. */
  function RoundLog(v: Volatile, log: seq<Call>, round: Round, order: Order): seq<Call> {
    var prepared := log + PreparedCalls(v, round.list, order);
    match Prepared(v, round.list)
    case None => log
    case Some(ready) => if round.stream.Opened? then WatchedLog(ready, prepared, round.stream.events) else prepared
  }

  /** Where a round reconciles, its order is a visiting order. */
  ghost predicate VisitsIn(v: Volatile, round: Round, order: Order) {
    round.list.Some? && v.lastRV == "" && v.synced ==> Visits(v.cache, CacheOf(round.list.value.items), order)
  }

  /** The state after some rounds, the calls they made, and that they visited in some order. */
  function RoundedAll(v: Volatile, rounds: seq<Round>): Volatile {
    if rounds == [] then v else Rounded(RoundedAll(v, rounds[..|rounds| - 1]), rounds[|rounds| - 1])
  }

  function RoundedLog(v: Volatile, log: seq<Call>, rounds: seq<Round>, orders: seq<Order>): seq<Call>
    requires |orders| == |rounds|
  {
    if rounds == [] then log
    else
      var n := |rounds| - 1;
      RoundLog(RoundedAll(v, rounds[..n]), RoundedLog(v, log, rounds[..n], orders[..n]), rounds[n], orders[n])
  }

  ghost predicate AllVisit(v: Volatile, rounds: seq<Round>, orders: seq<Order>)
    requires |orders| == |rounds|
  {
    if rounds == [] then true
    else
      var n := |rounds| - 1;
      AllVisit(v, rounds[..n], orders[..n]) && VisitsIn(RoundedAll(v, rounds[..n]), rounds[n], orders[n])
  }

  class PodInformerManager {
    var store: PodCache
    var lastRV: string
    var dirty: bool
    var synced: bool
    var calls: seq<Call>   // handler calls made so far

    function State(): Volatile
      reads this
    {
      Volatile(lastRV, dirty, synced, store)
    }

    constructor ()
      ensures State() == Volatile("", false, false, map[]) && calls == []
    {
      store, lastRV, dirty, synced, calls := map[], "", false, false, [];
    }

    method SetRV(rv: string)
      modifies this`lastRV, this`dirty
      ensures State() == WatchState.SetRV(old(State()), rv)
      ensures lastRV == if rv == "" then old(lastRV) else rv
      ensures dirty <==> old(dirty) || (rv != "" && rv != old(lastRV))
    {
      if rv == "" {
        return;
      }
      if rv != lastRV {
        lastRV := rv;
        dirty := true;
      }
    }

    method ClearRV()
      modifies this`lastRV, this`dirty
      ensures State() == WatchState.ClearRV(old(State()))
    {
      lastRV := "";
      dirty := false;
    }

    method OnAdded(pod: Pod)
      modifies this
      ensures State() == Handle(old(State()), Event(Added, pod))
      ensures calls == old(calls) + Calls(old(store), Event(Added, pod))
    {
      var key := MetaKey(pod);
      if key in store {
        var previous := store[key];
        if RvAtLeast(previous.resourceVersion, pod.resourceVersion) {
          SetRV(pod.resourceVersion);
          return;
        }
        calls := calls + [OnUpdate(previous, pod)];
        store := store[key := pod];
        SetRV(pod.resourceVersion);
        return;
      }
      calls := calls + [OnAdd(pod, false)];
      store := store[key := pod];
      SetRV(pod.resourceVersion);
    }

    method OnModified(pod: Pod)
      modifies this
      ensures State() == Handle(old(State()), Event(Modified, pod))
      ensures calls == old(calls) + Calls(old(store), Event(Modified, pod))
    {
      var key := MetaKey(pod);
      if key in store {
        if RvAtLeast(store[key].resourceVersion, pod.resourceVersion) {
          SetRV(pod.resourceVersion);
          return;
        }
        calls := calls + [OnUpdate(store[key], pod)];
      } else {
        calls := calls + [OnAdd(pod, false)];
      }
      store := store[key := pod];
      SetRV(pod.resourceVersion);
    }

    method OnDeleted(pod: Pod)
      modifies this
      ensures State() == Handle(old(State()), Event(Deleted, pod))
      ensures calls == old(calls) + Calls(old(store), Event(Deleted, pod))
    {
      calls := calls + [OnDelete(pod)];
      store := store - {MetaKey(pod)};
      if pod.resourceVersion != "" {
        SetRV(pod.resourceVersion);
      }
    }

    /** Shows every listed pod to the handler as part of the initial state. */
    method ShowInitial(items: seq<Pod>)
      modifies this`calls
      ensures calls == old(calls) + InitialCalls(items)
      ensures |calls| == |old(calls)| + |items|
      ensures forall i :: 0 <= i < |items| ==> calls[|old(calls)| + i] == OnAdd(items[i], true)
    {
      for i := 0 to |items|
        invariant calls == old(calls) + InitialCalls(items)[..i]
      {
        calls := calls + [OnAdd(items[i], true)];
      }
      assert InitialCalls(items)[..|items|] == InitialCalls(items);
    }

    method SeedSnapshot(list: Option<PodList>) returns (ok: bool)
      modifies this
      ensures ok == list.Some?
      ensures ok ==> State() == old(State()).(cache := CacheOf(list.value.items))
      ensures ok ==> calls == old(calls) + InitialCalls(list.value.items)
      ensures !ok ==> State() == old(State()) && calls == old(calls)
    {
      if list.None? {
        return false;
      }
      ShowInitial(list.value.items);
      store := CacheOf(list.value.items);
      ok := true;
    }

    method Relist(initial: bool, list: Option<PodList>) returns (ok: bool, ghost order: Order)
      requires Keyed(store)
      modifies this
      ensures ok == list.Some?
      ensures ok ==> State() == Relisted(old(State()), initial, list.value)
      ensures ok && initial ==> calls == old(calls) + InitialCalls(list.value.items)
      ensures ok && !initial ==>
                && Visits(old(store), CacheOf(list.value.items), order)
                && calls == old(calls) + ReconcileCalls(old(store), CacheOf(list.value.items), order)
                && ExactDiff(old(store), CacheOf(list.value.items),
                    ReconcileCalls(old(store), CacheOf(list.value.items), order))
      ensures !ok ==> State() == old(State()) && calls == old(calls)
    {
      order := Order([], []);
      if list.None? {
        return false, order;
      }
      if initial {
        ShowInitial(list.value.items);
        store := CacheOf(list.value.items);
      } else {
        order := Reconcile(list.value.items);
      }
      SetRV(list.value.resourceVersion);
      ok := true;
    }

    /** Merges a list into the cache, in whatever order the two maps are visited. */
    method Reconcile(pods: seq<Pod>) returns (ghost order: Order)
      requires Keyed(store)
      modifies this`store, this`calls
      ensures store == Reconciled(old(store), CacheOf(pods))
      ensures Visits(old(store), CacheOf(pods), order)
      ensures calls == old(calls) + ReconcileCalls(old(store), CacheOf(pods), order)
      ensures ExactDiff(old(store), CacheOf(pods), ReconcileCalls(old(store), CacheOf(pods), order))
    {
      order := ReconcileListed(CacheOf(pods));
      CacheOfIsKeyed(pods);
      ReconcileIsExact(old(store), CacheOf(pods), order);
    }

    /** The two loops. */
    method ReconcileListed(listed: PodCache) returns (ghost order: Order)
      modifies this`store, this`calls
      ensures Visits(old(store), listed, order)
      ensures var merged := MergedBy(old(store), listed, order.merge); store == Pruned(merged, listed, merged.Keys)
      ensures calls == old(calls) + ReconcileCalls(old(store), listed, order)
    {
      ghost var before, made := store, calls;
      ghost var mergeOrder := MergeListed(listed);
      ghost var merged, merges := store, calls;
      ghost var pruneOrder := PruneVanished(listed);
      order := Order(mergeOrder, pruneOrder);
      LoopsJoin(before, listed, order, merged, made, merges, calls);
    }

    /** The first loop of reconcile: new and newer pods. */
    method MergeListed(listed: PodCache) returns (ghost order: seq<string>)
      modifies this`store, this`calls
      ensures EnumeratesKeys(order, listed.Keys)
      ensures store == MergedBy(old(store), listed, order)
      ensures calls == old(calls) + MergeCalls(old(store), listed, order)
    {
      var todo := listed.Keys;
      order := [];
      while todo != {}
        invariant todo <= listed.Keys && EnumeratesKeys(order, listed.Keys - todo)
        invariant store == MergedBy(old(store), listed, order)
        invariant calls == old(calls) + MergeCalls(old(store), listed, order)
        decreases todo
      {
        var key :| key in todo;
        OneMoreKey(old(store), listed, order, key);
        order := order + [key];
        todo := todo - {key};
        var pod := listed[key];
        if MetaKey(pod) !in store {
          calls := calls + [OnAdd(pod, false)];
          store := store[MetaKey(pod) := pod];
        } else if !RvAtLeast(store[MetaKey(pod)].resourceVersion, pod.resourceVersion) {
          calls := calls + [OnUpdate(store[MetaKey(pod)], pod)];
          store := store[MetaKey(pod) := pod];
        }
      }
    }

    /** The second loop of reconcile: pods no longer listed. */
    method PruneVanished(listed: PodCache) returns (ghost order: seq<string>)
      modifies this`store, this`calls
      ensures EnumeratesKeys(order, old(store).Keys)
      ensures store == Pruned(old(store), listed, old(store).Keys)
      ensures calls == old(calls) + PruneCalls(old(store), listed, order)
    {
      var rest := store.Keys;
      ghost var merged, done := store, {};
      order := [];
      NothingPruned(merged, listed);
      while rest != {}
        invariant rest !! done && rest + done == merged.Keys && EnumeratesKeys(order, done)
        invariant store == Pruned(merged, listed, done)
        invariant calls == old(calls) + PruneCalls(merged, listed, order)
        decreases rest
      {
        var key :| key in rest;
        PruneOne(listed, key, merged, done, order);
        Associates(old(calls), PruneCalls(merged, listed, order), Vanished(merged, listed, key));
        order, rest, done := order + [key], rest - {key}, done + {key};
      }
      assert done == merged.Keys;
    }

    /** Meets one cached pod. */
    method PruneOne(listed: PodCache, key: string, ghost merged: PodCache, ghost done: set<string>,
                    ghost order: seq<string>)
      requires key in merged && key !in done && store == Pruned(merged, listed, done) && EnumeratesKeys(order, done)
      modifies this`store, this`calls
      ensures store == Pruned(merged, listed, done + {key}) && EnumeratesKeys(order + [key], done + {key})
      ensures calls == old(calls) + Vanished(merged, listed, key)
      ensures PruneCalls(merged, listed, order + [key])
           == PruneCalls(merged, listed, order) + Vanished(merged, listed, key)
    {
      OneLessKey(merged, listed, done, order, key);
      if key !in listed {
        calls := calls + [OnDelete(store[key])];
        store := store - {key};
      }
    }

    /** One delivery of an open watch; reports whether the version is gone. */
    method OnDelivery(e: WatchEvent) returns (gone: bool)
      modifies this
      ensures gone <==> e == Failure(true)
      ensures State() == Observed(old(State()), e)
      ensures calls == old(calls) + ObservedCalls(old(State()), e)
    {
      gone := false;
      match e
      case Bookmark(rv) => SetRV(rv);
      case Change(Event(Added, pod)) => OnAdded(pod);
      case Change(Event(Modified, pod)) => OnModified(pod);
      case Change(Event(Deleted, pod)) => OnDeleted(pod);
      case Failure(isGone) => gone := isGone;
    }

    /** Handles an open watch until it closes or reports the version gone. */
    method Drain(events: seq<WatchEvent>) returns (gone: bool)
      modifies this
      ensures gone <==> Failure(true) in events
      ensures State() == Watched(old(State()), events)
      ensures calls == WatchedLog(old(State()), old(calls), events)
    {
      for i := 0 to |events|
        invariant forall j :: 0 <= j < i ==> events[j] != Failure(true)
        invariant Watched(State(), events[i..]) == Watched(old(State()), events)
        invariant WatchedLog(State(), calls, events[i..]) == WatchedLog(old(State()), old(calls), events)
      {
        WatchedNext(State(), calls, events, i);
        gone := OnDelivery(events[i]);
        if gone {
          return;
        }
      }
      gone := false;
    }

    method Watch(stream: Stream) returns (outcome: Outcome)
      modifies this
      ensures stream.OpenFailed? ==>
                State() == old(State()) && calls == old(calls) && outcome == if stream.gone then VersionGone else Failed
      ensures stream.Opened? ==>
                && State() == Watched(old(State()), stream.events)
                && calls == WatchedLog(old(State()), old(calls), stream.events)
                && outcome == if Failure(true) in stream.events then VersionGone else Closed
    {
      match stream
      case OpenFailed(gone) =>
        outcome := if gone then VersionGone else Failed;
      case Opened(events) =>
        var gone := Drain(events);
        outcome := if gone then VersionGone else Closed;
    }

    method ListAndWatch(list: Option<PodList>, stream: Stream) returns (outcome: Outcome, ghost order: Order)
      requires Keyed(store)
      modifies this
      ensures VisitsIn(old(State()), Round(list, stream), order)
      ensures calls == RoundLog(old(State()), old(calls), Round(list, stream), order)
      ensures var ready := Prepared(old(State()), list);
              if ready.None? then State() == old(State()) && outcome == Failed
              else if stream.OpenFailed? then State() == ready.value
                  && outcome == if stream.gone then VersionGone else Failed
              else State() == Watched(ready.value, stream.events)
                   && outcome == if Failure(true) in stream.events then VersionGone else Closed
    {
      order := Order([], []);
      if lastRV == "" {
        var ok;
        ok, order := Relist(!synced, list);
        if !ok {
          return Failed, order;
        }
        synced := true;
      } else if !synced {
        var ok := SeedSnapshot(list);
        if !ok {
          return Failed, order;
        }
        synced := true;
      }
      assert calls == old(calls) + PreparedCalls(old(State()), list, order);
      outcome := Watch(stream);
    }

    /** The run loop, one round per answer of the cluster, until it is stopped. */
    method Run(rounds: seq<Round>) returns (ghost orders: seq<Order>)
      requires Keyed(store)
      modifies this
      ensures |orders| == |rounds| && AllVisit(old(State()), rounds, orders)
      ensures State() == RoundedAll(old(State()), rounds)
      ensures calls == RoundedLog(old(State()), old(calls), rounds, orders)
      ensures Keyed(store)
    {
      orders := [];
      for i := 0 to |rounds|
        invariant Keyed(store) && |orders| == i
        invariant AllVisit(old(State()), rounds[..i], orders)
        invariant State() == RoundedAll(old(State()), rounds[..i])
        invariant calls == RoundedLog(old(State()), old(calls), rounds[..i], orders)
      {
        assert rounds[..i + 1][..i] == rounds[..i];
        RoundedIsKeyed(State(), rounds[i]);
        var outcome;
        ghost var order;
        outcome, order := ListAndWatch(rounds[i].list, rounds[i].stream);
        if outcome == VersionGone {
          ClearRV();
        }
        assert (orders + [order])[..i] == orders;
        orders := orders + [order];
      }
      assert rounds[..|rounds|] == rounds;
    }

    method LoadRV(resume: Checkpoint, a: Answer) returns (rv: string)
      modifies Objects(resume)
      ensures resume.NoStore? || resume.Nop? ==> rv == ""
      ensures resume.InFile? ==>
                rv == if a.ok && old(resume.file.content.Envelope?) then old(resume.file.content.rv) else ""
      ensures resume.OverHTTP? ==>
                rv == if a.response.Status? && a.response.code == 200 && a.response.envelope.Some?
                      then a.response.envelope.value else ""
      ensures resume.InFile? ==> resume.file.content == old(resume.file.content)
      ensures resume.OverHTTP? ==> resume.http.State() == Served(old(resume.http.State()), Request.Load(a.response))
    {
      if resume.NoStore? {
        return "";
      }
      var result := LoadFrom(resume, a);
      match result
      case LoadError => rv := "";
      case NotFound => rv := "";
      case Found(found) => rv := found;
    }

    /** Flushes the position if it changed; a failed save stays pending, and without a store all stays as it is. */
    method SaveRV(resume: Checkpoint, a: Answer)
      modifies this`dirty, Objects(resume)
      ensures State() == old(State()).(dirty := dirty)
      ensures resume.NoStore? ==> dirty == old(dirty)
      ensures resume.Nop? ==> !dirty
      ensures resume.InFile? ==> (dirty <==> old(dirty) && lastRV != "" && !a.ok)
      ensures resume.OverHTTP? ==>
                (dirty <==> old(dirty) && lastRV != "" && old(resume.http.baseline)
                            && (a.response.Status? ==> a.response.code < 200 || a.response.code > 299))
      ensures resume.InFile? ==>
                resume.file.content
                == if old(dirty) && lastRV != "" && a.ok then Envelope(lastRV) else old(resume.file.content)
      ensures resume.OverHTTP? ==>
                resume.http.State()
                == if old(dirty) && lastRV != "" then Served(old(resume.http.State()), Request.Save(lastRV, a.response))
                   else old(resume.http.State())
    {
      if resume.NoStore? {
        return;
      }
      var rv, pending := lastRV, dirty;
      dirty := false;
      if !pending || rv == "" {
        return;
      }
      var failed := SaveTo(resume, rv, a);
      if failed {
        dirty := true;
      }
    }
  }

  // ----- Lemmas about reconcile -----

  lemma {:induction false} CacheOfIsKeyed(items: seq<Pod>)
    ensures Keyed(CacheOf(items))
  {
    if items != [] { CacheOfIsKeyed(items[..|items| - 1]); }
  }

  /** The cache once the listed keys in `done` have been merged. */
  function Merged(before: PodCache, listed: PodCache, done: set<string>): PodCache
    requires done <= listed.Keys
  {
    map x | x in before.Keys + done ::
      if x in done && !(x in before && UpToDate(before, listed[x])) then listed[x] else before[x]
  }

  lemma LoopsJoin(before: PodCache, listed: PodCache, order: Order, merged: PodCache, made: seq<Call>,
                  merges: seq<Call>, all: seq<Call>)
    requires merged == MergedBy(before, listed, order.merge) && merges == made + MergeCalls(before, listed, order.merge)
    requires all == merges + PruneCalls(merged, listed, order.prune)
    requires EnumeratesKeys(order.merge, listed.Keys) && EnumeratesKeys(order.prune, merged.Keys)
    ensures Visits(before, listed, order) && all == made + ReconcileCalls(before, listed, order)
  {
    Associates(made, MergeCalls(before, listed, order.merge), PruneCalls(merged, listed, order.prune));
  }

  lemma MergedNext(before: PodCache, listed: PodCache, done: set<string>, key: string)
    requires done + {key} <= listed.Keys && key !in done && Keyed(listed)
    ensures Lookup(Merged(before, listed, done), key) == Lookup(before, key)
    ensures Merged(before, listed, done + {key}) ==
              if UpToDate(before, listed[key]) then Merged(before, listed, done)
              else Merged(before, listed, done)[key := listed[key]]
  {
  }

  lemma OneMoreKey(before: PodCache, listed: PodCache, order: seq<string>, key: string)
    requires key in listed
    ensures MergedBy(before, listed, order + [key]) == Observe(MergedBy(before, listed, order), listed[key])
    ensures MergeCalls(before, listed, order + [key])
         == MergeCalls(before, listed, order) + ObserveCalls(MergedBy(before, listed, order), listed[key])
  {
    assert (order + [key])[..|order|] == order;
  }

  /** The merged cache once the keys in `done` have been checked against the list. */
  function Pruned(merged: PodCache, listed: PodCache, done: set<string>): PodCache {
    map x | x in merged && (x in listed || x !in done) :: merged[x]
  }

  lemma NothingPruned(merged: PodCache, listed: PodCache)
    ensures Pruned(merged, listed, {}) == merged
  {
  }

  lemma OneLessKey(merged: PodCache, listed: PodCache, done: set<string>, order: seq<string>, key: string)
    requires key in merged && key !in done
    ensures Lookup(Pruned(merged, listed, done), key) == Some(merged[key])
    ensures Pruned(merged, listed, done + {key}) ==
              if key in listed then Pruned(merged, listed, done) else Pruned(merged, listed, done) - {key}
    ensures PruneCalls(merged, listed, order + [key])
         == PruneCalls(merged, listed, order) + Vanished(merged, listed, key)
  {
    assert (order + [key])[..|order|] == order;
  }

  /** The calls made so far are, once each, those owed for the keys in `done`. */
  ghost predicate Settled(before: PodCache, listed: PodCache, calls: seq<Call>, done: set<string>) {
    Distinct(calls) && forall c :: c in calls <==> Owed(before, listed, c) && MetaKey(c.pod) in done
  }

  lemma AddOwed(before: PodCache, listed: PodCache, calls: seq<Call>, done: set<string>, c: Call)
    requires Settled(before, listed, calls, done) && Owed(before, listed, c) && MetaKey(c.pod) !in done
    ensures Settled(before, listed, calls + [c], done + {MetaKey(c.pod)})
  {
  }

  lemma AddNone(before: PodCache, listed: PodCache, calls: seq<Call>, done: set<string>, key: string)
    requires Settled(before, listed, calls, done) && key !in done
    requires forall c :: Owed(before, listed, c) ==> MetaKey(c.pod) != key
    ensures Settled(before, listed, calls, done + {key})
  {
  }

  lemma AddObserved(before: PodCache, listed: PodCache, calls: seq<Call>, done: set<string>, key: string)
    requires Settled(before, listed, calls, done) && key !in done && Keyed(listed) && key in listed
    ensures Settled(before, listed, calls + ObserveCalls(before, listed[key]), done + {key})
  {
    var pod := listed[key];
    if UpToDate(before, pod) {
      assert calls + [] == calls;
      AddNone(before, listed, calls, done, key);
    } else if key in before {
      AddOwed(before, listed, calls, done, OnUpdate(before[key], pod));
    } else {
      AddOwed(before, listed, calls, done, OnAdd(pod, false));
    }
  }

  /** Merging in any order leaves each visited key at the newer version and makes the calls owed for it. */
  lemma {:induction false} MergeIsExact(before: PodCache, listed: PodCache, order: seq<string>, done: set<string>)
    requires Keyed(listed) && EnumeratesKeys(order, done) && done <= listed.Keys
    ensures MergedBy(before, listed, order) == Merged(before, listed, done)
    ensures Settled(before, listed, MergeCalls(before, listed, order), done)
  {
    if order == [] {
      assert done == {};
    } else {
      var front, key := order[..|order| - 1], order[|order| - 1];
      assert order == front + [key] && key in order;
      FrontEnumerates(order, done);
      MergeIsExact(before, listed, front, done - {key});
      MergedNext(before, listed, done - {key}, key);
      assert done - {key} + {key} == done;
      AddObserved(before, listed, MergeCalls(before, listed, front), done - {key}, key);
    }
  }

  lemma FrontEnumerates(order: seq<string>, done: set<string>)
    requires EnumeratesKeys(order, done) && order != []
    ensures EnumeratesKeys(order[..|order| - 1], done - {order[|order| - 1]})
  {
    var n := |order| - 1;
    assert forall x :: x in order <==> x in order[..n] || x == order[n];
  }

  lemma AddVanished(before: PodCache, listed: PodCache, merged: PodCache, calls: seq<Call>, done: set<string>,
      key: string)
    requires Keyed(before) && merged == Merged(before, listed, listed.Keys) && key in merged && key !in done
    requires Settled(before, listed, calls, listed.Keys + done)
    ensures Settled(before, listed, calls + Vanished(merged, listed, key), listed.Keys + (done + {key}))
  {
    assert calls + [] == calls;
    if key in listed {
      assert listed.Keys + (done + {key}) == listed.Keys + done;
    } else {
      assert listed.Keys + (done + {key}) == listed.Keys + done + {key};
      AddOwed(before, listed, calls, listed.Keys + done, OnDelete(merged[key]));
    }
  }

  /** Pruning in any order makes the calls owed for the cached keys. */
  lemma {:induction false} PruneIsExact(before: PodCache, listed: PodCache, merged: PodCache, merges: seq<Call>,
                                        order: seq<string>, done: set<string>)
    requires Keyed(before) && merged == Merged(before, listed, listed.Keys)
    requires EnumeratesKeys(order, done) && done <= merged.Keys && Settled(before, listed, merges, listed.Keys)
    ensures Settled(before, listed, merges + PruneCalls(merged, listed, order), listed.Keys + done)
  {
    if order == [] {
      assert done == {} && listed.Keys + done == listed.Keys && merges + [] == merges;
    } else {
      var front, key := order[..|order| - 1], order[|order| - 1];
      assert key in order;
      FrontEnumerates(order, done);
      PruneIsExact(before, listed, merged, merges, front, done - {key});
      AddVanished(before, listed, merged, merges + PruneCalls(merged, listed, front), done - {key}, key);
      assert done - {key} + {key} == done;
      Associates(merges, PruneCalls(merged, listed, front), Vanished(merged, listed, key));
    }
  }

  lemma PrunedAll(before: PodCache, listed: PodCache)
    ensures var merged := Merged(before, listed, listed.Keys);
            && Pruned(merged, listed, merged.Keys) == Reconciled(before, listed)
            && listed.Keys + merged.Keys == listed.Keys + before.Keys
  {
  }

  lemma SettledIsExact(before: PodCache, listed: PodCache, calls: seq<Call>)
    requires Settled(before, listed, calls, listed.Keys + before.Keys)
    ensures ExactDiff(before, listed, calls)
  {
  }

  /** In every visiting order the two loops make the exact difference and leave exactly the reconciled cache. */
  lemma ReconcileIsExact(before: PodCache, listed: PodCache, order: Order)
    requires Keyed(before) && Keyed(listed) && Visits(before, listed, order)
    ensures ExactDiff(before, listed, ReconcileCalls(before, listed, order))
    ensures var merged := MergedBy(before, listed, order.merge);
            Pruned(merged, listed, merged.Keys) == Reconciled(before, listed)
  {
    MergeIsExact(before, listed, order.merge, listed.Keys);
    var merged := Merged(before, listed, listed.Keys);
    PruneIsExact(before, listed, merged, MergeCalls(before, listed, order.merge), order.prune, merged.Keys);
    PrunedAll(before, listed);
    SettledIsExact(before, listed, ReconcileCalls(before, listed, order));
  }

  /** One turn of the watch loop. */
  lemma WatchedNext(v: Volatile, log: seq<Call>, events: seq<WatchEvent>, i: nat)
    requires i < |events|
    ensures events[i] != Failure(true) ==>
              && Watched(v, events[i..]) == Watched(Observed(v, events[i]), events[i + 1..])
              && WatchedLog(v, log, events[i..]) == WatchedLog(Observed(v, events[i]),
                  log + ObservedCalls(v, events[i]), events[i + 1..])
    ensures events[i] == Failure(true) ==> Watched(v, events[i..]) == v && WatchedLog(v, log, events[i..]) == log
  {
  }

  lemma {:induction false} WatchedIsKeyed(v: Volatile, events: seq<WatchEvent>)
    requires Keyed(v.cache)
    ensures Keyed(Watched(v, events).cache)
    decreases |events|
  {
    if events != [] && events[0] != Failure(true) {
      WatchedIsKeyed(Observed(v, events[0]), events[1..]);
    }
  }

  lemma PreparedIsKeyed(v: Volatile, list: Option<PodList>)
    requires Keyed(v.cache) && Prepared(v, list).Some?
    ensures Keyed(Prepared(v, list).value.cache)
  {
    if list.Some? { CacheOfIsKeyed(list.value.items); }
  }

  lemma RoundedIsKeyed(v: Volatile, round: Round)
    requires Keyed(v.cache)
    ensures Keyed(Rounded(v, round).cache)
  {
    if Prepared(v, round.list).Some? { PreparedIsKeyed(v, round.list); }
    var ready := Prepared(v, round.list);
    if ready.Some? && round.stream.Opened? { WatchedIsKeyed(ready.value, round.stream.events); }
  }
}
