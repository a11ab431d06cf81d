/** The rounds of the watcher's run loop are runs of the protocol, with the same state and the same handler calls. */
module WatcherRefinement {
  import opened Prelude
  import opened Kubernetes
  import opened ResourceVersion
  import opened WatchState
  import opened Cluster
  import opened Replay
  import opened WatchProtocol
  import opened WatchSafety
  import opened WatchTheorems
  import opened PodInformer
  import ResumeStore

  // ----- Runs -----

  function Repeated(a: Action, n: nat): seq<Action> {
    if n == 0 then [] else Repeated(a, n - 1) + [a]
  }

  /** `run` leads from `w` to `w'`. */
  ghost predicate Leads(h: History, w: World, run: seq<Action>, w': World)
    requires Increasing(h)
  {
    Runs(h, w, run) && After(h, w, run) == w'
  }

  lemma OneStep(h: History, w: World, a: Action)
    requires Increasing(h) && Enabled(h, w, a)
    ensures Leads(h, w, [a], Step(h, w, a))
  {
    assert [a][1..] == [];
  }

  lemma Compose(h: History, w: World, run: seq<Action>, u: World, rest: seq<Action>, w': World)
    requires Increasing(h) && Leads(h, w, run, u) && Leads(h, u, rest, w')
    ensures Leads(h, w, run + rest, w')
  {
    Append(h, w, run, rest);
  }

  lemma Extend(h: History, w: World, run: seq<Action>, u: World, a: Action)
    requires Increasing(h) && Leads(h, w, run, u) && Enabled(h, u, a)
    ensures Leads(h, w, run + [a], Step(h, u, a))
  {
    OneStep(h, u, a);
    Compose(h, w, run, u, [a], Step(h, u, a));
  }

  lemma {:induction false} Commits(h: History, w: World, k: nat)
    requires Increasing(h) && w.now + k <= |h|
    ensures Leads(h, w, Repeated(Commit, k), w.(now := w.now + k))
  {
    if k > 0 {
      Commits(h, w, k - 1);
      Extend(h, w, Repeated(Commit, k - 1), w.(now := w.now + k - 1), Commit);
    }
  }

  /** The cluster may move on at any time. */
  lemma TimeMoves(h: History, w: World, at: nat) returns (run: seq<Action>)
    requires Increasing(h) && Inv(h, w) && w.now <= at <= |h|
    ensures Leads(h, w, run, w.(now := at)) && Inv(h, w.(now := at))
  {
    run := Repeated(Commit, at - w.now);
    Commits(h, w, at - w.now);
    RunKeeps(h, w, run);
  }

  // ----- One watch event -----

  /** Handling one watch event is handler call, cache update and position update, in this order. */
  lemma {:induction false} EventIsThreeSteps(h: History, w: World)
    requires Increasing(h) && w.running && w.task.Watching? && w.task.next < w.now <= |h|
    ensures var e := h[w.task.next];
            Leads(h, w, [Work, Work, Work],
                  w.(v := Handle(w.v, e), log := w.log + Calls(w.v.cache, e), task := Watching(w.task.next + 1)))
  {
    var w1 := DispatchNext(h, w);
    var w2 := StoreNext(h, w1);
    assert Takes(h, w, Work, w1) && Takes(h, w1, Work, w2) && Takes(h, w2, Work, MoveNext(h, w2));
    Chain(h, w, [Work, Work, Work], [w, w1, w2, MoveNext(h, w2)]);
  }

  // ----- A whole watch -----

  /** The stream delivers the history from event `m` on, with bookmarks at positions reached and errors in between. */
  ghost predicate StreamFits(h: History, m: nat, events: seq<WatchEvent>)
    requires Increasing(h)
    decreases |events|
  {
    if events == [] || events[0] == Failure(true) then true
    else
      match events[0]
      case Bookmark(rv) => Numeric(rv) && IndexOf(h, rv) == m && StreamFits(h, m, events[1..])
      case Change(event) => m < |h| && event == h[m] && StreamFits(h, m + 1, events[1..])
      case Failure(_) => StreamFits(h, m, events[1..])
  }

  /** The event index a stream from `m` has reached when it ends. */
  function StreamEnd(m: nat, events: seq<WatchEvent>): (end: nat)
    ensures m <= end
    decreases |events|
  {
    if events == [] || events[0] == Failure(true) then m
    else StreamEnd(if events[0].Change? then m + 1 else m, events[1..])
  }

  /** What draining the stream makes of a watching world. */
  function Drained(w: World, events: seq<WatchEvent>): World
    requires w.task.Watching?
  {
    var end := StreamEnd(w.task.next, events);
    w.(now := Max(w.now, end), v := Watched(w.v, events), log := WatchedLog(w.v, w.log, events), task := Watching(end))
  }

  lemma DrainEvent(h: History, w: World) returns (run: seq<Action>)
    requires Increasing(h) && w.running && w.task.Watching? && w.task.next <= w.now <= |h| && w.task.next < |h|
    ensures var e := h[w.task.next];
            Leads(h, w, run, w.(now := Max(w.now, w.task.next + 1), v := Handle(w.v, e),
                                log := w.log + Calls(w.v.cache, e), task := Watching(w.task.next + 1)))
  {
    if w.task.next < w.now {
      run := [Work, Work, Work];
      EventIsThreeSteps(h, w);
    } else {
      var u := w.(now := w.now + 1);
      OneStep(h, w, Commit);
      EventIsThreeSteps(h, u);
      run := [Commit] + [Work, Work, Work];
      var e := h[w.task.next];
      Compose(h, w, [Commit], u, [Work, Work, Work],
              u.(v := Handle(u.v, e), log := u.log + Calls(u.v.cache, e), task := Watching(u.task.next + 1)));
    }
  }

  /** The watch loop's handling of a stream is a run of the protocol. */
  lemma {:induction false} DrainIsRun(h: History, w: World, events: seq<WatchEvent>) returns (run: seq<Action>)
    requires Increasing(h) && w.running && w.task.Watching? && w.task.next <= w.now <= |h|
    requires StreamFits(h, w.task.next, events)
    ensures StreamEnd(w.task.next, events) <= |h| && Leads(h, w, run, Drained(w, events))
    decreases |events|
  {
    if events == [] || events[0] == Failure(true) {
      run := [];
    } else {
      var first, u := DrainFirst(h, w, events);
      var rest := DrainIsRun(h, u, events[1..]);
      run := first + rest;
      Compose(h, w, first, u, rest, Drained(u, events[1..]));
    }
  }

  lemma DrainFirst(h: History, w: World, events: seq<WatchEvent>) returns (run: seq<Action>, u: World)
    requires Increasing(h) && w.running && w.task.Watching? && w.task.next <= w.now <= |h|
    requires events != [] && events[0] != Failure(true) && StreamFits(h, w.task.next, events)
    ensures Leads(h, w, run, u) && u.running && u.task.Watching? && u.task.next <= u.now <= |h|
    ensures StreamFits(h, u.task.next, events[1..]) && Drained(u, events[1..]) == Drained(w, events)
    ensures StreamEnd(u.task.next, events[1..]) == StreamEnd(w.task.next, events)
  {
    match events[0]
    case Bookmark(rv) =>
      run, u := [Action.Bookmark(rv)], w.(v := SetRV(w.v, rv));
      OneStep(h, w, Action.Bookmark(rv));
      assert w.log + [] == w.log;
    case Change(e) =>
      run := DrainEvent(h, w);
      u := w.(now := Max(w.now, w.task.next + 1), v := Handle(w.v, e), log := w.log + Calls(w.v.cache, e),
              task := Watching(w.task.next + 1));
      FitsNext(h, w.task.next, events);
    case Failure(_) =>
      run, u := [], w;
      assert w.log + [] == w.log;
  }

  lemma FitsNext(h: History, m: nat, events: seq<WatchEvent>)
    requires Increasing(h) && StreamFits(h, m, events) && events != [] && events[0].Change?
    ensures m < |h| && events[0].event == h[m] && StreamFits(h, m + 1, events[1..])
    ensures StreamEnd(m + 1, events[1..]) == StreamEnd(m, events)
  {
  }

  // ----- Lists -----

  lemma {:induction false} ShowSome(h: History, w: World, n: nat, items: seq<Pod>, i: nat)
    requires Increasing(h) && w.running && w.task == Seeding(n, items, 0) && i <= |items|
    ensures Leads(h, w, Repeated(Work, i), w.(log := w.log + InitialCalls(items)[..i], task := Seeding(n, items, i)))
  {
    if i == 0 {
      assert w.log + [] == w.log;
    } else {
      ShowSome(h, w, n, items, i - 1);
      var u := w.(log := w.log + InitialCalls(items)[..i - 1], task := Seeding(n, items, i - 1));
      Extend(h, w, Repeated(Work, i - 1), u, Work);
      assert InitialCalls(items)[..i] == InitialCalls(items)[..i - 1] + [OnAdd(items[i - 1], true)];
    }
  }

  lemma {:induction false} ListSome(h: History, w: World, n: nat, rv: string, items: seq<Pod>, i: nat)
    requires Increasing(h) && w.running && w.task == Listing(n, rv, items, 0) && i <= |items|
    ensures Leads(h, w, Repeated(Work, i), w.(log := w.log + InitialCalls(items)[..i],
            task := Listing(n, rv, items, i)))
  {
    if i == 0 {
      assert w.log + [] == w.log;
    } else {
      ListSome(h, w, n, rv, items, i - 1);
      var u := w.(log := w.log + InitialCalls(items)[..i - 1], task := Listing(n, rv, items, i - 1));
      Extend(h, w, Repeated(Work, i - 1), u, Work);
      assert InitialCalls(items)[..i] == InitialCalls(items)[..i - 1] + [OnAdd(items[i - 1], true)];
    }
  }

  /** Seeding the snapshot is a run of the protocol. */
  lemma SeedIsRun(h: History, w: World, items: seq<Pod>) returns (run: seq<Action>)
    requires Increasing(h) && w.running && w.task.Idle? && w.v.lastRV != "" && !w.v.synced
    requires w.now <= |h| && Enumerates(items, StateAt(h, w.now))
    ensures Leads(h, w, run, w.(v := w.v.(cache := CacheOf(items), synced := true), log := w.log + InitialCalls(items),
                                listed := w.now))
    ensures run == [Seed(items)] + (Repeated(Work, |items|) + [Work])
  {
    var n := w.now;
    var u := w.(task := Seeding(n, items, 0));
    var u' := u.(log := u.log + InitialCalls(items), task := Seeding(n, items, |items|));
    OneStep(h, w, Seed(items));
    ShowSome(h, u, n, items, |items|);
    assert InitialCalls(items)[..|items|] == InitialCalls(items);
    Extend(h, u, Repeated(Work, |items|), u', Work);
    run := [Seed(items)] + (Repeated(Work, |items|) + [Work]);
    Compose(h, w, [Seed(items)], u, Repeated(Work, |items|) + [Work], FinishSeed(u'));
  }

  lemma {:induction false} AllRepeated(a: Action, n: nat)
    ensures forall i :: 0 <= i < |Repeated(a, n)| ==> Repeated(a, n)[i] == a
  {
    if n > 0 { AllRepeated(a, n - 1); }
  }

  /** The initial list is a run of the protocol. */
  lemma ListIsRun(h: History, w: World, items: seq<Pod>, rv: string) returns (run: seq<Action>)
    requires Increasing(h) && w.running && w.task.Idle? && w.v.lastRV == "" && !w.v.synced
    requires w.now <= |h| && Enumerates(items, StateAt(h, w.now)) && ListVersion(h, w.now, rv)
    ensures Leads(h, w, run, w.(v := SetRV(w.v.(cache := CacheOf(items)), rv).(synced := true),
                                log := w.log + InitialCalls(items), lists := w.lists + {w.now}, listed := w.now))
  {
    var n := w.now;
    var u := w.(task := Listing(n, rv, items, 0));
    var u' := u.(log := u.log + InitialCalls(items), task := Listing(n, rv, items, |items|));
    OneStep(h, w, List(rv, items));
    ListSome(h, u, n, rv, items, |items|);
    assert InitialCalls(items)[..|items|] == InitialCalls(items);
    Extend(h, u, Repeated(Work, |items|), u', Work);
    run := [List(rv, items)] + (Repeated(Work, |items|) + [Work]);
    Compose(h, w, [List(rv, items)], u, Repeated(Work, |items|) + [Work], FinishList(u'));
  }

  // ----- Reconcile -----

  /** The world in which the keys before `i` have been merged. */
  function MergedSome(h: History, w: World, n: nat, rv: string, todo: seq<string>, i: nat): World
    requires n <= |h| && i <= |todo|
  {
    var listed := StateAt(h, n);
    w.(v := w.v.(cache := MergedBy(w.v.cache, listed, todo[..i])),
       log := w.log + MergeCalls(w.v.cache, listed, todo[..i]), task := Merging(n, rv, todo[i..]))
  }

  lemma {:induction false} MergeSome(h: History, w: World, n: nat, rv: string, todo: seq<string>, i: nat)
    requires Increasing(h) && w.running && n <= |h| && w.task == Merging(n, rv, todo) && i <= |todo|
    requires forall k :: 0 <= k < |todo| ==> todo[k] in StateAt(h, n)
    ensures Leads(h, w, Repeated(Work, i), MergedSome(h, w, n, rv, todo, i))
  {
    if i == 0 {
      assert w.log + [] == w.log && todo[0..] == todo;
    } else {
      MergeSome(h, w, n, rv, todo, i - 1);
      var u := MergedSome(h, w, n, rv, todo, i - 1);
      Extend(h, w, Repeated(Work, i - 1), u, Work);
      MergeOneMore(h, w, n, rv, todo, i - 1);
    }
  }

  lemma MergeOneMore(h: History, w: World, n: nat, rv: string, todo: seq<string>, i: nat)
    requires Increasing(h) && w.running && n <= |h| && i < |todo| && todo[i] in StateAt(h, n)
    ensures MergeNext(h, MergedSome(h, w, n, rv, todo, i)) == MergedSome(h, w, n, rv, todo, i + 1)
  {
    assert todo[..i + 1] == todo[..i] + [todo[i]] && todo[i..][1..] == todo[i + 1..];
    OneMoreKey(w.v.cache, StateAt(h, n), todo[..i], todo[i]);
  }

  /** The world in which the keys before `i` have been checked against the list. */
  function PrunedSome(h: History, w: World, n: nat, rv: string, todo: seq<string>, i: nat): World
    requires n <= |h| && i <= |todo|
  {
    var listed := StateAt(h, n);
    w.(v := w.v.(cache := Pruned(w.v.cache, listed, Keys(todo[..i]))),
       log := w.log + PruneCalls(w.v.cache, listed, todo[..i]), task := Pruning(n, rv, todo[i..]))
  }

  function Keys(s: seq<string>): set<string> {
    set x | x in s
  }

  lemma PruneNone(h: History, w: World, n: nat, rv: string, todo: seq<string>)
    requires Increasing(h) && n <= |h| && w.task == Pruning(n, rv, todo)
    ensures PrunedSome(h, w, n, rv, todo, 0) == w
  {
    assert w.log + [] == w.log && todo[0..] == todo && Keys(todo[..0]) == {};
    NothingPruned(w.v.cache, StateAt(h, n));
  }

  lemma {:induction false} PruneSome(h: History, w: World, n: nat, rv: string, todo: seq<string>, i: nat)
    requires Increasing(h) && w.running && n <= |h| && w.task == Pruning(n, rv, todo) && i <= |todo|
    requires EnumeratesKeys(todo, w.v.cache.Keys)
    ensures Leads(h, w, Repeated(Work, i), PrunedSome(h, w, n, rv, todo, i))
  {
    if i == 0 {
      PruneNone(h, w, n, rv, todo);
    } else {
      PruneSome(h, w, n, rv, todo, i - 1);
      var u := PrunedSome(h, w, n, rv, todo, i - 1);
      PruneOneMore(h, w, n, rv, todo, i - 1);
      Extend(h, w, Repeated(Work, i - 1), u, Work);
    }
  }

  lemma PruneOneMore(h: History, w: World, n: nat, rv: string, todo: seq<string>, i: nat)
    requires Increasing(h) && w.running && n <= |h| && i < |todo| && EnumeratesKeys(todo, w.v.cache.Keys)
    ensures var u := PrunedSome(h, w, n, rv, todo, i);
            && todo[i] in u.v.cache && u.v.cache[todo[i]] == w.v.cache[todo[i]]
            && PruneNext(h, u) == PrunedSome(h, w, n, rv, todo, i + 1)
  {
    var listed, key := StateAt(h, n), todo[i];
    assert todo[..i + 1] == todo[..i] + [key] && todo[i..][1..] == todo[i + 1..];
    assert Keys(todo[..i + 1]) == Keys(todo[..i]) + {key};
    assert key in todo && key !in Keys(todo[..i]);
    OneLessKey(w.v.cache, listed, Keys(todo[..i]), todo[..i], key);
    Associates(w.log, PruneCalls(w.v.cache, listed, todo[..i]), Vanished(w.v.cache, listed, key));
  }

  lemma AllKeys(todo: seq<string>, keys: set<string>)
    requires EnumeratesKeys(todo, keys)
    ensures Keys(todo) == keys
  {
  }

  /** The world once every listed key has been merged. */
  function AllMerged(w: World, listed: PodCache, n: nat, rv: string, order: Order): World {
    w.(v := w.v.(cache := MergedBy(w.v.cache, listed, order.merge)),
       log := w.log + MergeCalls(w.v.cache, listed, order.merge), task := Merging(n, rv, []))
  }

  lemma MergePhase(h: History, w: World, rv: string, order: Order) returns (run: seq<Action>)
    requires Increasing(h) && w.running && w.task.Idle? && w.v.lastRV == "" && w.v.synced
    requires w.now <= |h| && ListVersion(h, w.now, rv) && EnumeratesKeys(order.merge, StateAt(h, w.now).Keys)
    ensures Leads(h, w, run, AllMerged(w, StateAt(h, w.now), w.now, rv, order))
  {
    var todo := order.merge;
    var u := w.(task := Merging(w.now, rv, todo));
    OneStep(h, w, Action.Reconcile(rv, todo));
    assert forall k :: 0 <= k < |todo| ==> todo[k] in todo;
    MergeSome(h, u, w.now, rv, todo, |todo|);
    assert todo[..|todo|] == todo && todo[|todo|..] == [];
    run := [Action.Reconcile(rv, todo)] + Repeated(Work, |todo|);
    Compose(h, w, [Action.Reconcile(rv, todo)], u, Repeated(Work, |todo|), MergedSome(h, u, w.now, rv, todo, |todo|));
  }

  /** The world once every cached key has been checked against the list. */
  function AllPruned(w: World, listed: PodCache, n: nat, rv: string, todo: seq<string>): World {
    w.(v := SetRV(w.v.(cache := Pruned(w.v.cache, listed, w.v.cache.Keys)), rv),
       log := w.log + PruneCalls(w.v.cache, listed, todo), task := Idle, lists := w.lists + {n}, listed := n)
  }

  lemma PrunePhase(h: History, w: World, n: nat, rv: string, todo: seq<string>) returns (run: seq<Action>)
    requires Increasing(h) && w.running && n <= |h| && w.task == Merging(n, rv, [])
             && EnumeratesKeys(todo, w.v.cache.Keys)
    ensures Leads(h, w, run, AllPruned(w, StateAt(h, n), n, rv, todo))
  {
    var u := w.(task := Pruning(n, rv, todo));
    var u' := PrunedSome(h, u, n, rv, todo, |todo|);
    OneStep(h, w, Prune(todo));
    PruneSome(h, u, n, rv, todo, |todo|);
    assert todo[..|todo|] == todo && todo[|todo|..] == [];
    AllKeys(todo, w.v.cache.Keys);
    Extend(h, u, Repeated(Work, |todo|), u', Work);
    run := [Prune(todo)] + (Repeated(Work, |todo|) + [Work]);
    Compose(h, w, [Prune(todo)], u, Repeated(Work, |todo|) + [Work], FinishReconcile(u'));
  }

  /** What reconciling the listed pods makes of an idle world. */
  function ReconciledWorld(w: World, listed: PodCache, rv: string, order: Order): World {
    w.(v := SetRV(w.v.(cache := Reconciled(w.v.cache, listed)), rv),
        log := w.log + ReconcileCalls(w.v.cache, listed, order),
       lists := w.lists + {w.now}, listed := w.now)
  }

  lemma PhasesMeet(w: World, listed: PodCache, rv: string, order: Order)
    requires w.task.Idle? && Keyed(w.v.cache) && Keyed(listed) && Visits(w.v.cache, listed, order)
    ensures AllPruned(AllMerged(w, listed, w.now, rv, order), listed, w.now, rv, order.prune)
            == ReconciledWorld(w, listed, rv, order)
  {
    var merged := MergedBy(w.v.cache, listed, order.merge);
    ReconcileIsExact(w.v.cache, listed, order);
    Associates(w.log, MergeCalls(w.v.cache, listed, order.merge), PruneCalls(merged, listed, order.prune));
  }

  /** Reconcile, in any visiting order, is a run of the protocol. */
  lemma ReconcileIsRun(h: History, w: World, rv: string, order: Order) returns (run: seq<Action>)
    requires Increasing(h) && w.running && w.task.Idle? && w.v.lastRV == "" && w.v.synced && Keyed(w.v.cache)
    requires w.now <= |h| && ListVersion(h, w.now, rv) && Keyed(StateAt(h, w.now))
    requires Visits(w.v.cache, StateAt(h, w.now), order)
    ensures Leads(h, w, run, ReconciledWorld(w, StateAt(h, w.now), rv, order))
  {
    var listed := StateAt(h, w.now);
    var u := AllMerged(w, listed, w.now, rv, order);
    var merges := MergePhase(h, w, rv, order);
    var prunes := PrunePhase(h, u, w.now, rv, order.prune);
    run := merges + prunes;
    Compose(h, w, merges, u, prunes, AllPruned(u, listed, w.now, rv, order.prune));
    PhasesMeet(w, listed, rv, order);
  }

  // ----- Rounds -----

  /** A round whose list, if it takes one, is taken at event index `at`, and whose stream delivers the history. */
  ghost predicate RoundFits(h: History, now: nat, v: Volatile, round: Round, at: nat)
    requires Increasing(h)
  {
    && now <= at <= |h|
    && (round.list.Some? && !(v.lastRV != "" && v.synced) ==>
          && Enumerates(round.list.value.items, StateAt(h, at))
          && ListVersion(h, at, round.list.value.resourceVersion))
    && (Prepared(v, round.list).Some? && round.stream.Opened? ==>
          StreamFits(h, Reach(h, Prepared(v, round.list).value.lastRV), round.stream.events))
  }

  /** The world in which a round opens its watch. */
  function Readied(w: World, list: Option<PodList>, order: Order): World
    requires Prepared(w.v, list).Some?
  {
    var lists := if list.Some? && w.v.lastRV == "" then w.lists + {w.now} else w.lists;
    w.(v := Prepared(w.v, list).value, log := w.log + PreparedCalls(w.v, list, order), lists := lists,
       listed := if w.v.lastRV != "" && w.v.synced then w.listed else w.now)
  }

  /** Whatever a round does before its watch is a run of the protocol. */
  lemma PrepareIsRun(h: History, w: World, round: Round, order: Order) returns (run: seq<Action>)
    requires Increasing(h) && w.running && w.task.Idle? && w.now <= |h| && Keyed(w.v.cache)
    requires RoundFits(h, w.now, w.v, round, w.now) && VisitsIn(w.v, round, order) && Prepared(w.v, round.list).Some?
    ensures Leads(h, w, run, Readied(w, round.list, order))
  {
    if w.v.lastRV != "" && w.v.synced {
      run := [];
      assert w.log + [] == w.log;
    } else {
      var items, rv := round.list.value.items, round.list.value.resourceVersion;
      if w.v.lastRV != "" {
        run := SeedIsRun(h, w, items);
      } else if !w.v.synced {
        run := ListIsRun(h, w, items, rv);
      } else {
        CacheOfListing(items, StateAt(h, w.now));
        CacheOfIsKeyed(items);
        run := ReconcileIsRun(h, w, rv, order);
      }
    }
  }

  /** What the watch of a round makes of the world it opens in. */
  function Streamed(h: History, w: World, stream: Stream): World
    requires Increasing(h)
  {
    match stream
    case OpenFailed(gone) => if gone then w.(v := ClearRV(w.v)) else w
    case Opened(events) =>
      var drained := Drained(w.(task := Watching(Reach(h, w.v.lastRV))), events);
      drained.(v := if Failure(true) in events then ClearRV(drained.v) else drained.v, task := Idle)
  }

  /** The watch of a round, however it ends, is a run of the protocol. */
  lemma StreamIsRun(h: History, w: World, stream: Stream) returns (run: seq<Action>)
    requires Increasing(h) && w.running && w.task.Idle? && w.v.synced
    requires Numeric(w.v.lastRV) && IndexOf(h, w.v.lastRV) <= w.now <= |h|
    requires stream.Opened? ==> StreamFits(h, IndexOf(h, w.v.lastRV), stream.events)
    ensures Leads(h, w, run, Streamed(h, w, stream))
  {
    match stream
    case OpenFailed(gone) =>
      if gone {
        run := [Gone];
        OneStep(h, w, Gone);
      } else {
        run := [];
      }
    case Opened(events) =>
      var u := w.(task := Watching(IndexOf(h, w.v.lastRV)));
      OneStep(h, w, OpenWatch);
      var drain := DrainIsRun(h, u, events);
      Compose(h, w, [OpenWatch], u, drain, Drained(u, events));
      var last := if Failure(true) in events then Gone else CloseWatch;
      Extend(h, w, [OpenWatch] + drain, Drained(u, events), last);
      run := [OpenWatch] + drain + [last];
  }

  /** What a round makes of an idle world. */
  function RoundWorld(h: History, w: World, round: Round, at: nat, order: Order): World
    requires Increasing(h)
  {
    var u := w.(now := at);
    if Prepared(w.v, round.list).None? then u else Streamed(h, Readied(u, round.list, order), round.stream)
  }

  /** It has the state the method computes and the calls it makes. */
  lemma RoundWorldIsRounded(h: History, w: World, round: Round, at: nat, order: Order)
    requires Increasing(h) && w.task.Idle?
    ensures var w' := RoundWorld(h, w, round, at, order);
            && w'.v == Rounded(w.v, round) && w'.log == RoundLog(w.v, w.log, round, order)
            && w'.task.Idle? && w'.running == w.running
  {
  }

  /** One round of the run loop is a run of the protocol. */
  lemma RoundIsRun(h: History, w: World, round: Round, at: nat, order: Order) returns (run: seq<Action>)
    requires Increasing(h) && Inv(h, w) && w.running && w.task.Idle?
    requires RoundFits(h, w.now, w.v, round, at) && VisitsIn(w.v, round, order)
    ensures Leads(h, w, run, RoundWorld(h, w, round, at, order))
  {
    var u := w.(now := at);
    var moves := TimeMoves(h, w, at);
    if Prepared(w.v, round.list).None? {
      run := moves;
    } else {
      var prepare := ReadyIsSafe(h, u, round, order);
      var ready := Readied(u, round.list, order);
      var stream := StreamIsRun(h, ready, round.stream);
      Compose(h, u, prepare, ready, stream, Streamed(h, ready, round.stream));
      Compose(h, w, moves, u, prepare + stream, Streamed(h, ready, round.stream));
      run := moves + (prepare + stream);
    }
  }

  lemma ReadyIsSafe(h: History, w: World, round: Round, order: Order) returns (run: seq<Action>)
    requires Increasing(h) && Inv(h, w) && w.running && w.task.Idle?
    requires RoundFits(h, w.now, w.v, round, w.now) && VisitsIn(w.v, round, order) && Prepared(w.v, round.list).Some?
    ensures var ready := Readied(w, round.list, order);
            && Leads(h, w, run, ready) && Inv(h, ready) && ready.v.synced
            && Numeric(ready.v.lastRV) && IndexOf(h, ready.v.lastRV) <= ready.now <= |h|
            && (PastList(h, w) ==> PastList(h, ready))
  {
    CachedKeys(h, LocalOf(w));
    run := PrepareIsRun(h, w, round, order);
    RunKeeps(h, w, run);
  }

  // ----- The run loop -----

  /** What some rounds make of an idle world. */
  function RoundsWorld(h: History, w: World, rounds: seq<Round>, ats: seq<nat>, orders: seq<Order>): World
    requires Increasing(h) && |ats| == |rounds| && |orders| == |rounds|
  {
    if rounds == [] then w
    else
      var n := |rounds| - 1;
      RoundWorld(h, RoundsWorld(h, w, rounds[..n], ats[..n], orders[..n]), rounds[n], ats[n], orders[n])
  }

  /** Every round fits the history at the moment it begins. */
  ghost predicate RoundsFit(h: History, w: World, rounds: seq<Round>, ats: seq<nat>, orders: seq<Order>)
    requires Increasing(h) && |ats| == |rounds| && |orders| == |rounds|
  {
    if rounds == [] then true
    else
      var n := |rounds| - 1;
      var u := RoundsWorld(h, w, rounds[..n], ats[..n], orders[..n]);
      RoundsFit(h, w, rounds[..n], ats[..n], orders[..n]) && RoundFits(h, u.now, u.v, rounds[n], ats[n])
  }

  /** The run loop, for as many rounds as it runs, is a run of the protocol: the same state, the same handler calls. */
  lemma {:induction false} RunLoopIsRun(h: History, w: World, rounds: seq<Round>, ats: seq<nat>, orders: seq<Order>)
    returns (run: seq<Action>)
    requires Increasing(h) && Inv(h, w) && w.running && w.task.Idle? && |ats| == |rounds| && |orders| == |rounds|
    requires RoundsFit(h, w, rounds, ats, orders) && AllVisit(w.v, rounds, orders)
    ensures Leads(h, w, run, RoundsWorld(h, w, rounds, ats, orders))
    ensures var w' := RoundsWorld(h, w, rounds, ats, orders);
            && w'.v == RoundedAll(w.v, rounds) && w'.log == RoundedLog(w.v, w.log, rounds, orders)
            && w'.task.Idle? && w'.running && Inv(h, w')
  {
    if rounds == [] {
      run := [];
    } else {
      var n := |rounds| - 1;
      var u := RoundsWorld(h, w, rounds[..n], ats[..n], orders[..n]);
      var front := RunLoopIsRun(h, w, rounds[..n], ats[..n], orders[..n]);
      var last := RoundIsRun(h, u, rounds[n], ats[n], orders[n]);
      RoundWorldIsRounded(h, u, rounds[n], ats[n], orders[n]);
      RunKeeps(h, u, last);
      Compose(h, w, front, u, last, RoundWorld(h, u, rounds[n], ats[n], orders[n]));
      run := front + last;
    }
  }

  // ----- What the run loop computes -----

  /** A watcher without a position, or past its last list. */
  ghost predicate PastList(h: History, w: World)
    requires Increasing(h)
  {
    w.v.lastRV != "" ==> w.v.synced && Numeric(w.v.lastRV) && w.listed <= IndexOf(h, w.v.lastRV)
  }

  lemma DrainStaysPast(h: History, w: World, events: seq<WatchEvent>)
    requires Increasing(h) && w.running && w.task.Watching? && w.listed <= w.task.next
    requires Inv(h, Drained(w, events))
    ensures PastList(h, Drained(w, events))
  {
  }

  lemma {:induction false} StreamStaysPast(h: History, w: World, stream: Stream)
    requires Increasing(h) && Inv(h, w) && w.running && w.task.Idle? && w.v.synced && PastList(h, w)
    requires Numeric(w.v.lastRV) && IndexOf(h, w.v.lastRV) <= w.now <= |h|
    requires stream.Opened? ==> StreamFits(h, IndexOf(h, w.v.lastRV), stream.events)
    ensures PastList(h, Streamed(h, w, stream))
  {
    if stream.Opened? {
      OpenedStaysPast(h, w, w.(task := Watching(IndexOf(h, w.v.lastRV))), stream.events);
    }
  }

  lemma {:induction false} OpenedStaysPast(h: History, w: World, u: World, events: seq<WatchEvent>)
    requires Increasing(h) && Inv(h, w) && w.running && w.task.Idle? && w.v.synced && PastList(h, w)
    requires Numeric(w.v.lastRV) && IndexOf(h, w.v.lastRV) <= w.now <= |h|
    requires u == w.(task := Watching(IndexOf(h, w.v.lastRV))) && StreamFits(h, u.task.next, events)
    ensures PastList(h, Drained(u, events))
  {
    OneStep(h, w, OpenWatch);
    StepKeeps(h, w, OpenWatch);
    var drain := DrainIsRun(h, u, events);
    RunKeeps(h, u, drain);
    DrainStaysPast(h, u, events);
  }

  lemma {:induction false} RoundStaysPast(h: History, w: World, round: Round, at: nat, order: Order)
    requires Increasing(h) && Inv(h, w) && w.running && w.task.Idle? && PastList(h, w)
    requires RoundFits(h, w.now, w.v, round, at) && VisitsIn(w.v, round, order)
    ensures PastList(h, RoundWorld(h, w, round, at, order))
  {
    if Prepared(w.v, round.list).Some? {
      var u := w.(now := at);
      var _ := TimeMoves(h, w, at);
      var _ := ReadyIsSafe(h, u, round, order);
      StreamStaysPast(h, Readied(u, round.list, order), round.stream);
    }
  }

  lemma {:induction false} RunLoopStaysPast(h: History, w: World, rounds: seq<Round>, ats: seq<nat>, orders: seq<Order>)
    requires Increasing(h) && Inv(h, w) && w.running && w.task.Idle? && |ats| == |rounds| && |orders| == |rounds|
    requires RoundsFit(h, w, rounds, ats, orders) && AllVisit(w.v, rounds, orders) && PastList(h, w)
    ensures PastList(h, RoundsWorld(h, w, rounds, ats, orders))
  {
    if rounds != [] {
      var n := |rounds| - 1;
      var _ := RunLoopIsRun(h, w, rounds[..n], ats[..n], orders[..n]);
      RunLoopStaysPast(h, w, rounds[..n], ats[..n], orders[..n]);
      RoundStaysPast(h, RoundsWorld(h, w, rounds[..n], ats[..n], orders[..n]), rounds[n], ats[n], orders[n]);
    }
  }

  /** A process that starts without a checkpoint. */
  function ColdStart(): World {
    INITIAL.(running := true)
  }

  /** What the run loop computes from a cold start, over any number of rounds of lists, watches, disconnects, errors and
      gone versions: whenever it has a position, its cache is the cluster state there, and its handler calls account for
      every event up to there. */
  lemma RunTracksCluster(h: History, rounds: seq<Round>, ats: seq<nat>, orders: seq<Order>)
    requires Increasing(h) && |ats| == |rounds| && |orders| == |rounds|
    requires RoundsFit(h, ColdStart(), rounds, ats, orders) && AllVisit(FRESH, rounds, orders)
    ensures var (v, log) := (RoundedAll(FRESH, rounds), RoundedLog(FRESH, [], rounds, orders));
            v.lastRV != "" ==>
              && Numeric(v.lastRV) && IndexOf(h, v.lastRV) <= |h| && v.cache == StateAt(h, IndexOf(h, v.lastRV))
              && exists base: nat :: base <= IndexOf(h, v.lastRV) && Shown(h, log, base)
                                     && forall i :: base <= i < IndexOf(h, v.lastRV) ==> Delivered(h, log, i)
  {
    var w := ColdStart();
    OneStep(h, INITIAL, Start(Plain(true)));
    var run := RunLoopIsRun(h, w, rounds, ats, orders);
    RunLoopStaysPast(h, w, rounds, ats, orders);
    Compose(h, INITIAL, [Start(Plain(true))], w, run, RoundsWorld(h, w, rounds, ats, orders));
    var w' := RoundsWorld(h, w, rounds, ats, orders);
    if w'.v.lastRV != "" {
      CaughtUpIsClusterState(h, w');
      NoEventLost(h, [Start(Plain(true))] + run, w'.v.lastRV);
    }
  }

  /** Some enumeration of a cache. */
  lemma SomeListing(m: PodCache) returns (items: seq<Pod>)
    requires Keyed(m)
    ensures Enumerates(items, m)
  {
    items := [];
    var rest := m.Keys;
    while rest != {}
      invariant rest <= m.Keys
      invariant forall pod :: pod in items ==> Lookup(m, MetaKey(pod)) == Some(pod)
      invariant forall x :: x in m && x !in rest ==> m[x] in items
      decreases rest
    {
      var x :| x in rest;
      rest := rest - {x};
      items := items + [m[x]];
    }
    forall x | x in m
      ensures exists i :: 0 <= i < |items| && items[i] == m[x] && MetaKey(items[i]) == x
    {
      var i :| 0 <= i < |items| && items[i] == m[x];
    }
  }

  /** A watch can handle the next event there has been. */
  lemma NextCaughtUp(h: History, w: World) returns (u: World)
    requires Increasing(h) && w.running && w.task.Watching? && w.task.next < w.now <= |h|
    requires AtPosition(h, w.v.lastRV, w.task.next)
    ensures Leads(h, w, [Work, Work, Work], u) && u == w.(v := u.v, log := u.log, task := Watching(w.task.next + 1))
    ensures u.v.synced == w.v.synced && AtPosition(h, u.v.lastRV, w.task.next + 1)
  {
    var e := h[w.task.next];
    u := w.(v := Handle(w.v, e), log := w.log + Calls(w.v.cache, e), task := Watching(w.task.next + 1));
    EventIsThreeSteps(h, w);
    IndexOfEvent(h, w.task.next);
  }

  /** And so every event. */
  lemma {:induction false} WatchCatchesUp(h: History, w: World) returns (run: seq<Action>, w': World)
    requires Increasing(h) && w.running && w.task.Watching? && w.task.next <= w.now <= |h|
    requires AtPosition(h, w.v.lastRV, w.task.next)
    ensures Leads(h, w, run, w') && Quiet(run)
    ensures w'.running && w'.task == Watching(w.now) && w'.now == w.now && w'.listed == w.listed
    ensures w'.v.synced == w.v.synced && AtPosition(h, w'.v.lastRV, w.now)
    decreases w.now - w.task.next
  {
    if w.task.next == w.now {
      run, w' := [], w;
    } else {
      var u := NextCaughtUp(h, w);
      run, w' := WatchCatchesUp(h, u);
      Compose(h, w, [Work, Work, Work], u, run, w');
      QuietTogether([Work, Work, Work], run);
      run := [Work, Work, Work] + run;
    }
  }

  /** A process that has just started at a position can seed the snapshot and open its watch. */
  lemma SeedAndOpen(h: History, u: World) returns (run: seq<Action>, x: World)
    requires Increasing(h) && u.running && u.task.Idle? && u.now <= |h| && !u.v.synced
    requires Numeric(u.v.lastRV) && IndexOf(h, u.v.lastRV) <= u.now
    ensures Leads(h, u, run, x) && Quiet(run)
    ensures x == u.(v := u.v.(cache := x.v.cache, synced := true), log := x.log, listed := u.now,
                    task := Watching(IndexOf(h, u.v.lastRV)))
  {
    StateIsKeyed(h, u.now);
    var items := SomeListing(StateAt(h, u.now));
    var seed := SeedIsRun(h, u, items);
    var s := u.(v := u.v.(cache := CacheOf(items), synced := true), log := u.log + InitialCalls(items),
                listed := u.now);
    x := s.(task := Watching(IndexOf(h, u.v.lastRV)));
    Extend(h, u, seed, s, OpenWatch);
    SeedIsQuiet(items);
    QuietTogether(seed, [OpenWatch]);
    run := seed + [OpenWatch];
  }

  lemma SeedIsQuiet(items: seq<Pod>)
    ensures Quiet([Seed(items)] + (Repeated(Work, |items|) + [Work]))
  {
    AllRepeated(Work, |items|);
  }

  lemma QuietTogether(run: seq<Action>, rest: seq<Action>)
    requires Quiet(run) && Quiet(rest)
    ensures Quiet(run + rest)
  {
  }

  /** The start finds the checkpoint. */
  lemma StartResumes(h: History, w: World, load: Load, rv: string)
    requires Increasing(h) && Inv(h, w) && !w.running && w.persisted == Some(rv)
    requires load == Plain(true) || load == Guarded(ResumeStore.Status(200, Some(rv)))
    ensures Enabled(h, w, Start(load)) && Numeric(rv) && IndexOf(h, rv) <= w.now <= |h|
    ensures var u := Step(h, w, Start(load));
            u == w.(running := true, guard := u.guard, v := FRESH.(lastRV := rv)) && u.task.Idle?
  {
    assert SafePosition(h, w, rv);
  }

  /** From every checkpoint a restart can catch up, by seeding and watching alone: with a store that answers, some run
      without a relist ends with the position at the last event and the cache at the cluster state. */
  lemma ResumeCatchesUp(h: History, w: World, load: Load, rv: string) returns (run: seq<Action>)
    requires Increasing(h) && Inv(h, w) && !w.running && w.persisted == Some(rv)
    requires load == Plain(true) || load == Guarded(ResumeStore.Status(200, Some(rv)))
    ensures Runs(h, w, run) && Quiet(run) && run != [] && run[0] == Start(load)
    ensures var w' := After(h, w, run);
            && w'.running && w'.v.synced && AtPosition(h, w'.v.lastRV, w.now) && w'.v.cache == StateAt(h, w.now)
  {
    StartResumes(h, w, load, rv);
    var u := Step(h, w, Start(load));
    OneStep(h, w, Start(load));
    var open, x := SeedAndOpen(h, u);
    var catch, w' := WatchCatchesUp(h, x);
    Compose(h, w, [Start(load)], u, open, x);
    Compose(h, w, [Start(load)] + open, x, catch, w');
    QuietTogether([Start(load)], open);
    QuietTogether([Start(load)] + open, catch);
    run := [Start(load)] + open + catch;
    CaughtUpAfter(h, w, run, w');
  }

  lemma CaughtUpAfter(h: History, w: World, run: seq<Action>, w': World)
    requires Increasing(h) && Inv(h, w) && Leads(h, w, run, w')
    requires w'.running && w'.v.synced && w'.task.Watching? && w'.listed <= w'.now && AtPosition(h, w'.v.lastRV, w'.now)
    ensures w'.v.cache == StateAt(h, w'.now)
  {
    RunKeeps(h, w, run);
    CaughtUpIsClusterState(h, w');
  }

  lemma {:induction false} StateIsKeyed(h: History, n: nat)
    requires n <= |h|
    ensures Keyed(StateAt(h, n))
  {
    if n > 0 { StateIsKeyed(h, n - 1); }
  }

  /** After a gone version nothing is left to save, and the next list that succeeds is reconciled and gives the
      position. */
  lemma GoneIsRelisted(v: Volatile, round: Round, list: PodList)
    requires v.synced && Prepared(v, round.list).Some?
    requires round.stream == OpenFailed(true) || (round.stream.Opened? && Failure(true) in round.stream.events)
    requires list.resourceVersion != ""
    ensures var v' := Rounded(v, round);
            && !v'.dirty && v'.lastRV == ""
            && Prepared(v', Some(list)) == Some(Relisted(v', false, list).(synced := true))
            && Prepared(v', Some(list)).value.lastRV == list.resourceVersion && Prepared(v', Some(list)).value.dirty
            && Prepared(v', None) == None
  {
    if round.stream.Opened? { WatchKeepsSynced(Prepared(v, round.list).value, round.stream.events); }
  }

  lemma {:induction false} WatchKeepsSynced(v: Volatile, events: seq<WatchEvent>)
    ensures Watched(v, events).synced == v.synced
    decreases |events|
  {
    if events != [] && events[0] != Failure(true) { WatchKeepsSynced(Observed(v, events[0]), events[1..]); }
  }

  /** From any cache a run can reach, the reconcile method ends with exactly the listed pods. */
  lemma ReconciledIsListed(h: History, cache: PodCache, log: seq<Call>, n: nat)
    requires Increasing(h) && n <= |h| && Historic(h, cache, log, n)
    ensures Reconciled(cache, StateAt(h, n)) == StateAt(h, n)
  {
    forall x | x in StateAt(h, n) && UpToDate(cache, StateAt(h, n)[x]) && x in cache
      ensures cache[x] == StateAt(h, n)[x]
    {
      UpToDateIsListed(h, cache, log, n, x);
    }
  }

  /** After a gone version, relisting brings the watcher's own state in step with the cluster. */
  lemma RelistRecovers(h: History, w: World, items: seq<Pod>, rv: string)
    requires Increasing(h) && Inv(h, w) && w.running && w.now <= |h|
    requires Enumerates(items, StateAt(h, w.now)) && ListVersion(h, w.now, rv)
    ensures var v := Relisted(w.v, false, PodList(items, rv));
            v.cache == StateAt(h, w.now) && v.lastRV == rv && IndexOf(h, v.lastRV) == w.now
  {
    CacheOfListing(items, StateAt(h, w.now));
    ReconciledIsListed(h, w.v.cache, w.log, w.now);
  }
}
