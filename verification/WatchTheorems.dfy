/** The guarantees of the watch protocol, over every run. */
module WatchTheorems {
  import opened Prelude
  import opened ResourceVersion
  import opened WatchState
  import opened Cluster
  import opened WatchProtocol
  import opened WatchSafety
  import ResumeStore

  lemma StepGrows(h: History, w: World, a: Action)
    requires Increasing(h) && Enabled(h, w, a)
    ensures Grows(w, Step(h, w, a))
  {
  }

  lemma ShownGrows(h: History, log: seq<Call>, log': seq<Call>, n: nat)
    requires n <= |h| && Shown(h, log, n) && forall c :: c in log ==> c in log'
    ensures Shown(h, log', n)
  {
  }

  lemma {:induction false} ListsShownKeeps(h: History, w: World, a: Action)
    requires Increasing(h) && Inv(h, w) && Enabled(h, w, a) && ListsShown(h, w)
    ensures ListsShown(h, Step(h, w, a))
  {
    var w' := Step(h, w, a);
    StepGrows(h, w, a);
    if a.Work? && w.task.Listing? && w.task.done == |w.task.items| {
      ListedIsHistoric(h, w.log, w.task.items, w.task.n);
    } else if a.Work? && w.task.Pruning? && w.task.todo == [] {
      PrunedIsListed(h, w.v.cache, w.log, w.task.n);
    }
    forall n | n in w.lists
      ensures Shown(h, w'.log, n)
    {
      ShownGrows(h, w.log, w'.log, n);
    }
  }

  /** Both invariants hold in every state a first deployment can reach. */
  lemma {:induction false} RunInvariant(h: History, w: World, run: seq<Action>)
    requires Increasing(h) && Inv(h, w) && ListsShown(h, w) && Runs(h, w, run)
    ensures Inv(h, After(h, w, run)) && ListsShown(h, After(h, w, run))
    decreases |run|
  {
    if run != [] {
      StepKeeps(h, w, run[0]);
      ListsShownKeeps(h, w, run[0]);
      RunInvariant(h, Step(h, w, run[0]), run[1..]);
    }
  }

  /** The versions a state holds on to: checkpointed, current, being saved, or sent once and perhaps still to land. */
  ghost predicate Holds(w: World, rv: string) {
    || w.persisted == Some(rv) || w.periodic == Some(rv) || w.final == Some(rv)
    || (rv != "" && w.v.lastRV == rv) || rv in w.abandoned
  }

  /** No crash point loses an event: whatever the interleaving of watch steps, savers, restarts and crashes, every
      version in hand has all events up to it subsumed by a completed relist or delivered since. */
  lemma NoEventLost(h: History, run: seq<Action>, rv: string)
    requires Increasing(h) && Runs(h, INITIAL, run) && Holds(After(h, INITIAL, run), rv)
    ensures var w := After(h, INITIAL, run);
            && Numeric(rv) && IndexOf(h, rv) <= w.now <= |h|
            && exists base: nat :: base <= |h| && Shown(h, w.log, base) && AccountedFrom(h, w, base, IndexOf(h, rv))
  {
    RunInvariant(h, INITIAL, run);
    var w := After(h, INITIAL, run);
    assert SafePosition(h, w, rv);
    var base: nat :| AccountedFrom(h, w, base, IndexOf(h, rv));
    assert Shown(h, w.log, base);
  }

  /** A watcher between events whose position has caught up with the list behind its cache. */
  ghost predicate CaughtUp(h: History, w: World)
    requires Increasing(h)
  {
    w.running && w.v.synced && Numeric(w.v.lastRV) && (w.task.Idle? || w.task.Watching?)
        && w.listed <= IndexOf(h, w.v.lastRV)
  }

  lemma CaughtUpIsInStep(h: History, w: World)
    requires Increasing(h) && LocalInv(h, LocalOf(w)) && CaughtUp(h, w)
    ensures IndexOf(h, w.v.lastRV) <= |h| && InStep(h, w.v.cache, w.listed, IndexOf(h, w.v.lastRV))
  {
  }

  lemma InStepIsState(h: History, cache: PodCache, listed: nat, m: nat)
    requires listed <= m <= |h| && InStep(h, cache, listed, m)
    ensures cache == StateAt(h, m)
  {
    forall x
      ensures Lookup(cache, x) == Lookup(StateAt(h, m), x)
    {
    }
    MapsAgree(cache, StateAt(h, m));
  }

  lemma CaughtUpIsClusterState(h: History, w: World)
    requires Increasing(h) && Inv(h, w) && CaughtUp(h, w)
    ensures IndexOf(h, w.v.lastRV) <= |h| && w.v.cache == StateAt(h, IndexOf(h, w.v.lastRV))
  {
    CaughtUpIsInStep(h, w);
    InStepIsState(h, w.v.cache, w.listed, IndexOf(h, w.v.lastRV));
  }

  /** Once the replay has caught up with the list behind it, the cache is the cluster state at the position. */
  lemma CacheIsClusterState(h: History, run: seq<Action>)
    requires Increasing(h) && Runs(h, INITIAL, run) && CaughtUp(h, After(h, INITIAL, run))
    ensures var w := After(h, INITIAL, run);
            IndexOf(h, w.v.lastRV) <= |h| && w.v.cache == StateAt(h, IndexOf(h, w.v.lastRV))
  {
    RunInvariant(h, INITIAL, run);
    CaughtUpIsClusterState(h, After(h, INITIAL, run));
  }

  // ----- Resuming from a checkpoint -----

  ghost predicate Quiet(run: seq<Action>) {
    forall i :: 0 <= i < |run| ==> !run[i].List? && !run[i].Reconcile?
  }

  predicate Relisting(task: Task) {
    task.Listing? || task.Merging? || task.Pruning?
  }

  /** The history variables do not influence a run. */
  lemma {:induction false} Rebase(h: History, w: World, u: World, past: seq<Call>, run: seq<Action>)
    requires Increasing(h) && Runs(h, w, run) && Quiet(run) && !Relisting(w.task)
    requires u == w.(log := u.log, lists := u.lists) && w.log == past + u.log
    ensures Runs(h, u, run)
    ensures var w', u' := After(h, w, run), After(h, u, run);
            u' == w'.(log := u'.log, lists := u.lists) && w'.log == past + u'.log
    decreases |run|
  {
    if run != [] {
      RebaseStep(h, w, u, past, run[0]);
      Rebase(h, Step(h, w, run[0]), Step(h, u, run[0]), past, run[1..]);
    }
  }

  lemma RebaseStep(h: History, w: World, u: World, past: seq<Call>, a: Action)
    requires Increasing(h) && Enabled(h, w, a) && !a.List? && !a.Reconcile? && !Relisting(w.task)
    requires u == w.(log := u.log, lists := u.lists) && w.log == past + u.log
    ensures Enabled(h, u, a)
    ensures var w', u' := Step(h, w, a), Step(h, u, a);
            u' == w'.(log := u'.log, lists := u.lists) && w'.log == past + u'.log && !Relisting(w'.task)
  {
    if a.Work? { RebaseWork(h, w, u, past); }
  }

  lemma RebaseWork(h: History, w: World, u: World, past: seq<Call>)
    requires Increasing(h) && Enabled(h, w, Work) && !Relisting(w.task)
    requires u == w.(log := u.log, lists := u.lists) && w.log == past + u.log
    ensures Enabled(h, u, Work)
    ensures var w', u' := WorkStep(h, w), WorkStep(h, u);
            u' == w'.(log := u'.log, lists := u.lists) && w'.log == past + u'.log && !Relisting(w'.task)
  {
  }

  /** Delivered by calls made since `past`. */
  ghost predicate DeliveredSince(h: History, past: seq<Call>, log: seq<Call>, i: nat)
    requires i < |h|
  {
    |past| <= |log| && log[..|past|] == past && Delivered(h, log[|past|..], i)
  }

  function UpTo(k: nat): (s: set<nat>)
    ensures forall n: nat :: n in s <==> n <= k
  {
    if k == 0 then {0} else UpTo(k - 1) + {k}
  }

  /** The number of events a version covers, 0 for a version that is no number. */
  function Reach(h: History, rv: string): nat
    requires Increasing(h)
  {
    if Numeric(rv) then IndexOf(h, rv) else 0
  }

  lemma {:induction false} ResumeFrom(h: History, w: World, run: seq<Action>, rv: string, k: nat)
    requires Increasing(h) && Inv(h, w) && !w.running && w.persisted.Some?
    requires Reach(h, w.persisted.value) <= k <= w.now && forall a :: a in w.abandoned ==> Reach(h, a) <= k
    requires Runs(h, w, run) && Quiet(run) && Holds(After(h, w, run), rv)
    ensures Numeric(rv) && IndexOf(h, rv) <= |h|
    ensures forall i :: k <= i < IndexOf(h, rv) ==> DeliveredSince(h, w.log, After(h, w, run).log, i)
  {
    var u := w.(log := [], lists := UpTo(k));
    AccountedUpTo(h, u, k);
    Rebase(h, w, u, w.log, run);
    RunKeeps(h, u, run);
    var u' := After(h, u, run);
    assert SafePosition(h, u', rv);
    assert After(h, w, run).log[|w.log|..] == u'.log;
    assert After(h, w, run).log[..|w.log|] == w.log;
  }

  /** Taking every index up to `k` for accounted makes every version up to there safe. */
  lemma AccountedUpTo(h: History, u: World, k: nat)
    requires Increasing(h) && k <= u.now <= |h| && u.lists == UpTo(k)
    ensures forall rv :: Numeric(rv) && IndexOf(h, rv) <= k ==> SafePosition(h, u, rv)
  {
    forall rv | Numeric(rv) && IndexOf(h, rv) <= k
      ensures SafePosition(h, u, rv)
    {
      assert AccountedFrom(h, u, IndexOf(h, rv), IndexOf(h, rv));
    }
  }

  /** Restarting from a checkpoint delivers every later event again, deletions as deletions, by calls made since the
      restart, through any further crashes, as long as no relist is started. Where an earlier save may still land, later
      means later than that one too: `k` is any index no earlier than the checkpoint and all of those. */
  lemma ResumeDeliversAll(h: History, before: seq<Action>, run: seq<Action>, rv: string, k: nat)
    requires Increasing(h) && Runs(h, INITIAL, before)
    requires var w := After(h, INITIAL, before);
             && !w.running && w.persisted.Some? && Runs(h, w, run) && Quiet(run) && Holds(After(h, w, run), rv)
             && Reach(h, w.persisted.value) <= k <= w.now && forall a :: a in w.abandoned ==> Reach(h, a) <= k
    ensures var w := After(h, INITIAL, before);
            && Numeric(w.persisted.value) && Numeric(rv) && IndexOf(h, rv) <= |h|
            && forall i :: k <= i < IndexOf(h, rv) ==> DeliveredSince(h, w.log, After(h, w, run).log, i)
  {
    RunInvariant(h, INITIAL, before);
    ResumeFrom(h, After(h, INITIAL, before), run, rv, k);
  }

  // ----- Checkpoint flushing -----

  /** The checkpoint store takes what this process saves. */
  predicate MayWrite(w: World) {
    Sends(w, w.v.lastRV)
  }

  ghost predicate Flushed(w: World) {
    w.running && MayWrite(w) && !w.v.dirty && w.v.lastRV != "" && w.periodic.None? && w.final.None?
    ==> w.persisted == Some(w.v.lastRV)
  }

  /** A clean position whose save is still in flight is the version being saved. */
  ghost predicate FlushInv(w: World) {
    && Flushed(w)
    && (w.periodic.None? || w.final.None?)
    && (w.running && !w.v.dirty && w.v.lastRV != "" && w.periodic.Some? ==> w.periodic.value == w.v.lastRV)
    && (w.running && !w.v.dirty && w.v.lastRV != "" && w.final.Some? ==> w.final.value == w.v.lastRV)
    && w.persisted != Some("") && w.periodic != Some("") && w.final != Some("")
    && (!w.running ==> w.periodic.None? && w.final.None?)
  }

  /** One saver at a time, and no abandoned save lands late. */
  predicate Undisturbed(w: World, a: Action) {
    !a.Land? && (a.BeginSave? ==> w.periodic.None? && w.final.None?)
  }

  ghost predicate OneSaver(h: History, w: World, run: seq<Action>)
    requires Increasing(h) && Runs(h, w, run)
    decreases |run|
  {
    run != [] ==> Undisturbed(w, run[0]) && OneSaver(h, Step(h, w, run[0]), run[1..])
  }

  lemma FlushKeeps(h: History, w: World, a: Action)
    requires Increasing(h) && FlushInv(w) && Enabled(h, w, a)
    requires Undisturbed(w, a)
    ensures FlushInv(Step(h, w, a))
  {
    if a.Work? { FlushKeepsWork(h, w); }
  }

  lemma FlushKeepsWork(h: History, w: World)
    requires Increasing(h) && FlushInv(w) && Enabled(h, w, Work)
    ensures FlushInv(WorkStep(h, w))
  {
    var w' := WorkStep(h, w);
    assert w' == w.(v := w'.v, task := w'.task, log := w'.log, lists := w'.lists, listed := w'.listed);
    assert w'.v.dirty || (w'.v.lastRV == w.v.lastRV && w'.v.dirty == w.v.dirty);
  }

  /** With one saver at a time and no save landing after it was given up, a clean position with no save in flight is the
      checkpointed one; a failed save stays pending, and the empty version is never written. */
  lemma {:induction false} CheckpointIsFlushed(h: History, w: World, run: seq<Action>)
    requires Increasing(h) && FlushInv(w) && Runs(h, w, run) && OneSaver(h, w, run)
    ensures FlushInv(After(h, w, run))
    decreases |run|
  {
    if run != [] {
      FlushKeeps(h, w, run[0]);
      CheckpointIsFlushed(h, Step(h, w, run[0]), run[1..]);
    }
  }

  /** The version carried by the last save of a run that was written. */
  function Landed(h: History, w: World, run: seq<Action>): Option<string>
    requires Increasing(h) && Runs(h, w, run)
    decreases |run|
  {
    if run == [] then None
    else
      var later := Landed(h, Step(h, w, run[0]), run[1..]);
      if later.Some? then later
      else if run[0].EndSave? && run[0].written then InFlight(w, run[0].saver)
      else None
  }

  predicate Finishes(a: Action) {
    !a.BeginSave? && !a.Start? && !a.Crash? && !a.Land?
  }

  /** The savers finish what they began; the process stays up. */
  predicate Finishing(run: seq<Action>) {
    forall i :: 0 <= i < |run| ==> Finishes(run[i])
  }

  lemma {:induction false} LastLandingWins(h: History, w: World, run: seq<Action>)
    requires Increasing(h) && Runs(h, w, run) && Finishing(run)
    ensures After(h, w, run).persisted == if Landed(h, w, run).Some? then Landed(h, w, run) else w.persisted
    decreases |run|
  {
    if run != [] {
      PersistedAfter(h, w, run[0]);
      LastLandingWins(h, Step(h, w, run[0]), run[1..]);
    }
  }

  lemma PersistedAfter(h: History, w: World, a: Action)
    requires Increasing(h) && Enabled(h, w, a) && !a.Land?
    ensures Step(h, w, a).persisted == if a.EndSave? && a.written then InFlight(w, a.saver) else w.persisted
  {
    if a.Work? { FlushKeepsTheStore(h, w); }
  }

  lemma FlushKeepsTheStore(h: History, w: World)
    requires Increasing(h) && Enabled(h, w, Work)
    ensures WorkStep(h, w).persisted == w.persisted
  {
  }

  /** The saver whose save ended last. */
  function LastEnded(run: seq<Action>): Option<Saver> {
    if run == [] then None
    else
      var later := LastEnded(run[1..]);
      if later.Some? then later else if run[0].EndSave? then Some(run[0].saver) else None
  }

  function Other(s: Saver): Saver { if s.Periodic? then Final else Periodic }

  /** The position has moved, or a save of it has failed; without a new save it stays so. */
  predicate Pending(w: World) {
    w.v.dirty || w.v.lastRV == ""
  }

  /** No guard stands between the savers and the checkpoint store. */
  predicate Unguarded(w: World) {
    w.guard.None? || w.guard.value.baseline
  }

  lemma UnguardedSends(w: World, rv: string)
    ensures Sends(w, rv) <==> Unguarded(w)
  {
    if w.guard.Some? && !w.guard.value.baseline { assert |w.guard.value.puts + [rv]| == |w.guard.value.puts| + 1; }
  }

  lemma WorkKeepsSaves(h: History, w: World)
    requires Increasing(h) && Enabled(h, w, Work)
    ensures var w' := WorkStep(h, w);
            && w'.guard == w.guard && w'.periodic == w.periodic && w'.final == w.final
            && (w'.v.dirty || (w'.v.lastRV == w.v.lastRV && w'.v.dirty == w.v.dirty))
  {
  }

  /** While the savers only finish, saves in flight stay what they are, and what is pending stays pending. */
  lemma FinishingStep(h: History, w: World, a: Action)
    requires Increasing(h) && Enabled(h, w, a) && Finishes(a)
    ensures var w' := Step(h, w, a);
            && (Unguarded(w') <==> Unguarded(w))
            && (forall s :: InFlight(w', s) == if a.EndSave? && a.saver == s then None else InFlight(w, s))
            && (!Pending(w') ==>
                  !Pending(w) && w'.v.lastRV == w.v.lastRV && (a.EndSave? && Unguarded(w) ==> Confirms(a.reply)))
  {
    if a.Work? { WorkKeepsSaves(h, w); }
  }

  /** An acknowledged save through an open guard was written. */
  lemma AcknowledgedIsWritten(h: History, w: World, a: Action)
    requires Increasing(h) && Enabled(h, w, a) && a.EndSave? && Confirms(a.reply) && Unguarded(w)
    ensures a.written
  {
    UnguardedSends(w, InFlight(w, a.saver).value);
  }

  /** Without a new save each saver ends at most once. */
  lemma {:induction false} EndedWasInFlight(h: History, w: World, run: seq<Action>)
    requires Increasing(h) && Runs(h, w, run) && Finishing(run)
    ensures match LastEnded(run)
            case None => InFlight(After(h, w, run), Periodic) == InFlight(w, Periodic)
                         && InFlight(After(h, w, run), Final) == InFlight(w, Final)
            case Some(s) => InFlight(w, s).Some?
    decreases |run|
  {
    if run != [] {
      FinishingStep(h, w, run[0]);
      EndedWasInFlight(h, Step(h, w, run[0]), run[1..]);
    }
  }

  /** If the position is not pending at the end, it never moved, every save that ended was acknowledged, and the last
      one to end is what is checkpointed. */
  lemma {:induction false} LastEndedIsCheckpointed(h: History, w: World, run: seq<Action>)
    requires Increasing(h) && Runs(h, w, run) && Finishing(run) && Unguarded(w) && !Pending(After(h, w, run))
    ensures var w' := After(h, w, run);
            && !Pending(w) && w'.v.lastRV == w.v.lastRV
            && (forall i :: 0 <= i < |run| && run[i].EndSave? ==> Confirms(run[i].reply))
            && w'.persisted == match LastEnded(run) case None => w.persisted case Some(s) => InFlight(w, s)
    decreases |run|
  {
    if run != [] {
      var u := Step(h, w, run[0]);
      FinishingStep(h, w, run[0]);
      PersistedAfter(h, w, run[0]);
      LastEndedIsCheckpointed(h, u, run[1..]);
      EndedWasInFlight(h, u, run[1..]);
      if run[0].EndSave? { AcknowledgedIsWritten(h, w, run[0]); }
    }
  }

  /** Two saves race once the second has begun. When both have ended, in whatever order and with whatever outcome, no
      other has begun, and the position is clean, then it never moved and both were acknowledged; and the checkpoint is
      behind exactly when the older save ended last, carrying another version. */
  lemma StopRace(h: History, u: World, newer: Saver, run: seq<Action>)
    requires Increasing(h) && Enabled(h, u, BeginSave(newer)) && InFlight(u, Other(newer)).Some?
    requires var w := Step(h, u, BeginSave(newer));
             && InFlight(w, newer).Some? && Runs(h, w, run) && Finishing(run)
             && var w' := After(h, w, run);
                MayWrite(w') && w'.periodic.None? && w'.final.None? && !w'.v.dirty && w'.v.lastRV != ""
    ensures var w' := After(h, Step(h, u, BeginSave(newer)), run);
            && w'.v.lastRV == u.v.lastRV && (forall i :: 0 <= i < |run| && run[i].EndSave? ==> Confirms(run[i].reply))
            && (w'.persisted != Some(w'.v.lastRV) <==>
                  LastEnded(run) == Some(Other(newer)) && InFlight(u, Other(newer)) != Some(u.v.lastRV))
  {
    var w := Step(h, u, BeginSave(newer));
    UnguardedThroughout(h, w, run);
    UnguardedSends(After(h, w, run), After(h, w, run).v.lastRV);
    EndedWasInFlight(h, w, run);
    LastEndedIsCheckpointed(h, w, run);
  }

  lemma {:induction false} UnguardedThroughout(h: History, w: World, run: seq<Action>)
    requires Increasing(h) && Runs(h, w, run) && Finishing(run)
    ensures Unguarded(After(h, w, run)) <==> Unguarded(w)
    decreases |run|
  {
    if run != [] {
      FinishingStep(h, w, run[0]);
      UnguardedThroughout(h, Step(h, w, run[0]), run[1..]);
    }
  }

  /** The states of the race, on an empty cluster. */
  function Racing(v: Volatile, task: Task, periodic: Option<string>, final: Option<string>,
      persisted: Option<string>): World {
    World(0, persisted, {}, None, true, v, task, periodic, final, [], {0}, 0)
  }

  function Synced(rv: string, dirty: bool): Volatile { Volatile(rv, dirty, true, map[]) }

  lemma EmptyHistoryPositions()
    ensures Numeric("5") && Numeric("6") && IndexOf([], "5") == 0 && IndexOf([], "6") == 0
  {
  }

  const COLD_START: seq<Action> := [Start(Plain(true)), List("5", []), Work, BeginSave(Periodic), OpenWatch]
  const RACE: seq<Action> := [Bookmark("6"), BeginSave(Final), EndSave(Final, true, Files(true)),
      EndSave(Periodic, true, Files(true))]

  ghost predicate Takes(h: History, w: World, a: Action, w': World)
    requires Increasing(h)
  {
    Enabled(h, w, a) && Step(h, w, a) == w'
  }

  lemma FirstList()
    ensures var w1 := INITIAL.(running := true);
            var w2 := w1.(task := Listing(0, "5", [], 0));
            && Takes([], INITIAL, Start(Plain(true)), w1) && Takes([], w1, List("5", []), w2)
            && Takes([], w2, Work, Racing(Synced("5", true), Idle, None, None, None))
  {
  }

  lemma ColdStart()
    ensures Runs([], INITIAL, COLD_START)
    ensures After([], INITIAL, COLD_START) == Racing(Synced("5", false), Watching(0), Some("5"), None, None)
  {
    EmptyHistoryPositions();
    var w1 := INITIAL.(running := true);
    var w2 := w1.(task := Listing(0, "5", [], 0));
    var w3 := Racing(Synced("5", true), Idle, None, None, None);
    var w4 := Racing(Synced("5", false), Idle, Some("5"), None, None);
    FirstList();
    Chain([], INITIAL, COLD_START, [INITIAL, w1, w2, w3, w4,
        Racing(Synced("5", false), Watching(0), Some("5"), None, None)]);
  }

  lemma FirstSave()
    ensures var w := Racing(Synced("5", false), Watching(0), Some("5"), None, None);
            var w1 := Racing(Synced("6", true), Watching(0), Some("5"), None, None);
            var w2 := Racing(Synced("6", false), Watching(0), Some("5"), Some("6"), None);
            Takes([], w, Bookmark("6"), w1) && Takes([], w1, BeginSave(Final), w2)
  {
  }

  lemma Race()
    ensures var w := Racing(Synced("5", false), Watching(0), Some("5"), None, None);
            Runs([], w, RACE) && After([], w, RACE) == Racing(Synced("6", false), Watching(0), None, None, Some("5"))
  {
    FirstSave();
    var w := Racing(Synced("5", false), Watching(0), Some("5"), None, None);
    Chain([], w, RACE,
          [w, Racing(Synced("6", true), Watching(0), Some("5"), None, None),
           Racing(Synced("6", false), Watching(0), Some("5"), Some("6"), None),
           Racing(Synced("6", false), Watching(0), Some("5"), None, Some("6")),
           Racing(Synced("6", false), Watching(0), None, None, Some("5"))]);
  }

  /** That race is reachable and sets the checkpoint back. */
  lemma StopCanSetCheckpointBack()
    ensures exists run, w :: Runs([], INITIAL, run) && After([], INITIAL, run) == w
              && w.v.lastRV == "6" && w.persisted == Some("5") && !Flushed(w)
  {
    ColdStart();
    Race();
    Append([], INITIAL, COLD_START, RACE);
    var w := Racing(Synced("6", false), Watching(0), None, None, Some("5"));
    assert Runs([], INITIAL, COLD_START + RACE) && After([], INITIAL, COLD_START + RACE) == w;
    assert !Flushed(w);
  }

  lemma {:induction false} Append(h: History, w: World, run: seq<Action>, rest: seq<Action>)
    requires Increasing(h) && Runs(h, w, run) && Runs(h, After(h, w, run), rest)
    ensures Runs(h, w, run + rest) && After(h, w, run + rest) == After(h, After(h, w, run), rest)
    decreases |run|
  {
    if run == [] {
      assert run + rest == rest;
    } else {
      assert (run + rest)[1..] == run[1..] + rest;
      Append(h, Step(h, w, run[0]), run[1..], rest);
    }
  }

  /** A run given by the states it passes through. */
  lemma {:induction false} Chain(h: History, w: World, run: seq<Action>, states: seq<World>)
    requires Increasing(h) && |states| == |run| + 1 && states[0] == w
    requires forall i :: 0 <= i < |run| ==> Takes(h, states[i], run[i], states[i + 1])
    ensures Runs(h, w, run) && After(h, w, run) == states[|run|]
    decreases |run|
  {
    if run != [] {
      assert Takes(h, states[0], run[0], states[1]);
      Chain(h, states[1], run[1..], states[1..]);
    }
  }

  /** A guarded store that lets nothing through. */
  predicate Blocked(w: World) {
    w.guard.Some? && !w.guard.value.baseline
  }

  lemma BlockedStep(h: History, w: World, a: Action)
    requires Increasing(h) && Enabled(h, w, a) && !a.Start? && (w.running ==> Blocked(w))
    ensures var w' := Step(h, w, a);
            && (w'.running ==> w.running && Blocked(w')) && w'.abandoned <= w.abandoned
            && (w'.persisted == w.persisted || (w'.persisted.Some? && w'.persisted.value in w.abandoned))
  {
    if a.Work? { BlockedWork(h, w); }
  }

  lemma BlockedWork(h: History, w: World)
    requires Increasing(h) && Enabled(h, w, Work)
    ensures var w' := WorkStep(h, w);
            w'.running == w.running && w'.guard == w.guard && w'.abandoned == w.abandoned && w'.persisted == w.persisted
  {
  }

  lemma {:induction false} BlockedWritesNothing(h: History, w: World, run: seq<Action>)
    requires Increasing(h) && Runs(h, w, run) && (w.running ==> Blocked(w))
    requires forall i :: 0 <= i < |run| ==> !run[i].Start?
    ensures var w' := After(h, w, run);
            && w'.abandoned <= w.abandoned
            && (w'.persisted == w.persisted || (w'.persisted.Some? && w'.persisted.value in w.abandoned))
    decreases |run|
  {
    if run != [] {
      BlockedStep(h, w, run[0]);
      BlockedWritesNothing(h, Step(h, w, run[0]), run[1..]);
    }
  }

  /** A process whose guarded load did not establish a baseline writes nothing, crash or not, until the next start: the
      checkpoint can only change by a save that an earlier process had sent. */
  lemma FailedLoadWritesNothing(h: History, w: World, response: ResumeStore.Response, run: seq<Action>)
    requires Increasing(h) && Enabled(h, w, Start(Guarded(response)))
    requires !ResumeStore.Establishes(ResumeStore.Request.Load(response))
    requires Runs(h, Step(h, w, Start(Guarded(response))), run) && forall i :: 0 <= i < |run| ==> !run[i].Start?
    ensures var w' := After(h, Step(h, w, Start(Guarded(response))), run);
            w'.persisted == w.persisted || (w'.persisted.Some? && w'.persisted.value in w.abandoned)
  {
    BlockedWritesNothing(h, Step(h, w, Start(Guarded(response))), run);
  }
}
