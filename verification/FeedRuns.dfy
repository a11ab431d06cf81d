/** A consumer polling the change feed while the store goes on observing, evicting, saving and restarting. */
module FeedRuns {
  import opened Prelude
  import opened Kubernetes
  import opened StoreState
  import opened ChangeFeed
  import opened Persistence
  import opened StoreRuns
  import opened StoreTheorems
  import opened StoreHistory

  /** What a consumer knows of an application: status, finish and deletion time. */
  type News = (string, Option<Time>, Option<Time>)

  /** A consumer keeps the latest news of each application, overwriting older ones, and continues from the last change
      stamp it was given. */
  datatype Consumer = Consumer(cursor: Time, copy: map<string, News>)

  /** The store, a consumer with a fixed filter, and whether it was given news since the file was last written. */
  datatype Poller = Poller(m: Machine, c: Consumer, told: bool)

  datatype Event = Act(op: Op) | Poll(limit: int, page: seq<string>, hasMore: bool)

  function NewsOf(st: State, page: seq<string>): map<string, News>
    requires forall id :: id in page ==> id in st.apps
  {
    map id | id in page :: Lifecycle(st.apps[id])
  }

  /** The consumer after a page. */
  function Fed(st: State, c: Consumer, page: seq<string>): Consumer
    requires forall id :: id in page ==> id in st.apps
  {
    Consumer(Cursor(st, c.cursor, page), c.copy + NewsOf(st, page))
  }

  ghost predicate Moves(f: Filter, p: Poller, e: Event, p': Poller) {
    match e
    case Act(op) =>
      && Admits(p.m.st, op) && Steps(p.m, op, p'.m)
      && p' == p.(m := p'.m, told := p.told && !(op.Save? && op.written && p.m.dirty))
    case Poll(limit, page, hasMore) =>
      && IsPage(p.m.st, p.c.cursor, limit, f, page, hasMore)
      && p' == p.(c := Fed(p.m.st, p.c, page), told := p.told || page != [])
  }

  /** The record is still to come, or the consumer's copy of it is right. */
  predicate Followed(st: State, c: Consumer, f: Filter, id: string)
    requires id in st.apps
  {
    Matches(st.apps[id], f) ==> st.apps[id].changedAt > c.cursor || Lookup(c.copy, id) == Some(Lifecycle(st.apps[id]))
  }

  /** So it is for every retained record. */
  predicate NothingMissed(st: State, c: Consumer, f: Filter) {
    forall id :: id in st.apps ==> Followed(st, c, f, id)
  }

  predicate DistinctStamps(st: State) {
    forall a, b :: a in st.apps && b in st.apps && a != b ==> st.apps[a].changedAt != st.apps[b].changedAt
  }

  /** Stamps are distinct; stamps and cursor are at most the clock, or at most the latest anchor. */
  predicate Anchored(st: State, c: Consumer, anchor: Time) {
    && DistinctStamps(st)
    && (forall a :: a in st.apps ==> st.apps[a].changedAt <= anchor || st.apps[a].changedAt <= st.lastChanged)
    && (c.cursor <= anchor || c.cursor <= st.lastChanged)
  }

  /** The file misses nothing either, unless the consumer was given news since it was written. */
  predicate FileFollows(f: Filter, p: Poller) {
    DistinctStamps(OnFile(p.m)) && (!p.told ==> NothingMissed(OnFile(p.m), p.c, f))
  }

  predicate FeedHolds(f: Filter, p: Poller, anchor: Time) {
    MachineHolds(p.m) && NothingMissed(p.m.st, p.c, f) && Anchored(p.m.st, p.c, anchor) && FileFollows(f, p)
  }

  // ----- Polls -----

  lemma PollMissesNothing(f: Filter, st: State, c: Consumer, e: Event, anchor: Time)
    requires e.Poll? && IsPage(st, c.cursor, e.limit, f, e.page, e.hasMore)
    requires NothingMissed(st, c, f) && Anchored(st, c, anchor)
    ensures NothingMissed(st, Fed(st, c, e.page), f) && Anchored(st, Fed(st, c, e.page), anchor)
  {
  }

  lemma PollHolds(f: Filter, p: Poller, e: Event, p': Poller, anchor: Time)
    requires e.Poll? && Moves(f, p, e, p') && FeedHolds(f, p, anchor)
    ensures FeedHolds(f, p', anchor)
  {
    PollMissesNothing(f, p.m.st, p.c, e, anchor);
    if e.page == [] { assert Fed(p.m.st, p.c, []) == p.c; }
  }

  // ----- Live changes -----

  /** A live change touches one record: it gets a stamp above all others, or keeps its stamp, lifecycle and name. */
  predicate Ahead(st: State, id: string, anchor: Time, st': State) {
    && st'.apps.Keys == st.apps.Keys + {id} && (forall a :: a in st.apps && a != id ==> st'.apps[a] == st.apps[a])
    && if st'.lastChanged == st.lastChanged then
         && id in st.apps && st'.apps[id].changedAt == st.apps[id].changedAt
         && Lifecycle(st'.apps[id]) == Lifecycle(st.apps[id]) && st'.apps[id].applicationID == st.apps[id].applicationID
       else
         st'.apps[id].changedAt == st'.lastChanged && st.lastChanged < st'.lastChanged && anchor < st'.lastChanged
  }

  lemma ChangeIsAhead(cfg: Config, st: State, op: Op, anchor: Time)
    requires op.Observe? && !op.bootstrap && Plausible(op) && KnownPhase(op) && Tracked(op.pod) && op.now > anchor
    requires Sound(st)
    ensures Ahead(st, AppId(op.pod), anchor, UpsertApp(cfg, st, op.pod, op.deleted, op.bootstrap, op.now))
  {
  }

  lemma AheadMissesNothing(f: Filter, st: State, c: Consumer, id: string, anchor: Time, st': State)
    requires NothingMissed(st, c, f) && Anchored(st, c, anchor) && Ahead(st, id, anchor, st')
    ensures NothingMissed(st', c, f)
  {
  }

  lemma AheadIsAnchored(st: State, c: Consumer, id: string, anchor: Time, st': State)
    requires Anchored(st, c, anchor) && Ahead(st, id, anchor, st')
    ensures Anchored(st', c, anchor)
  {
    forall a | a in st'.apps && a != id
      ensures a in st.apps && st'.apps[a] == st.apps[a] && st'.apps[a].changedAt != st'.apps[id].changedAt
    {
    }
  }

  lemma FewerMissNothing(f: Filter, st: State, c: Consumer, gone: set<string>, st': State, anchor: Time)
    requires NothingMissed(st, c, f) && Anchored(st, c, anchor)
    requires st'.apps == st.apps - gone && st'.lastChanged == st.lastChanged
    ensures NothingMissed(st', c, f) && Anchored(st', c, anchor)
  {
  }

  lemma ChangeMissesNothing(cfg: Config, f: Filter, st: State, c: Consumer, op: Op, st': State, anchor: Time)
    requires op.Observe? && !op.bootstrap && Plausible(op) && KnownPhase(op) && Tracked(op.pod) && op.now > anchor
    requires Upserts(cfg, st, op.pod, op.deleted, op.bootstrap, op.now, op.goneApps, op.gonePods, st')
    requires Sound(st) && NothingMissed(st, c, f) && Anchored(st, c, anchor)
    ensures NothingMissed(st', c, f) && Anchored(st', c, anchor)
  {
    var half := UpsertApp(cfg, st, op.pod, op.deleted, op.bootstrap, op.now);
    ChangeIsAhead(cfg, st, op, anchor);
    AheadMissesNothing(f, st, c, AppId(op.pod), anchor, half);
    AheadIsAnchored(st, c, AppId(op.pod), anchor, half);
    AppsPassThrough(cfg, st, op, st');
    FewerMissNothing(f, half, c, op.goneApps, st', anchor);
  }

  // ----- Restarts -----

  /** Every record on file tells what the store tells. */
  predicate SameNews(file: State, st: State) {
    forall id :: id in file.apps ==>
      && id in st.apps && file.apps[id].changedAt == st.apps[id].changedAt
      && file.apps[id].applicationID == st.apps[id].applicationID
      && Lifecycle(file.apps[id]) == Lifecycle(st.apps[id])
  }

  /** A restart finds a file that tells what the store tells, or the consumer was given nothing since it was written. */
  predicate Restartable(p: Poller, op: Op) {
    op.Restart? ==> !p.told || SameNews(OnFile(p.m), p.m.st)
  }

  /** A consumer misses after the restart just what it misses of the file. */
  lemma RestartShowsFile(m: Machine, op: Op, m': Machine, c: Consumer, f: Filter)
    requires op.Restart? && MachineHolds(m) && Steps(m, op, m')
    ensures NothingMissed(m'.st, c, f) <==> NothingMissed(OnFile(m), c, f)
    ensures DistinctStamps(OnFile(m)) ==> Anchored(m'.st, c, c.cursor)
  {
    RestartedApps(m, op, m');
    SameButCluster(OnFile(m), m'.st, c, f);
  }

  lemma SameButCluster(file: State, st: State, c: Consumer, f: Filter)
    requires st.apps.Keys == file.apps.Keys
    requires forall id :: id in st.apps ==>
               && st.apps[id] == file.apps[id].(cluster := st.apps[id].cluster)
               && st.apps[id].changedAt <= st.lastChanged
    ensures NothingMissed(st, c, f) <==> NothingMissed(file, c, f)
    ensures DistinctStamps(file) ==> Anchored(st, c, c.cursor)
  {
    forall id | id in st.apps
      ensures Followed(st, c, f, id) <==> Followed(file, c, f, id)
    {
    }
  }

  lemma SameNewsMissesNothing(file: State, st: State, c: Consumer, f: Filter)
    requires SameNews(file, st) && NothingMissed(st, c, f)
    ensures NothingMissed(file, c, f)
  {
    forall id | id in file.apps
      ensures Followed(file, c, f, id)
    {
      assert Followed(st, c, f, id);
    }
  }

  /** Such a restart neither hides nor forgets anything; the consumer's cursor is then the anchor. */
  lemma RestartMissesNothing(f: Filter, p: Poller, op: Op, p': Poller, anchor: Time)
    requires op.Restart? && Moves(f, p, Act(op), p') && FeedHolds(f, p, anchor) && Restartable(p, op)
    ensures FeedHolds(f, p', p.c.cursor)
  {
    if p.told { SameNewsMissesNothing(OnFile(p.m), p.m.st, p.c, f); }
    RestartShowsFile(p.m, op, p'.m, p.c, f);
    StepKeeps(p.m, op, p'.m);
  }

  lemma AloneIsFollowed(rec: ApplicationRecord, c: Consumer)
    requires rec.changedAt <= c.cursor && "a" in c.copy
    ensures NothingMissed(EMPTY.(apps := map["a" := rec]), c, Filter("", {})) <==> c.copy["a"] == Lifecycle(rec)
  {
    assert Followed(EMPTY.(apps := map["a" := rec]), c, Filter("", {}), "a") <==> c.copy["a"] == Lifecycle(rec);
  }

  /** A crash between the finish and the next save: after the restart the store is behind the consumer. */
  lemma RestartCanMiss(m: Machine, op: Op, m': Machine, c: Consumer)
    requires m.st == EMPTY.(apps := map["a" := FinishedApp("a")])
    requires m.disk == Some(EMPTY.(apps := map["a" := RunningApp("a")]))
    requires c == Consumer(9, map["a" := Lifecycle(FinishedApp("a"))])
    requires op == Restart(m.cfg, Snapshot([RunningApp("a")], []), []) && Steps(m, op, m')
    ensures NothingMissed(m.st, c, Filter("", {})) && !NothingMissed(m'.st, c, Filter("", {}))
  {
    AloneIsSound(FinishedApp("a"));
    AloneIsSound(RunningApp("a"));
    AloneIsFollowed(FinishedApp("a"), c);
    AloneIsFollowed(RunningApp("a"), c);
    RestartShowsFile(m, op, m', c, Filter("", {}));
  }

  // ----- Bootstrap while polling -----

  /** When a bootstrap leaves the feed complete: its application is evicted at once; or the record does not match, or it
      is a newcomer anchored above the cursor, or a known record that is still to come or whose lifecycle the bootstrap
      does not move; or the consumer happens to hold just that lifecycle from an earlier delivery while the filter hid
      the record. */
  predicate Harmless(cfg: Config, f: Filter, st: State, c: Consumer, op: Op)
    requires op.Observe?
  {
    var (id, after) := (AppId(op.pod), AppAfter(cfg, st, op.pod, op.deleted, op.now));
    || id in op.goneApps
    || !Matches(after, f)
    || (if id in st.apps then st.apps[id].changedAt > c.cursor else Anchor(op.pod, after, op.now) > c.cursor)
    || (if id in st.apps && Matches(st.apps[id], f) then Lifecycle(after) == Lifecycle(st.apps[id])
        else Lookup(c.copy, id) == Some(Lifecycle(after)))
  }

  lemma BootstrappedRecord(cfg: Config, st: State, op: Op)
    requires op.Observe? && op.bootstrap
    ensures var (id, after, st') := (AppId(op.pod), AppAfter(cfg, st, op.pod, op.deleted, op.now),
                                     UpsertApp(cfg, st, op.pod, op.deleted, op.bootstrap, op.now));
            && st'.apps.Keys == st.apps.Keys + {id} && (forall a :: a in st.apps && a != id ==>
                st'.apps[a] == st.apps[a])
            && st'.apps[id].applicationID == after.applicationID && Lifecycle(st'.apps[id]) == Lifecycle(after)
            && st'.apps[id].changedAt == (if id in st.apps then st.apps[id].changedAt
                else Anchor(op.pod, after, op.now))
  {
  }

  lemma HalfIsHarmless(cfg: Config, f: Filter, st: State, c: Consumer, op: Op)
    requires op.Observe? && op.bootstrap && NothingMissed(st, c, f) && AppId(op.pod) !in op.goneApps
    ensures var half := UpsertApp(cfg, st, op.pod, op.deleted, op.bootstrap, op.now);
            AppId(op.pod) in half.apps && (Followed(half, c, f, AppId(op.pod)) <==> Harmless(cfg, f, st, c, op))
  {
    BootstrappedRecord(cfg, st, op);
    assert AppId(op.pod) in st.apps ==> Followed(st, c, f, AppId(op.pod));
  }

  lemma OnlyThatRecord(f: Filter, st: State, half: State, st': State, c: Consumer, id: string, gone: set<string>)
    requires NothingMissed(st, c, f) && half.apps.Keys == st.apps.Keys + {id}
    requires forall a :: a in st.apps && a != id ==> half.apps[a] == st.apps[a]
    requires st'.apps == half.apps - gone
    ensures NothingMissed(st', c, f) <==> id in gone || Followed(half, c, f, id)
  {
    forall a | a in st'.apps && a != id
      ensures Followed(st', c, f, a)
    {
      assert Followed(st, c, f, a);
    }
    if id !in gone { assert Followed(st', c, f, id) <==> Followed(half, c, f, id); }
  }

  /** A bootstrap while polling, with its evictions, leaves the feed complete exactly when it is harmless, for every
      consumer. */
  lemma BootstrapKeepsFeed(f: Filter, p: Poller, op: Op, p': Poller)
    requires op.Observe? && op.bootstrap && Tracked(op.pod) && Moves(f, p, Act(op), p')
    requires NothingMissed(p.m.st, p.c, f)
    ensures NothingMissed(p'.m.st, p'.c, f) <==> Harmless(p.m.cfg, f, p.m.st, p.c, op)
  {
    var half := UpsertApp(p.m.cfg, p.m.st, op.pod, op.deleted, op.bootstrap, op.now);
    BootstrappedRecord(p.m.cfg, p.m.st, op);
    AppsPassThrough(p.m.cfg, p.m.st, op, p'.m.st);
    OnlyThatRecord(f, p.m.st, half, p'.m.st, p.c, AppId(op.pod), op.goneApps);
    if AppId(op.pod) !in op.goneApps { HalfIsHarmless(p.m.cfg, f, p.m.st, p.c, op); }
  }

  /** So it can be hidden for good: a consumer up to date at time 100, then a bootstrapped pod created at time 7. */
  lemma BootstrapCanHide(m: Machine, op: Op, m': Machine, c: Consumer)
    requires m.st == EMPTY && c == Consumer(100, map[])
    requires op == Observe(Driver("a", "u", 7), false, true, 101, {}, {})
    requires m' == m.(st := Recorded(m.cfg, EMPTY, op.pod, false, true, 101), dirty := true)
    ensures NothingMissed(m.st, c, Filter("", {})) && Steps(m, op, m') && !NothingMissed(m'.st, c, Filter("", {}))
  {
    DriverFacts("a", "u", 7);
    NewcomerFacts(m.cfg, op);
    NothingEvicted(m.cfg, m'.st);
    NewcomerIsHidden(m'.st, "a", c);
  }

  lemma NewcomerIsHidden(st: State, id: string, c: Consumer)
    requires id in st.apps && st.apps[id].changedAt <= c.cursor && id !in c.copy
    ensures !NothingMissed(st, c, Filter("", {}))
  {
    assert !Followed(st, c, Filter("", {}), id);
  }

  // ----- Whole runs -----

  /** A bootstrap is harmless, and a newcomer's anchor is no other record's stamp and not above clock and anchor. */
  predicate BootstrapFits(f: Filter, m: Machine, c: Consumer, op: Op, anchor: Time)
    requires op.Observe?
  {
    var stamp := Anchor(op.pod, AppAfter(m.cfg, m.st, op.pod, op.deleted, op.now), op.now);
    && Harmless(m.cfg, f, m.st, c, op)
    && (AppId(op.pod) !in m.st.apps ==>
          && (stamp <= anchor || stamp <= m.st.lastChanged)
          && forall a :: a in m.st.apps && a !in op.goneApps ==> m.st.apps[a].changedAt != stamp)
  }

  /** Live changes come later than the anchor, bootstraps fit, restarts do not lose news; no import. */
  predicate Allowed(f: Filter, p: Poller, e: Event, anchor: Time) {
    e.Act? ==>
      && !e.op.Import? && Restartable(p, e.op)
      && (e.op.Observe? && Tracked(e.op.pod) ==>
            if e.op.bootstrap then BootstrapFits(f, p.m, p.c, e.op, anchor) else e.op.now > anchor)
  }

  function AnchorAfter(p: Poller, e: Event, anchor: Time): Time {
    if e.Act? && e.op.Restart? then p.c.cursor else anchor
  }

  /** The anchor that counts after `n` events. */
  function AnchorAt(trace: seq<Poller>, events: seq<Event>, anchor: Time, n: nat): Time
    requires |trace| == |events| + 1 && n <= |events|
  {
    if n == 0 then anchor else AnchorAfter(trace[n - 1], events[n - 1], AnchorAt(trace, events, anchor, n - 1))
  }

  lemma ObserveHolds(f: Filter, p: Poller, op: Op, p': Poller, anchor: Time)
    requires op.Observe? && Moves(f, p, Act(op), p') && FeedHolds(f, p, anchor) && Allowed(f, p, Act(op), anchor)
    ensures FeedHolds(f, p', anchor)
  {
    StepKeeps(p.m, op, p'.m);
    if Tracked(op.pod) {
      if op.bootstrap {
        BootstrapKeepsFeed(f, p, op, p');
        BootstrapStaysAnchored(f, p.m, op, p'.m, p.c, anchor);
      } else {
        ChangeMissesNothing(p.m.cfg, f, p.m.st, p.c, op, p'.m.st, anchor);
      }
    }
  }

  lemma BootstrapStaysAnchored(f: Filter, m: Machine, op: Op, m': Machine, c: Consumer, anchor: Time)
    requires op.Observe? && op.bootstrap && Tracked(op.pod) && Steps(m, op, m')
    requires Anchored(m.st, c, anchor) && BootstrapFits(f, m, c, op, anchor)
    ensures Anchored(m'.st, c, anchor)
  {
    var half := UpsertApp(m.cfg, m.st, op.pod, op.deleted, op.bootstrap, op.now);
    BootstrappedRecord(m.cfg, m.st, op);
    AppsPassThrough(m.cfg, m.st, op, m'.st);
    OneStampMore(m.st, half, m'.st, AppId(op.pod), op.goneApps, c, anchor);
  }

  lemma OneStampMore(st: State, half: State, st': State, id: string, gone: set<string>, c: Consumer, anchor: Time)
    requires Anchored(st, c, anchor) && half.apps.Keys == st.apps.Keys + {id}
    requires forall a :: a in st.apps && a != id ==> half.apps[a] == st.apps[a]
    requires st'.apps == half.apps - gone && st'.lastChanged == st.lastChanged
    requires if id in st.apps then half.apps[id].changedAt == st.apps[id].changedAt
             else
               && (half.apps[id].changedAt <= anchor || half.apps[id].changedAt <= st.lastChanged)
               && forall a :: a in st.apps && a !in gone ==> st.apps[a].changedAt != half.apps[id].changedAt
    ensures Anchored(st', c, anchor)
  {
    forall a, b | a in st'.apps && b in st'.apps && a != b
      ensures st'.apps[a].changedAt != st'.apps[b].changedAt
    {
    }
  }

  lemma MoveHolds(f: Filter, p: Poller, e: Event, p': Poller, anchor: Time)
    requires Moves(f, p, e, p') && FeedHolds(f, p, anchor) && Allowed(f, p, e, anchor)
    ensures FeedHolds(f, p', AnchorAfter(p, e, anchor))
  {
    match e
    case Poll(_, _, _) => PollHolds(f, p, e, p', anchor);
    case Act(op) =>
      match op
      case Observe(_, _, _, _, _, _) => ObserveHolds(f, p, op, p', anchor);
      case Save(_) =>
      case Restart(_, _, _) => RestartMissesNothing(f, p, op, p', anchor);
  }

  ghost predicate Polls(f: Filter, trace: seq<Poller>, events: seq<Event>) {
    && |trace| == |events| + 1
    && forall i :: 0 <= i < |events| ==> MoveAt(f, trace, events, i)
  }

  ghost predicate MoveAt(f: Filter, trace: seq<Poller>, events: seq<Event>, i: nat)
    requires i < |events| && |trace| == |events| + 1
  {
    Moves(f, trace[i], events[i], trace[i + 1])
  }

  predicate AllowedAt(f: Filter, trace: seq<Poller>, events: seq<Event>, anchor: Time, i: nat)
    requires i < |events| && |trace| == |events| + 1
  {
    Allowed(f, trace[i], events[i], AnchorAt(trace, events, anchor, i))
  }

  lemma HoldsNext(f: Filter, trace: seq<Poller>, events: seq<Event>, anchor: Time, i: nat)
    requires i < |events| && |trace| == |events| + 1 && MoveAt(f, trace, events, i)
    requires AllowedAt(f, trace, events, anchor, i) && FeedHolds(f, trace[i], AnchorAt(trace, events, anchor, i))
    ensures FeedHolds(f, trace[i + 1], AnchorAt(trace, events, anchor, i + 1))
  {
    MoveHolds(f, trace[i], events[i], trace[i + 1], AnchorAt(trace, events, anchor, i));
  }

  /** The consumer starts from the zero time, or from a cursor below which it has missed nothing. */
  predicate Starts(f: Filter, p: Poller, anchor: Time) {
    && MachineHolds(p.m) && Anchored(p.m.st, p.c, anchor) && DistinctStamps(OnFile(p.m))
    && (p.c.cursor == 0 || (NothingMissed(p.m.st, p.c, f) && FileFollows(f, p)))
  }

  lemma FromTheStart(st: State, c: Consumer, f: Filter)
    requires Sound(st) && c.cursor == 0
    ensures NothingMissed(st, c, f)
  {
    assert forall id :: id in st.apps ==> AppHolds(id, st.apps[id]);
  }

  lemma StartHolds(f: Filter, p: Poller, anchor: Time)
    requires Starts(f, p, anchor)
    ensures FeedHolds(f, p, anchor)
  {
    if p.c.cursor == 0 {
      FromTheStart(p.m.st, p.c, f);
      FromTheStart(OnFile(p.m), p.c, f);
    }
  }

  /** The feed misses nothing: live changes, harmless bootstraps, evictions, saves that succeed or fail, restarts and
      polls with any limits in any order, from a store whose stamps are distinct and whose anchors lie before the live
      changes. */
  lemma {:induction false} FeedMissesNothing(f: Filter, trace: seq<Poller>, events: seq<Event>, anchor: Time, n: nat)
    requires Polls(f, trace, events) && Starts(f, trace[0], anchor) && n <= |events|
    requires forall i :: 0 <= i < |events| ==> AllowedAt(f, trace, events, anchor, i)
    ensures FeedHolds(f, trace[n], AnchorAt(trace, events, anchor, n))
    ensures NothingMissed(trace[n].m.st, trace[n].c, f)
  {
    if n == 0 {
      StartHolds(f, trace[0], anchor);
    } else {
      FeedMissesNothing(f, trace, events, anchor, n - 1);
      HoldsNext(f, trace, events, anchor, n - 1);
    }
  }

  // ----- Paging -----

  /** Two running drivers created at the same time. */
  function Twins(cfg: Config): State {
    Recorded(cfg, Recorded(cfg, EMPTY, Driver("a", "u", 7), false, true, 101), Driver("b", "v", 7), false, true, 102)
  }

  lemma TwinsTie(cfg: Config)
    ensures Twins(cfg).apps.Keys == {"a", "b"}
    ensures Twins(cfg).apps["a"].changedAt == 7 && Twins(cfg).apps["b"].changedAt == 7
  {
    DriverFacts("a", "u", 7);
    DriverFacts("b", "v", 7);
    var first := Recorded(cfg, EMPTY, Driver("a", "u", 7), false, true, 101);
    NewcomerFacts(cfg, Observe(Driver("a", "u", 7), false, true, 101, {}, {}));
    SecondNewcomer(cfg, first, Driver("b", "v", 7), 102);
  }

  lemma SecondNewcomer(cfg: Config, st: State, pod: Pod, now: Time)
    requires Tracked(pod) && IsDriver(pod) && !Terminal(pod) && pod.creation > 0 && AppId(pod) !in st.apps
    ensures var st' := Recorded(cfg, st, pod, false, true, now);
            && st'.apps.Keys == st.apps.Keys + {AppId(pod)} && st'.apps[AppId(pod)].changedAt == pod.creation
            && forall a :: a in st.apps ==> st'.apps[a] == st.apps[a]
  {
  }

  lemma TiedWalk(st: State, f: Filter)
    requires st.apps.Keys == {"a", "b"} && st.apps["a"].changedAt == 7 && st.apps["b"].changedAt == 7
             && f == Filter("", {})
    ensures var walk := [Answer(["a"], true), Answer([], false)];
            Walks(st, 0, 1, f, walk) && Lost(st, 0, 1, f, walk) == {"b"}
  {
    var walk := [Answer(["a"], true), Answer([], false)];
    assert Changed(st, 0, f) == {"a", "b"};
    assert |{"a", "b"}| == 2;
    assert Changed(st, 7, f) == {};
    assert walk[1..] == [Answer([], false)];
    assert Cursor(st, 0, ["a"]) == 7;
    assert Walks(st, 7, 1, f, walk[1..]);
    assert SplitOff(st, 0, f, walk[0]) == {"b"};
    assert SplitOff(st, 7, f, walk[1]) == {};
    assert Lost(st, 7, 1, f, walk[1..]) == {};
  }

  /** Pages of one record lose the second of two applications bootstrapped from pods of one creation time. */
  lemma PagingCanLose(cfg: Config)
    ensures var (all, walk) := (Filter("", {}), [Answer(["a"], true), Answer([], false)]);
            && Walks(Twins(cfg), 0, 1, all, walk) && Lost(Twins(cfg), 0, 1, all, walk) == {"b"}
            && !IsPage(Twins(cfg), 0, 0, all, Delivered(walk), false)
  {
    var all, walk := Filter("", {}), [Answer(["a"], true), Answer([], false)];
    TwinsTie(cfg);
    TiedWalk(Twins(cfg), all);
    WalkIsUnpaged(Twins(cfg), 0, 1, all, walk);
  }
}
