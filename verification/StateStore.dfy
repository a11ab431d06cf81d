/** The state store as it runs: methods over its maps, clock and flags. */
module StateStore {
  import opened Prelude
  import opened Kubernetes
  import opened StoreState
  import opened ChangeFeed
  import opened Persistence

  class Store {
    var apps: map<string, ApplicationRecord>
    var pods: map<string, PodRecord>
    var driverByApp: map<string, string>
    var lastChanged: Time
    var dirty: bool
    var overLimitWarned: bool
    var disk: Option<Snapshot>   // content of the state file
    const filePath: string       // empty for a store without a file
    const cluster: string
    const maxApps: nat
    const maxPods: nat

    function State(): StoreState.State
      reads this
    {
      StoreState.State(apps, pods, driverByApp, lastChanged)
    }

    function Cfg(): Config {
      Config(cluster, maxApps, maxPods)
    }

    /** Starts from the state file, when there is one that parses; a non-positive limit uses the default. */
    constructor (filePath: string, file: Option<Snapshot>, cluster: string, maxApps: int, maxPods: int)
      ensures Cfg() == Config(cluster, if maxApps <= 0 then 10000 else maxApps, if maxPods <= 0 then 10000 else maxPods)
      ensures this.filePath == filePath && disk == file && !overLimitWarned
      ensures filePath == "" || file.None? ==> State() == EMPTY && !dirty
      ensures filePath != "" && file.Some? ==> exists order: seq<nat> ::
                && BackfillOrder(file.value.apps, order) && State() == Loaded(Cfg(), file.value, order)
                && (dirty <==> Loaded(Cfg(), file.value, order) != Restored(file.value, order))
    {
      this.filePath, this.cluster := filePath, cluster;
      this.maxApps := if maxApps <= 0 then 10000 else maxApps;
      this.maxPods := if maxPods <= 0 then 10000 else maxPods;
      apps, pods, driverByApp, lastChanged := map[], map[], map[], 0;
      dirty, overLimitWarned, disk := false, false, file;
      new;
      ghost var order := Load();
    }

    /** Refreshes the identity fields of an application record. */
    method IdentifyApp(before: ApplicationRecord, pod: Pod) returns (rec: ApplicationRecord)
      ensures rec == Identified(Cfg(), before, pod)
    {
      rec := before;
      if pod.creation != 0 && pod.creation < rec.createdAt {
        rec := rec.(createdAt := pod.creation);
      }
      if cluster != "" {
        rec := rec.(cluster := cluster);
      }
      if rec.namespace == "" {
        rec := rec.(namespace := pod.namespace);
      }
      if Label(pod, "spark-app-name") != "" {
        rec := rec.(sparkAppName := Label(pod, "spark-app-name"));
      }
      if Label(pod, "spark-app-selector") != "" {
        rec := rec.(sparkAppSelector := Label(pod, "spark-app-selector"));
      }
    }

    /** Moves the lifecycle of an application by its driver pod. */
    method AdvanceApp(before: ApplicationRecord, pod: Pod, deleted: bool, now: Time)
      returns (rec: ApplicationRecord, lifecycleChanged: bool)
      ensures rec == Advanced(before, pod, deleted, now)
      ensures lifecycleChanged <==> Lifecycle(rec) != Lifecycle(before)
    {
      rec, lifecycleChanged := before, false;
      if !IsDriver(pod) {
        return;
      }
      rec := rec.(driverPodName := pod.name);
      var nextStatus := PodStatus(pod, deleted);
      if rec.status != nextStatus {
        rec := rec.(status := nextStatus);
        lifecycleChanged := true;
      }
      if (deleted || Terminal(pod)) && rec.finishedAt.None? {
        var finished := now;
        var times := ContainerTimes(pod);
        if times.1.Some? {
          finished := times.1.value;
        }
        rec := rec.(finishedAt := Some(finished));
        lifecycleChanged := true;
      }
      if deleted && rec.deletedAt.None? {
        rec := rec.(deletedAt := Some(now));
        lifecycleChanged := true;
      }
    }

    /** Draws the next stamp from the change clock. */
    method Stamp(now: Time) returns (next: Time)
      modifies this`lastChanged
      ensures next == lastChanged == NextStamp(old(lastChanged), now)
      ensures next >= now && (old(lastChanged) != 0 ==> next >= old(lastChanged) + 1_000_000)
      ensures next == now || next == old(lastChanged) + 1_000_000
    {
      next := now;
      if lastChanged != 0 {
        var floor := lastChanged + MILLISECOND;
        if next < floor {
          next := floor;
        }
      }
      lastChanged := next;
    }

    /** Applies the application half of an observed pod change. */
    method UpsertAppLocked(pod: Pod, appID: string, deleted: bool, bootstrap: bool, now: Time) returns (created: bool)
      requires appID == AppId(pod)
      modifies this`apps, this`lastChanged
      ensures State() == UpsertApp(Cfg(), old(State()), pod, deleted, bootstrap, now)
      ensures created <==> appID !in old(apps)
    {
      created := appID !in apps;
      var rec := if created then NewApp(pod, appID, now) else apps[appID];
      rec := IdentifyApp(rec, pod);
      var lifecycleChanged;
      rec, lifecycleChanged := AdvanceApp(rec, pod, deleted, now);
      if bootstrap {
        if created {
          rec := rec.(changedAt := Anchor(pod, rec, now));
        }
      } else if created || lifecycleChanged {
        var next := Stamp(now);
        rec := rec.(changedAt := next);
      }
      rec := rec.(lastUpdatedAt := now);
      apps := apps[appID := rec];
    }

    /** Refreshes the descriptive fields of a pod record. */
    method DescribePod(before: PodRecord, pod: Pod, deleted: bool) returns (rec: PodRecord)
      ensures rec == PodDescribed(Cfg(), before, pod, deleted)
    {
      rec := before;
      if pod.creation != 0 && pod.creation < rec.createdAt {
        rec := rec.(createdAt := pod.creation);
      }
      if cluster != "" {
        rec := rec.(cluster := cluster);
      }
      rec := rec.(applicationID := AppId(pod), namespace := pod.namespace, name := pod.name, node := pod.node,
                  role := SparkRole(pod), executorID := Label(pod, "spark-exec-id"), labels := pod.labels,
                  phase := pod.phase, status := PodStatus(pod, deleted));
    }

    /** Refreshes the times of a pod record. */
    method TimePod(before: PodRecord, pod: Pod, deleted: bool, bootstrap: bool, now: Time) returns (rec: PodRecord)
      ensures rec == PodTimed(before, pod, deleted, bootstrap, now)
    {
      rec := before;
      var times := ContainerTimes(pod);
      if times.0.Some? {
        rec := rec.(containerStartedAt := times.0);
        if times.1.Some? {
          rec := rec.(containerFinishedAt := times.1);
        }
      }
      if pod.deletion.Some? {
        rec := rec.(deletionTimestamp := pod.deletion);
      }
      if bootstrap {
        rec := rec.(lastUpdatedAt := OrElse(times.0, OrElse(NonZero(pod.creation), now)));
      } else {
        rec := rec.(lastUpdatedAt := now);
        if deleted && rec.deletedAt.None? {
          rec := rec.(deletedAt := Some(now));
        }
      }
    }

    /** Applies the pod half of an observed pod change. */
    method UpsertPodRecordLocked(pod: Pod, appID: string, deleted: bool, bootstrap: bool, now: Time)
      returns (created: bool)
      requires appID == AppId(pod)
      modifies this`pods, this`driverByApp
      ensures State() == StoreState.UpsertPod(Cfg(), old(State()), pod, deleted, bootstrap, now)
      ensures created <==> PodKey(pod) !in old(pods)
    {
      var key := PodKey(pod);
      created := key !in pods;
      var rec := if created then NewPod(pod, now) else pods[key];
      rec := DescribePod(rec, pod, deleted);
      rec := TimePod(rec, pod, deleted, bootstrap, now);
      pods := pods[key := rec];
      if IsDriver(pod) {
        driverByApp := driverByApp[appID := key];
      }
    }

    // ----- Eviction -----

    /** The deleted application with the earliest deletion time, empty for none, up to those passed over. */
    method OldestDeleted() returns (oldestID: string)
      ensures ScanFinds(State(), oldestID)
    {
      oldestID := "";
      var oldestTime := 0;
      var rest := apps.Keys;
      while rest != {}
        invariant rest <= apps.Keys
        invariant oldestID != "" ==> oldestID in DeletedApps(State()) && oldestTime == AppDeletedAt(State())(oldestID)
        invariant forall b :: b in DeletedApps(State()) && b != "" && b !in rest ==>
                    AtLeastAsOld(State(), oldestID, b)
        decreases rest
      {
        var id :| id in rest;
        rest := rest - {id};
        var rec := apps[id];
        if rec.deletedAt.Some? {
          var ts := rec.deletedAt.value;
          if oldestID == "" || ts < oldestTime {
            oldestID := id;
            oldestTime := ts;
          }
        }
      }
    }

    /** Removes one application, its index entry and all its pods. */
    method DeleteAppLocked(appID: string)
      modifies this`apps, this`driverByApp, this`pods
      ensures State() == WithoutApps(old(State()), {appID})
    {
      apps := apps - {appID};
      driverByApp := driverByApp - {appID};
      var rest := pods.Keys;
      ghost var before, done := pods, {};
      while rest != {}
        invariant rest !! done && rest + done == before.Keys
        invariant apps == old(apps) - {appID} && driverByApp == old(driverByApp) - {appID}
        invariant pods == map k | k in before && (k in rest || before[k].applicationID != appID) :: before[k]
        decreases rest
      {
        var key :| key in rest;
        if pods[key].applicationID == appID {
          pods := pods - {key};
        }
        rest, done := rest - {key}, done + {key};
      }
      assert pods == WithoutApps(old(State()), {appID}).pods;
    }

    /** Evicts over-limit deleted applications with everything they own, the oldest first. */
    method EvictAppsLocked() returns (evicted: nat, ghost gone: set<string>)
      modifies this`apps, this`driverByApp, this`pods
      ensures Cascades(old(State()), State()) && ("" !in old(apps) ==> AppsInTurn(old(State()), State(), maxApps))
      ensures EvictsApps(Cfg(), old(State()), gone) && State() == WithoutApps(old(State()), gone)
      ensures evicted == |gone|
    {
      evicted, gone := 0, {};
      ghost var before := State();
      NothingGone(before);
      while |apps| > maxApps
        invariant State() == WithoutApps(before, gone)
        invariant evicted == |gone| && Evicting(before, gone)
        invariant gone != {} ==> |apps| >= maxApps
        decreases |apps|
      {
        var oldestID := EvictOldest(before, gone);
        if oldestID == "" {
          break;
        }
        gone := gone + {oldestID};
        evicted := evicted + 1;
      }
      EvictionEnds(Cfg(), before, gone);
    }

    /** Evicts the oldest deleted application, if the scan finds one. */
    method EvictOldest(ghost before: StoreState.State, ghost gone: set<string>) returns (oldestID: string)
      requires State() == WithoutApps(before, gone) && Evicting(before, gone)
      modifies this`apps, this`driverByApp, this`pods
      ensures oldestID == "" ==> State() == old(State()) && OnlyPassedOver(before, gone)
      ensures oldestID != "" ==> NextVictim(before, gone, oldestID) && State() == WithoutApps(before, gone + {oldestID})
    {
      oldestID := OldestDeleted();
      OldestOfTheRest(before, gone, oldestID);
      if oldestID != "" {
        EvictOneMore(before, gone, oldestID);
        DeleteAppLocked(oldestID);
      }
    }

    /** Evicts over-limit deleted pod records, the oldest first, sparing drivers of known applications. */
    method EvictPodsLocked() returns (removed: nat, ghost gone: set<string>)
      modifies this`pods, this`overLimitWarned
      ensures PodsInTurn(old(State()), State(), maxPods)
      ensures EvictsPods(Cfg(), old(State()), gone)
      ensures State() == WithoutPods(old(State()), gone)
      ensures removed == |gone|
      ensures overLimitWarned <==> |pods| > maxPods
    {
      removed, gone := 0, {};
      ghost var before := State();
      if |pods| <= maxPods {
        NothingToEvict(Cfg(), before);
        PodPass(Cfg(), before, gone);
        overLimitWarned := false;
        return;
      }
      removed, gone := ReclaimPods();
      PodPass(Cfg(), before, gone);
      overLimitWarned := |pods| > maxPods;
    }

    /** Removes the oldest reclaimable records, as many as the limit asks for. */
    method ReclaimPods() returns (removed: nat, ghost gone: set<string>)
      requires |pods| > maxPods
      modifies this`pods
      ensures EvictsPods(Cfg(), old(State()), gone)
      ensures State() == WithoutPods(old(State()), gone)
      ensures removed == |gone|
    {
      ghost var before := State();
      var sorted := CandidatesByAge();
      removed := RemoveInTurn(sorted);
      gone := Elements(sorted[..removed]);
      PrefixEvicts(Cfg(), before, sorted, removed);
    }

    /** Removes pod records in the given order until the store is within its limit. */
    method RemoveInTurn(sorted: seq<string>) returns (removed: nat)
      requires forall i, j :: 0 <= i < j < |sorted| ==> sorted[i] != sorted[j]
      requires forall k :: k in sorted ==> k in pods
      requires |pods| > maxPods
      modifies this`pods
      ensures removed == Least(old(|pods|) - maxPods, |sorted|)
      ensures State() == WithoutPods(old(State()), Elements(sorted[..removed]))
    {
      removed := 0;
      ghost var before := pods;
      assert Elements(sorted[..0]) == {};
      assert before - {} == before;
      while removed < |sorted| && |pods| > maxPods
        invariant 0 <= removed <= |sorted|
        invariant pods == before - Elements(sorted[..removed])
        invariant |pods| == |before| - removed && |pods| >= maxPods
      {
        PrefixGrows(before, sorted, removed);
        pods := pods - {sorted[removed]};
        removed := removed + 1;
      }
    }

    /** The reclaimable pod records, the earliest deleted first. */
    method CandidatesByAge() returns (sorted: seq<string>)
      ensures SortedBy(sorted, PodDeletedAt(State()))
      ensures forall k :: k in sorted <==> k in Reclaimable(State())
      ensures forall i, j :: 0 <= i < j < |sorted| ==> sorted[i] != sorted[j]
    {
      var candidates := Candidates();
      sorted := Sort(candidates, PodDeletedAt(State()));
      Rearranged(candidates, sorted);
    }

    /** The reclaimable pod records, in whatever order the map is visited. */
    method Candidates() returns (candidates: seq<string>)
      ensures forall k :: k in candidates <==>
                k in pods && pods[k].deletedAt.Some? && !(pods[k].role == "driver" && pods[k].applicationID in apps)
      ensures forall k :: k in candidates <==> k in Reclaimable(State())
      ensures forall i, j :: 0 <= i < j < |candidates| ==> candidates[i] != candidates[j]
    {
      candidates := [];
      var rest := pods.Keys;
      while rest != {}
        invariant rest <= pods.Keys
        invariant forall k :: k in candidates <==> k in Reclaimable(State()) && k !in rest
        invariant forall i, j :: 0 <= i < j < |candidates| ==> candidates[i] != candidates[j]
        decreases rest
      {
        var key :| key in rest;
        var rec := pods[key];
        if rec.deletedAt.Some? && !(rec.role == "driver" && rec.applicationID in apps) {
          candidates := candidates + [key];
        }
        rest := rest - {key};
      }
    }

    // ----- Observations -----

    /** One observed pod; a pod outside any Spark application leaves no trace. */
    method Upsert(pod: Pod, deleted: bool, bootstrap: bool, now: Time)
      returns (ghost goneApps: set<string>, ghost gonePods: set<string>)
      modifies this`apps, this`pods, this`driverByApp, this`lastChanged, this`dirty, this`overLimitWarned
      ensures !Tracked(pod) ==> State() == old(State()) && dirty == old(dirty)
      ensures Tracked(pod) ==> Upserts(Cfg(), old(State()), pod, deleted, bootstrap, now, goneApps, gonePods, State())
      ensures Tracked(pod) ==> (dirty <==> old(dirty) || Marks(old(State()), pod, bootstrap, goneApps, gonePods))
    {
      goneApps, gonePods := {}, {};
      var appID := AppId(pod);
      if appID == "" || SparkRole(pod) == "" {
        return;
      }
      goneApps, gonePods := UpsertLocked(pod, appID, deleted, bootstrap, now);
    }

    /** One observed pod of a Spark application. */
    method UpsertLocked(pod: Pod, appID: string, deleted: bool, bootstrap: bool, now: Time)
      returns (ghost goneApps: set<string>, ghost gonePods: set<string>)
      requires appID == AppId(pod)
      modifies this`apps, this`pods, this`driverByApp, this`lastChanged, this`dirty, this`overLimitWarned
      ensures dirty <==> old(dirty) || Marks(old(State()), pod, bootstrap, goneApps, gonePods)
      ensures Upserts(Cfg(), old(State()), pod, deleted, bootstrap, now, goneApps, gonePods, State())
    {
      var created := RecordLocked(pod, appID, deleted, bootstrap, now);
      assert dirty == old(dirty) && (created <==> Creates(old(State()), pod));
      goneApps, gonePods := ConvergeLocked(!bootstrap || created);
    }

    /** Both eviction passes; marks the store for saving when it was changed or they evict. */
    method ConvergeLocked(changed: bool) returns (ghost goneApps: set<string>, ghost gonePods: set<string>)
      modifies this`apps, this`pods, this`driverByApp, this`dirty, this`overLimitWarned
      ensures Evicts(Cfg(), old(State()), goneApps, gonePods, State())
      ensures dirty <==> old(dirty) || changed || Removes(goneApps, gonePods)
    {
      var evicted;
      evicted, goneApps, gonePods := EvictLocked();
      if changed || evicted {
        dirty := true;
      }
    }

    /** Both halves of an observation. */
    method RecordLocked(pod: Pod, appID: string, deleted: bool, bootstrap: bool, now: Time) returns (created: bool)
      requires appID == AppId(pod)
      modifies this`apps, this`pods, this`driverByApp, this`lastChanged
      ensures State() == Recorded(Cfg(), old(State()), pod, deleted, bootstrap, now)
      ensures created <==> Creates(old(State()), pod)
    {
      var appCreated := UpsertAppLocked(pod, appID, deleted, bootstrap, now);
      var podCreated := UpsertPodRecordLocked(pod, appID, deleted, bootstrap, now);
      created := appCreated || podCreated;
    }

    /** Both eviction passes, applications first. */
    method EvictLocked() returns (evicted: bool, ghost goneApps: set<string>, ghost gonePods: set<string>)
      modifies this`apps, this`pods, this`driverByApp, this`overLimitWarned
      ensures Evicts(Cfg(), old(State()), goneApps, gonePods, State())
      ensures evicted <==> Removes(goneApps, gonePods)
    {
      var appEvicted, podEvicted;
      appEvicted, goneApps := EvictAppsLocked();
      podEvicted, gonePods := EvictPodsLocked();
      evicted := appEvicted > 0 || podEvicted > 0;
    }

    /** A live change. */
    method UpsertPod(pod: Pod, deleted: bool, now: Time)
      returns (ghost goneApps: set<string>, ghost gonePods: set<string>)
      modifies this`apps, this`pods, this`driverByApp, this`lastChanged, this`dirty, this`overLimitWarned
      ensures !Tracked(pod) ==> State() == old(State()) && dirty == old(dirty)
      ensures Tracked(pod) ==>
                dirty && Upserts(Cfg(), old(State()), pod, deleted, false, now, goneApps, gonePods, State())
    {
      goneApps, gonePods := Upsert(pod, deleted, false, now);
    }

    /** A pod of the startup snapshot. */
    method BootstrapPod(pod: Pod, now: Time) returns (ghost goneApps: set<string>, ghost gonePods: set<string>)
      modifies this`apps, this`pods, this`driverByApp, this`lastChanged, this`dirty, this`overLimitWarned
      ensures !Tracked(pod) ==> State() == old(State()) && dirty == old(dirty)
      ensures Tracked(pod) ==> Upserts(Cfg(), old(State()), pod, false, true, now, goneApps, gonePods, State())
      ensures Tracked(pod) ==> (dirty <==> old(dirty) || Marks(old(State()), pod, true, goneApps, gonePods))
    {
      goneApps, gonePods := Upsert(pod, false, true, now);
    }

    // ----- Queries -----

    method GetApplication(appID: string) returns (view: Option<ApplicationView>)
      ensures view == if appID in apps then Some(View(State(), apps[appID])) else None
    {
      if appID !in apps {
        return None;
      }
      view := Some(ViewLocked(apps[appID]));
    }

    function ViewLocked(rec: ApplicationRecord): (view: ApplicationView)
      reads this
      ensures view == View(State(), rec)
    {
      if rec.applicationID in driverByApp && driverByApp[rec.applicationID] in pods then
        var driver := pods[driverByApp[rec.applicationID]];
        ApplicationView(rec, driver.phase, driver.labels)
      else ApplicationView(rec, "", map[])
    }

    /** The matching applications, in whatever order the map is visited. */
    method Matched(since: Time, f: Filter) returns (ids: seq<string>)
      ensures forall id :: id in ids <==>
                && id in apps && apps[id].changedAt > since && (f.appID == "" || apps[id].applicationID == f.appID)
                && (f.statuses == {} || apps[id].status in f.statuses)
      ensures forall id :: id in ids <==> id in Changed(State(), since, f)
      ensures forall i, j :: 0 <= i < j < |ids| ==> ids[i] != ids[j]
    {
      ids := [];
      var rest := apps.Keys;
      while rest != {}
        invariant rest <= apps.Keys
        invariant forall id :: id in ids <==> id in Changed(State(), since, f) && id !in rest
        invariant forall i, j :: 0 <= i < j < |ids| ==> ids[i] != ids[j]
        decreases rest
      {
        var id :| id in rest;
        rest := rest - {id};
        var rec := apps[id];
        if rec.changedAt > since && (f.appID == "" || rec.applicationID == f.appID)
           && (f.statuses == {} || rec.status in f.statuses) {
          ids := ids + [id];
        }
      }
    }

    /** One page of the change feed; empty statuses are ignored. */
    method GetChanges(since: Time, limit: int, appID: string, statuses: seq<string>)
      returns (views: seq<ApplicationView>, hasMore: bool)
      ensures exists page: seq<string> ::
                IsPage(State(), since, limit, Filter(appID, Elements(statuses) - {""}), page, hasMore)
                    && Joins(State(), page, views)
      ensures Answers(State(), since, limit, appID, statuses, views, hasMore)
    {
      var f := Filter(appID, (set st | st in statuses) - {""});
      var ids := Matched(since, f);
      var matched := Sort(ids, ChangedAt(State()));
      Rearranged(ids, matched);
      DistinctSize(matched);
      assert Elements(matched) == Changed(State(), since, f);
      hasMore := false;
      var all := matched;
      if limit > 0 && |matched| > limit {
        matched := matched[..limit];
        hasMore := true;
      }
      PrefixIsPage(State(), since, limit, f, all, matched);
      views := Joined(matched);
      PageAnswers(State(), since, limit, appID, statuses, matched, hasMore, views);
    }

    method Joined(ids: seq<string>) returns (views: seq<ApplicationView>)
      requires forall i :: 0 <= i < |ids| ==> ids[i] in apps
      ensures Joins(State(), ids, views)
    {
      views := [];
      for i := 0 to |ids|
        invariant |views| == i && forall j :: 0 <= j < i ==> views[j] == View(State(), apps[ids[j]])
      {
        views := views + [ViewLocked(apps[ids[i]])];
      }
    }

    // ----- Persistence -----

    /** Finds the latest stamp and the records without one. */
    static method ScanStamps(records: seq<ApplicationRecord>) returns (latest: Time, unstamped: seq<nat>)
      ensures latest == Latest(records)
      ensures forall k :: k in unstamped <==> 0 <= k < |records| && records[k].changedAt == 0
      ensures forall k, l :: 0 <= k < l < |unstamped| ==> unstamped[k] != unstamped[l]
    {
      latest, unstamped := 0, [];
      for i := 0 to |records|
        invariant latest == Latest(records[..i])
        invariant unstamped == Unstamped(records[..i])
      {
        ScanGrows(records, i);
        if records[i].changedAt > latest {
          latest := records[i].changedAt;
        }
        if records[i].changedAt == 0 {
          unstamped := unstamped + [i];
        }
      }
      assert records[..|records|] == records;
    }

    /** Stamps the listed records one millisecond apart. */
    static method StampMissing(records: seq<ApplicationRecord>, order: seq<nat>, start: Time)
      returns (stamped: seq<ApplicationRecord>, clock: Time)
      requires forall k :: 0 <= k < |order| ==> order[k] < |records|
      ensures stamped == StampInTurn(records, order, start) && clock == start + |order| * MILLISECOND
    {
      stamped, clock := records, start;
      for k := 0 to |order|
        invariant |stamped| == |records| && clock == start + k * MILLISECOND
        invariant StampInTurn(stamped, order[k..], clock) == StampInTurn(records, order, start)
      {
        assert order[k..][1..] == order[k + 1..];
        clock := clock + MILLISECOND;
        stamped := stamped[order[k] := stamped[order[k]].(changedAt := clock)];
      }
    }

    static method ByUpdateTime(records: seq<ApplicationRecord>, unstamped: seq<nat>) returns (sorted: seq<nat>)
      requires forall k :: k in unstamped <==> 0 <= k < |records| && records[k].changedAt == 0
      requires forall k, l :: 0 <= k < l < |unstamped| ==> unstamped[k] != unstamped[l]
      ensures BackfillOrder(records, sorted)
    {
      sorted := Sort(unstamped, UpdatedAt(records));
      SortedIsBackfillOrder(records, unstamped, sorted);
    }

    /** Backfills missing stamps by update time, above the latest known stamp. */
    static method RebuildClock(records: seq<ApplicationRecord>)
      returns (stamped: seq<ApplicationRecord>, clock: Time, order: seq<nat>)
      ensures BackfillOrder(records, order)
      ensures stamped == StampInTurn(records, order, BackfillStart(records, order))
      ensures clock == BackfillStart(records, order) + |order| * MILLISECOND
    {
      var latest, unstamped := ScanStamps(records);
      var sorted := ByUpdateTime(records, unstamped);
      order := sorted;
      clock := latest;
      if sorted != [] {
        clock := records[sorted[0]].lastUpdatedAt - MILLISECOND;
        if clock < latest {
          clock := latest;
        }
      }
      stamped, clock := StampMissing(records, sorted, clock);
    }

    /** Indexes application records and rebuilds the change clock. */
    method IngestAppsLocked(records: seq<ApplicationRecord>) returns (ghost order: seq<nat>)
      modifies this`apps, this`lastChanged
      ensures BackfillOrder(records, order)
      ensures State() == IngestApps(old(State()), records, order)
    {
      var stamped, clock, backfilled := RebuildClock(records);
      order := backfilled;
      IndexRecords(stamped);
      if clock > lastChanged {
        lastChanged := clock;
      }
    }

    method IndexRecords(records: seq<ApplicationRecord>)
      modifies this`apps
      ensures apps == IndexApps(old(apps), records)
    {
      for i := 0 to |records|
        invariant apps == IndexApps(old(apps), records[..i])
      {
        assert records[..i + 1][..i] == records[..i];
        apps := apps[records[i].applicationID := records[i]];
      }
      assert records[..|records|] == records;
    }

    /** Indexes pod records and rebuilds the driver index; the last record under a key wins. */
    method IngestPodsLocked(records: seq<PodRecord>)
      modifies this`pods, this`driverByApp
      ensures State() == IngestPods(old(State()), records)
    {
      ghost var before := State();
      for i := 0 to |records|
        invariant State() == IngestPods(before, records[..i])
      {
        assert records[..i + 1][..i] == records[..i];
        var rec := records[i];
        var uid := if rec.uid == "" then rec.namespace + "/" + rec.name else rec.uid;
        pods := pods[uid := rec];
        if rec.role == "driver" {
          driverByApp := driverByApp[rec.applicationID := uid];
        }
      }
      assert records[..|records|] == records;
    }

    /** Stamps the cluster onto records written before it was known. */
    method BackfillClusterLocked() returns (changed: bool)
      modifies this`apps, this`pods
      ensures State() == StampCluster(Cfg(), old(State()))
      ensures changed <==> State() != old(State())
    {
      if cluster == "" {
        return false;
      }
      ghost var before := State();
      changed := (exists id :: id in apps && apps[id].cluster == "")
          || (exists k :: k in pods && pods[k].cluster == "");
      apps := map id | id in apps :: apps[id].(cluster := Preferred(apps[id].cluster, cluster));
      pods := map k | k in pods :: pods[k].(cluster := Preferred(pods[k].cluster, cluster));
      StampIsNeeded(Cfg(), before);
    }

    /** Indexes loaded records and rebuilds the change clock. */
    method IngestLocked(file: Snapshot) returns (ghost order: seq<nat>)
      requires State() == EMPTY
      modifies this`apps, this`pods, this`driverByApp, this`lastChanged
      ensures BackfillOrder(file.apps, order) && State() == Restored(file, order)
    {
      order := IngestAppsLocked(file.apps);
      IngestPodsLocked(file.pods);
    }

    /** Reads the state file, when there is one that parses. */
    method Load() returns (ghost order: seq<nat>)
      requires State() == EMPTY
      modifies this`apps, this`pods, this`driverByApp, this`lastChanged, this`dirty
      ensures filePath == "" || disk.None? ==> State() == EMPTY && dirty == old(dirty)
      ensures filePath != "" && disk.Some? ==>
                && BackfillOrder(disk.value.apps, order) && State() == Loaded(Cfg(), disk.value, order)
                && (dirty <==> old(dirty) || Loaded(Cfg(), disk.value, order) != Restored(disk.value, order))
    {
      order := [];
      if filePath == "" || disk.None? {
        return;
      }
      var changed;
      changed, order := LoadRecords(disk.value);
      if changed {
        dirty := true;
      }
    }

    /** Indexes the records of a file and stamps the cluster onto those that know none. */
    method LoadRecords(file: Snapshot) returns (changed: bool, ghost order: seq<nat>)
      requires State() == EMPTY
      modifies this`apps, this`pods, this`driverByApp, this`lastChanged
      ensures BackfillOrder(file.apps, order) && State() == Loaded(Cfg(), file, order)
      ensures changed <==> Loaded(Cfg(), file, order) != Restored(file, order)
    {
      order := IngestLocked(file);
      changed := BackfillClusterLocked();
    }

    /** Writes the state file when something changed; a failed write is not retried. */
    method Save(written: bool)
      modifies this`dirty, this`disk
      ensures State() == old(State())
      ensures filePath == "" ==> dirty == old(dirty) && disk == old(disk)
      ensures filePath != "" ==>
                && !dirty
                && if old(dirty) && written then disk.Some? && Snapshots(disk.value, State()) else disk == old(disk)
    {
      if filePath == "" || !dirty {
        return;
      }
      dirty := false;
      var snapshot := TakeSnapshot();
      if written {
        disk := Some(snapshot);
      }
    }

    method TakeSnapshot() returns (snapshot: Snapshot)
      ensures Snapshots(snapshot, State())
    {
      var someApps: seq<ApplicationRecord>, ids := [], apps.Keys;
      while ids != {}
        invariant ids <= apps.Keys && |someApps| + |ids| == |apps.Keys|
        invariant forall rec :: rec in someApps ==> rec in apps.Values
        invariant forall id :: id in apps && id !in ids ==> apps[id] in someApps
        decreases ids
      {
        var id :| id in ids;
        ids := ids - {id};
        someApps := someApps + [apps[id]];
      }
      var somePods: seq<PodRecord>, keys := [], pods.Keys;
      while keys != {}
        invariant keys <= pods.Keys && |somePods| + |keys| == |pods.Keys|
        invariant forall rec :: rec in somePods ==> rec in pods.Values
        invariant forall k :: k in pods && k !in keys ==> pods[k] in somePods
        decreases keys
      {
        var key :| key in keys;
        keys := keys - {key};
        somePods := somePods + [pods[key]];
      }
      snapshot := Snapshot(someApps, somePods);
    }

    /** One-time import of the former files, followed by both eviction passes. */
    method ImportLegacy(records: seq<ApplicationRecord>, podRecords: seq<PodRecord>)
      returns (ghost order: seq<nat>, ghost goneApps: set<string>, ghost gonePods: set<string>)
      modifies this`apps, this`pods, this`driverByApp, this`lastChanged, this`dirty, this`overLimitWarned
      ensures |records| == 0 && |podRecords| == 0 ==> State() == old(State()) && dirty == old(dirty)
      ensures |records| > 0 || |podRecords| > 0 ==>
                && dirty && BackfillOrder(records, order)
                && Evicts(Cfg(), IngestPods(IngestApps(old(State()), records, order), podRecords), goneApps, gonePods,
                    State())
    {
      order, goneApps, gonePods := [], {}, {};
      if |records| == 0 && |podRecords| == 0 {
        return;
      }
      order := IngestAppsLocked(records);
      IngestPodsLocked(podRecords);
      var evicted;
      evicted, goneApps, gonePods := EvictLocked();
      dirty := true;
    }
  }

  // ----- Lemmas about the eviction loops -----

  /** The application the scan settles on is no younger than `b`, or may pass it over. */
  ghost predicate AtLeastAsOld(st: StoreState.State, a: string, b: string) {
    (a != "" && AppDeletedAt(st)(a) <= AppDeletedAt(st)(b)) || PassedOver(st, b)
  }

  /** The victims so far: deleted applications, none younger than a survivor. */
  ghost predicate Evicting(st: StoreState.State, gone: set<string>) {
    && gone <= DeletedApps(st) - {""}
    && forall a, b :: a in gone && b in DeletedApps(st) && b != "" && b !in gone ==> AtLeastAsOld(st, a, b)
  }

  /** What the scan may settle on; the empty id for nothing. */
  ghost predicate ScanFinds(st: StoreState.State, id: string) {
    && (id != "" ==> id in DeletedApps(st))
    && forall b :: b in DeletedApps(st) && b != "" ==> AtLeastAsOld(st, id, b)
  }

  /** One more victim. */
  ghost predicate NextVictim(st: StoreState.State, gone: set<string>, next: string) {
    && next in DeletedApps(st) && next !in gone && Evicting(st, gone + {next})
    && |WithoutApps(st, gone + {next}).apps| == |WithoutApps(st, gone).apps| - 1
  }

  /** The scan has nothing left to find for sure. */
  ghost predicate OnlyPassedOver(st: StoreState.State, gone: set<string>) {
    forall b :: b in DeletedApps(st) && b != "" && b !in gone ==> PassedOver(st, b)
  }

  lemma EvictedTwice(st: StoreState.State, gone: set<string>, next: string)
    ensures WithoutApps(WithoutApps(st, gone), {next}) == WithoutApps(st, gone + {next})
  {
  }

  lemma EvictOneMore(st: StoreState.State, gone: set<string>, next: string)
    requires gone <= DeletedApps(st) && next in DeletedApps(st) && next !in gone && Evicting(st, gone + {next})
    ensures WithoutApps(WithoutApps(st, gone), {next}) == WithoutApps(st, gone + {next}) && NextVictim(st, gone, next)
  {
    AppsLeft(st, gone);
    AppsLeft(st, gone + {next});
    EvictedTwice(st, gone, next);
  }

  /** The deletion times of those left are what they were. */
  lemma SameAge(st: StoreState.State, gone: set<string>, a: string, b: string)
    requires gone <= DeletedApps(st) - {""} && b in DeletedApps(st) && b !in gone
    requires a != "" ==> a in DeletedApps(WithoutApps(st, gone))
    ensures b in DeletedApps(WithoutApps(st, gone))
    ensures AtLeastAsOld(WithoutApps(st, gone), a, b) <==> AtLeastAsOld(st, a, b)
  {
    AppsLeft(st, gone);
  }

  lemma OldestOfTheRest(st: StoreState.State, gone: set<string>, next: string)
    requires Evicting(st, gone) && ScanFinds(WithoutApps(st, gone), next)
    ensures next == "" ==> OnlyPassedOver(st, gone)
    ensures next != "" ==> next in DeletedApps(st) && next !in gone && Evicting(st, gone + {next})
  {
    AppsLeft(st, gone);
    forall b | b in DeletedApps(st) && b != "" && b !in gone
      ensures AtLeastAsOld(st, next, b)
    {
      SameAge(st, gone, next, b);
    }
  }

  lemma EvictionEnds(cfg: Config, st: StoreState.State, gone: set<string>)
    requires Evicting(st, gone) && (gone != {} ==> |WithoutApps(st, gone).apps| >= cfg.maxApps)
    requires |WithoutApps(st, gone).apps| <= cfg.maxApps || OnlyPassedOver(st, gone)
    ensures EvictsApps(cfg, st, gone) && Cascades(st, WithoutApps(st, gone))
    ensures "" !in st.apps ==> AppsInTurn(st, WithoutApps(st, gone), cfg.maxApps)
  {
    AppsLeft(st, gone);
    if "" in DeletedApps(st) { EndsAround(cfg, st, gone); } else { EndsExactly(cfg, st, gone); }
    AppPass(cfg, st, gone);
  }

  lemma EndsAround(cfg: Config, st: StoreState.State, gone: set<string>)
    requires Evicting(st, gone) && |gone| <= |st.apps| && (gone != {} ==> |st.apps| - |gone| >= cfg.maxApps)
    requires |st.apps| - |gone| <= cfg.maxApps || OnlyPassedOver(st, gone)
    ensures EvictsAround(cfg, st, gone)
  {
    AsManyUnless(gone, DeletedApps(st) - {""}, |st.apps|, cfg.maxApps);
  }

  lemma EndsExactly(cfg: Config, st: StoreState.State, gone: set<string>)
    requires Evicting(st, gone) && |gone| <= |st.apps| && (gone != {} ==> |st.apps| - |gone| >= cfg.maxApps)
    requires "" !in DeletedApps(st) && (|st.apps| - |gone| <= cfg.maxApps || OnlyPassedOver(st, gone))
    ensures OldestFirst(gone, DeletedApps(st), AppDeletedAt(st), Overflow(|st.apps|, cfg.maxApps))
  {
    AsManyAsAsked(gone, DeletedApps(st), |st.apps|, cfg.maxApps);
  }

  lemma AsManyUnless(gone: set<string>, candidates: set<string>, size: nat, limit: nat)
    requires gone <= candidates && |gone| <= size && (gone != {} ==> size - |gone| >= limit)
    ensures |gone| <= Least(Overflow(size, limit), |candidates|)
    ensures |gone| < Least(Overflow(size, limit), |candidates|) ==> size - |gone| > limit
  {
    SubsetSize(gone, candidates);
  }

  lemma AsManyAsAsked(gone: set<string>, candidates: set<string>, size: nat, limit: nat)
    requires gone <= candidates && |gone| <= size && (gone != {} ==> size - |gone| >= limit)
    requires size - |gone| <= limit || candidates - gone == {}
    ensures |gone| == Least(Overflow(size, limit), |candidates|)
  {
  }

  lemma RemoveOne(pods: map<string, PodRecord>, x: string)
    requires x in pods
    ensures |pods - {x}| == |pods| - 1
  {
  }

  lemma PrefixElements(sorted: seq<string>, i: nat)
    requires i < |sorted| && forall k, l :: 0 <= k < l < |sorted| ==> sorted[k] != sorted[l]
    ensures Elements(sorted[..i + 1]) == Elements(sorted[..i]) + {sorted[i]} && sorted[i] !in Elements(sorted[..i])
  {
  }

  lemma PrefixGrows(pods: map<string, PodRecord>, sorted: seq<string>, i: nat)
    requires i < |sorted| && forall k, l :: 0 <= k < l < |sorted| ==> sorted[k] != sorted[l]
    requires sorted[i] in pods
    ensures pods - Elements(sorted[..i + 1]) == pods - Elements(sorted[..i]) - {sorted[i]}
    ensures |pods - Elements(sorted[..i + 1])| == |pods - Elements(sorted[..i])| - 1
  {
    PrefixElements(sorted, i);
    RemoveOneMore(pods, Elements(sorted[..i]), sorted[i]);
  }

  lemma RemoveOneMore(pods: map<string, PodRecord>, gone: set<string>, x: string)
    requires x in pods && x !in gone
    ensures pods - (gone + {x}) == pods - gone - {x} && |pods - (gone + {x})| == |pods - gone| - 1
  {
    RemoveOne(pods - gone, x);
    assert pods - (gone + {x}) == pods - gone - {x};
  }

  lemma NothingToEvict(cfg: Config, st: StoreState.State)
    requires |st.pods| <= cfg.maxPods
    ensures EvictsPods(cfg, st, {}) && WithoutPods(st, {}) == st
  {
    NothingGone(st);
  }

  /** As much of the ordered candidates as the overflow asks for is what the pass evicts. */
  lemma PrefixEvicts(cfg: Config, st: StoreState.State, sorted: seq<string>, removed: nat)
    requires SortedBy(sorted, PodDeletedAt(st)) && |st.pods| > cfg.maxPods
    requires forall k, l :: 0 <= k < l < |sorted| ==> sorted[k] != sorted[l]
    requires forall k :: k in sorted <==> k in Reclaimable(st)
    requires removed == Least(|st.pods| - cfg.maxPods, |sorted|)
    ensures EvictsPods(cfg, st, Elements(sorted[..removed])) && |Elements(sorted[..removed])| == removed
  {
    PrefixIsOldest(st, sorted, removed);
  }

  lemma PrefixIsOldest(st: StoreState.State, sorted: seq<string>, i: nat)
    requires i <= |sorted| && SortedBy(sorted, PodDeletedAt(st))
    requires forall k, l :: 0 <= k < l < |sorted| ==> sorted[k] != sorted[l]
    requires forall k :: k in sorted <==> k in Reclaimable(st)
    ensures |Elements(sorted[..i])| == i && |Reclaimable(st)| == |sorted|
    ensures OldestFirst(Elements(sorted[..i]), Reclaimable(st), PodDeletedAt(st), i)
  {
    DistinctSize(sorted[..i]);
    DistinctSize(sorted);
    assert Reclaimable(st) == Elements(sorted);
    forall l | 0 <= l < i
      ensures sorted[l] in sorted[..i]
    {
      assert sorted[..i][l] == sorted[l];
    }
    forall a, b | a in sorted[..i] && b in sorted && b !in sorted[..i]
      ensures PodDeletedAt(st)(a) <= PodDeletedAt(st)(b)
    {
      var k :| 0 <= k < i && sorted[k] == a;
      var l :| 0 <= l < |sorted| && sorted[l] == b;
    }
  }

  // ----- Lemmas about queries and ingestion -----

  /** The views of the listed applications, in order. */
  ghost predicate Joins(st: StoreState.State, ids: seq<string>, views: seq<ApplicationView>) {
    |views| == |ids| && forall i :: 0 <= i < |ids| ==> ids[i] in st.apps && views[i] == View(st, st.apps[ids[i]])
  }

  /** The record is what a request asks for: changed since, with the id if one is given, and with one of the statuses
      if any is given that is not empty. */
  predicate Asked(rec: ApplicationRecord, since: Time, appID: string, statuses: seq<string>) {
    && rec.changedAt > since && (appID == "" || rec.applicationID == appID)
    && ((exists i :: 0 <= i < |statuses| && statuses[i] != "") ==>
          rec.status != "" && exists i :: 0 <= i < |statuses| && statuses[i] == rec.status)
  }

  /** The answer in the request's own terms: known records that are asked for, by ascending stamp; every one of them,
      unless more is announced, and then none stamped later than one left out; more is announced exactly when a positive
      limit is smaller than their number, and then the page is full. */
  ghost predicate Answers(st: StoreState.State, since: Time, limit: int, appID: string, statuses: seq<string>,
                          views: seq<ApplicationView>, hasMore: bool) {
    && (forall i :: 0 <= i < |views| ==> views[i].app in st.apps.Values && Asked(views[i].app, since, appID, statuses))
    && (forall i, j :: 0 <= i < j < |views| ==> views[i].app.changedAt <= views[j].app.changedAt)
    && (forall id :: id in st.apps && Asked(st.apps[id], since, appID, statuses) ==>
          Shown(views, st.apps[id]) || (hasMore && NoneLater(views, st.apps[id].changedAt)))
    && var number := |set id | id in st.apps && Asked(st.apps[id], since, appID, statuses)|;
       && (hasMore <==> 0 < limit < number) && |views| == if hasMore then limit else number
  }

  ghost predicate Shown(views: seq<ApplicationView>, rec: ApplicationRecord) {
    exists i :: 0 <= i < |views| && views[i].app == rec
  }

  ghost predicate NoneLater(views: seq<ApplicationView>, at: Time) {
    forall i :: 0 <= i < |views| ==> views[i].app.changedAt <= at
  }

  lemma MatchesIsAsked(rec: ApplicationRecord, since: Time, appID: string, statuses: seq<string>)
    ensures rec.changedAt > since && Matches(rec, Filter(appID, Elements(statuses) - {""})) <==>
              Asked(rec, since, appID, statuses)
  {
    var given := Elements(statuses) - {""};
    forall i | 0 <= i < |statuses| && statuses[i] != ""
      ensures statuses[i] in given
    {
    }
    forall s | s in given
      ensures exists i :: 0 <= i < |statuses| && statuses[i] == s && s != ""
    {
    }
  }

  lemma AskedIsChanged(st: StoreState.State, since: Time, appID: string, statuses: seq<string>, id: string)
    requires id in st.apps
    ensures id in Changed(st, since, Filter(appID, Elements(statuses) - {""})) <==>
              Asked(st.apps[id], since, appID, statuses)
  {
    MatchesIsAsked(st.apps[id], since, appID, statuses);
  }

  /** Every page is such an answer. */
  lemma PageAnswers(st: StoreState.State, since: Time, limit: int, appID: string, statuses: seq<string>,
                    page: seq<string>, hasMore: bool, views: seq<ApplicationView>)
    requires IsPage(st, since, limit, Filter(appID, Elements(statuses) - {""}), page, hasMore) && Joins(st, page, views)
    ensures Answers(st, since, limit, appID, statuses, views, hasMore)
  {
    forall i | 0 <= i < |views|
      ensures views[i].app in st.apps.Values && Asked(views[i].app, since, appID, statuses)
    {
      PageEntry(st, since, limit, appID, statuses, page, hasMore, views, i);
    }
    PageOrder(st, since, limit, Filter(appID, Elements(statuses) - {""}), page, hasMore, views);
    forall id | id in st.apps && Asked(st.apps[id], since, appID, statuses)
      ensures Shown(views, st.apps[id]) || (hasMore && NoneLater(views, st.apps[id].changedAt))
    {
      AskedIsChanged(st, since, appID, statuses, id);
      LeftOut(st, since, limit, Filter(appID, Elements(statuses) - {""}), page, hasMore, views, id);
    }
    NumberAsked(st, since, appID, statuses);
    PageSize(st, since, limit, Filter(appID, Elements(statuses) - {""}), page, hasMore);
  }

  lemma NumberAsked(st: StoreState.State, since: Time, appID: string, statuses: seq<string>)
    ensures (set id | id in st.apps && Asked(st.apps[id], since, appID, statuses))
         == Changed(st, since, Filter(appID, Elements(statuses) - {""}))
  {
    forall id | id in st.apps
      ensures id in Changed(st, since, Filter(appID, Elements(statuses) - {""})) <==>
                Asked(st.apps[id], since, appID, statuses)
    {
      AskedIsChanged(st, since, appID, statuses, id);
    }
  }

  lemma PageSize(st: StoreState.State, since: Time, limit: int, f: Filter, page: seq<string>, hasMore: bool)
    requires IsPage(st, since, limit, f, page, hasMore)
    ensures hasMore <==> 0 < limit < |Changed(st, since, f)|
    ensures |page| == if hasMore then limit else |Changed(st, since, f)|
  {
    if !hasMore {
      DistinctSize(page);
      assert Elements(page) == Changed(st, since, f);
    }
  }

  lemma PageOrder(st: StoreState.State, since: Time, limit: int, f: Filter, page: seq<string>, hasMore: bool,
                  views: seq<ApplicationView>)
    requires IsPage(st, since, limit, f, page, hasMore) && Joins(st, page, views)
    ensures |views| == |page|
    ensures forall i, j :: 0 <= i < j < |views| ==> views[i].app.changedAt <= views[j].app.changedAt
  {
    forall i | 0 <= i < |views|
      ensures page[i] in st.apps && views[i].app == st.apps[page[i]]
    {
    }
  }

  lemma PageEntry(st: StoreState.State, since: Time, limit: int, appID: string, statuses: seq<string>,
                  page: seq<string>, hasMore: bool, views: seq<ApplicationView>, i: nat)
    requires IsPage(st, since, limit, Filter(appID, Elements(statuses) - {""}), page, hasMore) && Joins(st, page, views)
    requires i < |views|
    ensures views[i].app in st.apps.Values && Asked(views[i].app, since, appID, statuses)
  {
    assert page[i] in page && views[i].app == st.apps[page[i]];
    AskedIsChanged(st, since, appID, statuses, page[i]);
  }

  lemma LeftOut(st: StoreState.State, since: Time, limit: int, f: Filter, page: seq<string>, hasMore: bool,
                views: seq<ApplicationView>, id: string)
    requires IsPage(st, since, limit, f, page, hasMore) && Joins(st, page, views) && id in Changed(st, since, f)
    ensures Shown(views, st.apps[id]) || (hasMore && NoneLater(views, st.apps[id].changedAt))
  {
    if id in page {
      var i :| 0 <= i < |page| && page[i] == id;
      assert views[i].app == st.apps[id];
    } else {
      forall i | 0 <= i < |views|
        ensures views[i].app.changedAt <= st.apps[id].changedAt
      {
        assert page[i] in page;
      }
    }
  }

  function ChangedAt(st: StoreState.State): string -> Time {
    id => if id in st.apps then st.apps[id].changedAt else 0
  }

  /** A prefix of the matches in stamp order is a page. */
  lemma PrefixIsPage(st: StoreState.State, since: Time, limit: int, f: Filter, all: seq<string>, page: seq<string>)
    requires SortedBy(all, ChangedAt(st)) && Elements(all) == Changed(st, since, f) && |all| == |Changed(st, since, f)|
    requires forall i, j :: 0 <= i < j < |all| ==> all[i] != all[j]
    requires page == if limit > 0 && |all| > limit then all[..limit] else all
    ensures IsPage(st, since, limit, f, page, limit > 0 && |all| > limit)
  {
    forall i | 0 <= i < |all|
      ensures all[i] in Changed(st, since, f)
    {
      assert all[i] in Elements(all);
    }
    forall i, j | 0 <= i < j < |all|
      ensures st.apps[all[i]].changedAt <= st.apps[all[j]].changedAt
    {
      assert ChangedAt(st)(all[i]) <= ChangedAt(st)(all[j]);
    }
    assert forall j :: 0 <= j < |page| ==> page[j] == all[j];
    forall x, y | x in page && y in Changed(st, since, f) && y !in page
      ensures st.apps[x].changedAt <= st.apps[y].changedAt
    {
      var i :| 0 <= i < |page| && page[i] == x;
      assert y in Elements(all);
      var j :| 0 <= j < |all| && all[j] == y;
    }
  }

  /** The indices of the records without a stamp, ascending. */
  function Unstamped(records: seq<ApplicationRecord>): (r: seq<nat>)
    ensures forall k :: k in r <==> 0 <= k < |records| && records[k].changedAt == 0
    ensures forall i :: 0 <= i < |r| ==> r[i] < |records|
    ensures forall i, j :: 0 <= i < j < |r| ==> r[i] < r[j]
  {
    if records == [] then []
    else
      var n := |records| - 1;
      if records[n].changedAt == 0 then Unstamped(records[..n]) + [n] else Unstamped(records[..n])
  }

  lemma ScanGrows(records: seq<ApplicationRecord>, i: nat)
    requires i < |records|
    ensures Latest(records[..i + 1])
         == if records[i].changedAt > Latest(records[..i]) then records[i].changedAt else Latest(records[..i])
    ensures Unstamped(records[..i + 1]) == Unstamped(records[..i]) + if records[i].changedAt == 0 then [i] else []
  {
    assert records[..i + 1][..i] == records[..i];
  }

  function UpdatedAt(records: seq<ApplicationRecord>): nat -> Time {
    k => if 0 <= k < |records| then records[k].lastUpdatedAt else 0
  }

  lemma SortedIsBackfillOrder(records: seq<ApplicationRecord>, unstamped: seq<nat>, sorted: seq<nat>)
    requires forall k :: k in unstamped <==> 0 <= k < |records| && records[k].changedAt == 0
    requires forall i, j :: 0 <= i < j < |unstamped| ==> unstamped[i] != unstamped[j]
    requires multiset(sorted) == multiset(unstamped)
    requires SortedBy(sorted, UpdatedAt(records))
    ensures BackfillOrder(records, sorted)
  {
    Rearranged(unstamped, sorted);
    forall k | 0 <= k < |sorted|
      ensures sorted[k] < |records|
    {
      assert sorted[k] in unstamped;
    }
    forall k, l | 0 <= k < l < |sorted|
      ensures records[sorted[k]].lastUpdatedAt <= records[sorted[l]].lastUpdatedAt
    {
      assert UpdatedAt(records)(sorted[k]) <= UpdatedAt(records)(sorted[l]);
    }
  }
}
