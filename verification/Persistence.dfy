/** State snapshots: ingesting records, rebuilding the change clock, saving and reloading. */
module Persistence {
  import opened Prelude
  import opened StoreState

  datatype Snapshot = Snapshot(apps: seq<ApplicationRecord>, pods: seq<PodRecord>)

  // ----- Ingesting applications -----

  /** The latest stamp among the records, no earlier than the zero time. */
  function Latest(records: seq<ApplicationRecord>): (latest: Time)
    ensures latest >= 0
    ensures forall i :: 0 <= i < |records| ==> records[i].changedAt <= latest
    ensures latest == 0 || exists i :: 0 <= i < |records| && records[i].changedAt == latest
  {
    if records == [] then 0
    else
      var last := records[|records| - 1].changedAt;
      var front := Latest(records[..|records| - 1]);
      if last > front then last else front
  }

  /** `order` lists the records without a stamp, by ascending update time. */
  ghost predicate BackfillOrder(records: seq<ApplicationRecord>, order: seq<nat>) {
    && (forall i :: 0 <= i < |records| ==> (records[i].changedAt == 0 <==> i in order))
    && (forall k :: 0 <= k < |order| ==> order[k] < |records|)
    && (forall k, l :: 0 <= k < l < |order| ==> order[k] != order[l])
    && (forall k, l :: 0 <= k < l < |order| ==> records[order[k]].lastUpdatedAt <= records[order[l]].lastUpdatedAt)
  }

  /** The clock before the first backfilled stamp. */
  function BackfillStart(records: seq<ApplicationRecord>, order: seq<nat>): Time
    requires order != [] ==> order[0] < |records|
  {
    var latest := Latest(records);
    if order == [] then latest
    else
      var clock := records[order[0]].lastUpdatedAt - MILLISECOND;
      if clock < latest then latest else clock
  }

  /** Stamps the listed records in turn, 1ms apart. */
  function StampInTurn(records: seq<ApplicationRecord>, order: seq<nat>, clock: Time): seq<ApplicationRecord>
    requires forall k :: 0 <= k < |order| ==> order[k] < |records|
    decreases |order|
  {
    if order == [] then records
    else
      var stamped := records[order[0]].(changedAt := clock + MILLISECOND);
      StampInTurn(records[order[0] := stamped], order[1..], clock + MILLISECOND)
  }

  /** Records indexed by application id; the last one under an id wins. */
  function IndexApps(apps: map<string, ApplicationRecord>, records: seq<ApplicationRecord>)
    : (indexed: map<string, ApplicationRecord>)
  {
    if records == [] then apps
    else
      var last := records[|records| - 1];
      IndexApps(apps, records[..|records| - 1])[last.applicationID := last]
  }

  function Later(a: Time, b: Time): Time { if a < b then b else a }

  function IngestApps(st: State, records: seq<ApplicationRecord>, order: seq<nat>): State
    requires BackfillOrder(records, order)
  {
    var start := BackfillStart(records, order);
    st.(apps := IndexApps(st.apps, StampInTurn(records, order, start)),
        lastChanged := Later(st.lastChanged, start + |order| * MILLISECOND))
  }

  /** The k-th listed record gets the k-th stamp; the others stay. */
  lemma {:induction false} StampInTurnAt(records: seq<ApplicationRecord>, order: seq<nat>, clock: Time, i: nat)
    requires forall k :: 0 <= k < |order| ==> order[k] < |records|
    requires forall k, l :: 0 <= k < l < |order| ==> order[k] != order[l]
    requires i < |records|
    ensures |StampInTurn(records, order, clock)| == |records|
    ensures i !in order ==> StampInTurn(records, order, clock)[i] == records[i]
    ensures forall k :: 0 <= k < |order| && order[k] == i
              ==> StampInTurn(records, order, clock)[i] == records[i].(changedAt := clock + (k + 1) * MILLISECOND)
    decreases |order|
  {
    if order != [] {
      var stamped := records[order[0]].(changedAt := clock + MILLISECOND);
      StampInTurnAt(records[order[0] := stamped], order[1..], clock + MILLISECOND, i);
      assert forall k :: 1 <= k < |order| ==> order[k] == order[1..][k - 1];
      if i in order[1..] { assert i != order[0]; }
    }
  }

  /** Clock backfill: every record ends stamped; backfilled stamps follow the update times in 1ms steps, strictly above
      every stamp there was; and the clock dominates them all. */
  lemma BackfillRebuildsClock(st: State, records: seq<ApplicationRecord>, order: seq<nat>)
    requires BackfillOrder(records, order)
    ensures var start := BackfillStart(records, order);
            var stamped := StampInTurn(records, order, start);
            var st' := IngestApps(st, records, order);
            && |stamped| == |records|
            && (forall i :: 0 <= i < |records| ==> stamped[i].changedAt != 0)
            && (forall i :: 0 <= i < |records| && records[i].changedAt != 0 ==> stamped[i] == records[i])
            && (forall k :: 0 <= k < |order| ==>
                  stamped[order[k]] == records[order[k]].(changedAt := start + (k + 1) * MILLISECOND))
            && (forall i :: 0 <= i < |records| ==> records[i].changedAt <= start)
            && (order != [] ==> records[order[0]].lastUpdatedAt <= start + MILLISECOND)
            && (forall i :: 0 <= i < |records| ==> stamped[i].changedAt <= st'.lastChanged)
            && st.lastChanged <= st'.lastChanged
  {
    var start := BackfillStart(records, order);
    var stamped := StampInTurn(records, order, start);
    forall i | 0 <= i < |records|
      ensures |stamped| == |records| && stamped[i].changedAt != 0
      ensures records[i].changedAt != 0 ==> stamped[i] == records[i]
      ensures stamped[i].changedAt <= start + |order| * MILLISECOND
    {
      StampInTurnAt(records, order, start, i);
    }
    forall k | 0 <= k < |order|
      ensures stamped[order[k]] == records[order[k]].(changedAt := start + (k + 1) * MILLISECOND)
    {
      StampInTurnAt(records, order, start, order[k]);
    }
    if records == [] { assert order == []; }
  }

  /** The first backfilled stamp is the earliest that is no earlier than the record's own update and 1ms after every
      stamp there was; records updated later are stamped later; and the clock stops at the largest stamp. */
  lemma BackfillIsTight(st: State, records: seq<ApplicationRecord>, order: seq<nat>)
    requires BackfillOrder(records, order)
    ensures var stamped := StampInTurn(records, order, BackfillStart(records, order));
            && |stamped| == |records|
            && (order != [] ==>
                  var first := stamped[order[0]].changedAt;
                  && records[order[0]].lastUpdatedAt <= first
                  && (forall i :: 0 <= i < |records| ==> records[i].changedAt + MILLISECOND <= first)
                  && (first == records[order[0]].lastUpdatedAt || first == MILLISECOND
                      || exists i :: 0 <= i < |records| && records[i].changedAt + MILLISECOND == first))
            && (forall i, j :: 0 <= i < |records| && 0 <= j < |records| ==>
                  records[i].changedAt == records[j].changedAt == 0
                      && records[i].lastUpdatedAt < records[j].lastUpdatedAt ==>
                    stamped[i].changedAt + MILLISECOND <= stamped[j].changedAt)
            && var clock := IngestApps(st, records, order).lastChanged;
               clock == st.lastChanged || clock == 0
               || exists i :: 0 <= i < |records| && stamped[i].changedAt == clock
  {
    BackfillRebuildsClock(st, records, order);
    var start := BackfillStart(records, order);
    if order != [] {
      assert records[order[0]].changedAt == 0;
      assert records[order[|order| - 1]].changedAt == 0;
    }
    forall i, j | 0 <= i < |records| && 0 <= j < |records| && records[i].changedAt == records[j].changedAt == 0
                  && records[i].lastUpdatedAt < records[j].lastUpdatedAt
      ensures StampInTurn(records, order, start)[i].changedAt + MILLISECOND
           <= StampInTurn(records, order, start)[j].changedAt
    {
      LaterUpdateIsLater(records, order, i, j);
    }
  }

  lemma LaterUpdateIsLater(records: seq<ApplicationRecord>, order: seq<nat>, i: nat, j: nat)
    requires BackfillOrder(records, order) && i < |records| && j < |records| && i in order && j in order
    requires records[i].lastUpdatedAt < records[j].lastUpdatedAt
    ensures var stamped := StampInTurn(records, order, BackfillStart(records, order));
            |stamped| == |records| && stamped[i].changedAt + MILLISECOND <= stamped[j].changedAt
  {
    BackfillRebuildsClock(EMPTY, records, order);
    var k :| 0 <= k < |order| && order[k] == i;
    var l :| 0 <= l < |order| && order[l] == j;
    assert k < l;
    assert (k + 1) * MILLISECOND + MILLISECOND <= (l + 1) * MILLISECOND;
  }

  // ----- Ingesting pods -----

  function RecordKey(rec: PodRecord): string {
    if rec.uid != "" then rec.uid else rec.namespace + "/" + rec.name
  }

  function IngestPods(st: State, records: seq<PodRecord>): State {
    if records == [] then st
    else
      var last := records[|records| - 1];
      var front := IngestPods(st, records[..|records| - 1]);
      front.(pods := front.pods[RecordKey(last) := last],
             drivers := if last.role == "driver" then front.drivers[last.applicationID := RecordKey(last)]
                 else front.drivers)
  }

  /** A record is filed under its UID, or under namespace and name if it has none, in the place of any before it; a
      driver's is what its application's index entry names from then on. */
  lemma LastIsFiled(st: State, records: seq<PodRecord>, rec: PodRecord)
    ensures var (front, all) := (IngestPods(st, records), IngestPods(st, records + [rec]));
            var key := if rec.uid != "" then rec.uid else rec.namespace + "/" + rec.name;
            && all.apps == front.apps && all.lastChanged == front.lastChanged && all.pods == front.pods[key := rec]
            && all.drivers == if rec.role == "driver" then front.drivers[rec.applicationID := key] else front.drivers
  {
    assert (records + [rec])[..|records|] == records;
  }

  function StampCluster(cfg: Config, st: State): State {
    if cfg.cluster == "" then st
    else
      st.(apps := map id | id in st.apps :: st.apps[id].(cluster := Preferred(st.apps[id].cluster, cfg.cluster)),
          pods := map k | k in st.pods :: st.pods[k].(cluster := Preferred(st.pods[k].cluster, cfg.cluster)))
  }

  /** What a snapshot holds, before the cluster is stamped onto it. */
  function Restored(s: Snapshot, order: seq<nat>): State
    requires BackfillOrder(s.apps, order)
  {
    IngestPods(IngestApps(EMPTY, s.apps, order), s.pods)
  }

  /** The store after starting from a snapshot. */
  function Loaded(cfg: Config, s: Snapshot, order: seq<nat>): State
    requires BackfillOrder(s.apps, order)
  {
    StampCluster(cfg, Restored(s, order))
  }

  // ----- Saving -----

  /** A snapshot lists every record of the store once, in any order. */
  ghost predicate Snapshots(s: Snapshot, st: State) {
    && |s.apps| == |st.apps| && (forall rec :: rec in s.apps <==> rec in st.apps.Values)
    && |s.pods| == |st.pods| && (forall rec :: rec in s.pods <==> rec in st.pods.Values)
  }

  /** The same for records filed under their own id: every listed record is the one filed there. */
  ghost predicate ListsByKey(s: Snapshot, st: State) {
    && (forall i :: 0 <= i < |s.apps| ==> Lookup(st.apps, s.apps[i].applicationID) == Some(s.apps[i]))
    && (forall id :: id in st.apps ==> exists i :: 0 <= i < |s.apps| && s.apps[i].applicationID == id)
    && (forall i :: 0 <= i < |s.pods| ==> Lookup(st.pods, RecordKey(s.pods[i])) == Some(s.pods[i]))
    && (forall k :: k in st.pods ==> exists i :: 0 <= i < |s.pods| && RecordKey(s.pods[i]) == k)
  }

  lemma SnapshotListsByKey(s: Snapshot, st: State)
    requires Snapshots(s, st)
    requires forall id :: id in st.apps ==> st.apps[id].applicationID == id
    requires forall k :: k in st.pods ==> RecordKey(st.pods[k]) == k
    ensures ListsByKey(s, st)
  {
    forall i | 0 <= i < |s.apps|
      ensures Lookup(st.apps, s.apps[i].applicationID) == Some(s.apps[i])
    {
      assert s.apps[i] in st.apps.Values;
    }
    forall i | 0 <= i < |s.pods|
      ensures Lookup(st.pods, RecordKey(s.pods[i])) == Some(s.pods[i])
    {
      assert s.pods[i] in st.pods.Values;
    }
    forall id | id in st.apps
      ensures exists i :: 0 <= i < |s.apps| && s.apps[i].applicationID == id
    {
      assert st.apps[id] in s.apps;
    }
    forall k | k in st.pods
      ensures exists i :: 0 <= i < |s.pods| && RecordKey(s.pods[i]) == k
    {
      assert st.pods[k] in s.pods;
    }
  }

  /** Records are filed under their own id, and none is unstamped. */
  ghost predicate Filed(st: State) {
    && (forall id :: id in st.apps ==> st.apps[id].applicationID == id && st.apps[id].changedAt != 0)
    && (forall k :: k in st.pods ==> RecordKey(st.pods[k]) == k)
  }

  lemma {:induction false} IndexAppsLookup(records: seq<ApplicationRecord>, m: map<string, ApplicationRecord>)
    requires forall i :: 0 <= i < |records| ==> Lookup(m, records[i].applicationID) == Some(records[i])
    ensures forall id :: id in IndexApps(map[], records) <==>
              exists i :: 0 <= i < |records| && records[i].applicationID == id
    ensures forall id :: id in IndexApps(map[], records) ==> Lookup(m, id) == Some(IndexApps(map[], records)[id])
  {
    if records != [] {
      var front, last := records[..|records| - 1], records[|records| - 1];
      IndexAppsLookup(front, m);
      forall id | exists i :: 0 <= i < |records| && records[i].applicationID == id
        ensures id in IndexApps(map[], records)
      {
        var i :| 0 <= i < |records| && records[i].applicationID == id;
        if i < |front| { assert front[i].applicationID == id; }
      }
      forall id | id in IndexApps(map[], front)
        ensures exists i :: 0 <= i < |records| && records[i].applicationID == id
      {
        var i :| 0 <= i < |front| && front[i].applicationID == id;
        assert records[i].applicationID == id;
      }
    }
  }

  /** The driver index names, for each application with a driver record, one of its driver records. */
  ghost predicate IndexesDrivers(pods: map<string, PodRecord>, drivers: map<string, string>) {
    && (forall a :: a in drivers ==>
          drivers[a] in pods && pods[drivers[a]].role == "driver" && pods[drivers[a]].applicationID == a)
    && (forall k :: k in pods && pods[k].role == "driver" ==> pods[k].applicationID in drivers)
  }

  lemma {:induction false} IngestPodsKeys(st: State, records: seq<PodRecord>)
    requires st.pods == map[]
    ensures var r := IngestPods(st, records);
            && r == st.(pods := r.pods, drivers := r.drivers)
            && (forall k :: k in r.pods <==> exists i :: 0 <= i < |records| && RecordKey(records[i]) == k)
  {
    if records != [] {
      var front, last := records[..|records| - 1], records[|records| - 1];
      IngestPodsKeys(st, front);
      var f, r := IngestPods(st, front), IngestPods(st, records);
      forall k | exists i :: 0 <= i < |records| && RecordKey(records[i]) == k
        ensures k in r.pods
      {
        var i :| 0 <= i < |records| && RecordKey(records[i]) == k;
        if i < |front| { assert RecordKey(front[i]) == k; }
      }
      forall k | k in f.pods
        ensures exists i :: 0 <= i < |records| && RecordKey(records[i]) == k
      {
        var i :| 0 <= i < |front| && RecordKey(front[i]) == k;
        assert RecordKey(records[i]) == k;
      }
    }
  }

  lemma {:induction false} IngestPodsLookup(st: State, records: seq<PodRecord>, m: map<string, PodRecord>)
    requires st.pods == map[]
    requires forall i :: 0 <= i < |records| ==> Lookup(m, RecordKey(records[i])) == Some(records[i])
    ensures forall k :: k in IngestPods(st, records).pods ==> Lookup(m, k) == Some(IngestPods(st, records).pods[k])
  {
    if records != [] {
      IngestPodsLookup(st, records[..|records| - 1], m);
    }
  }

  /** The index follows the pods as long as a key never changes its record. */
  lemma {:induction false} IngestPodsIndex(st: State, records: seq<PodRecord>, m: map<string, PodRecord>)
    requires st.pods == map[] && st.drivers == map[]
    requires forall i :: 0 <= i < |records| ==> Lookup(m, RecordKey(records[i])) == Some(records[i])
    ensures IndexesDrivers(IngestPods(st, records).pods, IngestPods(st, records).drivers)
  {
    if records != [] {
      var front, last := records[..|records| - 1], records[|records| - 1];
      IngestPodsIndex(st, front, m);
      IngestPodsLookup(st, front, m);
      var f := IngestPods(st, front);
      assert RecordKey(last) in f.pods ==> f.pods[RecordKey(last)] == last;
      OneMoreIndexed(f.pods, f.drivers, last);
    }
  }

  lemma OneMoreIndexed(pods: map<string, PodRecord>, drivers: map<string, string>, last: PodRecord)
    requires IndexesDrivers(pods, drivers) && (RecordKey(last) in pods ==> pods[RecordKey(last)] == last)
    ensures IndexesDrivers(pods[RecordKey(last) := last],
                           if last.role == "driver" then drivers[last.applicationID := RecordKey(last)] else drivers)
  {
  }

  lemma AppsRestored(records: seq<ApplicationRecord>, m: map<string, ApplicationRecord>)
    requires forall i :: 0 <= i < |records| ==> Lookup(m, records[i].applicationID) == Some(records[i])
    requires forall id :: id in m ==> exists i :: 0 <= i < |records| && records[i].applicationID == id
    ensures IndexApps(map[], records) == m
  {
    IndexAppsLookup(records, m);
  }

  lemma PodsRestored(st: State, records: seq<PodRecord>, m: map<string, PodRecord>)
    requires st.pods == map[] && st.drivers == map[]
    requires forall i :: 0 <= i < |records| ==> Lookup(m, RecordKey(records[i])) == Some(records[i])
    requires forall k :: k in m ==> exists i :: 0 <= i < |records| && RecordKey(records[i]) == k
    ensures var r := IngestPods(st, records);
            r == st.(pods := m, drivers := r.drivers) && IndexesDrivers(r.pods, r.drivers)
  {
    IngestPodsKeys(st, records);
    IngestPodsIndex(st, records, m);
    PodsAreAll(st, records, m);
  }

  lemma PodsAreAll(st: State, records: seq<PodRecord>, m: map<string, PodRecord>)
    requires st.pods == map[]
    requires forall i :: 0 <= i < |records| ==> Lookup(m, RecordKey(records[i])) == Some(records[i])
    requires forall k :: k in m ==> exists i :: 0 <= i < |records| && RecordKey(records[i]) == k
    ensures IngestPods(st, records).pods == m
  {
    IngestPodsKeys(st, records);
    IngestPodsLookup(st, records, m);
    MapsAgree(IngestPods(st, records).pods, m);
  }

  /** Every record knows its cluster where one is configured. */
  predicate Clustered(cfg: Config, st: State) {
    cfg.cluster != "" ==>
      (forall id :: id in st.apps ==> st.apps[id].cluster != "")
          && (forall k :: k in st.pods ==> st.pods[k].cluster != "")
  }

  /** Stamping the cluster is for records that do not know theirs. */
  lemma StampIsNeeded(cfg: Config, st: State)
    ensures Clustered(cfg, StampCluster(cfg, st))
    ensures Clustered(cfg, st) <==> StampCluster(cfg, st) == st
    ensures forall id :: id in st.apps ==>
              StampCluster(cfg, st).apps[id].cluster
              == if st.apps[id].cluster == "" then cfg.cluster else st.apps[id].cluster
    ensures forall k :: k in st.pods ==>
              StampCluster(cfg, st).pods[k].cluster
              == if st.pods[k].cluster == "" then cfg.cluster else st.pods[k].cluster
  {
    var st' := StampCluster(cfg, st);
    if cfg.cluster != "" {
      forall id | id in st.apps && st.apps[id].cluster == ""
        ensures st' != st
      {
        assert st'.apps[id] != st.apps[id];
      }
      forall k | k in st.pods && st.pods[k].cluster == ""
        ensures st' != st
      {
        assert st'.pods[k] != st.pods[k];
      }
    }
  }

  /** It changes nothing but the cluster. */
  lemma StampKeepsTheRest(cfg: Config, st: State)
    ensures var st' := StampCluster(cfg, st);
            && st'.apps.Keys == st.apps.Keys && st'.pods.Keys == st.pods.Keys
            && st'.drivers == st.drivers && st'.lastChanged == st.lastChanged
            && (forall id :: id in st.apps ==> st'.apps[id] == st.apps[id].(cluster := st'.apps[id].cluster))
            && (forall k :: k in st.pods ==> st'.pods[k] == st.pods[k].(cluster := st'.pods[k].cluster))
  {
  }

  lemma StampKeepsIndex(cfg: Config, st: State)
    requires IndexesDrivers(st.pods, st.drivers)
    ensures IndexesDrivers(StampCluster(cfg, st).pods, StampCluster(cfg, st).drivers)
  {
  }

  lemma NothingToBackfill(st: State, s: Snapshot, order: seq<nat>)
    requires Filed(st) && ListsByKey(s, st) && BackfillOrder(s.apps, order)
    ensures order == []
  {
    forall i | 0 <= i < |s.apps|
      ensures s.apps[i].changedAt != 0
    {
      assert Lookup(st.apps, s.apps[i].applicationID) == Some(s.apps[i]);
    }
    SomethingUnstamped(s.apps, order);
  }

  lemma SomethingUnstamped(records: seq<ApplicationRecord>, order: seq<nat>)
    requires BackfillOrder(records, order)
    ensures order != [] ==> exists i :: 0 <= i < |records| && records[i].changedAt == 0
  {
    if order != [] { assert order[0] in order; }
  }

  lemma IngestStamped(records: seq<ApplicationRecord>)
    requires BackfillOrder(records, [])
    ensures IngestApps(EMPTY, records, []) == State(IndexApps(map[], records), map[], map[], Latest(records))
  {
  }

  /** The clock of a full listing is the latest stamp of the map. */
  lemma ClockRestored(s: Snapshot, st: State)
    requires ListsByKey(s, st)
    ensures forall id :: id in st.apps ==> st.apps[id].changedAt <= Latest(s.apps)
    ensures Latest(s.apps) == 0 || exists id :: id in st.apps && st.apps[id].changedAt == Latest(s.apps)
  {
  }

  lemma AppsReloaded(st: State, s: Snapshot)
    requires ListsByKey(s, st) && BackfillOrder(s.apps, [])
    ensures IngestApps(EMPTY, s.apps, []) == State(st.apps, map[], map[], Latest(s.apps))
  {
    IngestStamped(s.apps);
    AppsRestored(s.apps, st.apps);
  }

  /** Save and load round trip: a snapshot in any record order restores both record maps exactly, an index that names a
      driver record of every application that has one, and a clock equal to the latest retained stamp. */
  lemma ReloadRestores(st: State, s: Snapshot, order: seq<nat>)
    requires Filed(st) && Snapshots(s, st) && BackfillOrder(s.apps, order)
    ensures var st' := Restored(s, order);
            && st' == State(st.apps, st.pods, st'.drivers, st'.lastChanged)
            && IndexesDrivers(st'.pods, st'.drivers)
            && st'.lastChanged >= 0
            && (forall id :: id in st.apps ==> st.apps[id].changedAt <= st'.lastChanged)
            && (st'.lastChanged == 0 || exists id :: id in st.apps && st.apps[id].changedAt == st'.lastChanged)
  {
    SnapshotListsByKey(s, st);
    NothingToBackfill(st, s, order);
    ListingRestores(st, s);
    ClockRestored(s, st);
  }

  lemma ListingRestores(st: State, s: Snapshot)
    requires ListsByKey(s, st) && BackfillOrder(s.apps, [])
    ensures var st' := Restored(s, []);
            st' == State(st.apps, st.pods, st'.drivers, Latest(s.apps)) && IndexesDrivers(st'.pods, st'.drivers)
  {
    AppsReloaded(st, s);
    PodsRestored(IngestApps(EMPTY, s.apps, []), s.pods, st.pods);
  }

  lemma StampSameRecords(cfg: Config, a: State, b: State)
    requires b.apps == a.apps && b.pods == a.pods
    ensures StampCluster(cfg, b) == State(StampCluster(cfg, a).apps, StampCluster(cfg, a).pods, b.drivers,
            b.lastChanged)
    ensures Clustered(cfg, b) <==> Clustered(cfg, a)
  {
  }

  /** Starting from that file under any configuration gives those records with the cluster stamped where it was
      unknown. */
  lemma LoadRestores(cfg: Config, st: State, s: Snapshot, order: seq<nat>)
    requires Filed(st) && Snapshots(s, st) && BackfillOrder(s.apps, order)
    ensures var (st', stamped) := (Loaded(cfg, s, order), StampCluster(cfg, st));
            && st' == State(stamped.apps, stamped.pods, Restored(s, order).drivers, Restored(s, order).lastChanged)
            && IndexesDrivers(st'.pods, st'.drivers)
            && (Loaded(cfg, s, order) == Restored(s, order) <==> Clustered(cfg, st))
  {
    ReloadRestores(st, s, order);
    StampSameRecords(cfg, st, Restored(s, order));
    StampIsNeeded(cfg, Restored(s, order));
    StampKeepsIndex(cfg, Restored(s, order));
  }

  ghost predicate OneDriverPerApp(st: State) {
    forall k, l :: k in st.pods && l in st.pods && st.pods[k].role == "driver" && st.pods[l].role == "driver" ==>
                     st.pods[k].applicationID == st.pods[l].applicationID ==> k == l
  }

  /** With one driver record per application, the index over given pods is unique. */
  lemma IndexIsUnique(a: State, b: State)
    requires a.pods == b.pods && OneDriverPerApp(a)
    requires IndexesDrivers(a.pods, a.drivers) && IndexesDrivers(b.pods, b.drivers)
    ensures a.drivers == b.drivers
  {
  }

  /** With one driver record per application the reloaded index is the saved one. */
  lemma ReloadRestoresIndex(st: State, s: Snapshot, order: seq<nat>)
    requires Filed(st) && Snapshots(s, st) && BackfillOrder(s.apps, order)
    requires IndexesDrivers(st.pods, st.drivers) && OneDriverPerApp(st)
    ensures Restored(s, order).drivers == st.drivers
  {
    ReloadRestores(st, s, order);
    IndexIsUnique(st, Restored(s, order));
  }
}
