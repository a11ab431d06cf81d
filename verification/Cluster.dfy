/** The watched cluster: a history of pod events with increasing resource versions. */
module Cluster {
  import opened Prelude
  import opened Kubernetes
  import opened ResourceVersion
  import opened WatchState

  type History = seq<Event>

  /** Versions are numbers and grow along the history. */
  ghost predicate Increasing(h: History) {
    && (forall i :: 0 <= i < |h| ==> Numeric(h[i].pod.resourceVersion))
    && (forall i, j :: 0 <= i < j < |h| ==> Rv(h, i) < Rv(h, j))
  }

  function Rv(h: History, i: nat): int
    requires i < |h| && Numeric(h[i].pod.resourceVersion)
  {
    Number(h[i].pod.resourceVersion)
  }

  /** The pods alive after the first `n` events, by namespace/name. */
  function StateAt(h: History, n: nat): PodCache
    requires n <= |h|
  {
    if n == 0 then map[]
    else
      var key := MetaKey(h[n - 1].pod);
      if h[n - 1].kind.Deleted? then StateAt(h, n - 1) - {key} else StateAt(h, n - 1)[key := h[n - 1].pod]
  }

  /** A pod alive at `n` carries the version of the last event on its key before `n`. */
  lemma {:induction false} AliveVersion(h: History, n: nat, x: string) returns (i: nat)
    requires n <= |h| && x in StateAt(h, n)
    ensures i < n && h[i].pod == StateAt(h, n)[x] && MetaKey(h[i].pod) == x && !h[i].kind.Deleted?
    ensures forall j :: i < j < n ==> MetaKey(h[j].pod) != x
  {
    if MetaKey(h[n - 1].pod) == x {
      i := n - 1;
    } else {
      i := AliveVersion(h, n - 1, x);
    }
  }

  /** Comparing a pod alive at `n` with an event on the same key tells past from future. */
  lemma AliveOrder(h: History, n: nat, x: string, j: nat)
    requires Increasing(h) && n <= |h| && x in StateAt(h, n) && j < |h| && MetaKey(h[j].pod) == x
    ensures RvAtLeast(StateAt(h, n)[x].resourceVersion, h[j].pod.resourceVersion) <==> j < n
  {
    var i := AliveVersion(h, n, x);
    assert Rv(h, i) < Rv(h, j) || Rv(h, j) < Rv(h, i) || i == j;
  }

  /** Two versions of one key: the later cluster state holds the newer or the same pod. */
  lemma AliveMonotone(h: History, m: nat, n: nat, x: string)
    requires Increasing(h) && m <= n <= |h| && x in StateAt(h, m) && x in StateAt(h, n)
    ensures RvAtLeast(StateAt(h, n)[x].resourceVersion, StateAt(h, m)[x].resourceVersion)
    ensures RvAtLeast(StateAt(h, m)[x].resourceVersion, StateAt(h, n)[x].resourceVersion)
            ==> StateAt(h, m)[x] == StateAt(h, n)[x]
  {
    var i := AliveVersion(h, m, x);
    var j := AliveVersion(h, n, x);
    assert i == j || i < j;
    if i < j {
      assert Rv(h, i) < Rv(h, j);
    }
  }

  /** How many of the first `n` events a position covers. */
  function Covered(h: History, v: int, n: nat): (k: nat)
    requires n <= |h| && forall i :: 0 <= i < |h| ==> Numeric(h[i].pod.resourceVersion)
    ensures k <= n
    ensures k > 0 ==> Rv(h, k - 1) <= v
    ensures forall i :: k <= i < n ==> v < Rv(h, i)
  {
    if n == 0 then 0 else if Rv(h, n - 1) <= v then n else Covered(h, v, n - 1)
  }

  /** A watch opened at `rv` delivers exactly the events from this index on. */
  function IndexOf(h: History, rv: string): nat
    requires Numeric(rv) && forall i :: 0 <= i < |h| ==> Numeric(h[i].pod.resourceVersion)
  {
    Covered(h, Number(rv), |h|)
  }

  lemma IndexOfEvent(h: History, i: nat)
    requires Increasing(h) && i < |h|
    ensures IndexOf(h, h[i].pod.resourceVersion) == i + 1
  {
    var v, k := Rv(h, i), IndexOf(h, h[i].pod.resourceVersion);
    assert forall j :: i < j < |h| ==> v < Rv(h, j);
  }

  /** `items` enumerates the pods of a cache, in any order. */
  ghost predicate Enumerates(items: seq<Pod>, m: PodCache) {
    && (forall i :: 0 <= i < |items| ==> Lookup(m, MetaKey(items[i])) == Some(items[i]))
    && (forall x :: x in m ==> exists i :: 0 <= i < |items| && items[i] == m[x] && MetaKey(items[i]) == x)
  }

  lemma {:induction false} CacheOfLookup(items: seq<Pod>, m: PodCache)
    requires forall i :: 0 <= i < |items| ==> Lookup(m, MetaKey(items[i])) == Some(items[i])
    ensures forall x :: x in CacheOf(items) <==> exists i :: 0 <= i < |items| && MetaKey(items[i]) == x
    ensures forall x :: x in CacheOf(items) ==> x in m && CacheOf(items)[x] == m[x]
  {
    if items != [] {
      var front, last := items[..|items| - 1], items[|items| - 1];
      CacheOfLookup(front, m);
      assert forall i :: 0 <= i < |items| - 1 ==> items[i] == front[i];
      forall x | exists i :: 0 <= i < |items| && MetaKey(items[i]) == x
        ensures x in CacheOf(items)
      {
        var i :| 0 <= i < |items| && MetaKey(items[i]) == x;
        if i < |items| - 1 { assert MetaKey(front[i]) == x; }
      }
    }
  }

  /** Replacing the cache by a list restores exactly the listed pods. */
  lemma CacheOfListing(items: seq<Pod>, m: PodCache)
    requires Enumerates(items, m)
    ensures CacheOf(items) == m
  {
    CacheOfLookup(items, m);
  }
}
