/** Replaying old events over a newer snapshot. */
module Replay {
  import opened Prelude
  import opened Kubernetes
  import opened WatchState
  import opened Cluster

  function Max(a: nat, b: nat): nat { if a <= b then b else a }

  /** Events `m` up to `n` applied to a cache in order. */
  function Replayed(h: History, cache: PodCache, m: nat, n: nat): PodCache
    requires m <= n <= |h|
  {
    if m == n then cache else Apply(Replayed(h, cache, m, n - 1), h[n - 1])
  }

  function ReplayCalls(h: History, cache: PodCache, m: nat, n: nat): seq<Call>
    requires m <= n <= |h|
  {
    if m == n then [] else ReplayCalls(h, cache, m, n - 1) + Calls(Replayed(h, cache, m, n - 1), h[n - 1])
  }

  /** Each key is either as it was at `m` or as it was at `n`. */
  ghost predicate Between(h: History, cache: PodCache, m: nat, n: nat)
    requires m <= |h| && n <= |h|
  {
    forall x :: Lookup(cache, x) == Lookup(StateAt(h, m), x) || Lookup(cache, x) == Lookup(StateAt(h, n), x)
  }

  /** One event keeps the cache between the replay position and the snapshot. */
  lemma BetweenStep(h: History, cache: PodCache, m: nat, n: nat)
    requires Increasing(h) && m < |h| && m <= n <= |h| && Between(h, cache, m, n)
    ensures Between(h, Apply(cache, h[m]), m + 1, Max(m + 1, n))
  {
    var e := h[m];
    var key := MetaKey(e.pod);
    forall x
      ensures Lookup(Apply(cache, e), x) == Lookup(StateAt(h, m + 1), x)
              || (m < n && Lookup(Apply(cache, e), x) == Lookup(StateAt(h, n), x))
    {
      assert Lookup(cache, x) == Lookup(StateAt(h, m), x) || Lookup(cache, x) == Lookup(StateAt(h, n), x);
      if x == key && x in cache {
        if x in StateAt(h, m) { AliveOrder(h, m, x, m); }
        if x in StateAt(h, n) { AliveOrder(h, n, x, m); }
      }
    }
  }

  lemma {:induction false} ReplayStaysBetween(h: History, k: nat, n: nat, m: nat)
    requires Increasing(h) && k <= n <= |h| && k <= m <= |h|
    ensures Between(h, Replayed(h, StateAt(h, n), k, m), m, Max(m, n))
  {
    if m > k {
      ReplayStaysBetween(h, k, n, m - 1);
      BetweenStep(h, Replayed(h, StateAt(h, n), k, m - 1), m - 1, Max(m - 1, n));
    }
  }

  /** Resume converges: from a snapshot taken at `n`, replaying every event after an older position `k` yields the
      cluster state of the replay position as soon as that reaches `n`. */
  lemma ResumeConverges(h: History, k: nat, n: nat, m: nat)
    requires Increasing(h) && k <= n <= m <= |h|
    ensures Replayed(h, StateAt(h, n), k, m) == StateAt(h, m)
  {
    ReplayStaysBetween(h, k, n, m);
    MapsAgree(Replayed(h, StateAt(h, n), k, m), StateAt(h, m));
  }

  /** Every deletion after the resumed position reaches the handler, whatever the snapshot held. */
  lemma {:induction false} ReplayDispatchesDeletes(h: History, cache: PodCache, k: nat, m: nat, i: nat)
    requires k <= i < m <= |h| && h[i].kind.Deleted?
    ensures OnDelete(h[i].pod) in ReplayCalls(h, cache, k, m)
  {
    if i < m - 1 {
      ReplayDispatchesDeletes(h, cache, k, m - 1, i);
    }
  }
}
