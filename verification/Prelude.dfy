/** Datatypes and the sorting contract shared by every component. */
module Prelude {

  datatype Option<+T> = None | Some(value: T)

  /** Nanoseconds; 0 is the zero time of the source's clock type. */
  type Time = int

  const MILLISECOND: Time := 1_000_000

  /** The value stored under `x`, as an option. */
  function Lookup<X, Y>(m: map<X, Y>, x: X): Option<Y> {
    if x in m then Some(m[x]) else None
  }

  /** Equality of maps from equality of every lookup. */
  lemma MapsAgree<X(!new), Y>(m: map<X, Y>, n: map<X, Y>)
    requires forall x :: Lookup(m, x) == Lookup(n, x)
    ensures m == n
  {
    forall x
      ensures x in m <==> x in n
      ensures x in m ==> m[x] == n[x]
    {
      assert Lookup(m, x) == Lookup(n, x);
    }
  }

  lemma Associates<T>(a: seq<T>, b: seq<T>, c: seq<T>)
    ensures a + b + c == a + (b + c)
  {
  }

  ghost predicate SortedBy<T>(s: seq<T>, key: T -> int) {
    forall i, j :: 0 <= i < j < |s| ==> key(s[i]) <= key(s[j])
  }

  /** Stands for the library's unstable sort: callers use only the contract. */
  function Sort<T>(s: seq<T>, key: T -> int): (r: seq<T>)
    ensures SortedBy(r, key)
    ensures multiset(r) == multiset(s)
  {
    if s == [] then []
    else
      assert s == [s[0]] + s[1..];
      Insert(s[0], Sort(s[1..], key), key)
  }

  function Insert<T>(x: T, s: seq<T>, key: T -> int): (r: seq<T>)
    requires SortedBy(s, key)
    ensures SortedBy(r, key)
    ensures multiset(r) == multiset(s) + multiset{x}
  {
    var n := Rank(key(x), s, key);
    InsertKeepsElements(x, s, n);
    s[..n] + [x] + s[n..]
  }

  lemma InsertKeepsElements<T>(x: T, s: seq<T>, n: nat)
    requires n <= |s|
    ensures multiset(s[..n] + [x] + s[n..]) == multiset(s) + multiset{x}
  {
    assert s == s[..n] + s[n..];
  }

  /** How many leading elements of `s` have a key below `k`. */
  function Rank<T>(k: int, s: seq<T>, key: T -> int): (n: nat)
    ensures n <= |s|
    ensures forall i :: 0 <= i < n ==> key(s[i]) < k
    ensures n < |s| ==> k <= key(s[n])
  {
    if s == [] || k <= key(s[0]) then 0 else 1 + Rank(k, s[1..], key)
  }

  /** A rearrangement of distinct elements is distinct and has the same elements. */
  lemma Rearranged<T(!new)>(s: seq<T>, r: seq<T>)
    requires multiset(s) == multiset(r) && forall i, j :: 0 <= i < j < |s| ==> s[i] != s[j]
    ensures |r| == |s| && (forall x :: x in r <==> x in s)
    ensures forall i, j :: 0 <= i < j < |r| ==> r[i] != r[j]
  {
    assert |multiset(r)| == |r| && |multiset(s)| == |s|;
    forall x
      ensures x in r <==> x in s
    {
      assert x in multiset(r) <==> x in multiset(s);
    }
    forall i, j | 0 <= i < j < |r|
      ensures r[i] != r[j]
    {
      if r[i] == r[j] {
        assert r == r[..i] + [r[i]] + r[i + 1..j] + [r[j]] + r[j + 1..];
        assert multiset(r)[r[i]] >= 2;
        OnlyOnce(s, r[i]);
      }
    }
  }

  lemma {:induction false} OnlyOnce<T>(s: seq<T>, x: T)
    requires forall i, j :: 0 <= i < j < |s| ==> s[i] != s[j]
    ensures multiset(s)[x] <= 1
  {
    if s != [] {
      var front := s[..|s| - 1];
      OnlyOnce(front, x);
      assert s == front + [s[|s| - 1]];
      if x == s[|s| - 1] { assert x !in front; }
    }
  }
}
