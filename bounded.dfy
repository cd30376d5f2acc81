/**
 * Bounded vectors are sequences whose length the pallet keeps at or under a capacity
 * constant; `try_push` fails on a full vector. This module holds the operations on them
 * that both pallets share.
 */
module Bounded {

  /** `get(..).unwrap_or_default()` on a map of vectors. */
  function GetOrEmpty<K, T>(m: map<K, seq<T>>, k: K): seq<T>
  {
    if k in m then m[k] else []
  }

  /** `try_push` on a vector bounded by `bound` succeeds. */
  predicate CanPush<T>(s: seq<T>, bound: nat)
  {
    |s| < bound
  }

  /** `retain(|x| x != v)`: drop every occurrence of `v`, keep the rest in order. */
  function RemoveAll<T(==,!new)>(s: seq<T>, v: T): (r: seq<T>)
    ensures forall x :: x in r <==> x in s && x != v
    ensures |r| <= |s|
    ensures forall x :: x != v ==> multiset(r)[x] == multiset(s)[x]
  {
    if s == [] then []
    else
      assert s == [s[0]] + s[1..];
      if s[0] == v then RemoveAll(s[1..], v) else [s[0]] + RemoveAll(s[1..], v)
  }

  /** Retaining over a concatenation retains each part: the relative order is kept. */
  lemma {:induction false} RemoveAllAppend<T(!new)>(a: seq<T>, b: seq<T>, v: T)
    ensures RemoveAll(a + b, v) == RemoveAll(a, v) + RemoveAll(b, v)
  {
    if a == [] {
      assert a + b == b;
    } else {
      assert (a + b)[1..] == a[1..] + b;
      RemoveAllAppend(a[1..], b, v);
    }
  }

  /** Nothing to remove: the vector is written back as it was. */
  lemma {:induction false} RemoveAllAbsent<T(!new)>(s: seq<T>, v: T)
    requires v !in s
    ensures RemoveAll(s, v) == s
  {
    if s != [] {
      assert s[0] != v;
      RemoveAllAbsent(s[1..], v);
      assert s == [s[0]] + s[1..];
    }
  }

  /** Removing twice is removing once (the unequip helper is idempotent). */
  lemma RemoveAllIdempotent<T(!new)>(s: seq<T>, v: T)
    ensures RemoveAll(RemoveAll(s, v), v) == RemoveAll(s, v)
  {
    RemoveAllAbsent(RemoveAll(s, v), v);
  }
}
