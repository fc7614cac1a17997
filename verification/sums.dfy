/** Sums over tables of rows. */
module Sums {
  /** The sum of `f` over the first `n` rows. */
  function SumTo<T>(s: seq<T>, n: nat, f: T -> int): int
    requires n <= |s|
  {
    if n == 0 then 0 else SumTo(s, n - 1, f) + f(s[n - 1])
  }

  function Sum<T>(s: seq<T>, f: T -> int): int { SumTo(s, |s|, f) }

  /** Prefix sums look at the prefix only. */
  lemma {:induction false} SumPrefix<T>(s: seq<T>, t: seq<T>, n: nat, f: T -> int)
    requires n <= |s| && n <= |t| && forall k :: 0 <= k < n ==> s[k] == t[k]
    ensures SumTo(s, n, f) == SumTo(t, n, f)
  {
    if n > 0 {
      SumPrefix(s, t, n - 1, f);
    }
  }

  lemma SumAppend<T>(s: seq<T>, v: T, f: T -> int)
    ensures Sum(s + [v], f) == Sum(s, f) + f(v)
  {
    SumPrefix(s, s + [v], |s|, f);
  }

  lemma {:induction false} SumUpdateTo<T>(s: seq<T>, i: nat, v: T, f: T -> int, n: nat)
    requires i < |s| && n <= |s|
    ensures SumTo(s[i := v], n, f) == SumTo(s, n, f) + if i < n then f(v) - f(s[i]) else 0
  {
    if n > 0 {
      SumUpdateTo(s, i, v, f, n - 1);
    }
  }

  lemma SumUpdate<T>(s: seq<T>, i: nat, v: T, f: T -> int)
    requires i < |s|
    ensures Sum(s[i := v], f) == Sum(s, f) - f(s[i]) + f(v)
  {
    SumUpdateTo(s, i, v, f, |s|);
  }

  /** A part is at most the whole when no row is negative. */
  lemma {:induction false} SumCovers<T>(s: seq<T>, i: nat, n: nat, f: T -> int)
    requires i < n <= |s| && forall k :: 0 <= k < n ==> f(s[k]) >= 0
    ensures 0 <= f(s[i]) <= SumTo(s, n, f)
  {
    SumNonNegative(s, n - 1, f);
    if i < n - 1 {
      SumCovers(s, i, n - 1, f);
    }
  }

  lemma {:induction false} SumNonNegative<T>(s: seq<T>, n: nat, f: T -> int)
    requires n <= |s| && forall k :: 0 <= k < n ==> f(s[k]) >= 0
    ensures SumTo(s, n, f) >= 0
  {
    if n > 0 {
      SumNonNegative(s, n - 1, f);
    }
  }

  lemma {:induction false} SumZero<T>(s: seq<T>, n: nat, f: T -> int)
    requires n <= |s| && forall k :: 0 <= k < n ==> f(s[k]) == 0
    ensures SumTo(s, n, f) == 0
  {
    if n > 0 {
      SumZero(s, n - 1, f);
    }
  }
}
