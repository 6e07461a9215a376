/** Facts about sequences that the solver is better told than left to find. */
module Seqs {
  lemma Regroup<T>(a: seq<T>, b: seq<T>, c: seq<T>)
    ensures a + (b + c) == a + b + c
  {
  }

  lemma TailOfConcat<T>(a: seq<T>, b: seq<T>)
    requires a != []
    ensures a + b != [] && (a + b)[0] == a[0] && (a + b)[1..] == a[1..] + b
  {
  }

  lemma NothingBefore<T>(a: seq<T>)
    ensures [] + a == a
  {
  }

  lemma TakeThenDrop<T>(a: seq<T>, n: nat)
    requires n <= |a|
    ensures a[..n] + a[n..] == a
  {
  }

  lemma SlicesOfConcat<T>(a: seq<T>, b: seq<T>, k: nat)
    requires 1 <= k <= |a|
    ensures (a + b)[0] == a[0] && (a + b)[1..k] == a[1..k] && (a + b)[k..] == a[k..] + b
  {
  }

  lemma SlicesOfPrefix<T>(a: seq<T>, n: nat, k: nat)
    requires 1 <= k <= n <= |a|
    ensures a[..n][0] == a[0] && a[..n][1..k] == a[1..k] && a[..n][k..] == a[k..][..n - k]
  {
  }

  lemma ShortPrefix<T>(a: seq<T>, n: nat, k: nat)
    requires 1 <= n < k <= |a|
    ensures a[..n][0] == a[0] && a[..n][1..] == a[1..k][..n - 1]
  {
  }
}
