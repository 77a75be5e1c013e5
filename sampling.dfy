/** `random.choice` and `random.sample` as total functions of the random
    numbers drawn. A draw is an arbitrary natural number, so every property
    proved for all draws holds whatever the random module returns; an
    exhausted stream of draws reads as zeros. */
module Sampling {

  function Head(draws: seq<nat>): nat {
    if draws == [] then 0 else draws[0]
  }

  function Tail(draws: seq<nat>): seq<nat> {
    if draws == [] then [] else draws[1..]
  }

  /** The `j`-th draw of a stream. */
  function Nth(draws: seq<nat>, j: nat): nat {
    if j < |draws| then draws[j] else 0
  }

  predicate Distinct<T(==)>(s: seq<T>) {
    forall i, j :: 0 <= i < j < |s| ==> s[i] != s[j]
  }

  /** The position `random.choice` picks among `n > 0` items. */
  function ChoiceIndex(n: nat, draw: nat): (i: nat)
    requires n > 0
    ensures i < n
  {
    draw % n
  }

  /** `random.choice(pool)`: some element of the pool. */
  function Choice<T>(pool: seq<T>, draw: nat): (x: T)
    requires |pool| > 0
    ensures x in pool
  {
    pool[ChoiceIndex(|pool|, draw)]
  }

  lemma ChoiceOfSmallDraw(n: nat, draw: nat)
    requires draw < n
    ensures ChoiceIndex(n, draw) == draw
  {
  }

  /** The pool without its element at `idx`. */
  function Remove<T>(s: seq<T>, idx: nat): (r: seq<T>)
    requires idx < |s|
    ensures |r| == |s| - 1
  {
    s[..idx] + s[idx + 1..]
  }

  lemma RemoveMultiset<T>(s: seq<T>, idx: nat)
    requires idx < |s|
    ensures multiset(s) == multiset{s[idx]} + multiset(Remove(s, idx))
  {
    assert s == s[..idx] + [s[idx]] + s[idx + 1..];
  }

  lemma RemoveKeepsOthers<T>(s: seq<T>, idx: nat, x: T)
    requires idx < |s| && x in s && x != s[idx]
    ensures x in Remove(s, idx)
  {
    RemoveMultiset(s, idx);
    assert x in multiset(s);
  }

  lemma RemoveDistinct<T>(s: seq<T>, idx: nat)
    requires idx < |s|
    ensures Distinct(s) ==> Distinct(Remove(s, idx)) && s[idx] !in Remove(s, idx)
  {
    var r := Remove(s, idx);
    assert forall i :: 0 <= i < |r| ==> r[i] == if i < idx then s[i] else s[i + 1];
  }

  /** `random.sample(pool, k)` (ValueError in Python when `k` exceeds the
      pool): `k` draws one after the other, each taking an element from the
      positions not drawn yet. */
  function Sample<T>(pool: seq<T>, k: nat, draws: seq<nat>): (r: seq<T>)
    requires k <= |pool|
    ensures |r| == k
    decreases k
  {
    if k == 0 then []
    else
      var idx := ChoiceIndex(|pool|, Head(draws));
      [pool[idx]] + Sample(Remove(pool, idx), k - 1, Tail(draws))
  }

  /** The first draw of a sample and the sample of what remains. */
  lemma SampleCons<T>(pool: seq<T>, k: nat, draws: seq<nat>)
    requires 0 < k <= |pool|
    ensures var idx := ChoiceIndex(|pool|, Head(draws));
            Sample(pool, k, draws) == [pool[idx]] + Sample(Remove(pool, idx), k - 1, Tail(draws))
  {
  }

  lemma {:induction false} SampleMultiset<T>(pool: seq<T>, k: nat, draws: seq<nat>)
    requires k <= |pool|
    ensures multiset(Sample(pool, k, draws)) <= multiset(pool)
    decreases k
  {
    if k > 0 {
      var idx := ChoiceIndex(|pool|, Head(draws));
      var rem := Remove(pool, idx);
      var rest := Sample(rem, k - 1, Tail(draws));
      SampleMultiset(rem, k - 1, Tail(draws));
      RemoveMultiset(pool, idx);
      SampleCons(pool, k, draws);
      var one := multiset{pool[idx]};
      assert multiset(Sample(pool, k, draws)) == one + multiset(rest);
    }
  }

  /** A sample has `k` elements, each from the pool, and takes each element
      at most as often as it occurs there. */
  lemma SampleSubMultiset<T>(pool: seq<T>, k: nat, draws: seq<nat>)
    requires k <= |pool|
    ensures |Sample(pool, k, draws)| == k
    ensures multiset(Sample(pool, k, draws)) <= multiset(pool)
    ensures forall i :: 0 <= i < k ==> Sample(pool, k, draws)[i] in pool
  {
    var r := Sample(pool, k, draws);
    SampleMultiset(pool, k, draws);
    forall i | 0 <= i < k ensures r[i] in pool {
      assert r[i] in multiset(r);
    }
  }

  function IndexOf<T(==)>(s: seq<T>, x: T): (i: nat)
    requires x in s
    ensures i < |s| && s[i] == x
  {
    if s[0] == x then 0 else 1 + IndexOf(s[1..], x)
  }

  lemma TailInRemaining<T>(pool: seq<T>, target: seq<T>)
    requires target != [] && Distinct(target)
    requires forall i :: 0 <= i < |target| ==> target[i] in pool
    ensures forall i :: 0 <= i < |target| - 1 ==> target[1..][i] in Remove(pool, IndexOf(pool, target[0]))
  {
    var idx := IndexOf(pool, target[0]);
    forall i | 0 <= i < |target| - 1
      ensures target[1..][i] in Remove(pool, idx)
    {
      RemoveKeepsOthers(pool, idx, target[i + 1]);
    }
  }

  /** The draws under which `Sample` produces `target`. */
  function DrawsFor<T(==)>(pool: seq<T>, target: seq<T>): (draws: seq<nat>)
    requires Distinct(pool) && Distinct(target) && |target| <= |pool|
    requires forall i :: 0 <= i < |target| ==> target[i] in pool
    ensures target != [] ==> Head(draws) == IndexOf(pool, target[0])
    ensures target != [] ==> Tail(draws) == DrawsFor(Remove(pool, IndexOf(pool, target[0])), target[1..])
    decreases |target|
  {
    if target == [] then []
    else
      var idx := IndexOf(pool, target[0]);
      RemoveDistinct(pool, idx);
      TailInRemaining(pool, target);
      [idx] + DrawsFor(Remove(pool, idx), target[1..])
  }

  lemma {:induction false} SampleReaches<T>(pool: seq<T>, target: seq<T>)
    requires Distinct(pool) && Distinct(target) && |target| <= |pool|
    requires forall i :: 0 <= i < |target| ==> target[i] in pool
    ensures Sample(pool, |target|, DrawsFor(pool, target)) == target
    decreases |target|
  {
    if target != [] {
      var idx := IndexOf(pool, target[0]);
      var rem := Remove(pool, idx);
      RemoveDistinct(pool, idx);
      TailInRemaining(pool, target);
      SampleReaches(rem, target[1..]);
      var draws := DrawsFor(pool, target);
      ChoiceOfSmallDraw(|pool|, idx);
      SampleCons(pool, |target|, draws);
      assert [target[0]] + target[1..] == target;
    } else {
      assert Sample(pool, 0, []) == [];
    }
  }

  /** Every ordered selection of distinct elements of a pool without
      repetitions is the outcome of some draws, so the model excludes no
      result `random.sample` can return. */
  lemma SampleReachesEveryChoice<T>(pool: seq<T>, target: seq<T>)
    requires Distinct(pool) && Distinct(target) && |target| <= |pool|
    requires forall i :: 0 <= i < |target| ==> target[i] in pool
    ensures exists draws :: Sample(pool, |target|, draws) == target
  {
    SampleReaches(pool, target);
    var draws := DrawsFor(pool, target);
    assert Sample(pool, |target|, draws) == target;
  }

  /** `[pool[p] for p in ps]` */
  function At<T>(pool: seq<T>, ps: seq<nat>): (r: seq<T>)
    requires forall k :: 0 <= k < |ps| ==> ps[k] < |pool|
    ensures |r| == |ps|
    ensures forall k :: 0 <= k < |ps| ==> r[k] == pool[ps[k]]
  {
    seq(|ps|, k requires 0 <= k < |ps| => pool[ps[k]])
  }

  /** The positions `0, 1, ..., n - 1`. */
  function Indices(n: nat): (r: seq<nat>)
    ensures |r| == n
    ensures forall i :: 0 <= i < n ==> r[i] == i
  {
    seq(n, i requires 0 <= i < n => i)
  }

  lemma RemoveAt<T>(pool: seq<T>, ps: seq<nat>, idx: nat)
    requires forall k :: 0 <= k < |ps| ==> ps[k] < |pool|
    requires idx < |ps|
    ensures forall k :: 0 <= k < |Remove(ps, idx)| ==> Remove(ps, idx)[k] < |pool|
    ensures Remove(At(pool, ps), idx) == At(pool, Remove(ps, idx))
  {
    var rest := Remove(ps, idx);
    assert forall k :: 0 <= k < |rest| ==> rest[k] == if k < idx then ps[k] else ps[k + 1];
  }

  /** Sampling commutes with looking up positions: sampling the elements at
      `ps` yields the elements at the positions sampled from `ps`. */
  lemma {:induction false} SampleAt<T>(pool: seq<T>, ps: seq<nat>, k: nat, draws: seq<nat>)
    requires forall i :: 0 <= i < |ps| ==> ps[i] < |pool|
    requires k <= |ps|
    ensures var sp := Sample<nat>(ps, k, draws);
            && (forall i :: 0 <= i < k ==> sp[i] < |pool|)
            && Sample(At(pool, ps), k, draws) == At(pool, sp)
    decreases k
  {
    if k > 0 {
      var a := At(pool, ps);
      var idx := ChoiceIndex(|ps|, Head(draws));
      SampleCons(a, k, draws);
      SampleCons<nat>(ps, k, draws);
      RemoveAt(pool, ps, idx);
      SampleAt(pool, Remove(ps, idx), k - 1, Tail(draws));
      var rp := Sample<nat>(Remove(ps, idx), k - 1, Tail(draws));
      AtCons(pool, ps[idx], rp);
    } else {
      assert Sample<nat>(ps, 0, draws) == [];
    }
  }

  lemma AtCons<T>(pool: seq<T>, p: nat, ps: seq<nat>)
    requires p < |pool|
    requires forall i :: 0 <= i < |ps| ==> ps[i] < |pool|
    ensures forall i :: 0 <= i < |[p] + ps| ==> ([p] + ps)[i] < |pool|
    ensures At(pool, [p] + ps) == [pool[p]] + At(pool, ps)
  {
  }

  /** Every ordered choice of distinct positions of the pool is the outcome
      of some draws, whether or not the pool repeats an element: the model
      excludes no result `random.sample` can return. */
  lemma SampleReachesEveryPositionChoice<T>(pool: seq<T>, ps: seq<nat>)
    requires Distinct(ps) && |ps| <= |pool|
    requires forall k :: 0 <= k < |ps| ==> ps[k] < |pool|
    ensures exists draws :: Sample(pool, |ps|, draws) == At(pool, ps)
  {
    var all := Indices(|pool|);
    forall k | 0 <= k < |ps| ensures ps[k] in all {
      assert all[ps[k]] == ps[k];
    }
    SampleReaches<nat>(all, ps);
    var draws := DrawsFor<nat>(all, ps);
    SampleAt(pool, all, |ps|, draws);
    assert At(pool, all) == pool;
    assert Sample(pool, |ps|, draws) == At(pool, ps);
  }
}
