/** Shared building blocks: optional values, results with an error message,
    and insertion-ordered dictionaries as Python's `dict` behaves. */
module Basics {

  datatype Option<T> = None | Some(value: T)

  /** A result that either carries a value or the message of a raised error. */
  datatype Result<T> = Ok(value: T) | Err(message: string)

  /** An insertion-ordered dictionary: the entries in the order their keys were
      first inserted. Python's `dict` keeps this order for `keys()`, `values()`
      and `items()`. */
  type Entries<V> = seq<(string, V)>

  ghost predicate UniqueKeys<V>(d: Entries<V>) {
    forall i, j :: 0 <= i < j < |d| ==> d[i].0 != d[j].0
  }

  function KeysOf<V>(d: Entries<V>): seq<string> {
    seq(|d|, i requires 0 <= i < |d| => d[i].0)
  }

  function ValuesOf<V>(d: Entries<V>): seq<V> {
    seq(|d|, i requires 0 <= i < |d| => d[i].1)
  }

  /** Position of key `k`, or `|d|` when `k` is absent. */
  function IndexOf<V>(d: Entries<V>, k: string): (i: nat)
    ensures i <= |d|
    ensures i < |d| ==> d[i].0 == k
    ensures forall j :: 0 <= j < i ==> d[j].0 != k
  {
    if d == [] then 0
    else if d[0].0 == k then 0
    else 1 + IndexOf(d[1..], k)
  }

  predicate HasKey<V>(d: Entries<V>, k: string) {
    IndexOf(d, k) < |d|
  }

  /** `d.get(k)` */
  function Lookup<V>(d: Entries<V>, k: string): Option<V> {
    var i := IndexOf(d, k);
    if i < |d| then Some(d[i].1) else None
  }

  /** `d.get(k, default)` */
  function GetOr<V>(d: Entries<V>, k: string, default: V): V {
    match Lookup(d, k)
    case Some(v) => v
    case None => default
  }

  /** `d[k] = v`: an existing key keeps its position, a new key goes last. */
  function Put<V>(d: Entries<V>, k: string, v: V): Entries<V> {
    var i := IndexOf(d, k);
    if i < |d| then d[i := (k, v)] else d + [(k, v)]
  }

  /** `del d[k]` (no change when `k` is absent). */
  function Remove<V>(d: Entries<V>, k: string): Entries<V> {
    var i := IndexOf(d, k);
    if i < |d| then d[..i] + d[i + 1..] else d
  }

  /** A non-empty sequence is its front followed by its last element. */
  lemma SnocSplit<T>(xs: seq<T>)
    requires xs != []
    ensures xs[..|xs| - 1] + [xs[|xs| - 1]] == xs
  {
  }

  lemma KeysOfPrefix<V>(d: Entries<V>, n: nat)
    requires n <= |d|
    ensures KeysOf(d)[..n] == KeysOf(d[..n])
  {
  }

  lemma KeysOfSnoc<V>(d: Entries<V>)
    requires d != []
    ensures KeysOf(d) == KeysOf(d[..|d| - 1]) + [d[|d| - 1].0]
  {
  }

  lemma HasKeyIff<V>(d: Entries<V>, k: string)
    ensures HasKey(d, k) <==> k in KeysOf(d)
  {
    var i := IndexOf(d, k);
    if i < |d| {
      assert KeysOf(d)[i] == k;
    }
  }

  /** Assigning a key makes it map to the new value and leaves every other key alone. */
  lemma {:induction false} LookupPut<V>(d: Entries<V>, k: string, v: V, k': string)
    ensures Lookup(Put(d, k, v), k') == if k' == k then Some(v) else Lookup(d, k')
  {
    var i := IndexOf(d, k);
    var d' := Put(d, k, v);
    var j := IndexOf(d', k');
    if k' == k {
      if i < |d| {
        IndexOfAgree(d, d', k', i);
      } else {
        IndexOfAgree(d, d', k', |d|);
      }
    } else {
      var n := IndexOf(d, k');
      if n < |d| {
        IndexOfAgree(d, d', k', n);
      } else if i < |d| {
        assert forall m :: 0 <= m < |d'| ==> d'[m].0 != k' by {
          forall m | 0 <= m < |d'| ensures d'[m].0 != k' {
            if m != i { assert d'[m] == d[m]; }
          }
        }
      } else {
        assert forall m :: 0 <= m < |d'| ==> d'[m].0 != k' by {
          forall m | 0 <= m < |d'| ensures d'[m].0 != k' {
            if m < |d| { assert d'[m] == d[m]; }
          }
        }
      }
    }
  }

  /** Two dictionaries whose keys agree up to the first occurrence of `k` at `n`
      find `k` at `n` in both. */
  lemma IndexOfAgree<V>(d: Entries<V>, d': Entries<V>, k: string, n: nat)
    requires n <= |d| && n < |d'| && d'[n].0 == k
    requires n < |d| ==> d[n].0 == k
    requires forall j :: 0 <= j < n ==> d[j].0 == d'[j].0
    requires forall j :: 0 <= j < n ==> d[j].0 != k
    ensures IndexOf(d', k) == n
    ensures n < |d| ==> IndexOf(d, k) == n
  {
  }

  /** The value stored under the first occurrence of a key is the one found. */
  lemma {:induction false} LookupAt<V>(d: Entries<V>, k: string, n: nat)
    requires n < |d| && d[n].0 == k
    requires forall j :: 0 <= j < n ==> d[j].0 != k
    ensures IndexOf(d, k) == n && Lookup(d, k) == Some(d[n].1)
  {
    if n > 0 {
      LookupAt(d[1..], k, n - 1);
    }
  }

  /** Deleting a key from a dictionary without repeated keys removes exactly that key. */
  lemma {:induction false} LookupRemove<V>(d: Entries<V>, k: string, k': string)
    requires UniqueKeys(d)
    ensures Lookup(Remove(d, k), k') == if k' == k then None else Lookup(d, k')
  {
    var i := IndexOf(d, k);
    if i < |d| {
      RemoveShape(d, k);
      LookupGap(d, Remove(d, k), i, k');
    }
  }

  /** Closing the gap left by the entry at `i` loses that entry's key and keeps every other one. */
  lemma LookupGap<V>(d: Entries<V>, d': Entries<V>, i: nat, k': string)
    requires UniqueKeys(d) && i < |d| && |d'| == |d| - 1
    requires forall m :: 0 <= m < i ==> d'[m] == d[m]
    requires forall m :: i <= m < |d'| ==> d'[m] == d[m + 1]
    ensures Lookup(d', k') == if k' == d[i].0 then None else Lookup(d, k')
  {
    var n := IndexOf(d, k');
    if n == |d| || n == i {
      forall m | 0 <= m < |d'|
        ensures d'[m].0 != k'
      {
        if m < i {
          assert d'[m] == d[m];
        } else {
          assert d'[m] == d[m + 1];
        }
      }
      LookupAbsent(d', k');
    } else if n < i {
      LookupAt(d', k', n);
    } else {
      assert d'[n - 1] == d[n];
      forall m | 0 <= m < n - 1
        ensures d'[m].0 != k'
      {
        if m < i {
          assert d'[m] == d[m];
        } else {
          assert d'[m] == d[m + 1];
        }
      }
      LookupAt(d', k', n - 1);
    }
  }

  /** Removing a present key closes the gap it leaves. */
  lemma {:induction false} RemoveShape<V>(d: Entries<V>, k: string)
    requires IndexOf(d, k) < |d|
    ensures |Remove(d, k)| == |d| - 1
    ensures forall m :: 0 <= m < IndexOf(d, k) ==> Remove(d, k)[m] == d[m]
    ensures forall m :: IndexOf(d, k) <= m < |d| - 1 ==> Remove(d, k)[m] == d[m + 1]
  {
    var i := IndexOf(d, k);
    assert Remove(d, k) == d[..i] + d[i + 1..];
  }

  /** A key that no entry carries is not found. */
  lemma LookupAbsent<V>(d: Entries<V>, k: string)
    requires forall m :: 0 <= m < |d| ==> d[m].0 != k
    ensures Lookup(d, k) == None
  {
  }

  lemma PutKeepsUnique<V>(d: Entries<V>, k: string, v: V)
    requires UniqueKeys(d)
    ensures UniqueKeys(Put(d, k, v))
    ensures |Put(d, k, v)| == if HasKey(d, k) then |d| else |d| + 1
  {
  }

  lemma RemoveKeepsUnique<V>(d: Entries<V>, k: string)
    requires UniqueKeys(d)
    ensures UniqueKeys(Remove(d, k))
    ensures |Remove(d, k)| == if HasKey(d, k) then |d| - 1 else |d|
  {
    if IndexOf(d, k) < |d| {
      RemoveShape(d, k);
    }
  }

  /** `[x for x in xs if keep(x)]` */
  function Keep<T(!new)>(xs: seq<T>, keep: T -> bool): (r: seq<T>)
    ensures |r| <= |xs|
    ensures forall x :: x in r <==> x in xs && keep(x)
  {
    if xs == [] then []
    else
      var init := xs[..|xs| - 1];
      assert xs == init + [xs[|xs| - 1]];
      Keep(init, keep) + (if keep(xs[|xs| - 1]) then [xs[|xs| - 1]] else [])
  }

  /** Filtering a concatenation filters each part in turn, so the kept elements
      stay in list order, each as often as it occurs. */
  lemma {:induction false} KeepAppend<T(!new)>(xs: seq<T>, ys: seq<T>, keep: T -> bool)
    ensures Keep(xs + ys, keep) == Keep(xs, keep) + Keep(ys, keep)
    decreases |ys|
  {
    if ys == [] {
      assert xs + ys == xs;
    } else {
      var front, y := ys[..|ys| - 1], ys[|ys| - 1];
      assert xs + ys == (xs + front) + [y];
      assert ys == front + [y];
      KeepAppend(xs, front, keep);
      KeepSnoc(xs + front, y, keep);
      KeepSnoc(front, y, keep);
    }
  }

  lemma KeepSnoc<T(!new)>(xs: seq<T>, x: T, keep: T -> bool)
    ensures Keep(xs + [x], keep) == Keep(xs, keep) + (if keep(x) then [x] else [])
  {
    assert (xs + [x])[..|xs|] == xs;
  }

  /** One element is kept exactly when it passes. */
  lemma KeepSingle<T(!new)>(x: T, keep: T -> bool)
    ensures Keep([x], keep) == if keep(x) then [x] else []
  {
    assert [x][..0] == [];
  }
}
