/** Shared result types and sums over finite maps. */
module Collections {

  datatype Option<+T> = None | Some(value: T)

  datatype Result<+T, +E> = Ok(value: T) | Err(error: E)

  function Min(a: int, b: int): int { if a < b then a else b }

  function Max(a: int, b: int): int { if a < b then b else a }

  ghost predicate NoDup<T>(s: seq<T>) {
    forall i, j | 0 <= i < j < |s| :: s[i] != s[j]
  }

  /** The sum of `weight` over the values of a finite map. */
  ghost function SumOver<K(!new), V(!new)>(m: map<K, V>, weight: V -> nat): nat
    decreases |m|
  {
    if m == map[] then 0 else
      var k :| k in m;
      assert (m - {k}).Keys == m.Keys - {k};
      weight(m[k]) + SumOver(m - {k}, weight)
  }

  /** Any key may be split off first. */
  lemma {:induction false} SumSplit<K(!new), V(!new)>(m: map<K, V>, weight: V -> nat, k: K)
    requires k in m
    ensures SumOver(m, weight) == weight(m[k]) + SumOver(m - {k}, weight)
    decreases |m|
  {
    var first :| first in m && SumOver(m, weight) == weight(m[first]) + SumOver(m - {first}, weight);
    if first != k {
      assert (m - {first}).Keys == m.Keys - {first};
      SumSplit(m - {first}, weight, k);
      assert (m - {k}).Keys == m.Keys - {k};
      SumSplit(m - {k}, weight, first);
      assert m - {first} - {k} == m - {k} - {first};
    }
  }

  /** The weight of one key, zero when the key is absent. */
  ghost function WeightAt<K(!new), V(!new)>(m: map<K, V>, weight: V -> nat, k: K): nat {
    if k in m then weight(m[k]) else 0
  }

  ghost predicate SameExcept<K(!new), V(!new)>(m: map<K, V>, n: map<K, V>, k: K) {
    forall q | q != k :: (q in m <==> q in n) && (q in m ==> m[q] == n[q])
  }

  /** Changing one key changes the sum by the change of that key's weight. */
  lemma SumChange<K(!new), V(!new)>(m: map<K, V>, n: map<K, V>, weight: V -> nat, k: K)
    requires SameExcept(m, n, k)
    ensures SumOver(n, weight) + WeightAt(m, weight, k) == SumOver(m, weight) + WeightAt(n, weight, k)
    ensures WeightAt(m, weight, k) <= SumOver(m, weight)
  {
    assert m - {k} == n - {k};
    if k in m { SumSplit(m, weight, k); } else { assert m - {k} == m; }
    if k in n { SumSplit(n, weight, k); } else { assert n - {k} == n; }
  }

  // ---- sequences -------------------------------------------------------------------------

  lemma Associative<T>(a: seq<T>, b: seq<T>, c: seq<T>)
    ensures a + (b + c) == a + b + c
  {
  }

  lemma Middle<T>(s: seq<T>, i: nat, j: nat, a: seq<T>, b: seq<T>, c: seq<T>)
    requires s == a + (b + c) && i == |a| && j == i + |b|
    ensures j <= |s| && s[i..j] == b
  {
  }

  lemma DropMore<T>(s: seq<T>, k: nat)
    requires k < |s|
    ensures s[k..][1..] == s[k + 1..] && s[0..] == s
  {
  }

  // ---- arithmetic ------------------------------------------------------------------------

  lemma Cancel(k: nat, x: int, y: int)
    requires k > 0 && x * k < (y + 1) * k
    ensures x <= y
  {
    assert (x - y - 1) * k < 0;
  }

  lemma ScaleMonotone(k: nat, x: nat, y: nat)
    requires x <= y
    ensures x * k <= y * k && (x + 1) * k == x * k + k
  {
    assert y * k == x * k + (y - x) * k && (y - x) * k >= 0;
  }

  lemma Distribute(k: nat, x: nat, y: nat)
    ensures (x + y) * k == x * k + y * k && x * k >= 0 && y * k >= 0
  {
  }

  // ---- picking entries by index ----------------------------------------------------------

  function Gather<T>(xs: seq<T>, indices: seq<nat>): (r: seq<T>)
    requires forall k | 0 <= k < |indices| :: indices[k] < |xs|
    ensures |r| == |indices|
    ensures forall k | 0 <= k < |indices| :: r[k] == xs[indices[k]]
  {
    seq(|indices|, k requires 0 <= k < |indices| => xs[indices[k]])
  }

  /** The first `kept` entries, and then the tail entries at the given offsets. */
  function Compacted<T>(xs: seq<T>, kept: nat, retained: seq<nat>): (r: seq<T>)
    requires kept <= |xs| && forall k | 0 <= k < |retained| :: retained[k] < |xs| - kept
    ensures |r| == kept + |retained|
  {
    xs[..kept] + Gather(xs[kept..], retained)
  }

  function Concat<T>(parts: seq<seq<T>>): seq<T> {
    if parts == [] then [] else parts[0] + Concat(parts[1..])
  }

  lemma {:induction false} ConcatAppend<T>(parts: seq<seq<T>>, last: seq<T>)
    ensures Concat(parts + [last]) == Concat(parts) + last
  {
    if parts != [] {
      assert (parts + [last])[1..] == parts[1..] + [last];
      ConcatAppend(parts[1..], last);
    }
  }

  // ---- counting --------------------------------------------------------------------------

  ghost function Elements(s: seq<nat>): set<nat> {
    set x | x in s
  }

  lemma {:induction false} ElementCount(s: seq<nat>)
    requires NoDup(s)
    ensures |Elements(s)| == |s|
  {
    if s != [] {
      var last := |s| - 1;
      assert Elements(s) == Elements(s[..last]) + {s[last]};
      ElementCount(s[..last]);
    } else {
      assert Elements(s) == {};
    }
  }

  ghost function Upto(n: nat): (r: set<nat>)
    ensures |r| == n && forall b: nat :: b in r <==> b < n
  {
    if n == 0 then {} else Upto(n - 1) + {n - 1}
  }

  lemma {:induction false} SubsetCount(a: set<nat>, b: set<nat>)
    requires a <= b
    ensures |a| <= |b|
    decreases b
  {
    if a != {} {
      var x :| x in a;
      SubsetCount(a - {x}, b - {x});
    }
  }

  /** Distinct numbers below n are at most n. */
  lemma DistinctFit(s: seq<nat>, n: nat)
    requires NoDup(s) && forall k | 0 <= k < |s| :: s[k] < n
    ensures |s| <= n
  {
    ElementCount(s);
    SubsetCount(Elements(s), Upto(n));
  }
}
