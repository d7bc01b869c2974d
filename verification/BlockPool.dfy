/** The reference-counted block pool of the paged KV manager: a free heap, an LRU of idle
    cached pages and the key/block index (src/light_vllm/runtime/kv_cache.py:725-769). */
module BlockPool {
  import opened Collections
  import opened PrefixKeys

  /** `free` is the heap in ascending order, so its head is what heappop returns;
      `lru` is the ordered dictionary of evictable pages, oldest first. */
  datatype Pool = Pool(
    refs: seq<nat>,
    free: seq<nat>,
    lru: seq<nat>,
    blockOf: map<Key, nat>,
    keyOf: map<nat, Key>,
    revision: nat)

  ghost predicate Ascending(s: seq<nat>) {
    forall i, j | 0 <= i < j < |s| :: s[i] < s[j]
  }

  ghost predicate Indexed(p: Pool) {
    && (forall b | b in p.keyOf :: b < |p.refs| && p.keyOf[b] in p.blockOf && p.blockOf[p.keyOf[b]] == b)
    && (forall k | k in p.blockOf :: p.blockOf[k] in p.keyOf && p.keyOf[p.blockOf[k]] == k)
  }

  /** Every block is in exactly one place: free (count 0, not indexed), evictable (count 0,
      indexed) or referenced (count above 0); the index is a bijection. */
  ghost predicate PoolOk(p: Pool) {
    && Ascending(p.free)
    && NoDup(p.lru)
    && (forall b: nat :: b in p.free <==> b < |p.refs| && p.refs[b] == 0 && b !in p.keyOf)
    && (forall b: nat :: b in p.lru <==> b < |p.refs| && p.refs[b] == 0 && b in p.keyOf)
    && Indexed(p)
  }

  function Available(p: Pool): nat { |p.free| + |p.lru| }

  /** heappush on the ascending view of the heap. */
  function Push(heap: seq<nat>, b: nat): seq<nat> {
    if heap == [] || b < heap[0] then [b] + heap else [heap[0]] + Push(heap[1..], b)
  }

  lemma {:induction false} PushAdds(heap: seq<nat>, b: nat)
    requires Ascending(heap) && b !in heap
    ensures Ascending(Push(heap, b)) && |Push(heap, b)| == |heap| + 1
    ensures forall c :: c in Push(heap, b) <==> c == b || c in heap
  {
    if heap != [] && heap[0] <= b {
      var rest := Push(heap[1..], b);
      PushAdds(heap[1..], b);
      assert heap == [heap[0]] + heap[1..];
      assert heap[0] in heap;
      forall i | 0 <= i < |rest| ensures heap[0] < rest[i] {
        assert rest[i] in rest;
      }
    }
  }

  /** OrderedDict.pop(b, None) on the key order. */
  function Without<T(==)>(s: seq<T>, b: T): seq<T> {
    if s == [] then [] else if s[0] == b then s[1..] else [s[0]] + Without(s[1..], b)
  }

  lemma {:induction false} WithoutRemoves<T(!new)>(s: seq<T>, b: T)
    requires NoDup(s)
    ensures NoDup(Without(s, b))
    ensures |Without(s, b)| == |s| - (if b in s then 1 else 0)
    ensures forall c :: c in Without(s, b) <==> c in s && c != b
  {
    if s != [] {
      assert s == [s[0]] + s[1..];
      if s[0] != b {
        var rest := Without(s[1..], b);
        WithoutRemoves(s[1..], b);
        forall i | 0 <= i < |rest| ensures s[0] != rest[i] {
          assert rest[i] in rest && rest[i] in s[1..];
        }
      }
    }
  }

  lemma TailOf(s: seq<nat>)
    requires NoDup(s) && s != []
    ensures s[0] in s && forall c :: c in s[1..] <==> c in s && c != s[0]
  {
    assert s == [s[0]] + s[1..];
  }

  lemma InitOf(s: seq<nat>)
    requires NoDup(s) && s != []
    ensures s[|s| - 1] in s && forall c :: c in s[..|s| - 1] <==> c in s && c != s[|s| - 1]
  {
    assert s == s[..|s| - 1] + [s[|s| - 1]];
  }

  /** Of a list without repeats, each element is before a cut or after it, never both. */
  lemma CutSplits(s: seq<nat>, k: nat, c: nat)
    requires NoDup(s) && k <= |s|
    ensures One(c in s) == One(c in s[..k]) + One(c in s[k..])
  {
    assert s == s[..k] + s[k..];
  }

  function FreshPool(n: nat, revision: nat): (p: Pool)
    ensures PoolOk(p) && |p.refs| == n && Available(p) == n && p.keyOf == map[]
  {
    var p := Pool(seq(n, i => 0), seq(n, i => i), [], map[], map[], revision);
    assert forall b: nat | b < n :: b in p.free by {
      forall b: nat | b < n ensures b in p.free { assert p.free[b] == b; }
    }
    p
  }

  function TakeFree(p: Pool): (q: Pool)
    requires PoolOk(p) && p.free != []
    ensures PoolOk(q) && p.free[0] < |p.refs| && p.refs[p.free[0]] == 0 && p.free[0] !in p.keyOf
  {
    TailOf(p.free);
    p.(free := p.free[1..], refs := p.refs[p.free[0] := 1])
  }

  /** The least recently used cached page leaves the index. */
  function Evict(p: Pool): (q: Pool)
    requires PoolOk(p) && p.free == [] && p.lru != []
    ensures PoolOk(q) && p.lru[0] < |p.refs| && p.refs[p.lru[0]] == 0
  {
    var b := p.lru[0];
    TailOf(p.lru);
    var key := p.keyOf[b];
    var stale := key in p.blockOf && p.blockOf[key] == b;
    p.(lru := p.lru[1..], keyOf := p.keyOf - {b},
       blockOf := if stale then p.blockOf - {key} else p.blockOf,
       revision := if stale then p.revision + 1 else p.revision,
       refs := p.refs[b := 1])
  }

  /** Hands out the smallest free block, or else the least recently used cached page,
      which leaves the index. */
  function Take(p: Pool): (r: (nat, Pool))
    requires PoolOk(p) && Available(p) > 0
    ensures PoolOk(r.1) && Available(r.1) == Available(p) - 1
    ensures r.0 < |p.refs| && p.refs[r.0] == 0 && r.1.refs == p.refs[r.0 := 1]
    ensures r.1.keyOf == p.keyOf - {r.0}
    ensures p.free != [] ==> r.0 in p.free && (forall c | c in p.free :: r.0 <= c)
    ensures p.free != [] ==> r.1.free == p.free[1..] && r.1.lru == p.lru
    ensures p.free == [] ==> r.0 == p.lru[0] && r.1.lru == p.lru[1..] && r.1.free == []
  {
    HeadIsLeast(p);
    hide PoolOk;
    if p.free != [] then (p.free[0], TakeFree(p)) else (p.lru[0], Evict(p))
  }

  lemma HeadIsLeast(p: Pool)
    requires PoolOk(p)
    ensures p.free != [] ==> p.free[0] in p.free && forall c | c in p.free :: p.free[0] <= c
  {
  }

  /** The block that goes next is a block of the pool, and an idle one is in the index. */
  lemma PoolHead(p: Pool)
    requires PoolOk(p) && Available(p) > 0
    ensures p.free != [] ==> p.free[0] < |p.refs|
    ensures p.free == [] ==> p.lru[0] < |p.refs| && p.lru[0] in p.keyOf
  {
    if p.free != [] { assert p.free[0] in p.free; } else { assert p.lru[0] in p.lru; }
  }

  function Acquire(p: Pool, b: nat): (q: Pool)
    requires PoolOk(p) && b < |p.refs| && (p.refs[b] > 0 || b in p.keyOf)
    ensures PoolOk(q) && q.refs == p.refs[b := p.refs[b] + 1]
    ensures q.keyOf == p.keyOf && q.blockOf == p.blockOf && q.revision == p.revision
    ensures Available(q) == Available(p) - (if p.refs[b] == 0 then 1 else 0)
  {
    WithoutRemoves(p.lru, b);
    p.(lru := if p.refs[b] == 0 then Without(p.lru, b) else p.lru, refs := p.refs[b := p.refs[b] + 1])
  }

  /** Drops one reference; an idle page goes to the LRU when indexed and to the heap otherwise. */
  function Release(p: Pool, b: nat): (q: Pool)
    requires PoolOk(p) && b < |p.refs| && p.refs[b] > 0
    ensures PoolOk(q) && q.refs == p.refs[b := p.refs[b] - 1]
    ensures q.keyOf == p.keyOf && q.blockOf == p.blockOf && q.revision == p.revision
    ensures Available(q) == Available(p) + (if p.refs[b] == 1 then 1 else 0)
  {
    var q := p.(refs := p.refs[b := p.refs[b] - 1]);
    if q.refs[b] > 0 then q
    else if b in p.keyOf then q.(lru := p.lru + [b])
    else
      PushAdds(p.free, b);
      q.(free := Push(p.free, b))
  }

  /** Enters a referenced, unindexed block under a key unless the key is already present. */
  function Publish(p: Pool, key: Key, b: nat): (q: Pool)
    requires PoolOk(p) && b < |p.refs| && p.refs[b] > 0 && b !in p.keyOf
    ensures PoolOk(q) && q.refs == p.refs && q.free == p.free && q.lru == p.lru
    ensures key in q.blockOf && (key in p.blockOf ==> q == p)
    ensures q.keyOf == (if key in p.blockOf then p.keyOf else p.keyOf[b := key])
  {
    if key in p.blockOf then p
    else p.(blockOf := p.blockOf[key := b], keyOf := p.keyOf[b := key], revision := p.revision + 1)
  }

  // ---- whole block lists -------------------------------------------------------------

  function One(b: bool): nat { if b then 1 else 0 }

  /** The blocks are distinct, were idle and are referenced and unindexed now; nothing else moved. */
  ghost predicate Taken(p: Pool, bs: seq<nat>, q: Pool) {
    && |q.refs| == |p.refs| && NoDup(bs)
    && (forall b | b in bs :: b < |p.refs| && p.refs[b] == 0 && b !in q.keyOf)
    && (forall b | 0 <= b < |p.refs| :: q.refs[b] == if b in bs then 1 else p.refs[b])
    && (forall b | b !in bs :: (b in q.keyOf <==> b in p.keyOf) && (b in p.keyOf ==> q.keyOf[b] == p.keyOf[b]))
  }

  /** Takes n blocks one after another. */
  function TakeMany(p: Pool, n: nat): (r: (seq<nat>, Pool))
    requires PoolOk(p) && n <= Available(p)
    ensures |r.0| == n && PoolOk(r.1) && Available(r.1) == Available(p) - n
    ensures Taken(p, r.0, r.1)
  {
    if n == 0 then ([], p) else
      var (bs, q) := TakeMany(p, n - 1);
      var (b, q') := Take(q);
      (bs + [b], q')
  }

  ghost predicate Releasable(p: Pool, bs: seq<nat>) {
    PoolOk(p) && NoDup(bs) && forall i | 0 <= i < |bs| :: bs[i] < |p.refs| && p.refs[bs[i]] > 0
  }

  /** Releases a block list from its last block to its first. */
  function ReleaseMany(p: Pool, bs: seq<nat>): (q: Pool)
    requires Releasable(p, bs)
    ensures PoolOk(q) && |q.refs| == |p.refs|
    ensures q.keyOf == p.keyOf && q.blockOf == p.blockOf && q.revision == p.revision
    ensures forall b | 0 <= b < |p.refs| :: q.refs[b] == p.refs[b] - One(b in bs)
    ensures Available(q) >= Available(p)
    ensures (forall i | 0 <= i < |bs| :: p.refs[bs[i]] == 1) ==> Available(q) == Available(p) + |bs|
    decreases |bs|
  {
    if bs == [] then p else
      var last := |bs| - 1;
      ReleaseLast(p, bs);
      ReleaseMany(Release(p, bs[last]), bs[..last])
  }

  lemma ReleaseLast(p: Pool, bs: seq<nat>)
    requires Releasable(p, bs) && bs != []
    ensures Releasable(Release(p, bs[|bs| - 1]), bs[..|bs| - 1])
    ensures forall b :: b in bs[..|bs| - 1] <==> b in bs && b != bs[|bs| - 1]
  {
    hide PoolOk;
    InitOf(bs);
  }

  /** One release of a list, and then the rest of it. */
  lemma ReleaseOne(p: Pool, bs: seq<nat>, i: nat)
    requires 0 < i <= |bs| && Releasable(p, bs[..i])
    ensures bs[i - 1] < |p.refs| && p.refs[bs[i - 1]] > 0 && PoolOk(p)
    ensures Releasable(Release(p, bs[i - 1]), bs[..i - 1])
    ensures ReleaseMany(p, bs[..i]) == ReleaseMany(Release(p, bs[i - 1]), bs[..i - 1])
  {
    hide PoolOk, Release;
    assert bs[..i][..i - 1] == bs[..i - 1];
    ReleaseLast(p, bs[..i]);
  }

  lemma NothingReleased(p: Pool, bs: seq<nat>)
    requires Releasable(p, bs) && bs == []
    ensures ReleaseMany(p, bs) == p
  {
  }

  /** How many listed blocks nobody holds yet. */
  function Idle(refs: seq<nat>, bs: seq<nat>): (n: nat)
    requires forall i | 0 <= i < |bs| :: bs[i] < |refs|
    ensures n <= |bs|
  {
    if bs == [] then 0 else
      var last := |bs| - 1;
      Idle(refs, bs[..last]) + One(refs[bs[last]] == 0)
  }

  ghost predicate Acquirable(p: Pool, bs: seq<nat>) {
    PoolOk(p) && NoDup(bs) && forall i | 0 <= i < |bs| :: bs[i] < |p.refs| && bs[i] in p.keyOf
  }

  function AcquireMany(p: Pool, bs: seq<nat>): (q: Pool)
    requires Acquirable(p, bs)
    ensures PoolOk(q) && |q.refs| == |p.refs|
    ensures q.keyOf == p.keyOf && q.blockOf == p.blockOf && q.revision == p.revision
    ensures forall b | 0 <= b < |p.refs| :: q.refs[b] == p.refs[b] + One(b in bs)
    ensures Available(q) == Available(p) - Idle(p.refs, bs)
  {
    if bs == [] then p else
      var last := |bs| - 1;
      InitOf(bs);
      Acquire(AcquireMany(p, bs[..last]), bs[last])
  }

  ghost predicate Publishable(p: Pool, keys: seq<Key>, bs: seq<nat>, lo: nat, hi: nat) {
    && PoolOk(p) && NoDup(bs) && hi <= |keys| && hi <= |bs|
    && (forall i | lo <= i < |bs| :: bs[i] < |p.refs| && p.refs[bs[i]] > 0 && bs[i] !in p.keyOf)
  }

  /** Publishes pages lo..hi of a block table. */
  function PublishRange(p: Pool, keys: seq<Key>, bs: seq<nat>, lo: nat, hi: nat): (q: Pool)
    requires Publishable(p, keys, bs, lo, hi)
    ensures PoolOk(q) && q.refs == p.refs && q.free == p.free && q.lru == p.lru
    ensures forall i | Max(lo, hi) <= i < |bs| :: bs[i] !in q.keyOf
    decreases hi
  {
    if hi <= lo then p else
      Publish(PublishRange(p, keys, bs, lo, hi - 1), keys[hi - 1], bs[hi - 1])
  }

  /** Publishing only adds entries, and each new one is a page of this table under its own key. */
  lemma {:induction false} PublishOrigin(p: Pool, keys: seq<Key>, bs: seq<nat>, lo: nat, hi: nat, b: nat)
    requires Publishable(p, keys, bs, lo, hi)
    ensures var q := PublishRange(p, keys, bs, lo, hi);
            && (b in p.keyOf ==> b in q.keyOf && q.keyOf[b] == p.keyOf[b])
            && (b in q.keyOf && b !in p.keyOf ==> exists i :: lo <= i < hi && bs[i] == b && q.keyOf[b] == keys[i])
    decreases hi
  {
    hide PoolOk;
    if hi > lo { PublishOrigin(p, keys, bs, lo, hi - 1, b); }
  }

  /** After publishing, every key of the range names the block it named before, or else the
      block of this table. */
  lemma {:induction false} PublishCovers(p: Pool, keys: seq<Key>, bs: seq<nat>, lo: nat, hi: nat, k: Key)
    requires Publishable(p, keys, bs, lo, hi) && NoDup(keys)
    ensures var q := PublishRange(p, keys, bs, lo, hi);
            && (k in p.blockOf ==> k in q.blockOf && q.blockOf[k] == p.blockOf[k])
            && (k !in p.blockOf ==> (k in q.blockOf <==> exists i :: lo <= i < hi && keys[i] == k))
            && (forall i | lo <= i < hi && keys[i] == k && k !in p.blockOf :: q.blockOf[k] == bs[i])
    decreases hi
  {
    hide PoolOk;
    if hi > lo { PublishCovers(p, keys, bs, lo, hi - 1, k); }
  }

  /** Taking more blocks starts with the same blocks. */
  lemma {:induction false} TakeManyPrefix(p: Pool, k: nat, n: nat)
    requires PoolOk(p) && k <= n <= Available(p)
    ensures TakeMany(p, n).0[..k] == TakeMany(p, k).0
    decreases n
  {
    hide PoolOk, Taken, Take;
    if k < n {
      TakeManyPrefix(p, k, n - 1);
      var (bs, q) := TakeMany(p, n - 1);
      assert TakeMany(p, n).0 == bs + [Take(q).0];
    }
  }

  lemma TakeLast(p: Pool, n: nat)
    requires PoolOk(p) && 0 < n <= Available(p)
    ensures var q := TakeMany(p, n - 1).1; PoolOk(q) && Available(q) > 0 && TakeMany(p, n).1 == Take(q).1
  {
    hide PoolOk, Taken, Take;
  }

  lemma TakeNone(p: Pool)
    requires PoolOk(p)
    ensures TakeMany(p, 0).1 == p && p.free[0..] == p.free && p.lru[0..] == p.lru
  {
  }

  /** The heap is emptied first, and then the idle pages go, oldest first. */
  lemma {:induction false} TakeManyOrder(p: Pool, n: nat)
    requires PoolOk(p) && n <= Available(p)
    ensures var q := TakeMany(p, n).1;
            && q.free == p.free[Min(n, |p.free|)..]
            && q.lru == p.lru[Max(0, n - |p.free|)..]
  {
    hide PoolOk, Taken, Take, TakeMany;
    if n > 0 {
      TakeManyOrder(p, n - 1);
      TakeLast(p, n);
      var q := TakeMany(p, n - 1).1;
      if n <= |p.free| { DropMore(p.free, n - 1); } else { DropMore(p.lru, n - 1 - |p.free|); }
    } else {
      TakeNone(p);
    }
  }

  /** Released blocks queue up behind those that were idle before. */
  lemma {:induction false} ReleaseManyOrder(p: Pool, bs: seq<nat>)
    requires Releasable(p, bs)
    ensures p.lru <= ReleaseMany(p, bs).lru
    decreases |bs|
  {
    hide PoolOk;
    if bs != [] {
      ReleaseLast(p, bs);
      ReleaseManyOrder(Release(p, bs[|bs| - 1]), bs[..|bs| - 1]);
    }
  }
}
