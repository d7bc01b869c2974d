/** When the prefix index is closed under parents: a page is found from the start of its prompt
    as long as every commit continues pages of its own table. Releasing a table from its last
    block to its first (kv_cache.py:607-608) and evicting the oldest idle page (725-738) then
    never drop a page before the pages that continue it. */
module PagedLineage {
  import opened Collections
  import opened PrefixKeys
  import opened BlockPool
  import opened PagedState
  import opened PagedInvariant

  type Tables = map<RequestId, Allocation>

  type Names = map<nat, Key>

  /** Every indexed page starts a prompt or continues an indexed page. */
  ghost predicate ParentClosed(p: Pool) {
    forall k | k in p.blockOf :: k.parent.Root? || exists j :: j in p.blockOf && j.digest == k.parent
  }

  /** Page c continues page b. */
  ghost predicate Continues(names: Names, b: nat, c: nat) {
    b in names && c in names && names[b].digest == names[c].parent
  }

  ghost predicate HasParent(names: Names, c: nat)
    requires c in names
  {
    names[c].parent.Root? || exists b :: Continues(names, b, c)
  }

  ghost predicate Parents(names: Names) {
    forall c | c in names :: names[c].digest == Node(names[c].parent, names[c].tokens) && HasParent(names, c)
  }

  ghost predicate InPlace(names: Names, a: Allocation, i: nat)
    requires i < |a.blocks|
  {
    a.blocks[i] in names ==>
      i < |a.keys| && names[a.blocks[i]] == a.keys[i] && (i > 0 ==> a.blocks[i - 1] in names)
  }

  /** The indexed pages of a table are its first ones, each under its own key. */
  ghost predicate FromTheStart(names: Names, a: Allocation) {
    forall i | 0 <= i < |a.blocks| :: InPlace(names, a, i)
  }

  /** Among idle pages, a page is never older than one that continues it. */
  ghost predicate ChildrenOlder(names: Names, lru: seq<nat>) {
    forall i, j | 0 <= i < j < |lru| :: !Continues(names, lru[i], lru[j])
  }

  ghost predicate HeldExactly(p: Pool, ts: Tables) {
    forall c | c in p.keyOf && c < |p.refs| :: p.refs[c] == |Holders(ts, c)|
  }

  ghost predicate TablesOk(names: Names, ts: Tables) {
    forall r | r in ts :: Linked(ts[r].keys) && FromTheStart(names, ts[r])
  }

  ghost predicate Lineage(p: Pool, ts: Tables) {
    PoolOk(p) && Parents(p.keyOf) && ChildrenOlder(p.keyOf, p.lru) && HeldExactly(p, ts) && TablesOk(p.keyOf, ts)
  }

  lemma LineageCloses(p: Pool, ts: Tables)
    requires Lineage(p, ts)
    ensures ParentClosed(p)
  {
    forall k | k in p.blockOf && !k.parent.Root? ensures exists j :: j in p.blockOf && j.digest == k.parent {
      var c := p.blockOf[k];
      assert HasParent(p.keyOf, c);
      var b :| Continues(p.keyOf, b, c);
      assert p.keyOf[b] in p.blockOf;
    }
  }

  /** Whoever holds a page holds the page it continues. */
  lemma HolderHoldsParent(p: Pool, b: nat, c: nat, a: Allocation)
    requires PoolOk(p) && Parents(p.keyOf) && Continues(p.keyOf, b, c)
    requires Linked(a.keys) && FromTheStart(p.keyOf, a) && c in a.blocks
    ensures b in a.blocks
  {
    assert p.keyOf[b].digest.Node?;
    var i :| 0 <= i < |a.blocks| && a.blocks[i] == c;
    assert InPlace(p.keyOf, a, i) && LinkedAt(a.keys, i);
    var d := a.blocks[i - 1];
    assert InPlace(p.keyOf, a, i - 1) && LinkedAt(a.keys, i - 1);
    assert p.keyOf[d] == p.keyOf[b];
  }

  lemma NobodyHolds(ts: Tables, b: nat, r: RequestId)
    requires |Holders(ts, b)| == 0 && r in ts
    ensures b !in ts[r].blocks
  {
    assert r !in Holders(ts, b);
  }

  /** A page that continues an idle page is idle. */
  lemma ChildIdle(p: Pool, ts: Tables, b: nat, c: nat)
    requires Lineage(p, ts) && Continues(p.keyOf, b, c) && p.refs[b] == 0
    ensures c != b && b in p.lru && c in p.lru
  {
    if p.refs[c] != 0 {
      var r :| r in Holders(ts, c);
      HolderHoldsParent(p, b, c, ts[r]);
      NobodyHolds(ts, b, r);
    }
  }

  // ---- taking blocks -----------------------------------------------------------------------

  /** Dropping a page that no page continues leaves every other page its parent. */
  lemma ParentsKept(names: Names, b: nat)
    requires Parents(names) && forall c :: !Continues(names, b, c)
    ensures Parents(names - {b})
  {
    forall c | c in names - {b} ensures HasParent(names - {b}, c) {
      assert HasParent(names, c);
      if !names[c].parent.Root? {
        var d :| Continues(names, d, c);
        assert Continues(names - {b}, d, c);
      }
    }
  }

  /** The page an eviction takes is continued by no page. */
  lemma OldestIsLeaf(p: Pool, ts: Tables, c: nat)
    requires Lineage(p, ts) && p.lru != []
    ensures !Continues(p.keyOf, p.lru[0], c)
  {
    if Continues(p.keyOf, p.lru[0], c) { ChildIdle(p, ts, p.lru[0], c); }
  }

  lemma TablesWithout(names: Names, ts: Tables, b: nat)
    requires TablesOk(names, ts) && |Holders(ts, b)| == 0
    ensures TablesOk(names - {b}, ts)
  {
    forall r, i | r in ts && 0 <= i < |ts[r].blocks| ensures InPlace(names - {b}, ts[r], i) {
      NobodyHolds(ts, b, r);
      assert InPlace(names, ts[r], i);
    }
  }

  lemma TakeKeepsLineage(p: Pool, ts: Tables)
    requires Lineage(p, ts) && Available(p) > 0
    ensures Lineage(Take(p).1, ts)
  {
    hide HasParent, Holders, Parents, TablesOk;
    var (b, q) := Take(p);
    if p.free == [] {
      assert b in p.lru && p.refs[b] == 0;
      forall c ensures !Continues(p.keyOf, b, c) { OldestIsLeaf(p, ts, c); }
      ParentsKept(p.keyOf, b);
      TablesWithout(p.keyOf, ts, b);
      assert ChildrenOlder(q.keyOf, q.lru);
    } else {
      assert p.free[0] in p.free;
      assert q.keyOf == p.keyOf;
    }
  }

  lemma {:induction false} TakeManyKeepsLineage(p: Pool, ts: Tables, n: nat)
    requires Lineage(p, ts) && n <= Available(p)
    ensures Lineage(TakeMany(p, n).1, ts)
  {
    hide Lineage, PoolOk, Take;
    assert PoolOk(p) by { LineagePool(p, ts); }
    if n > 0 {
      TakeManyKeepsLineage(p, ts, n - 1);
      TakeKeepsLineage(TakeMany(p, n - 1).1, ts);
    }
  }

  lemma LineagePool(p: Pool, ts: Tables)
    requires Lineage(p, ts)
    ensures PoolOk(p)
  {
  }

  // ---- tables that grow and shrink ---------------------------------------------------------

  /** The tables while request id holds the first i blocks of a. */
  function Holding(ts: Tables, id: RequestId, a: Allocation, i: nat): Tables
    requires i <= |a.blocks|
  {
    ts[id := a.(blocks := a.blocks[..i])]
  }

  /** One block more or less in a table is one holder more or less of that block alone. */
  lemma HoldingCounts(ts: Tables, id: RequestId, a: Allocation, i: nat, c: nat)
    requires i < |a.blocks| && NoDup(a.blocks)
    ensures |Holders(Holding(ts, id, a, i + 1), c)| == |Holders(Holding(ts, id, a, i), c)| + One(c == a.blocks[i])
  {
    hide Holders;
    HoldersChange(Holding(ts, id, a, i), Holding(ts, id, a, i + 1), id, c);
    assert a.blocks[..i + 1] == a.blocks[..i] + [a.blocks[i]];
  }

  lemma {:induction false} WithoutOlder(names: Names, lru: seq<nat>, b: nat)
    requires ChildrenOlder(names, lru)
    ensures ChildrenOlder(names, Without(lru, b)) && forall c | c in Without(lru, b) :: c in lru
  {
    if lru != [] {
      var rest := Without(lru[1..], b);
      WithoutOlder(names, lru[1..], b);
      forall j | 0 <= j < |rest| ensures !Continues(names, lru[0], rest[j]) {
        assert rest[j] in lru[1..];
      }
    }
  }

  lemma TableGrows(names: Names, ts: Tables, id: RequestId, a: Allocation, i: nat)
    requires i < |a.blocks| && i < |a.keys| && TablesOk(names, Holding(ts, id, a, i))
    requires a.blocks[i] in names && names[a.blocks[i]] == a.keys[i] && (i > 0 ==> a.blocks[i - 1] in names)
    ensures TablesOk(names, Holding(ts, id, a, i + 1))
  {
    var (us, vs) := (Holding(ts, id, a, i), Holding(ts, id, a, i + 1));
    forall r | r in vs ensures Linked(vs[r].keys) && FromTheStart(names, vs[r]) {
      assert Linked(us[r].keys);
      forall k | 0 <= k < |vs[r].blocks| ensures InPlace(names, vs[r], k) {
        if k < |us[r].blocks| { assert InPlace(names, us[r], k); }
      }
    }
  }

  lemma TableShrinks(names: Names, ts: Tables, id: RequestId, a: Allocation, i: nat)
    requires i < |a.blocks| && TablesOk(names, Holding(ts, id, a, i + 1))
    ensures TablesOk(names, Holding(ts, id, a, i))
  {
    var (us, vs) := (Holding(ts, id, a, i + 1), Holding(ts, id, a, i));
    forall r | r in vs ensures Linked(vs[r].keys) && FromTheStart(names, vs[r]) {
      assert Linked(us[r].keys);
      forall k | 0 <= k < |vs[r].blocks| ensures InPlace(names, vs[r], k) {
        if k < |us[r].blocks| { assert InPlace(names, us[r], k); }
      }
    }
  }

  lemma CountsMove(p: Pool, q: Pool, ts: Tables, id: RequestId, a: Allocation, i: nat, more: bool)
    requires i < |a.blocks| && NoDup(a.blocks) && a.blocks[i] < |p.refs| && q.keyOf == p.keyOf
    requires HeldExactly(p, Holding(ts, id, a, if more then i else i + 1)) && (more || p.refs[a.blocks[i]] > 0)
    requires q.refs == p.refs[a.blocks[i] := p.refs[a.blocks[i]] + if more then 1 else -1]
    ensures HeldExactly(q, Holding(ts, id, a, if more then i + 1 else i))
  {
    hide Holders;
    forall c | c in q.keyOf && c < |q.refs|
      ensures q.refs[c] == |Holders(Holding(ts, id, a, if more then i + 1 else i), c)|
    {
      HoldingCounts(ts, id, a, i, c);
    }
  }

  lemma AcquireKeepsLineage(p: Pool, ts: Tables, id: RequestId, a: Allocation, i: nat)
    requires i < |a.blocks| && i < |a.keys| && NoDup(a.blocks) && Lineage(p, Holding(ts, id, a, i))
    requires a.blocks[i] in p.keyOf && p.keyOf[a.blocks[i]] == a.keys[i] && (i > 0 ==> a.blocks[i - 1] in p.keyOf)
    ensures a.blocks[i] < |p.refs|
    ensures Lineage(Acquire(p, a.blocks[i]), Holding(ts, id, a, i + 1))
  {
    hide HeldExactly, Parents, TablesOk, ChildrenOlder, Holding;
    var q := Acquire(p, a.blocks[i]);
    WithoutOlder(p.keyOf, p.lru, a.blocks[i]);
    hide PoolOk;
    CountsMove(p, q, ts, id, a, i, true);
    TableGrows(p.keyOf, ts, id, a, i);
  }

  lemma NewestOlder(names: Names, lru: seq<nat>, b: nat)
    requires ChildrenOlder(names, lru) && forall c | c in lru :: !Continues(names, c, b)
    ensures ChildrenOlder(names, lru + [b])
  {
  }

  /** A table is released from its last block to its first, so a page becomes idle after the
      pages of the table that continue it. */
  lemma ReleaseKeepsLineage(p: Pool, ts: Tables, id: RequestId, a: Allocation, i: nat)
    requires i < |a.blocks| && NoDup(a.blocks) && Lineage(p, Holding(ts, id, a, i + 1))
    requires a.blocks[i] < |p.refs| && p.refs[a.blocks[i]] > 0
    ensures Lineage(Release(p, a.blocks[i]), Holding(ts, id, a, i))
  {
    var b := a.blocks[i];
    forall c | c in p.lru ensures !Continues(p.keyOf, c, b) { ParentNotIdle(p, Holding(ts, id, a, i + 1), id, c, b); }
    hide HeldExactly, Parents, TablesOk, ChildrenOlder, Holding, PoolOk, Continues;
    NewestOlder(p.keyOf, p.lru, b);
    CountsMove(p, Release(p, b), ts, id, a, i, false);
    TableShrinks(p.keyOf, ts, id, a, i);
  }

  lemma ParentNotIdle(p: Pool, ts: Tables, id: RequestId, b: nat, c: nat)
    requires Lineage(p, ts) && id in ts && c in ts[id].blocks && b in p.lru
    ensures !Continues(p.keyOf, b, c)
  {
    if Continues(p.keyOf, b, c) {
      HolderHoldsParent(p, b, c, ts[id]);
      NobodyHolds(ts, b, id);
    }
  }

  // ---- publishing --------------------------------------------------------------------------

  lemma ParentsGrow(names: Names, b: nat, key: Key)
    requires Parents(names) && b !in names && key.digest == Node(key.parent, key.tokens)
    requires key.parent.Root? || exists d :: d in names && names[d].digest == key.parent
    ensures Parents(names[b := key])
  {
    var more := names[b := key];
    forall c | c in more ensures HasParent(more, c) {
      if c == b {
        if !key.parent.Root? {
          var d :| d in names && names[d].digest == key.parent;
          assert Continues(more, d, b);
        }
      } else {
        assert HasParent(names, c);
        if !names[c].parent.Root? {
          var d :| Continues(names, d, c);
          assert Continues(more, d, c);
        }
      }
    }
  }

  lemma TablesPublish(names: Names, ts: Tables, id: RequestId, i: nat)
    requires TablesOk(names, ts) && id in ts && NoDup(ts[id].blocks) && i < |ts[id].blocks| && i < |ts[id].keys|
    requires ts[id].blocks[i] !in names && forall r | r in ts && r != id :: ts[id].blocks[i] !in ts[r].blocks
    requires i == 0 || ts[id].blocks[i - 1] in names
    ensures TablesOk(names[ts[id].blocks[i] := ts[id].keys[i]], ts)
  {
    var more := names[ts[id].blocks[i] := ts[id].keys[i]];
    forall r, k | r in ts && 0 <= k < |ts[r].blocks| ensures InPlace(more, ts[r], k) {
      assert InPlace(names, ts[r], k);
    }
  }

  lemma OlderPublish(names: Names, lru: seq<nat>, b: nat, key: Key)
    requires ChildrenOlder(names, lru) && b !in lru
    ensures ChildrenOlder(names[b := key], lru)
  {
    forall i, j | 0 <= i < j < |lru| ensures !Continues(names[b := key], lru[i], lru[j]) {
      assert !Continues(names, lru[i], lru[j]);
    }
  }

  /** A page new to the index continues a page its own table has there. */
  lemma PublishKeepsLineage(p: Pool, ts: Tables, id: RequestId, i: nat)
    requires Lineage(p, ts) && id in ts && NoDup(ts[id].blocks) && i < |ts[id].blocks| && i < |ts[id].keys|
    requires var b := ts[id].blocks[i];
             && b !in p.keyOf && b < |p.refs| && p.refs[b] == |Holders(ts, b)| > 0
             && forall r | r in ts && r != id :: b !in ts[r].blocks
    requires ts[id].keys[i] in p.blockOf || i == 0 || ts[id].blocks[i - 1] in p.keyOf
    ensures Lineage(Publish(p, ts[id].keys[i], ts[id].blocks[i]), ts)
  {
    var a := ts[id];
    var (b, key) := (a.blocks[i], a.keys[i]);
    if key !in p.blockOf {
      assert b !in p.lru;
      assert LinkedAt(a.keys, i);
      if i > 0 { assert InPlace(p.keyOf, a, i - 1) && p.keyOf[a.blocks[i - 1]].digest == key.parent; }
      hide Holders, PoolOk, Parents, ChildrenOlder, TablesOk, FromTheStart, Continues, Linked, LinkedAt;
      ParentsGrow(p.keyOf, b, key);
      OlderPublish(p.keyOf, p.lru, b, key);
      TablesPublish(p.keyOf, ts, id, i);
    }
  }

  lemma NamedBlock(p: Pool, key: Key)
    requires PoolOk(p) && key in p.blockOf
    ensures p.blockOf[key] in p.keyOf && p.keyOf[p.blockOf[key]] == key
  {
  }

  ghost predicate InOrderAt(p: Pool, a: Allocation, i: nat)
    requires 1 <= i < |a.keys| && i < |a.blocks|
  {
    a.keys[i] !in p.blockOf ==>
      if i == a.readonly then a.blocks[i - 1] in p.keyOf else a.keys[i - 1] !in p.blockOf
  }

  /** Which newly full pages a commit may enter into the index: the page before a new one is in
      the index through a block of the same table, entered by the same commit or earlier. */
  ghost predicate InOrder(p: Pool, a: Allocation, hi: nat)
    requires hi <= |a.keys| && hi <= |a.blocks|
  {
    forall i | Max(1, a.readonly) <= i < hi :: InOrderAt(p, a, i)
  }

  lemma {:induction false} PublishRangeKeepsLineage(p: Pool, ts: Tables, id: RequestId, lo: nat, hi: nat)
    requires Lineage(p, ts) && id in ts && Publishable(p, ts[id].keys, ts[id].blocks, lo, hi) && NoDup(ts[id].keys)
    requires lo == ts[id].readonly && InOrder(p, ts[id], hi)
    requires forall i | lo <= i < hi ::
               var b := ts[id].blocks[i];
               p.refs[b] == |Holders(ts, b)| && forall r | r in ts && r != id :: b !in ts[r].blocks
    ensures Lineage(PublishRange(p, ts[id].keys, ts[id].blocks, lo, hi), ts)
    decreases hi
  {
    hide Lineage, PoolOk, Holders;
    var a := ts[id];
    if hi > lo {
      var i := hi - 1;
      var q := PublishRange(p, a.keys, a.blocks, lo, i);
      PublishRangeKeepsLineage(p, ts, id, lo, i);
      PublishCovers(p, a.keys, a.blocks, lo, i, a.keys[i]);
      PublishOrigin(p, a.keys, a.blocks, lo, i, a.blocks[i]);
      if i >= Max(1, lo) { assert InOrderAt(p, a, i); }
      if i > 0 {
        PublishOrigin(p, a.keys, a.blocks, lo, i, a.blocks[i - 1]);
        PublishCovers(p, a.keys, a.blocks, lo, i, a.keys[i - 1]);
        if a.keys[i - 1] in q.blockOf { NamedBlock(q, a.keys[i - 1]); }
      }
      PublishKeepsLineage(q, ts, id, i);
    }
  }

  // ---- whole tables ------------------------------------------------------------------------

  /** A table may gain blocks that are not indexed. */
  lemma TableExtended(p: Pool, ts: Tables, id: RequestId, b: Allocation, more: seq<nat>)
    requires Lineage(p, ts) && id in ts && b.keys == ts[id].keys && b.blocks == ts[id].blocks + more
    requires forall c | c in more :: c !in p.keyOf
    ensures Lineage(p, ts[id := b])
  {
    hide Holders, Parents, ChildrenOlder, PoolOk;
    forall c | c in p.keyOf && c < |p.refs| ensures p.refs[c] == |Holders(ts[id := b], c)| {
      HoldersChange(ts, ts[id := b], id, c);
    }
    assert forall k | 0 <= k < |more| :: more[k] in more;
    forall k | 0 <= k < |b.blocks| ensures InPlace(p.keyOf, b, k) {
      if k < |ts[id].blocks| { assert InPlace(p.keyOf, ts[id], k); }
    }
  }

  lemma TableEnters(p: Pool, ts: Tables, id: RequestId, a: Allocation)
    requires Lineage(p, ts) && id !in ts && Linked(a.keys)
    ensures Lineage(p, Holding(ts, id, a, 0))
  {
    hide Holders, Parents, ChildrenOlder, PoolOk;
    forall c | c in p.keyOf && c < |p.refs| ensures p.refs[c] == |Holders(Holding(ts, id, a, 0), c)| {
      HoldersChange(ts, Holding(ts, id, a, 0), id, c);
    }
  }

  lemma TableLeaves(p: Pool, ts: Tables, id: RequestId, a: Allocation)
    requires Lineage(p, Holding(ts, id, a, 0))
    ensures Lineage(p, ts - {id})
  {
    hide Holders, Parents, ChildrenOlder, PoolOk;
    var us := Holding(ts, id, a, 0);
    forall c | c in p.keyOf && c < |p.refs| ensures p.refs[c] == |Holders(ts - {id}, c)| {
      HoldersChange(us, ts - {id}, id, c);
    }
    forall r | r in ts - {id} ensures Linked(ts[r].keys) && FromTheStart(p.keyOf, ts[r]) {
      assert Linked(us[r].keys) && FromTheStart(p.keyOf, us[r]);
    }
  }

  lemma HoldingReplaced(ts: Tables, id: RequestId, a: Allocation, i: nat, b: Allocation)
    requires i <= |a.blocks|
    ensures Holding(ts, id, a, i)[id := b] == ts[id := b]
    ensures id in Holding(ts, id, a, i)
    ensures Holding(ts, id, a, i)[id].blocks == a.blocks[..i] + [] && Holding(ts, id, a, i)[id].keys == a.keys
  {
  }

  lemma HoldsAll(ts: Tables, id: RequestId, a: Allocation)
    ensures Holding(ts, id, a, |a.blocks|) == ts[id := a]
    ensures id in ts && a == ts[id] ==> Holding(ts, id, a, |a.blocks|) == ts
  {
    assert a.blocks[..|a.blocks|] == a.blocks;
  }

  lemma AcquireFits(p: Pool, bs: seq<nat>)
    requires Acquirable(p, bs) && bs != []
    ensures var (init, last) := (bs[..|bs| - 1], bs[|bs| - 1]);
            && Acquirable(p, init) && last < |p.refs| && last in p.keyOf
            && AcquireMany(p, init).keyOf == p.keyOf && |AcquireMany(p, init).refs| == |p.refs|
            && PoolOk(AcquireMany(p, init))
            && AcquireMany(p, bs) == Acquire(AcquireMany(p, init), last)
  {
    hide PoolOk, Acquire;
    InitOf(bs);
  }

  lemma {:induction false} AcquireManyKeepsLineage(p: Pool, ts: Tables, id: RequestId, a: Allocation, i: nat)
    requires i <= |a.blocks| <= |a.keys| && NoDup(a.blocks) && Lineage(p, Holding(ts, id, a, 0))
    requires forall k | 0 <= k < |a.blocks| :: a.blocks[k] in p.keyOf && p.keyOf[a.blocks[k]] == a.keys[k]
    requires Acquirable(p, a.blocks[..i])
    ensures Lineage(AcquireMany(p, a.blocks[..i]), Holding(ts, id, a, i))
    decreases i
  {
    hide PoolOk, Lineage, Acquire, AcquireMany, Acquirable, Holding;
    if i > 0 {
      AcquireFits(p, a.blocks[..i]);
      assert a.blocks[..i][..i - 1] == a.blocks[..i - 1];
      AcquireManyKeepsLineage(p, ts, id, a, i - 1);
      AcquireKeepsLineage(AcquireMany(p, a.blocks[..i - 1]), ts, id, a, i - 1);
    } else {
      AcquireNone(p, a.blocks[..0]);
    }
  }

  lemma AcquireNone(p: Pool, bs: seq<nat>)
    requires Acquirable(p, bs) && bs == []
    ensures AcquireMany(p, bs) == p
  {
  }

  lemma {:induction false} ReleaseManyKeepsLineage(p: Pool, ts: Tables, id: RequestId, a: Allocation, lo: nat, hi: nat)
    requires lo <= hi <= |a.blocks| && NoDup(a.blocks) && Lineage(p, Holding(ts, id, a, hi))
    requires Releasable(p, a.blocks[lo..hi])
    ensures Lineage(ReleaseMany(p, a.blocks[lo..hi]), Holding(ts, id, a, lo))
    decreases hi
  {
    hide PoolOk, Lineage, Release, Releasable, ReleaseMany, Holding;
    var bs := a.blocks[lo..hi];
    if lo == hi {
      NothingReleased(p, bs);
    } else {
      ReleaseFits(p, bs);
      assert bs[|bs| - 1] == a.blocks[hi - 1] && bs[..|bs| - 1] == a.blocks[lo..hi - 1];
      ReleaseKeepsLineage(p, ts, id, a, hi - 1);
      ReleaseManyKeepsLineage(Release(p, a.blocks[hi - 1]), ts, id, a, lo, hi - 1);
    }
  }

  lemma ReleaseFits(p: Pool, bs: seq<nat>)
    requires Releasable(p, bs) && bs != []
    ensures var last := bs[|bs| - 1];
            && PoolOk(p) && last < |p.refs| && p.refs[last] > 0
            && Releasable(Release(p, last), bs[..|bs| - 1])
            && ReleaseMany(p, bs) == ReleaseMany(Release(p, last), bs[..|bs| - 1])
  {
    hide PoolOk, Release;
    ReleaseLast(p, bs);
  }
}
