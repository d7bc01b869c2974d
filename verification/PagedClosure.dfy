/** Exactly which commits endanger the prefix index: it stays closed under parents over all runs
    as long as commits enter their pages in order, and the first commit that does not can be
    followed by a run that leaves a page indexed without its parent. */
module PagedClosure {
  import opened Collections
  import opened PrefixKeys
  import opened BlockPool
  import opened PagedState
  import opened PagedInvariant
  import opened PagedRuns
  import opened PagedLineage

  ghost predicate Rooted(s: State) {
    Inv(s) && Lineage(s.pool, s.allocs) && (s.caching && s.epoch.Some? ==> s.epoch.value >= 0)
  }

  // ---- every operation ---------------------------------------------------------------------

  lemma FreshLineage(n: nat, revision: nat)
    ensures Lineage(FreshPool(n, revision), map[])
  {
  }

  lemma KeysLinked(s: State, tokens: seq<Token>, epoch: Option<int>)
    requires s.blockSize > 0 && tokens != [] && (s.caching ==> epoch.Some?)
    ensures Linked(KeysFor(s, tokens, epoch))
  {
    if s.caching { KeyChainIsLinked(s.blockSize, tokens, epoch.value, CacheablePages(s.blockSize, tokens)); }
  }

  lemma AdmitKeepsLineage(s: State, q: AddRequest)
    requires Admissible(s, q) && Lineage(s.pool, s.allocs)
    ensures Lineage(Admit(s, q).0.pool, Admit(s, q).0.allocs)
  {
    hide Lineage, PoolOk, Counted, ClaimsOk, IndexKeysOk, AllocationOk, SumOver, KeysFor, AcquireMany, Matched,
         BlocksFor;
    if Admit(s, q).1.Some? {
      AdmitOutcome(s, q);
      KeysLinked(s, q.tokens, q.epoch);
      MatchedPages(s, q);
      var t := Admit(s, q).0;
      var a := t.allocs[q.id];
      assert a.blocks[..|a.blocks|] == a.blocks;
      TableEnters(s.pool, s.allocs, q.id, a);
      AcquireManyKeepsLineage(s.pool, s.allocs, q.id, a, |a.blocks|);
      HoldsAll(s.allocs, q.id, a);
      assert t.pool == AcquireMany(s.pool, a.blocks);
    } else {
      AdmittedExactly(s, q);
    }
  }

  lemma ReserveKeepsLineage(s: State, id: RequestId, n: nat)
    requires Ready(s, id) && Lineage(s.pool, s.allocs)
    ensures Lineage(ReserveFor(s, id, n).0.pool, ReserveFor(s, id, n).0.allocs)
  {
    hide Lineage, PoolOk, Counted, ClaimsOk, IndexKeysOk, AllocationOk, SumOver, BlocksFor, TakeMany;
    ReserveNeverRunsOut(s, id, n);
    if ReserveFor(s, id, n).1.Ok? {
      ReserveOutcome(s, id, n);
      var a := s.allocs[id];
      var extra := ExtraBlocks(s, a, n);
      var (bs, p) := TakeMany(s.pool, extra);
      TakeManyKeepsLineage(s.pool, s.allocs, extra);
      TableExtended(p, s.allocs, id, a.(blocks := a.blocks + bs, reserved := n), bs);
    }
  }

  /** The private pages of a table are counted once and in no other table. */
  lemma PrivatePages(s: State, id: RequestId, i: nat)
    requires Inv(s) && id in s.allocs && s.allocs[id].readonly <= i < |s.allocs[id].blocks|
    ensures var b := s.allocs[id].blocks[i];
            && b !in s.pool.keyOf && b < |s.pool.refs| && s.pool.refs[b] == |Holders(s.allocs, b)| == 1
            && forall r | r in s.allocs && r != id :: b !in s.allocs[r].blocks
  {
    hide PoolOk, ClaimsOk, IndexKeysOk;
    assert AllocationOk(s, s.allocs[id]);
    var b := s.allocs[id].blocks[i];
    forall r | r in s.allocs && r != id ensures b !in s.allocs[r].blocks { PrivateIsExclusive(s, id, r, b); }
  }

  ghost predicate CommitInOrder(s: State, id: RequestId, n: nat)
    requires Inv(s) && id in s.allocs && n <= s.allocs[id].reserved
  {
    CommitInSteps(s, id, n);
    InOrder(s.pool, s.allocs[id], FullPages(s, id, n))
  }

  lemma PublishedLineage(s: State, id: RequestId, n: nat)
    requires Inv(s) && Lineage(s.pool, s.allocs) && id in s.allocs && n <= s.allocs[id].reserved
             && CommitInOrder(s, id, n)
    ensures s.blockSize > 0
    ensures Publishable(s.pool, s.allocs[id].keys, s.allocs[id].blocks, s.allocs[id].readonly, FullPages(s, id, n))
    ensures Lineage(Published(s, id, n), s.allocs)
  {
    CommitInSteps(s, id, n);
    DistinctKeys(s, id);
    hide Inv, Lineage, Holders, PublishRange, InOrder, FullPages;
    var a := s.allocs[id];
    var hi := FullPages(s, id, n);
    forall i | a.readonly <= i < hi
      ensures s.pool.refs[a.blocks[i]] == |Holders(s.allocs, a.blocks[i])|
      ensures forall r | r in s.allocs && r != id :: a.blocks[i] !in s.allocs[r].blocks
    {
      PrivatePages(s, id, i);
    }
    PublishRangeKeepsLineage(s.pool, s.allocs, id, a.readonly, hi);
  }

  lemma TailReleased(p: Pool, ts: Tables, id: RequestId, keep: nat, b: Allocation)
    requires Lineage(p, ts) && id in ts && NoDup(ts[id].blocks) && keep <= |ts[id].blocks|
    requires Releasable(p, ts[id].blocks[keep..]) && b.blocks == ts[id].blocks[..keep] && b.keys == ts[id].keys
    ensures Lineage(ReleaseMany(p, ts[id].blocks[keep..]), ts[id := b])
  {
    hide Lineage, ReleaseMany, Releasable, NoDup, Holding;
    var a := ts[id];
    HoldsAll(ts, id, a);
    HoldingReplaced(ts, id, a, keep, b);
    assert a.blocks[keep..|a.blocks|] == a.blocks[keep..];
    ReleaseManyKeepsLineage(p, ts, id, a, keep, |a.blocks|);
    TableExtended(ReleaseMany(p, a.blocks[keep..]), Holding(ts, id, a, keep), id, b, []);
  }

  lemma CommitKeepsLineage(s: State, id: RequestId, n: nat)
    requires Inv(s) && Lineage(s.pool, s.allocs) && id in s.allocs && n <= s.allocs[id].reserved
             && CommitInOrder(s, id, n)
    ensures Lineage(Commit(s, id, n).0.pool, Commit(s, id, n).0.allocs)
  {
    PublishedLineage(s, id, n);
    DistinctKeys(s, id);
    CommitInSteps(s, id, n);
    hide Inv, Lineage, Published, Commit, KeptPages, FullPages, Releasable, Publishable, ReleaseMany, NoDup,
         InitialClaim;
    TailReleased(Published(s, id, n), s.allocs, id, KeptPages(s, id, n), Commit(s, id, n).0.allocs[id]);
  }

  lemma FreeKeepsLineage(s: State, id: RequestId)
    requires Inv(s) && Lineage(s.pool, s.allocs) && id in s.allocs
    ensures Lineage(Free(s, id).0.pool, Free(s, id).0.allocs)
  {
    HeldBlocks(s, id);
    assert PoolOk(s.pool);
    hide Inv, Lineage, PoolOk, ReleaseMany;
    var a := s.allocs[id];
    HoldsAll(s.allocs, id, a);
    assert s.allocs[id := a] == s.allocs && a.blocks[0..|a.blocks|] == a.blocks;
    ReleaseManyKeepsLineage(s.pool, s.allocs, id, a, 0, |a.blocks|);
    TableLeaves(ReleaseMany(s.pool, a.blocks), s.allocs, id, a);
  }

  lemma SettleKeepsRooted(s: State, epoch: Option<int>)
    requires Rooted(s)
    ensures Sync(s).Ok? ==> Rooted(Sync(s).value)
    ensures s.numBlocks.Some? && EnsureEpoch(s, epoch).Ok? && (s.caching ==> epoch.Some? && epoch.value >= 0) ==>
              Rooted(EnsureEpoch(s, epoch).value)
  {
    hide Inv, FreshPool, Lineage;
    SyncKeepsInv(s);
    FreshLineage(s.planned, s.pool.revision + 1);
    if s.numBlocks.Some? {
      EnsureEpochKeepsInv(s, epoch);
      FreshLineage(s.numBlocks.value, s.pool.revision + 1);
    }
  }

  /** A commit that is accepted enters its pages in order. */
  ghost predicate StepInOrder(s: State, op: Op)
    requires Inv(s)
  {
    op.DoCommit? && op.id in s.allocs && 0 <= op.n <= s.allocs[op.id].reserved ==> CommitInOrder(s, op.id, op.n)
  }

  lemma StepKeepsRooted(s: State, op: Op)
    requires Rooted(s) && StepInOrder(s, op)
    ensures Rooted(Step(s, op))
  {
    hide PoolOk, Counted, ClaimsOk, IndexKeysOk, AllocationOk, Admit, ReserveFor, Commit, Free, Matched, SumOver,
         Sync, EnsureEpoch, Lineage, InOrder;
    SyncKeepsInv(s);
    SettleKeepsRooted(s, None);
    match op
    case DoReplan(n) =>
    case DoSync =>
    case DoAdd(q) => AddKeepsRooted(s, q);
    case DoReserve(id, n) =>
      if Sync(s).Ok? && n > 0 && id in s.allocs && s.allocs[id].reserved == 0 {
        ReserveKeepsLineage(Sync(s).value, id, n);
        ReserveFrame(Sync(s).value, id, n);
      }
    case DoCommit(id, n) =>
      if id in s.allocs && 0 <= n <= s.allocs[id].reserved {
        CommitKeepsLineage(s, id, n);
        CommitKeepsEpoch(s, id, n);
      } else {
        Refused(s, id, n);
      }
    case DoFree(id) => if id in s.allocs { FreeKeepsLineage(s, id); FreeFrame(s, id); } else { FreeFrame(s, id); }
    case DoPreview(_, _) =>
  }

  lemma Refused(s: State, id: RequestId, n: int)
    requires Inv(s) && !(id in s.allocs && 0 <= n <= s.allocs[id].reserved)
    ensures Commit(s, id, n).0 == s
  {
  }

  lemma ReserveFrame(s: State, id: RequestId, n: nat)
    requires Ready(s, id)
    ensures var t := ReserveFor(s, id, n).0; t.epoch == s.epoch && t.caching == s.caching
  {
    hide Inv;
  }

  lemma CommitKeepsEpoch(s: State, id: RequestId, n: nat)
    requires Inv(s) && id in s.allocs && n <= s.allocs[id].reserved
    ensures var t := Commit(s, id, n).0; t.epoch == s.epoch && t.caching == s.caching
  {
    CommitInSteps(s, id, n);
    hide Inv, Commit;
  }

  lemma FreeFrame(s: State, id: RequestId)
    requires Inv(s)
    ensures var t := Free(s, id).0; t.epoch == s.epoch && t.caching == s.caching && (id !in s.allocs ==> t == s)
  {
    if id in s.allocs { HeldBlocks(s, id); }
    hide Inv;
  }

  lemma AddKeepsRooted(s: State, q: AddRequest)
    requires Rooted(s)
    ensures Rooted(Step(s, DoAdd(q)))
  {
    hide PoolOk, Counted, ClaimsOk, IndexKeysOk, AllocationOk, Admit, Sync, EnsureEpoch, Lineage, SumOver;
    SyncKeepsInv(s);
    SettleKeepsRooted(s, None);
    if Sync(s).Ok? {
      var t := Sync(s).value;
      EnsureEpochKeepsInv(t, q.epoch);
      if ValidAdd(q) && q.id !in t.allocs && !(t.caching && (q.epoch.None? || q.epoch.value < 0))
         && EnsureEpoch(t, q.epoch).Ok? {
        SettleKeepsRooted(t, q.epoch);
        AdmitKeepsLineage(EnsureEpoch(t, q.epoch).value, q);
        AdmitFrame(EnsureEpoch(t, q.epoch).value, q);
      }
    }
  }

  lemma AdmitFrame(s: State, q: AddRequest)
    requires Admissible(s, q)
    ensures var t := Admit(s, q).0; t.epoch == s.epoch && t.caching == s.caching
  {
    if Admit(s, q).1.Some? { AdmitOutcome(s, q); } else { AdmittedExactly(s, q); }
  }

  // ---- runs --------------------------------------------------------------------------------

  /** Every commit of a run enters its pages in order. */
  ghost predicate Orderly(s: State, ops: seq<Op>)
    requires Inv(s)
    decreases |ops|
  {
    ops == [] || (StepInOrder(s, ops[0]) && Orderly(Step(s, ops[0]), ops[1..]))
  }

  lemma {:induction false} RunKeepsRooted(s: State, ops: seq<Op>)
    requires Rooted(s) && Orderly(s, ops)
    ensures Rooted(Run(s, ops))
    decreases |ops|
  {
    hide Inv, Lineage, StepInOrder, Step;
    if ops != [] {
      StepKeepsRooted(s, ops[0]);
      RunKeepsRooted(Step(s, ops[0]), ops[1..]);
    }
  }

  lemma InitialRooted(blockSize: nat, caching: bool, planned: nat)
    requires blockSize > 0 && planned > 0
    ensures Rooted(InitialState(blockSize, caching, planned))
  {
    InitialInv(blockSize, caching, planned);
    hide Inv;
  }

  /** Over every run in which commits enter their pages in order, an indexed page can be reached
      from the start of its prompt, whatever was admitted, evicted or freed in between. */
  lemma OrderlyRunsStayClosed(blockSize: nat, caching: bool, planned: nat, ops: seq<Op>)
    requires blockSize > 0 && planned > 0
    requires (InitialInv(blockSize, caching, planned); Orderly(InitialState(blockSize, caching, planned), ops))
    ensures Inv(InitialState(blockSize, caching, planned))
    ensures Rooted(Run(InitialState(blockSize, caching, planned), ops))
    ensures ParentClosed(Run(InitialState(blockSize, caching, planned), ops).pool)
  {
    hide Inv, Lineage, Orderly;
    var s := InitialState(blockSize, caching, planned);
    InitialRooted(blockSize, caching, planned);
    RunKeepsRooted(s, ops);
    LineageCloses(Run(s, ops).pool, Run(s, ops).allocs);
  }

  // ---- a commit out of order ---------------------------------------------------------------

  /** A page is indexed, and the page it continues is not, or is a block outside the table that
      holds the page. */
  ghost predicate Stranded(p: Pool, a: Allocation, i: nat) {
    && 0 < i < |a.blocks| && i < |a.keys| && Linked(a.keys)
    && a.blocks[i] in p.keyOf && p.keyOf[a.blocks[i]] == a.keys[i]
    && (a.keys[i - 1] in p.blockOf ==> p.blockOf[a.keys[i - 1]] !in a.blocks)
  }

  /** A page whose block is not indexed is indexed, if at all, outside its table. */
  lemma ForeignBlock(p: Pool, a: Allocation, k: nat)
    requires PoolOk(p) && FromTheStart(p.keyOf, a) && NoDup(a.keys) && k < |a.keys| && k < |a.blocks|
    requires a.blocks[k] !in p.keyOf && a.keys[k] in p.blockOf
    ensures p.blockOf[a.keys[k]] !in a.blocks
  {
    NamedBlock(p, a.keys[k]);
    hide PoolOk;
    var f := p.blockOf[a.keys[k]];
    forall j | 0 <= j < |a.blocks| ensures a.blocks[j] != f { assert InPlace(p.keyOf, a, j); }
  }

  lemma EnteredHere(p: Pool, a: Allocation, hi: nat, i: nat)
    requires Publishable(p, a.keys, a.blocks, a.readonly, hi) && NoDup(a.keys)
    requires a.readonly <= i < hi && a.keys[i] !in p.blockOf
    ensures var q := PublishRange(p, a.keys, a.blocks, a.readonly, hi);
            a.blocks[i] in q.keyOf && q.keyOf[a.blocks[i]] == a.keys[i]
  {
    hide PoolOk, NoDup, PublishRange;
    PublishCovers(p, a.keys, a.blocks, a.readonly, hi, a.keys[i]);
    NamedBlock(PublishRange(p, a.keys, a.blocks, a.readonly, hi), a.keys[i]);
  }

  lemma EnteredBefore(p: Pool, a: Allocation, hi: nat, k: nat)
    requires Publishable(p, a.keys, a.blocks, a.readonly, hi) && NoDup(a.keys) && k < hi
    requires k < a.readonly || a.keys[k] in p.blockOf
    ensures var q := PublishRange(p, a.keys, a.blocks, a.readonly, hi);
            a.keys[k] in q.blockOf ==>
              a.keys[k] in p.blockOf && q.blockOf[a.keys[k]] == p.blockOf[a.keys[k]]
  {
    hide PoolOk, PublishRange;
    PublishCovers(p, a.keys, a.blocks, a.readonly, hi, a.keys[k]);
  }

  /** A page that a commit enters although the page before it is not its table's own. */
  lemma StrandedAt(p: Pool, a: Allocation, hi: nat, i: nat)
    requires Publishable(p, a.keys, a.blocks, a.readonly, hi) && Linked(a.keys) && NoDup(a.keys)
             && FromTheStart(p.keyOf, a)
    requires Max(1, a.readonly) <= i < hi && !InOrderAt(p, a, i)
    ensures Stranded(PublishRange(p, a.keys, a.blocks, a.readonly, hi), a, i)
  {
    hide PoolOk, Linked, FromTheStart, PublishRange, NoDup, InOrderAt, Publishable;
    NotOwn(p, a, hi, i);
    EnteredHere(p, a, hi, i);
    EnteredBefore(p, a, hi, i - 1);
    if a.keys[i - 1] in p.blockOf { ForeignBlock(p, a, i - 1); }
  }

  lemma NotOwn(p: Pool, a: Allocation, hi: nat, i: nat)
    requires Publishable(p, a.keys, a.blocks, a.readonly, hi) && Max(1, a.readonly) <= i < hi && !InOrderAt(p, a, i)
    ensures PoolOk(p) && i < |a.keys| && i < |a.blocks|
    ensures a.blocks[i - 1] !in p.keyOf && a.keys[i] !in p.blockOf && (i - 1 < a.readonly || a.keys[i - 1] in p.blockOf)
  {
    hide PoolOk;
  }

  /** What a commit out of order leaves. */
  lemma PublishStrands(p: Pool, ts: Tables, id: RequestId, hi: nat) returns (i: nat)
    requires Lineage(p, ts) && id in ts && NoDup(ts[id].keys)
    requires Publishable(p, ts[id].keys, ts[id].blocks, ts[id].readonly, hi) && !InOrder(p, ts[id], hi)
    ensures i < hi && Stranded(PublishRange(p, ts[id].keys, ts[id].blocks, ts[id].readonly, hi), ts[id], i)
  {
    var a := ts[id];
    i :| Max(1, a.readonly) <= i < hi && !InOrderAt(p, a, i);
    assert Linked(a.keys) && FromTheStart(p.keyOf, a);
    hide PoolOk, Lineage, Linked, FromTheStart, PublishRange, Stranded;
    StrandedAt(p, a, hi, i);
  }

  ghost predicate WellKeyed(names: Names) {
    forall c | c in names :: names[c].digest == Node(names[c].parent, names[c].tokens)
  }

  lemma PublishWellKeyed(p: Pool, a: Allocation, lo: nat, hi: nat)
    requires Publishable(p, a.keys, a.blocks, lo, hi) && WellKeyed(p.keyOf) && Linked(a.keys)
    ensures WellKeyed(PublishRange(p, a.keys, a.blocks, lo, hi).keyOf)
  {
    hide PublishRange, PoolOk;
    var names := PublishRange(p, a.keys, a.blocks, lo, hi).keyOf;
    forall c | c in names ensures names[c].digest == Node(names[c].parent, names[c].tokens) {
      PublishOrigin(p, a.keys, a.blocks, lo, hi, c);
      if c !in p.keyOf {
        var i :| lo <= i < hi && a.blocks[i] == c && names[c] == a.keys[i];
        assert LinkedAt(a.keys, i);
      }
    }
  }

  /** With the parent gone, the page that is left shows it. */
  lemma OrphanShows(p: Pool, key: Key, parent: Key)
    requires PoolOk(p) && WellKeyed(p.keyOf) && key in p.blockOf && parent !in p.blockOf
    requires key.parent == parent.digest == Node(parent.parent, parent.tokens)
    ensures !ParentClosed(p)
  {
    forall j | j in p.blockOf ensures j.digest != key.parent {
      assert p.keyOf[p.blockOf[j]] == j;
    }
  }

  /** Block b has left the index, block c has not, and nothing has entered it. */
  ghost predicate Evicted(p: Pool, q: Pool, b: nat, c: nat) {
    b !in q.keyOf && c in q.keyOf && forall d | d in q.keyOf :: d in p.keyOf && q.keyOf[d] == p.keyOf[d]
  }

  /** Taking up to an idle page evicts it and keeps every younger one. */
  lemma EvictBetween(p: Pool, x: nat, y: nat)
    requires PoolOk(p) && x < y < |p.lru|
    ensures Evicted(p, TakeMany(p, |p.free| + x + 1).1, p.lru[x], p.lru[y])
  {
    hide PoolOk, Taken, TakeMany;
    var n := |p.free| + x + 1;
    TakeManyOrder(p, n);
    var (bs, q) := TakeMany(p, n);
    assert q.lru == p.lru[x + 1..];
    assert q.lru[y - x - 1] == p.lru[y] && p.lru[y] in q.lru;
    TakenIdle(p, bs, q, p.lru[x]);
    IdleNamed(p, x, q, p.lru[y]);
  }

  lemma IdleNamed(p: Pool, x: nat, q: Pool, c: nat)
    requires PoolOk(p) && PoolOk(q) && x < |p.lru| && q.lru == p.lru[x + 1..] && c in q.lru
    ensures p.lru[x] !in q.lru && c in q.keyOf
  {
  }

  /** What is still indexed was not taken. */
  lemma TakenIdle(p: Pool, bs: seq<nat>, q: Pool, b: nat)
    requires PoolOk(p) && PoolOk(q) && Taken(p, bs, q) && b in p.lru
    ensures b in q.keyOf <==> b in q.lru
    ensures forall d | d in q.keyOf :: d in p.keyOf && q.keyOf[d] == p.keyOf[d]
  {
  }

  // ---- the continuation --------------------------------------------------------------------

  lemma {:induction false} RunConcat(s: State, first: seq<Op>, second: seq<Op>)
    requires Inv(s)
    ensures Run(s, first + second) == Run(Run(s, first), second)
    decreases |first|
  {
    hide Inv, Step;
    if first == [] {
      assert first + second == second;
    } else {
      assert (first + second)[1..] == first[1..] + second;
      RunConcat(Step(s, first[0]), first[1..], second);
    }
  }

  lemma RunCons(s: State, op: Op, rest: seq<Op>)
    requires Inv(s)
    ensures Run(s, [op] + rest) == Run(Step(s, op), rest)
  {
    hide Inv, Step;
    assert ([op] + rest)[1..] == rest;
  }

  /** A run that begins with one more operation. */
  lemma Chain(s: State, op: Op, rest: seq<Op>) returns (ops: seq<Op>)
    requires Inv(s)
    ensures ops == [op] + rest && Run(s, ops) == Run(Step(s, op), rest)
  {
    hide Inv, Step;
    ops := [op] + rest;
    RunCons(s, op, rest);
  }

  lemma RunOne(s: State, op: Op)
    requires Inv(s)
    ensures Run(s, [op]) == Step(s, op)
  {
    hide Inv, Step;
    assert [op][1..] == [];
    assert Run(Step(s, op), []) == Step(s, op);
  }

  predicate NoCommit(ops: seq<Op>) {
    forall i | 0 <= i < |ops| :: !ops[i].DoCommit?
  }

  lemma {:induction false} NoCommitIsOrderly(s: State, ops: seq<Op>)
    requires Inv(s) && NoCommit(ops)
    ensures Orderly(s, ops)
    decreases |ops|
  {
    hide Inv, Step;
    if ops != [] { NoCommitIsOrderly(Step(s, ops[0]), ops[1..]); }
  }

  /** What freeing others leaves alone. */
  ghost predicate SameIndex(s: State, t: State) {
    && t.pool.keyOf == s.pool.keyOf && t.pool.blockOf == s.pool.blockOf && |t.pool.refs| == |s.pool.refs|
    && t.blockSize == s.blockSize && t.caching == s.caching && t.planned == s.planned
    && t.numBlocks == s.numBlocks && t.epoch == s.epoch
  }

  lemma FreeLeaves(s: State, id: RequestId)
    requires Inv(s) && id in s.allocs
    ensures SameIndex(s, Step(s, DoFree(id))) && Step(s, DoFree(id)).allocs == s.allocs - {id}
    ensures s.pool.lru <= Step(s, DoFree(id)).pool.lru
  {
    hide PoolOk, Counted, ClaimsOk, IndexKeysOk, AllocationOk, ReleaseMany, InitialClaim, CompletionClaim, NoDup;
    HeldBlocks(s, id);
    ReleaseManyOrder(s.pool, s.allocs[id].blocks);
  }

  lemma MapShrinks<K, V>(m: map<K, V>, k: K)
    requires k in m
    ensures |m - {k}| < |m|
  {
    assert (m - {k}).Keys == m.Keys - {k};
  }

  /** Every other request is freed. */
  lemma {:induction false} FreeOthers(s: State, id: RequestId) returns (ops: seq<Op>)
    requires Inv(s) && id in s.allocs
    ensures NoCommit(ops) && SameIndex(s, Run(s, ops)) && Run(s, ops).allocs == map[id := s.allocs[id]]
    decreases |s.allocs|
  {
    hide Inv, Step;
    if r :| r in s.allocs && r != id {
      FreeLeaves(s, r);
      MapShrinks(s.allocs, r);
      var rest := FreeOthers(Step(s, DoFree(r)), id);
      ops := Chain(s, DoFree(r), rest);
    } else {
      ops := [];
      assert s.allocs == map[id := s.allocs[id]];
      RunNone(s);
    }
  }

  function Filler(epoch: Option<int>): AddRequest {
    AddRequest("filler", [0], 1, epoch, 0, 0, 0, false)
  }

  /** A best-effort request that finds no page of its prompt cached. */
  lemma AdmitMiss(s: State, q: AddRequest)
    requires Admissible(s, q) && !q.guaranteeCompletion
    requires q.initialExtraBlocks == 0 && q.minFreeSlots == 0 && q.admissionMinFreeSlots == 0
    requires Matched(s.pool.blockOf, KeysFor(s, q.tokens, q.epoch)) == []
    ensures Admit(s, q).0
            == s.(allocs := s.allocs[q.id := Allocation([], None, None, 0, KeysFor(s, q.tokens, q.epoch), 0, 0, 0)])
  {
    assert ClaimsOk(s) && |s.pool.refs| == s.numBlocks.value;
    hide PoolOk, Counted, ClaimsOk, IndexKeysOk, AllocationOk, SumOver, KeysFor, Matched;
    WholePages(s.blockSize, 0);
  }

  /** Adding to a pool that is planned and in its epoch already. */
  lemma AddSettled(s: State, q: AddRequest)
    requires Inv(s) && ValidAdd(q) && q.id !in s.allocs && s.numBlocks == Some(s.planned) && s.epoch == q.epoch
    requires q.epoch.Some? && q.epoch.value >= 0
    ensures Admissible(s, q) && Step(s, DoAdd(q)) == Admit(s, q).0
  {
    hide PoolOk, Counted, ClaimsOk, IndexKeysOk, AllocationOk, Admit;
  }

  /** A best-effort reservation takes its blocks when there are enough. */
  lemma ReserveTakes(s: State, id: RequestId, n: nat)
    requires Inv(s) && s.numBlocks == Some(s.planned) && id in s.allocs && s.allocs[id].reserved == 0 && n > 0
    requires s.allocs[id].completionLimit.None? && s.allocs[id].initialLimit.None? && s.allocs[id].minFree == 0
    requires s.completionClaims == 0 && s.initialClaims == 0
    requires 0 <= ExtraBlocks(s, s.allocs[id], n) <= Available(s.pool)
    ensures var (bs, p) := TakeMany(s.pool, ExtraBlocks(s, s.allocs[id], n));
            Step(s, DoReserve(id, n))
            == s.(pool := p, allocs := s.allocs[id := s.allocs[id].(blocks := s.allocs[id].blocks + bs, reserved := n)])
  {
    hide PoolOk, Counted, ClaimsOk, IndexKeysOk, AllocationOk, TakeMany, BlocksFor, SumOver;
  }

  ghost predicate Settled(s: State) {
    Inv(s) && s.numBlocks == Some(s.planned) && s.caching && s.epoch.Some? && s.epoch.value >= 0
  }

  lemma NoRequestsNoClaims(s: State)
    requires Inv(s) && s.allocs == map[]
    ensures s.completionClaims == 0 && s.initialClaims == 0
  {
    hide PoolOk, Counted, IndexKeysOk, AllocationOk;
  }

  lemma AddFiller(s: State)
    requires Settled(s) && s.allocs == map[]
    ensures Step(s, DoAdd(Filler(s.epoch))) == s.(allocs := map["filler" := Allocation([], None, None, 0, [], 0, 0, 0)])
  {
    NoRequestsNoClaims(s);
    hide PoolOk, Counted, ClaimsOk, IndexKeysOk, AllocationOk, SumOver, Step, Admit;
    var q := Filler(s.epoch);
    AddSettled(s, q);
    assert CacheablePages(s.blockSize, q.tokens) == 0;
    AdmitMiss(s, q);
  }

  /** With no request left, one new request takes as many blocks as it likes. */
  lemma Drain(s: State, m: nat) returns (ops: seq<Op>)
    requires Settled(s) && s.allocs == map[] && 0 < m <= Available(s.pool)
    ensures NoCommit(ops) && PoolOk(s.pool) && Run(s, ops).pool == TakeMany(s.pool, m).1
  {
    hide PoolOk, Counted, ClaimsOk, IndexKeysOk, AllocationOk, SumOver, Step, Run, TakeMany, BlocksFor;
    NoRequestsNoClaims(s);
    AddFiller(s);
    var t := Step(s, DoAdd(Filler(s.epoch)));
    var n := m * s.blockSize;
    ScaleMonotone(s.blockSize, 1, m);
    WholePages(s.blockSize, m);
    ReserveTakes(t, "filler", n);
    ops := [DoAdd(Filler(s.epoch)), DoReserve("filler", n)];
    RunConcat(s, [DoAdd(Filler(s.epoch))], [DoReserve("filler", n)]);
    assert [DoAdd(Filler(s.epoch))] + [DoReserve("filler", n)] == ops;
    RunOne(s, DoAdd(Filler(s.epoch)));
    RunOne(t, DoReserve("filler", n));
  }

  lemma ReplanBack(s: State)
    requires Inv(s) && s.numBlocks.Some? && s.numBlocks.value > 0
    ensures Step(s, DoReplan(s.numBlocks.value)) == s.(planned := s.numBlocks.value)
  {
    hide Inv;
  }

  /** Whatever is idle can be evicted, as far back in the order as one likes. */
  lemma EvictIdle(s: State, x: nat, y: nat) returns (ops: seq<Op>)
    requires Settled(s) && s.allocs == map[] && x < y < |s.pool.lru|
    ensures NoCommit(ops) && Evicted(s.pool, Run(s, ops).pool, s.pool.lru[x], s.pool.lru[y])
  {
    hide Inv, PoolOk, Run, TakeMany, Evicted;
    ops := Drain(s, |s.pool.free| + x + 1);
    EvictBetween(s.pool, x, y);
  }

  lemma IdleNow(s: State, c: nat)
    requires Inv(s) && c in s.pool.keyOf && (forall r | r in s.allocs :: c !in s.allocs[r].blocks)
    ensures c in s.pool.lru
  {
    hide ClaimsOk, IndexKeysOk, AllocationOk;
    assert Holders(s.allocs, c) == {};
  }

  lemma HeldNow(s: State, id: RequestId, c: nat)
    requires Inv(s) && id in s.allocs && c in s.allocs[id].blocks
    ensures c !in s.pool.lru
  {
    HeldBlocks(s, id);
    hide Counted, ClaimsOk, IndexKeysOk, AllocationOk;
  }

  /** An idle page and one that is held by the only request left: the idle one is evicted first. */
  lemma IdleBeforeHeld(s: State, id: RequestId, f: nat, c: nat) returns (ops: seq<Op>)
    requires Settled(s) && s.allocs.Keys == {id} && f in s.pool.lru && c in s.allocs[id].blocks && c in s.pool.keyOf
    ensures NoCommit(ops) && Evicted(s.pool, Run(s, ops).pool, f, c)
  {
    hide Inv, Step, Run;
    var t := Step(s, DoFree(id));
    FreeLeaves(s, id);
    assert t.allocs == map[];
    HeldNow(s, id, c);
    IdleNow(t, c);
    var x :| 0 <= x < |s.pool.lru| && s.pool.lru[x] == f;
    var y :| 0 <= y < |t.pool.lru| && t.pool.lru[y] == c;
    var rest := EvictIdle(t, x, y);
    ops := [DoFree(id)] + rest;
    RunConcat(s, [DoFree(id)], rest);
    RunOne(s, DoFree(id));
  }

  /** The pools agree on the index. */
  lemma EvictedFrom(s: State, p: Pool, q: Pool, b: nat, c: nat)
    requires Evicted(p, q, b, c) && p.keyOf == s.pool.keyOf
    ensures Evicted(s.pool, q, b, c)
  {
  }

  /** Other requests leave, the page count is settled, and then the foreign parent goes. */
  lemma ForeignParentGoes(s: State, id: RequestId, f: nat, c: nat) returns (ops: seq<Op>)
    requires Inv(s) && s.caching && s.epoch.Some? && s.epoch.value >= 0 && id in s.allocs
    requires f in s.pool.keyOf && f !in s.allocs[id].blocks && c in s.allocs[id].blocks && c in s.pool.keyOf
    ensures NoCommit(ops) && Evicted(s.pool, Run(s, ops).pool, f, c)
  {
    hide Inv, Step, Run;
    var freed := FreeOthers(s, id);
    var t := Run(s, freed);
    assert t.allocs.Keys == {id};
    IdleNow(t, f);
    HasPlan(t, id);
    ReplanBack(t);
    var u := Step(t, DoReplan(t.numBlocks.value));
    var rest := IdleBeforeHeld(u, id, f, c);
    ops := freed + ([DoReplan(t.numBlocks.value)] + rest);
    RunConcat(s, freed, [DoReplan(t.numBlocks.value)] + rest);
    RunConcat(t, [DoReplan(t.numBlocks.value)], rest);
    RunOne(t, DoReplan(t.numBlocks.value));
    EvictedFrom(s, u.pool, Run(u, rest).pool, f, c);
  }

  lemma HasPlan(s: State, id: RequestId)
    requires Inv(s) && id in s.allocs && s.allocs[id].blocks != []
    ensures s.numBlocks.Some? && s.numBlocks.value > 0
  {
    HeldBlocks(s, id);
    hide PoolOk, Counted, ClaimsOk, IndexKeysOk, AllocationOk;
    assert s.allocs[id].blocks[0] < |s.pool.refs|;
  }

  /** A commit enters pages, cuts the table and keeps the rest of the index. */
  lemma CommitShape(s: State, id: RequestId, n: nat)
    requires Inv(s) && id in s.allocs && n <= s.allocs[id].reserved
    ensures s.blockSize > 0 && FullPages(s, id, n) <= KeptPages(s, id, n) <= |s.allocs[id].blocks|
    ensures Publishable(s.pool, s.allocs[id].keys, s.allocs[id].blocks, s.allocs[id].readonly, FullPages(s, id, n))
    ensures var (t, a) := (Commit(s, id, n).0, s.allocs[id]);
            var q := PublishRange(s.pool, a.keys, a.blocks, a.readonly, FullPages(s, id, n));
            && id in t.allocs && t.allocs[id].keys == a.keys && t.allocs[id].blocks == a.blocks[..KeptPages(s, id, n)]
            && t.pool.keyOf == q.keyOf && t.pool.blockOf == q.blockOf
  {
    hide Inv, Publishable, Releasable, ReleaseMany, PublishRange, NoDup, BlocksFor, InitialClaim, Commit;
    CommitInSteps(s, id, n);
    PageCount(s.blockSize, s.allocs[id].committed + n);
  }

  /** What the commit out of order leaves behind in the new state. */
  lemma CommitStrands(s: State, id: RequestId, n: nat) returns (i: nat)
    requires Rooted(s) && id in s.allocs && n <= s.allocs[id].reserved && !CommitInOrder(s, id, n)
    ensures var t := Step(s, DoCommit(id, n));
            && id in t.allocs && Stranded(t.pool, t.allocs[id], i) && WellKeyed(t.pool.keyOf)
            && t.caching && t.epoch.Some? && t.epoch.value >= 0
  {
    hide Inv, Lineage, Publishable, PublishRange, InOrder, WellKeyed, NoDup, FullPages, KeptPages, Linked, Commit;
    CommitShape(s, id, n);
    DistinctKeys(s, id);
    LineageKeyed(s.pool, s.allocs, id);
    var a := s.allocs[id];
    var hi := FullPages(s, id, n);
    i := PublishStrands(s.pool, s.allocs, id, hi);
    CommitCaches(s, id);
    CommitKeepsEpoch(s, id, n);
    PublishWellKeyed(s.pool, a, a.readonly, hi);
    var t := Commit(s, id, n).0;
    StrandedStays(PublishRange(s.pool, a.keys, a.blocks, a.readonly, hi), t.pool, a, t.allocs[id],
                  KeptPages(s, id, n), i);
    hide Stranded;
    assert Step(s, DoCommit(id, n)) == t;
  }

  lemma LineageKeyed(p: Pool, ts: Tables, id: RequestId)
    requires Lineage(p, ts) && id in ts
    ensures WellKeyed(p.keyOf) && Linked(ts[id].keys)
  {
  }

  lemma CommitCaches(s: State, id: RequestId)
    requires Rooted(s) && id in s.allocs && s.allocs[id].keys != []
    ensures s.caching && s.epoch.Some? && s.epoch.value >= 0
  {
    hide Lineage, PoolOk, Counted, ClaimsOk, IndexKeysOk;
    assert AllocationOk(s, s.allocs[id]);
  }

  lemma StrandedStays(p: Pool, q: Pool, a: Allocation, b: Allocation, keep: nat, i: nat)
    requires Stranded(p, a, i) && q.keyOf == p.keyOf && q.blockOf == p.blockOf && b.keys == a.keys
    requires i < keep <= |a.blocks| && b.blocks == a.blocks[..keep]
    ensures Stranded(q, b, i)
  {
  }

  /** A page left without its parent shows in the index. */
  lemma StrandedShows(p: Pool, q: Pool, a: Allocation, i: nat, f: nat)
    requires PoolOk(p) && PoolOk(q) && WellKeyed(p.keyOf) && Stranded(p, a, i)
    requires a.keys[i - 1] in p.blockOf ==> p.blockOf[a.keys[i - 1]] == f
    requires if a.keys[i - 1] in p.blockOf then Evicted(p, q, f, a.blocks[i]) else q == p
    ensures !ParentClosed(q)
  {
    assert LinkedAt(a.keys, i) && LinkedAt(a.keys, i - 1);
    if a.keys[i - 1] in q.blockOf { NamedBlock(q, a.keys[i - 1]); }
    assert q.keyOf[a.blocks[i]] == a.keys[i];
    OrphanShows(q, a.keys[i], a.keys[i - 1]);
  }

  /** After the first commit out of order the index can be driven to lose a parent: the other
      requests leave, then the committing one, and new blocks are taken. */
  lemma OutOfOrderOpens(s: State, id: RequestId, n: nat) returns (ops: seq<Op>)
    requires Rooted(s) && id in s.allocs && n <= s.allocs[id].reserved && !CommitInOrder(s, id, n)
    ensures NoCommit(ops) && !ParentClosed(Run(Step(s, DoCommit(id, n)), ops).pool)
  {
    hide Inv, Lineage, Step, Run, Evicted, WellKeyed, ParentClosed, CommitInOrder, PoolOk;
    var t := Step(s, DoCommit(id, n));
    var i := CommitStrands(s, id, n);
    var a := t.allocs[id];
    InvPool(t);
    if a.keys[i - 1] in t.pool.blockOf {
      var f := t.pool.blockOf[a.keys[i - 1]];
      NamedBlock(t.pool, a.keys[i - 1]);
      ops := ForeignParentGoes(t, id, f, a.blocks[i]);
      InvPool(Run(t, ops));
      StrandedShows(t.pool, Run(t, ops).pool, a, i, f);
    } else {
      ops := [];
      RunNone(t);
      StrandedShows(t.pool, t.pool, a, i, 0);
    }
  }

  lemma RunNone(s: State)
    requires Inv(s)
    ensures Run(s, []) == s
  {
  }

  lemma InvPool(s: State)
    requires Inv(s)
    ensures PoolOk(s.pool)
  {
  }

  lemma InOrderDecides(s: State, id: RequestId, n: nat)
    requires Rooted(s) && id in s.allocs && n <= s.allocs[id].reserved
    ensures var t := Step(s, DoCommit(id, n));
            CommitInOrder(s, id, n) <==> forall ops | Orderly(t, ops) :: ParentClosed(Run(t, ops).pool)
  {
    hide Inv, Lineage, Step, Run, ParentClosed, CommitInOrder, Orderly;
    var t := Step(s, DoCommit(id, n));
    if CommitInOrder(s, id, n) {
      StepKeepsRooted(s, DoCommit(id, n));
      forall ops | Orderly(t, ops) ensures ParentClosed(Run(t, ops).pool) {
        RunKeepsRooted(t, ops);
        LineageCloses(Run(t, ops).pool, Run(t, ops).allocs);
      }
    } else {
      var ops := OutOfOrderOpens(s, id, n);
      NoCommitIsOrderly(t, ops);
    }
  }

  /** The index is closed under parents exactly as long as commits enter their pages in order:
      after any orderly run, a commit leaves it closed for every orderly continuation if and only
      if each page the commit enters follows a page of its own table that is in the index. */
  lemma ClosedExactlyWhenInOrder(s0: State, before: seq<Op>, id: RequestId, n: nat)
    requires s0.blockSize > 0 && s0.planned > 0 && s0 == InitialState(s0.blockSize, s0.caching, s0.planned) && Inv(s0)
    requires Orderly(s0, before)
    requires var s := Run(s0, before); id in s.allocs && n <= s.allocs[id].reserved
    ensures var s := Run(s0, before);
            && ParentClosed(s.pool)
            && (CommitInOrder(s, id, n) <==>
                 forall after | Orderly(Step(s, DoCommit(id, n)), after) ::
                   ParentClosed(Run(Step(s, DoCommit(id, n)), after).pool))
  {
    hide Inv, Lineage, Step, Run, ParentClosed, CommitInOrder, Orderly;
    OrderlyRunsStayClosed(s0.blockSize, s0.caching, s0.planned, before);
    InOrderDecides(Run(s0, before), id, n);
  }
}
