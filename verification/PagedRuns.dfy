/** What holds in every reachable state of the paged KV manager, whatever requests were
    admitted, reserved, committed or freed in between. */
module PagedRuns {
  import opened Collections
  import opened PrefixKeys
  import opened BlockPool
  import opened PagedState
  import opened PagedInvariant

  datatype Op =
    | DoReplan(blocks: nat)
    | DoSync
    | DoAdd(request: AddRequest)
    | DoReserve(id: RequestId, n: int)
    | DoCommit(id: RequestId, n: int)
    | DoFree(id: RequestId)
    | DoPreview(tokens: seq<Token>, epoch: Option<int>)

  /** Errors leave whatever the operation had already settled; they undo nothing. */
  function Apply(s: State, op: Op): State
    requires Inv(s)
  {
    match op
    case DoReplan(n) => if n > 0 then s.(planned := n) else s
    case DoSync => if Sync(s).Ok? then Sync(s).value else s
    case DoAdd(q) => Add(s, q).0
    case DoReserve(id, n) => Reserve(s, id, n).0
    case DoCommit(id, n) => Commit(s, id, n).0
    case DoFree(id) => Free(s, id).0
    case DoPreview(tokens, epoch) => Preview(s, tokens, epoch).0
  }

  lemma ReplanKeepsInv(s: State, n: nat)
    requires Inv(s) && n > 0
    ensures Inv(s.(planned := n))
  {
    hide PoolOk;
    var t := s.(planned := n);
    forall r | r in t.allocs ensures AllocationOk(t, t.allocs[r]) {
      assert AllocationOk(s, s.allocs[r]);
    }
  }

  lemma OpKeepsInv(s: State, op: Op)
    requires Inv(s)
    ensures Inv(Apply(s, op))
  {
    hide PoolOk, Counted, ClaimsOk, IndexKeysOk, AllocationOk, Admit, ReserveFor, Commit, Free, Matched;
    SyncKeepsInv(s);
    match op
    case DoReplan(n) => if n > 0 { ReplanKeepsInv(s, n); }
    case DoSync =>
    case DoAdd(q) =>
      if Sync(s).Ok? {
        var t := Sync(s).value;
        EnsureEpochKeepsInv(t, q.epoch);
        if ValidAdd(q) && q.id !in t.allocs && !(t.caching && (q.epoch.None? || q.epoch.value < 0))
           && EnsureEpoch(t, q.epoch).Ok? {
          AdmitKeepsInv(EnsureEpoch(t, q.epoch).value, q);
        }
      }
    case DoReserve(id, n) =>
      if Sync(s).Ok? && n > 0 && id in s.allocs && s.allocs[id].reserved == 0 {
        ReserveForKeepsInv(Sync(s).value, id, n);
      }
    case DoCommit(id, n) => CommitKeepsInv(s, id, n);
    case DoFree(id) => FreeKeepsInv(s, id);
    case DoPreview(_, _) =>
  }

  function Step(s: State, op: Op): (t: State)
    requires Inv(s)
    ensures Inv(t)
  {
    OpKeepsInv(s, op);
    Apply(s, op)
  }

  function Run(s: State, ops: seq<Op>): (t: State)
    requires Inv(s)
    ensures Inv(t)
    decreases |ops|
  {
    if ops == [] then s else Run(Step(s, ops[0]), ops[1..])
  }

  lemma InitialInv(blockSize: nat, caching: bool, planned: nat)
    requires blockSize > 0 && planned > 0
    ensures Inv(InitialState(blockSize, caching, planned))
  {
  }

  // ---- blocks are conserved ------------------------------------------------------------

  /** Over every run: each block is in exactly one of free, evictable and referenced, its count
      is the number of tables holding it, no table repeats a block, and the key index and the
      block index are inverse to each other. */
  lemma BlocksConserved(s0: State, ops: seq<Op>, b: nat)
    requires Inv(s0) && b < |Run(s0, ops).pool.refs|
    ensures var s := Run(s0, ops);
            && One(b in s.pool.free) + One(b in s.pool.lru) + One(s.pool.refs[b] > 0) == 1
            && (b in s.pool.lru <==> s.pool.refs[b] == 0 && b in s.pool.keyOf)
            && s.pool.refs[b] == |Holders(s.allocs, b)|
            && (b in s.pool.keyOf ==> s.pool.keyOf[b] in s.pool.blockOf && s.pool.blockOf[s.pool.keyOf[b]] == b)
            && (forall k | k in s.pool.blockOf && s.pool.blockOf[k] == b :: b in s.pool.keyOf && s.pool.keyOf[b] == k)
            && (forall r | r in s.allocs :: NoDup(s.allocs[r].blocks))
  {
    hide ClaimsOk, IndexKeysOk, Run;
    var s := Run(s0, ops);
    forall r | r in s.allocs ensures NoDup(s.allocs[r].blocks) {
      assert AllocationOk(s, s.allocs[r]);
    }
  }

  ghost function Referenced(p: Pool): set<nat> {
    set b | 0 <= b < |p.refs| && p.refs[b] > 0
  }

  /** Every block is referenced, free or idle, and only one of them. */
  lemma BlocksPartition(p: Pool)
    requires PoolOk(p)
    ensures NoDup(p.free) && NoDup(p.lru)
    ensures Elements(p.free) !! Elements(p.lru) && Referenced(p) !! (Elements(p.free) + Elements(p.lru))
    ensures Upto(|p.refs|) == Referenced(p) + (Elements(p.free) + Elements(p.lru))
  {
  }

  /** "Used" as the statistics compute it is the number of blocks some request holds. */
  lemma UsedIsReferenced(p: Pool)
    requires PoolOk(p)
    ensures |p.refs| - Available(p) == |Referenced(p)|
  {
    hide PoolOk, NoDup, Elements, Referenced;
    var (free, idle, used) := (Elements(p.free), Elements(p.lru), Referenced(p));
    BlocksPartition(p);
    assert |used + (free + idle)| == |used| + (|free| + |idle|);
    ElementCount(p.free);
    ElementCount(p.lru);
  }

  // ---- claims and capacity -------------------------------------------------------------

  lemma ScaledClaims(total: int, available: int, claims: int, k: nat)
    requires k > 0 && total > 0 && 0 <= claims <= available <= total
    ensures (total - available) * k >= 0 && claims * k >= 0 && total * k > 0
    ensures (total - available) * k + claims * k <= total * k
  {
    ScaleMonotone(k, 0, total - available);
    ScaleMonotone(k, 0, claims);
    ScaleMonotone(k, 1, total);
    ScaleMonotone(k, total - available + claims, total);
    assert (total - available + claims) * k == (total - available) * k + claims * k;
  }

  /** Over every run the statistics record can be built: used is what requests hold, claimed is what
      they are still promised, capacity is the planned pages, and used and claimed fit into it. */
  lemma StatsAlwaysAccepted(s0: State, ops: seq<Op>)
    requires Inv(s0) && Sync(Run(s0, ops)).Ok?
    ensures StatsAccepted(StatsOf(Sync(Run(s0, ops)).value))
    ensures var t := Sync(Run(s0, ops)).value;
            && StatsOf(t).used == |Referenced(t.pool)| * t.blockSize
            && StatsOf(t).claimed
               == (SumOver(t.allocs, CompletionClaim) + SumOver(t.allocs, InitialClaim)) * t.blockSize
            && StatsOf(t).capacity == Run(s0, ops).planned * t.blockSize
  {
    hide PoolOk, Counted, IndexKeysOk, SumOver, Run, Sync;
    SyncKeepsInv(Run(s0, ops));
    var t := Sync(Run(s0, ops)).value;
    UsedIsReferenced(t.pool);
    ScaledClaims(t.numBlocks.value, Available(t.pool), t.completionClaims + t.initialClaims, t.blockSize);
  }

  // ---- an admitted strict request can always finish --------------------------------------

  /** Until it is freed, an admitted request keeps the limits it was admitted with. */
  lemma {:induction false} LimitsKept(s: State, ops: seq<Op>, id: RequestId)
    requires Inv(s) && id in s.allocs && DoFree(id) !in ops
    ensures var t := Run(s, ops);
            && id in t.allocs && t.numBlocks == s.numBlocks && t.blockSize == s.blockSize
            && t.allocs[id].completionLimit == s.allocs[id].completionLimit
            && t.allocs[id].initialLimit == s.allocs[id].initialLimit
            && t.allocs[id].minFree == s.allocs[id].minFree
    decreases |ops|
  {
    hide Inv, Step;
    if ops != [] {
      StepKeepsLimits(s, ops[0], id);
      LimitsKept(Step(s, ops[0]), ops[1..], id);
    }
  }

  /** At most one table changes, and neither the page count nor the page size. */
  ghost predicate TouchesOnly(s: State, t: State, id: RequestId) {
    SameExcept(s.allocs, t.allocs, id) && t.numBlocks == s.numBlocks && t.blockSize == s.blockSize
        && t.planned == s.planned
  }

  ghost predicate SameLimits(s: State, t: State, id: RequestId) {
    id in s.allocs ==>
      && id in t.allocs
      && t.allocs[id].completionLimit == s.allocs[id].completionLimit
      && t.allocs[id].initialLimit == s.allocs[id].initialLimit
      && t.allocs[id].minFree == s.allocs[id].minFree
  }

  lemma AddTouches(s: State, q: AddRequest)
    requires Inv(s) && s.allocs != map[]
    ensures TouchesOnly(s, Add(s, q).0, q.id) && SameLimits(s, Add(s, q).0, q.id)
  {
    hide PoolOk, Counted, ClaimsOk, IndexKeysOk, AllocationOk, Admit, KeysFor, Matched;
    SyncKeepsInv(s);
    if Sync(s).Ok? && Admissible(s, q) {
      AdmittedExactly(s, q);
      if Admit(s, q).1.Some? { AdmitOutcome(s, q); }
    }
  }

  lemma ReserveTouches(s: State, id: RequestId, n: int)
    requires Inv(s) && s.allocs != map[]
    ensures TouchesOnly(s, Reserve(s, id, n).0, id) && SameLimits(s, Reserve(s, id, n).0, id)
  {
    hide PoolOk, Counted, ClaimsOk, IndexKeysOk, AllocationOk, ReserveFor;
    if Sync(s).Ok? && Ready(s, id) && n > 0 { ReserveForTouches(s, id, n); }
  }

  lemma ReserveForTouches(s: State, id: RequestId, n: nat)
    requires Ready(s, id)
    ensures TouchesOnly(s, ReserveFor(s, id, n).0, id) && SameLimits(s, ReserveFor(s, id, n).0, id)
  {
    hide PoolOk, Counted, ClaimsOk, IndexKeysOk, AllocationOk, Taken, ReserveRefusal, BlocksFor, TakeMany;
    ReserveNeverRunsOut(s, id, n);
  }

  lemma CommitTouches(s: State, id: RequestId, n: int)
    requires Inv(s)
    ensures TouchesOnly(s, Commit(s, id, n).0, id) && SameLimits(s, Commit(s, id, n).0, id)
  {
    hide PoolOk, Counted, ClaimsOk, IndexKeysOk, AllocationOk;
  }

  lemma FreeTouches(s: State, id: RequestId)
    requires Inv(s)
    ensures TouchesOnly(s, Free(s, id).0, id)
  {
    hide PoolOk, Counted, ClaimsOk, IndexKeysOk, AllocationOk;
  }

  lemma PreviewTouches(s: State, tokens: seq<Token>, epoch: Option<int>)
    requires Inv(s) && s.allocs != map[]
    ensures Preview(s, tokens, epoch).0 == s && (Sync(s).Ok? ==> Sync(s).value == s)
  {
    hide Inv, Matched, KeysFor;
  }

  lemma StepKeepsLimits(s: State, op: Op, id: RequestId)
    requires Inv(s) && id in s.allocs && op != DoFree(id)
    ensures var t := Step(s, op); t.numBlocks == s.numBlocks && t.blockSize == s.blockSize && SameLimits(s, t, id)
  {
    hide Inv, Add, Reserve, Commit, Free, Preview, Sync;
    match op
    case DoReplan(n) =>
    case DoSync => PreviewTouches(s, [], None);
    case DoAdd(q) => AddTouches(s, q);
    case DoReserve(other, n) => ReserveTouches(s, other, n);
    case DoCommit(other, n) => CommitTouches(s, other, n);
    case DoFree(other) => FreeTouches(s, other);
    case DoPreview(tokens, epoch) => PreviewTouches(s, tokens, epoch);
  }

  /** Operations on behalf of other requests. */
  predicate Foreign(op: Op, id: RequestId) {
    match op
    case DoReserve(other, _) => other != id
    case DoCommit(other, _) => other != id
    case DoFree(other) => other != id
    case _ => true
  }

  lemma ForeignKeepsTable(s: State, op: Op, id: RequestId)
    requires Inv(s) && id in s.allocs && Foreign(op, id)
    ensures var t := Step(s, op);
            && id in t.allocs && t.allocs[id] == s.allocs[id]
            && t.numBlocks == s.numBlocks && t.blockSize == s.blockSize
            && (!op.DoReplan? ==> t.planned == s.planned)
  {
    hide Inv, Add, Reserve, Commit, Free, Preview, Sync;
    match op
    case DoReplan(n) =>
    case DoSync => PreviewTouches(s, [], None);
    case DoAdd(q) =>
      AddTouches(s, q);
      if q.id == id { AddKeepsExisting(s, q); }
    case DoReserve(other, n) => ReserveTouches(s, other, n);
    case DoCommit(other, n) => CommitTouches(s, other, n);
    case DoFree(other) => FreeTouches(s, other);
    case DoPreview(tokens, epoch) => PreviewTouches(s, tokens, epoch);
  }

  lemma AddKeepsExisting(s: State, q: AddRequest)
    requires Inv(s) && q.id in s.allocs
    ensures Add(s, q).0 == s
  {
    hide Inv, Admit;
  }

  /** Admission with a guarantee records exactly the pages the request may ever need. */
  lemma AdmittedLimit(s0: State, q: AddRequest)
    requires Inv(s0) && Add(s0, q).1.Ok? && Add(s0, q).1.value.Some? && q.guaranteeCompletion
    ensures var s := Step(s0, DoAdd(q));
            && ValidAdd(q) && q.id in s.allocs && s.blockSize > 0
            && s.allocs[q.id].completionLimit == Some(BlocksFor(s.blockSize, q.maxCommitted))
  {
    hide PoolOk, Counted, ClaimsOk, IndexKeysOk, AllocationOk, Matched;
  }

  /** What admission settles for the new request. */
  lemma AddOutcome(s: State, q: AddRequest)
    requires Inv(s) && Add(s, q).1.Ok? && Add(s, q).1.value.Some?
    ensures var t := Step(s, DoAdd(q));
            && ValidAdd(q) && q.id in t.allocs && t.blockSize == s.blockSize && t.caching == s.caching
            && (t.caching ==> t.epoch == q.epoch && q.epoch.Some?)
            && t.allocs[q.id].committed == Add(s, q).1.value.value < |q.tokens|
            && t.allocs[q.id].reserved == 0 && t.numBlocks == Some(t.planned)
            && t.allocs[q.id].committed == |t.allocs[q.id].blocks| * t.blockSize
            && t.allocs[q.id].keys == KeysFor(t, q.tokens, q.epoch)
            && |t.allocs[q.id].blocks| <= |t.allocs[q.id].keys|
  {
    hide PoolOk, Counted, ClaimsOk, IndexKeysOk, AllocationOk, SumOver, Matched, Admit, PromptKeys, BlocksFor,
         Flatten, IsChain;
    SyncKeepsInv(s);
    var t := Sync(s).value;
    EnsureEpochKeepsInv(t, q.epoch);
    var u := EnsureEpoch(t, q.epoch).value;
    AdmitOutcome(u, q);
  }

  /** When a reservation of a strict request is granted. */
  lemma StrictReserve(s: State, id: RequestId, n: nat, limit: nat)
    requires Ready(s, id) && n > 0 && s.allocs[id].completionLimit == Some(limit)
    ensures Reserve(s, id, n).1.Ok? <==>
            s.numBlocks == Some(s.planned) && BlocksFor(s.blockSize, s.allocs[id].committed + n) <= limit
  {
    hide PoolOk, Counted, ClaimsOk, IndexKeysOk, AllocationOk, SumOver, BlocksFor;
    if s.numBlocks == Some(s.planned) { ReserveNeverRunsOut(s, id, n); }
  }

  /** A request admitted with a completion guarantee and holding no reservation obtains any
      reservation that stays within the capacity it was admitted for, after any run of other
      operations. Exactly: it is granted unless the page count was re-planned meanwhile or it
      needs more pages than were promised. */
  lemma CompletionGuarantee(s0: State, q: AddRequest, ops: seq<Op>, n: nat)
    requires Inv(s0) && Add(s0, q).1.Ok? && Add(s0, q).1.value.Some? && q.guaranteeCompletion
    requires DoFree(q.id) !in ops && n > 0
    ensures var s := Run(Step(s0, DoAdd(q)), ops);
            && ValidAdd(q) && q.id in s.allocs && s.blockSize > 0
            && (s.allocs[q.id].reserved == 0 ==>
                 var total := s.allocs[q.id].committed + n;
                 && (Reserve(s, q.id, n).1.Ok? <==>
                      && s.numBlocks == Some(s.planned)
                      && BlocksFor(s.blockSize, total) <= BlocksFor(s.blockSize, q.maxCommitted))
                 && (s.numBlocks == Some(s.planned) && total <= q.maxCommitted ==> Reserve(s, q.id, n).1.Ok?))
  {
    hide PoolOk, Counted, ClaimsOk, IndexKeysOk, AllocationOk, SumOver, Apply, Run, Reserve, BlocksFor;
    var s1 := Step(s0, DoAdd(q));
    var s := Run(s1, ops);
    AdmittedLimit(s0, q);
    LimitsKept(s1, ops, q.id);
    if s.allocs[q.id].reserved == 0 {
      StrictReserve(s, q.id, n, BlocksFor(s.blockSize, q.maxCommitted));
      var total := s.allocs[q.id].committed + n;
      if total <= q.maxCommitted { BlocksMonotone(s.blockSize, total, q.maxCommitted); }
    }
  }

  // ---- initial promises ------------------------------------------------------------------

  /** When a best-effort reservation that stays within its initial promise is granted: only a
      request's own watermark can refuse it. */
  lemma InitialClaimHonoured(s: State, id: RequestId, n: nat)
    requires Ready(s, id) && n > 0 && s.numBlocks == Some(s.planned)
    requires s.allocs[id].initialLimit.Some?
    requires BlocksFor(s.blockSize, s.allocs[id].committed + n) <= s.allocs[id].initialLimit.value
    ensures var a := s.allocs[id];
            Reserve(s, id, n).1.Ok? <==>
              || BlocksFor(s.blockSize, a.committed + n) == |a.blocks|
              || s.completionClaims + s.initialClaims + a.minFree <= Available(s.pool)
    ensures s.allocs[id].minFree == 0 ==> Reserve(s, id, n).1.Ok?
  {
    hide PoolOk, Counted, IndexKeysOk, SumOver, BlocksFor;
    assert AllocationOk(s, s.allocs[id]);
    ReserveNeverRunsOut(s, id, n);
  }

  // ---- write isolation -------------------------------------------------------------------

  /** The page of a position lies behind the read-only prefix of a table, in a block that only
      request id references, once, and that no cache entry names. */
  ghost predicate Isolated(s: State, id: RequestId, blocks: seq<nat>, readonly: nat, position: nat) {
    && s.blockSize > 0
    && var i := position / s.blockSize;
    && readonly <= i < |blocks|
    && blocks[i] < |s.pool.refs| && s.pool.refs[blocks[i]] == 1
    && blocks[i] !in s.pool.keyOf && blocks[i] !in s.pool.blockOf.Values
    && blocks[i] !in s.pool.free && blocks[i] !in s.pool.lru
    && (forall q | q in s.allocs && q != id :: blocks[i] !in s.allocs[q].blocks)
    && (forall j | 0 <= j < |blocks| && j != i :: blocks[j] != blocks[i])
  }

  /** Every slot that a table has reserved is isolated. */
  lemma SlotIsolated(s: State, id: RequestId, position: nat)
    requires Inv(s) && id in s.allocs
    requires s.allocs[id].committed <= position < s.allocs[id].committed + s.allocs[id].reserved
    ensures Isolated(s, id, s.allocs[id].blocks, s.allocs[id].readonly, position)
  {
    hide ClaimsOk, IndexKeysOk;
    var a := s.allocs[id];
    assert AllocationOk(s, a);
    PositionPage(s.blockSize, position, a.committed + a.reserved);
    FloorMonotone(s.blockSize, a.committed, position);
    var b := a.blocks[position / s.blockSize];
    assert Private(s.pool, b);
    forall q | q in s.allocs && q != id ensures b !in s.allocs[q].blocks {
      PrivateIsExclusive(s, id, q, b);
    }
  }

  lemma PositionPage(blockSize: nat, position: nat, total: nat)
    requires blockSize > 0 && position < total
    ensures position / blockSize < BlocksFor(blockSize, total)
  {
    PageCount(blockSize, position);
    Cancel(blockSize, position / blockSize, BlocksFor(blockSize, total) - 1);
  }

  // ---- speculative roll back -------------------------------------------------------------

  lemma SmallerReserve(s: State, id: RequestId, k: nat, n: nat)
    requires Ready(s, id) && 1 <= k <= n && Reserve(s, id, n).1.Ok?
    ensures Reserve(s, id, k).1.Ok? && s.numBlocks == Some(s.planned)
    ensures 0 <= ExtraBlocks(s, s.allocs[id], k) <= ExtraBlocks(s, s.allocs[id], n) <= Available(s.pool)
  {
    hide PoolOk, Counted, IndexKeysOk, SumOver, AllocationOk, BlocksFor;
    var c := s.allocs[id].committed;
    ReserveNeverRunsOut(s, id, n);
    ReserveNeverRunsOut(s, id, k);
    BlocksMonotone(s.blockSize, c + k, c + n);
  }

  /** The allocation of a request that just committed k tokens out of any larger reservation. */
  function Settled(s: State, id: RequestId, k: nat): Allocation
    requires s.blockSize > 0 && PoolOk(s.pool) && id in s.allocs
    requires 0 <= ExtraBlocks(s, s.allocs[id], k) <= Available(s.pool)
  {
    var a := s.allocs[id];
    a.(blocks := a.blocks + TakeMany(s.pool, ExtraBlocks(s, a, k)).0,
       committed := a.committed + k,
       readonly := FullPages(s, id, k))
  }

  lemma AfterReserve(s: State, id: RequestId, n: nat)
    requires Ready(s, id) && n >= 1 && Reserve(s, id, n).1.Ok?
    ensures var t := Step(s, DoReserve(id, n));
            var extra := ExtraBlocks(s, s.allocs[id], n);
            && 0 <= extra <= Available(s.pool) && t.blockSize == s.blockSize
            && t.allocs == s.allocs[id := s.allocs[id].(
                 blocks := s.allocs[id].blocks + TakeMany(s.pool, extra).0, reserved := n)]
            && |t.pool.refs| == |s.pool.refs|
  {
    hide PoolOk, Counted, IndexKeysOk, SumOver, ClaimsOk, AllocationOk, BlocksFor, TakeMany;
    ReserveNeverRunsOut(s, id, n);
    ReserveOutcome(s, id, n);
  }

  lemma AfterCommit(t: State, id: RequestId, k: nat)
    requires Inv(t) && id in t.allocs && k <= t.allocs[id].reserved
    ensures Step(t, DoCommit(id, k)).allocs == t.allocs[id := TrimmedOf(t, id, k)]
    ensures |Step(t, DoCommit(id, k)).pool.refs| == |t.pool.refs|
  {
    hide PoolOk, Counted, IndexKeysOk, SumOver, ClaimsOk, BlocksFor, Commit, Trimmed, CommitEffect;
    assert AllocationOk(t, t.allocs[id]);
    CommitOutcome(t, id, k);
    EffectFrame(t, Commit(t, id, k).0, id, TrimmedOf(t, id, k));
  }

  /** Reserving n and committing k of them leaves the table as if k had been reserved. */
  lemma ReserveThenCommit(s: State, id: RequestId, k: nat, n: nat)
    requires Ready(s, id) && k <= n && n >= 1 && Reserve(s, id, n).1.Ok?
    ensures 0 <= ExtraBlocks(s, s.allocs[id], k) <= Available(s.pool)
    ensures var t := Step(Step(s, DoReserve(id, n)), DoCommit(id, k));
            t.allocs == s.allocs[id := Settled(s, id, k)] && |t.pool.refs| == |s.pool.refs|
  {
    hide PoolOk, Counted, IndexKeysOk, SumOver, ClaimsOk, AllocationOk, BlocksFor, TakeMany, Reserve, Apply;
    var a := s.allocs[id];
    AfterReserve(s, id, n);
    ReserveNeverRunsOut(s, id, k);
    BlocksMonotone(s.blockSize, a.committed + k, a.committed + n);
    AfterCommit(Step(s, DoReserve(id, n)), id, k);
    var (p, m) := (ExtraBlocks(s, a, k), ExtraBlocks(s, a, n));
    TakeManyPrefix(s.pool, p, m);
    assert (a.blocks + TakeMany(s.pool, m).0)[..|a.blocks| + p] == a.blocks + TakeMany(s.pool, p).0;
  }

  /** Equal tables mean equal claims, equal counts and equally many free blocks. */
  lemma SameTables(x: State, y: State)
    requires Inv(x) && Inv(y) && x.allocs == y.allocs && |x.pool.refs| == |y.pool.refs|
    ensures x.completionClaims == y.completionClaims && x.initialClaims == y.initialClaims
    ensures x.pool.refs == y.pool.refs && Available(x.pool) == Available(y.pool)
  {
    hide PoolOk, Holders, SumOver, IndexKeysOk, AllocationOk;
    UsedIsReferenced(x.pool);
    UsedIsReferenced(y.pool);
  }

  /** Speculative roll back: committing k of n reserved tokens leaves every block table, claim,
      count and the number of used blocks as reserving and committing exactly k does; committing
      none restores all of them. */
  lemma SpeculativeRollback(s: State, id: RequestId, k: nat, n: nat)
    requires Ready(s, id) && k <= n && n >= 1 && Reserve(s, id, n).1.Ok?
    ensures var x := Step(Step(s, DoReserve(id, n)), DoCommit(id, k));
            if k == 0 then
              && x.allocs == s.allocs && x.pool.refs == s.pool.refs && Available(x.pool) == Available(s.pool)
              && x.completionClaims == s.completionClaims && x.initialClaims == s.initialClaims
            else
              var y := Step(Step(s, DoReserve(id, k)), DoCommit(id, k));
              && Reserve(s, id, k).1.Ok?
              && x.allocs == y.allocs && x.pool.refs == y.pool.refs && Available(x.pool) == Available(y.pool)
              && x.completionClaims == y.completionClaims && x.initialClaims == y.initialClaims
  {
    hide PoolOk, Counted, IndexKeysOk, SumOver, ClaimsOk, BlocksFor, Reserve, Apply;
    ReserveThenCommit(s, id, k, n);
    if k == 0 {
      assert AllocationOk(s, s.allocs[id]);
      assert Settled(s, id, 0) == s.allocs[id];
      SameTables(Step(Step(s, DoReserve(id, n)), DoCommit(id, 0)), s);
    } else {
      SmallerReserve(s, id, k, n);
      ReserveThenCommit(s, id, k, k);
      SameTables(Step(Step(s, DoReserve(id, n)), DoCommit(id, k)), Step(Step(s, DoReserve(id, k)), DoCommit(id, k)));
    }
  }
}
