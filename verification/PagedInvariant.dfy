/** Every operation of the paged KV manager keeps the whole-system invariant. */
module PagedInvariant {
  import opened Collections
  import opened PrefixKeys
  import opened BlockPool
  import opened PagedState

  ghost function TableOf(allocs: map<RequestId, Allocation>, r: RequestId): seq<nat> {
    if r in allocs then allocs[r].blocks else []
  }

  lemma HoldersSplit(m: map<RequestId, Allocation>, r: RequestId, b: nat)
    ensures |Holders(m, b)| == |Holders(m - {r}, b)| + One(b in TableOf(m, r))
  {
    assert Holders(m - {r}, b) == Holders(m, b) - {r};
  }

  lemma HoldersChange(m: map<RequestId, Allocation>, n: map<RequestId, Allocation>, r: RequestId, b: nat)
    requires SameExcept(m, n, r)
    ensures |Holders(n, b)| == |Holders(m, b)| - One(b in TableOf(m, r)) + One(b in TableOf(n, r))
  {
    assert m - {r} == n - {r};
    HoldersSplit(m, r, b);
    HoldersSplit(n, r, b);
  }

  /** A block in two tables has at least two references. */
  lemma TwoHolders(allocs: map<RequestId, Allocation>, q: RequestId, r: RequestId, b: nat)
    requires q != r && q in allocs && r in allocs && b in allocs[q].blocks && b in allocs[r].blocks
    ensures |Holders(allocs, b)| >= 2
  {
    assert {q, r} <= Holders(allocs, b);
    assert |Holders(allocs, b) - {q, r}| == |Holders(allocs, b)| - |{q, r}|;
  }

  /** A private block of one request is in no other table. */
  lemma PrivateIsExclusive(s: State, q: RequestId, r: RequestId, b: nat)
    requires Counted(s) && Private(s.pool, b) && q != r && q in s.allocs && b in s.allocs[q].blocks
    ensures b !in TableOf(s.allocs, r)
  {
    if b in TableOf(s.allocs, r) { TwoHolders(s.allocs, q, r, b); }
  }

  /** A step of request r: only r's table and the references it gained or lost change, and
      blocks private to others stay private. */
  ghost predicate StepOf(s: State, t: State, r: RequestId) {
    && t.blockSize == s.blockSize && t.caching == s.caching && t.planned == s.planned
    && t.numBlocks == s.numBlocks && t.epoch == s.epoch
    && SameExcept(s.allocs, t.allocs, r)
    && |t.pool.refs| == |s.pool.refs|
    && (forall b | 0 <= b < |s.pool.refs| ::
          t.pool.refs[b] == s.pool.refs[b] - One(b in TableOf(s.allocs, r)) + One(b in TableOf(t.allocs, r)))
    && (forall b | Private(s.pool, b) && b !in TableOf(s.allocs, r) :: Private(t.pool, b))
  }

  lemma CountedKept(s: State, t: State, r: RequestId)
    requires Counted(s) && StepOf(s, t, r)
    ensures Counted(t)
  {
    forall b | 0 <= b < |t.pool.refs| ensures t.pool.refs[b] == |Holders(t.allocs, b)| {
      HoldersChange(s.allocs, t.allocs, r, b);
    }
  }

  lemma OtherKept(s: State, t: State, r: RequestId, q: RequestId)
    requires s.blockSize > 0 && Counted(s) && StepOf(s, t, r)
    requires q != r && q in s.allocs && AllocationOk(s, s.allocs[q])
    ensures AllocationOk(t, s.allocs[q])
  {
    var a := s.allocs[q];
    forall i | a.readonly <= i < |a.blocks| ensures Private(t.pool, a.blocks[i]) {
      PrivateIsExclusive(s, q, r, a.blocks[i]);
    }
  }

  /** What a step of r owes for the invariant to survive. */
  lemma StepKeepsInv(s: State, t: State, r: RequestId)
    requires Inv(s) && StepOf(s, t, r) && PoolOk(t.pool) && IndexKeysOk(t)
    requires r in t.allocs ==> AllocationOk(t, t.allocs[r])
    requires s.numBlocks.Some?
    requires t.completionClaims == s.completionClaims - WeightAt(s.allocs, CompletionClaim, r)
             + WeightAt(t.allocs, CompletionClaim, r)
    requires t.initialClaims == s.initialClaims - WeightAt(s.allocs, InitialClaim, r)
             + WeightAt(t.allocs, InitialClaim, r)
    requires t.completionClaims + t.initialClaims <= Available(t.pool)
    ensures Inv(t)
  {
    hide PoolOk, IndexKeysOk;
    CountedKept(s, t, r);
    SumChange(s.allocs, t.allocs, CompletionClaim, r);
    SumChange(s.allocs, t.allocs, InitialClaim, r);
    forall q | q in t.allocs ensures AllocationOk(t, t.allocs[q]) {
      if q != r { OtherKept(s, t, r, q); }
    }
  }

  /** A table of matched prefix pages is consistent and within its promises. */
  lemma AdmittedFits(s: State, q: AddRequest, matched: seq<nat>, keys: seq<Key>)
    requires s.blockSize > 0 && ValidAdd(q) && |matched| <= |keys|
    requires |matched| * s.blockSize <= |q.tokens|
    ensures var a := Admitted(s.blockSize, q, matched, keys);
            && |a.blocks| == BlocksFor(s.blockSize, a.committed + a.reserved)
            && a.readonly == Min(a.committed / s.blockSize, |keys|)
            && (a.completionLimit.Some? ==> |matched| <= a.completionLimit.value)
            && (a.initialLimit.Some? ==> |matched| <= a.initialLimit.value)
  {
    WholePages(s.blockSize, |matched|);
    assert q.initialExtraBlocks * s.blockSize >= 0;
    PagesFit(s.blockSize, |matched|, q.maxCommitted);
    PagesFit(s.blockSize, |matched|, Min(q.maxCommitted, |q.tokens| + q.initialExtraBlocks * s.blockSize));
  }

  lemma MatchedTokens(s: State, q: AddRequest)
    requires s.blockSize > 0 && ValidAdd(q) && (s.caching ==> q.epoch.Some?)
    ensures var keys := KeysFor(s, q.tokens, q.epoch);
            && |Matched(s.pool.blockOf, keys)| * s.blockSize <= |keys| * s.blockSize < |q.tokens|
            && (s.caching ==> IsChain(s.blockSize, q.epoch.value, keys))
  {
    var keys := KeysFor(s, q.tokens, q.epoch);
    if s.caching { KeyChainIsChain(s.blockSize, q.tokens, q.epoch.value, CacheablePages(s.blockSize, q.tokens)); }
    ScaleMonotone(s.blockSize, |Matched(s.pool.blockOf, keys)|, |keys|);
  }

  /** Admission leaves the index alone, gives the request pages indexed under its own keys and
      counts each of them once more. */
  lemma AdmitOutcome(s: State, q: AddRequest)
    requires Admissible(s, q) && Admit(s, q).1.Some?
    ensures var t := Admit(s, q).0;
            var a := t.allocs[q.id];
            && t.blockSize == s.blockSize && t.caching == s.caching && t.planned == s.planned
            && t.numBlocks == s.numBlocks && t.epoch == s.epoch && t.pool.keyOf == s.pool.keyOf
            && t.allocs == s.allocs[q.id := a]
            && a.keys == KeysFor(s, q.tokens, q.epoch)
            && a == Admitted(s.blockSize, q, a.blocks, a.keys)
            && a.committed == Admit(s, q).1.value < |q.tokens|
            && NoDup(a.blocks) && |a.blocks| <= |a.keys| && |a.blocks| * s.blockSize <= |q.tokens|
            && (forall i | 0 <= i < |a.blocks| ::
                  && a.blocks[i] < |s.pool.refs| && a.blocks[i] in s.pool.keyOf
                  && s.pool.keyOf[a.blocks[i]] == a.keys[i])
            && |t.pool.refs| == |s.pool.refs|
            && (forall b | 0 <= b < |s.pool.refs| :: t.pool.refs[b] == s.pool.refs[b] + One(b in a.blocks))
            && (s.caching ==> IsChain(s.blockSize, q.epoch.value, a.keys))
  {
    hide PoolOk, Counted, ClaimsOk, IndexKeysOk, AllocationOk, SumOver, BlocksFor, Matched, KeysFor;
    MatchedPages(s, q);
    MatchedTokens(s, q);
  }

  /** A request is admitted exactly when, with its cached pages pinned, every outstanding claim,
      its own included, and the larger of its two watermarks still fit into the blocks that are
      left; a refused one leaves no trace. */
  lemma AdmittedExactly(s: State, q: AddRequest)
    requires Admissible(s, q)
    ensures var keys := KeysFor(s, q.tokens, q.epoch);
            var matched := Matched(s.pool.blockOf, keys);
            var a := Admitted(s.blockSize, q, matched, keys);
            && Acquirable(s.pool, matched)
            && (Admit(s, q).1.Some? <==>
                 s.completionClaims + OpenCompletion(a) + s.initialClaims + OpenInitial(a)
                 + Max(BlocksFor(s.blockSize, q.minFreeSlots), BlocksFor(s.blockSize, q.admissionMinFreeSlots))
                 <= Available(AcquireMany(s.pool, matched)))
    ensures Admit(s, q).1.None? ==> Admit(s, q).0 == s
  {
    hide PoolOk, Counted, ClaimsOk, IndexKeysOk, AllocationOk, SumOver, KeysFor, Matched, BlocksFor;
    MatchedPages(s, q);
  }

  /** The new table is sound and counts every new reference. */
  lemma AdmitSteps(s: State, q: AddRequest)
    requires Admissible(s, q) && Admit(s, q).1.Some?
    ensures StepOf(s, Admit(s, q).0, q.id)
    ensures AllocationOk(Admit(s, q).0, Admit(s, q).0.allocs[q.id])
  {
    hide PoolOk, Counted, ClaimsOk, IndexKeysOk, Admit, SumOver, BlocksFor, PromptKeys, IsChain;
    AdmitOutcome(s, q);
    var a := Admit(s, q).0.allocs[q.id];
    AdmittedFits(s, q, a.blocks, a.keys);
  }

  lemma AdmitKeepsInv(s: State, q: AddRequest)
    requires Admissible(s, q)
    ensures Inv(Admit(s, q).0)
  {
    hide PoolOk, Counted, AllocationOk, StepOf, Holders, SumOver;
    if Admit(s, q).1.Some? {
      var t := Admit(s, q).0;
      var a := t.allocs[q.id];
      MatchedPages(s, q);
      MatchedTokens(s, q);
      AdmittedFits(s, q, a.blocks, a.keys);
      AdmitSteps(s, q);
      StepKeepsInv(s, t, q.id);
    }
  }

  ghost predicate Ready(s: State, id: RequestId) {
    Inv(s) && id in s.allocs && s.allocs[id].reserved == 0
  }

  /** Whenever the claim or watermark test passes there are enough blocks: no reservation ever
      runs out half way, so its roll-back path is unreachable. */
  lemma ReserveNeverRunsOut(s: State, id: RequestId, n: nat)
    requires Ready(s, id)
    ensures var extra := ExtraBlocks(s, s.allocs[id], n);
            && 0 <= extra
            && (ReserveRefusal(s, s.allocs[id], extra).None? ==> extra <= Available(s.pool))
    ensures ReserveFor(s, id, n).1 != Err(NoBlockAvailable)
  {
    hide PoolOk, Counted, Holders, IndexKeysOk, SumOver;
    var a := s.allocs[id];
    assert AllocationOk(s, a);
    BlocksMonotone(s.blockSize, a.committed, a.committed + n);
    SumChange(s.allocs, s.allocs, CompletionClaim, id);
    SumChange(s.allocs, s.allocs, InitialClaim, id);
  }

  /** A successful reservation appends newly taken blocks to the table. */
  lemma ReserveOutcome(s: State, id: RequestId, n: nat)
    requires Ready(s, id) && ReserveFor(s, id, n).1.Ok?
    ensures var (t, a, extra) := (ReserveFor(s, id, n).0, s.allocs[id], ExtraBlocks(s, s.allocs[id], n));
            && 0 <= extra <= Available(s.pool)
            && t.pool == TakeMany(s.pool, extra).1
            && t.allocs == s.allocs[id := a.(blocks := a.blocks + TakeMany(s.pool, extra).0, reserved := n)]
  {
    hide PoolOk, Counted, Holders, IndexKeysOk, SumOver, ClaimsOk;
    ReserveNeverRunsOut(s, id, n);
  }

  lemma ReserveStepOf(s: State, id: RequestId, n: nat)
    requires Ready(s, id) && ReserveFor(s, id, n).1.Ok?
    ensures StepOf(s, ReserveFor(s, id, n).0, id)
  {
    hide PoolOk, ClaimsOk, SumOver, AllocationOk, IndexKeysOk;
    HeldBlocks(s, id);
    ReserveOutcome(s, id, n);
  }

  lemma ReserveTableOk(s: State, id: RequestId, n: nat)
    requires Ready(s, id) && ReserveFor(s, id, n).1.Ok?
    ensures AllocationOk(ReserveFor(s, id, n).0, ReserveFor(s, id, n).0.allocs[id])
  {
    hide PoolOk, ClaimsOk, SumOver, IndexKeysOk, Counted, TakeMany, BlocksFor, Holders, Flatten, EpochOf;
    HeldBlocks(s, id);
    ReserveOutcome(s, id, n);
    var a := s.allocs[id];
    assert AllocationOk(s, a);
    var bs := TakeMany(s.pool, ExtraBlocks(s, a, n)).0;
    assert forall i | 0 <= i < |bs| :: bs[i] in bs;
  }

  lemma ReserveForKeepsInv(s: State, id: RequestId, n: nat)
    requires Ready(s, id)
    ensures Inv(ReserveFor(s, id, n).0)
  {
    hide PoolOk, Counted, Holders, SumOver, StepOf;
    ReserveNeverRunsOut(s, id, n);
    if ReserveFor(s, id, n).1.Ok? {
      ReserveStepOf(s, id, n);
      ReserveTableOk(s, id, n);
      ReserveOutcome(s, id, n);
      StepKeepsInv(s, ReserveFor(s, id, n).0, id);
    }
  }

  /** What a successful commit changes: it drops the trimmed blocks and indexes pages of its own. */
  ghost predicate CommitEffect(s: State, t: State, id: RequestId, b: Allocation)
    requires id in s.allocs
  {
    var a := s.allocs[id];
    && |b.blocks| <= |a.blocks|
    && t.blockSize == s.blockSize && t.caching == s.caching && t.planned == s.planned
    && t.numBlocks == s.numBlocks && t.epoch == s.epoch
    && t.allocs == s.allocs[id := b]
    && |t.pool.refs| == |s.pool.refs|
    && (forall c | 0 <= c < |s.pool.refs| ::
          t.pool.refs[c] == s.pool.refs[c] - One(c in a.blocks[|b.blocks|..]))
    && (forall c | c in s.pool.keyOf :: c in t.pool.keyOf && t.pool.keyOf[c] == s.pool.keyOf[c])
    && (forall c | c in t.pool.keyOf && c !in s.pool.keyOf ::
          exists i :: a.readonly <= i < b.readonly <= |a.keys| && a.readonly <= i < |a.blocks|
                      && a.blocks[i] == c && t.pool.keyOf[c] == a.keys[i])
    && (forall i | b.readonly <= i < |a.blocks| :: a.blocks[i] !in t.pool.keyOf)
  }

  lemma CommitOutcome(s: State, id: RequestId, n: nat)
    requires Inv(s) && id in s.allocs && n <= s.allocs[id].reserved
    ensures CommitEffect(s, Commit(s, id, n).0, id, TrimmedOf(s, id, n))
  {
    hide PoolOk, ClaimsOk, SumOver, IndexKeysOk, Counted, AllocationOk, BlocksFor, Trimmed, TrimmedOf, PublishRange;
    CommitPages(s, id, n);
    TrimmedOfShape(s, id, n);
    var (a, b) := (s.allocs[id], TrimmedOf(s, id, n));
    var q := PublishRange(s.pool, a.keys, a.blocks, a.readonly, b.readonly);
    forall c
      ensures c in s.pool.keyOf ==> c in q.keyOf && q.keyOf[c] == s.pool.keyOf[c]
      ensures c in q.keyOf && c !in s.pool.keyOf ==>
        exists i :: a.readonly <= i < b.readonly <= |a.keys| && a.readonly <= i < |a.blocks|
                    && a.blocks[i] == c && q.keyOf[c] == a.keys[i]
    {
      PublishOrigin(s.pool, a.keys, a.blocks, a.readonly, b.readonly, c);
    }
  }

  lemma TrimmedOfShape(s: State, id: RequestId, n: nat)
    requires Inv(s) && id in s.allocs && n <= s.allocs[id].reserved
    ensures var (a, b) := (s.allocs[id], TrimmedOf(s, id, n));
            && s.blockSize > 0 && |b.blocks| == BlocksFor(s.blockSize, b.committed + b.reserved)
            && b.readonly == Min(b.committed / s.blockSize, |b.keys|)
            && |b.blocks| <= |a.blocks| && b.blocks == a.blocks[..|b.blocks|]
            && b.keys == a.keys && b.completionLimit == a.completionLimit && b.initialLimit == a.initialLimit
  {
    hide PoolOk, ClaimsOk, SumOver, IndexKeysOk, Counted, BlocksFor;
    assert AllocationOk(s, s.allocs[id]);
    TrimmedShape(s.blockSize, s.allocs[id], n);
  }

  lemma EffectIsStep(s: State, t: State, id: RequestId, b: Allocation)
    requires id in s.allocs && CommitEffect(s, t, id, b)
    requires NoDup(s.allocs[id].blocks) && b.blocks == s.allocs[id].blocks[..|b.blocks|]
    ensures StepOf(s, t, id)
  {
    var a := s.allocs[id];
    forall c | 0 <= c < |s.pool.refs|
      ensures t.pool.refs[c] == s.pool.refs[c] - One(c in a.blocks) + One(c in b.blocks)
    {
      CutSplits(a.blocks, |b.blocks|, c);
    }
    forall c | Private(s.pool, c) && c !in a.blocks ensures Private(t.pool, c) {
      CutSplits(a.blocks, |b.blocks|, c);
    }
  }

  lemma CommitStepOf(s: State, id: RequestId, n: nat)
    requires Inv(s) && id in s.allocs && n <= s.allocs[id].reserved
    ensures StepOf(s, Commit(s, id, n).0, id)
  {
    hide PoolOk, ClaimsOk, SumOver, IndexKeysOk, Counted, Commit, CommitEffect, StepOf;
    CommitOutcome(s, id, n);
    CommitPages(s, id, n);
    EffectIsStep(s, Commit(s, id, n).0, id, TrimmedOf(s, id, n));
  }

  /** The kept pages beyond the new read-only prefix are still private. */
  lemma EffectKeepsPrivate(s: State, t: State, id: RequestId, b: Allocation)
    requires id in s.allocs && CommitEffect(s, t, id, b)
    requires NoDup(s.allocs[id].blocks) && b.blocks == s.allocs[id].blocks[..|b.blocks|]
    requires forall i | b.readonly <= i < |b.blocks| :: Private(s.pool, s.allocs[id].blocks[i])
    ensures forall i | b.readonly <= i < |b.blocks| :: Private(t.pool, b.blocks[i])
  {
    forall i | b.readonly <= i < |b.blocks| ensures Private(t.pool, b.blocks[i]) {
      CutSplits(s.allocs[id].blocks, |b.blocks|, b.blocks[i]);
    }
  }

  lemma EffectFrame(s: State, t: State, id: RequestId, b: Allocation)
    requires id in s.allocs && CommitEffect(s, t, id, b)
    ensures t.blockSize == s.blockSize && t.caching == s.caching && t.epoch == s.epoch
    ensures t.allocs == s.allocs[id := b] && |t.pool.refs| == |s.pool.refs|
  {
  }

  lemma TrimmedShape(blockSize: nat, a: Allocation, n: nat)
    requires Trimmed.requires(blockSize, a, n)
    ensures var b := Trimmed(blockSize, a, n);
            && |b.blocks| == BlocksFor(blockSize, b.committed + b.reserved)
            && b.readonly == Min(b.committed / blockSize, |b.keys|)
            && |b.blocks| <= |a.blocks| && b.blocks == a.blocks[..|b.blocks|]
            && b.keys == a.keys && b.completionLimit == a.completionLimit && b.initialLimit == a.initialLimit
  {
    BlocksMonotone(blockSize, a.committed + n, a.committed + a.reserved);
  }

  lemma CommitTableOk(s: State, id: RequestId, n: nat)
    requires Inv(s) && id in s.allocs && n <= s.allocs[id].reserved
    ensures AllocationOk(Commit(s, id, n).0, Commit(s, id, n).0.allocs[id])
  {
    hide PoolOk, ClaimsOk, SumOver, IndexKeysOk, Counted, Commit, CommitEffect, Private, IsChain, BlocksFor, Trimmed;
    CommitOutcome(s, id, n);
    CommitPages(s, id, n);
    var a := s.allocs[id];
    assert AllocationOk(s, a);
    TrimmedShape(s.blockSize, a, n);
    EffectKeepsPrivate(s, Commit(s, id, n).0, id, TrimmedOf(s, id, n));
    EffectFrame(s, Commit(s, id, n).0, id, TrimmedOf(s, id, n));
  }

  lemma CommitIndexOk(s: State, id: RequestId, n: nat)
    requires Inv(s) && id in s.allocs && n <= s.allocs[id].reserved
    ensures IndexKeysOk(Commit(s, id, n).0)
  {
    hide PoolOk, ClaimsOk, SumOver, Counted, Commit;
    CommitOutcome(s, id, n);
    var a := s.allocs[id];
    var t := Commit(s, id, n).0;
    assert AllocationOk(s, a);
    forall c | c in t.pool.keyOf && c !in s.pool.keyOf
      ensures s.caching && EpochOf(t.pool.keyOf[c].digest) == s.epoch.value
      ensures |Flatten(t.pool.keyOf[c].digest)| >= s.blockSize
    {
      var i :| 0 <= i < |a.keys| && t.pool.keyOf[c] == a.keys[i];
      ScaleMonotone(s.blockSize, 1, i + 1);
    }
  }

  lemma CommitKeepsInv(s: State, id: RequestId, n: int)
    requires Inv(s)
    ensures Inv(Commit(s, id, n).0)
  {
    hide PoolOk, Counted, Holders, SumOver, StepOf, IndexKeysOk, AllocationOk;
    if id in s.allocs && 0 <= n <= s.allocs[id].reserved {
      assert AllocationOk(s, s.allocs[id]);
      CommitPages(s, id, n);
      CommitStepOf(s, id, n);
      CommitTableOk(s, id, n);
      CommitIndexOk(s, id, n);
      CommitClaims(s, id, n);
      StepKeepsInv(s, Commit(s, id, n).0, id);
    }
  }

  /** Trimmed blocks were private, so giving them back frees exactly as many as it promises. */
  lemma CommitClaims(s: State, id: RequestId, n: nat)
    requires Inv(s) && id in s.allocs && n <= s.allocs[id].reserved
    ensures var (t, a, b) := (Commit(s, id, n).0, s.allocs[id], TrimmedOf(s, id, n));
            && Available(t.pool) == Available(s.pool) + |a.blocks| - |b.blocks|
            && t.completionClaims == s.completionClaims - CompletionClaim(a) + CompletionClaim(b)
            && t.initialClaims == s.initialClaims - InitialClaim(a) + InitialClaim(b)
            && t.completionClaims + t.initialClaims <= Available(t.pool)
  {
    hide PoolOk, Counted, Holders, SumOver, IndexKeysOk;
    CommitPages(s, id, n);
    assert AllocationOk(s, s.allocs[id]);
  }

  lemma FreeKeepsInv(s: State, id: RequestId)
    requires Inv(s)
    ensures Inv(Free(s, id).0)
  {
    hide PoolOk, Counted, Holders, SumOver;
    if id in s.allocs {
      HeldBlocks(s, id);
      StepKeepsInv(s, Free(s, id).0, id);
    }
  }

  function KeptPages(s: State, id: RequestId, n: nat): nat
    requires s.blockSize > 0 && id in s.allocs
  {
    BlocksFor(s.blockSize, s.allocs[id].committed + n)
  }

  function FullPages(s: State, id: RequestId, n: nat): nat
    requires s.blockSize > 0 && id in s.allocs
  {
    Min((s.allocs[id].committed + n) / s.blockSize, |s.allocs[id].keys|)
  }

  function Published(s: State, id: RequestId, n: nat): Pool
    requires s.blockSize > 0 && id in s.allocs
    requires Publishable(s.pool, s.allocs[id].keys, s.allocs[id].blocks, s.allocs[id].readonly, FullPages(s, id, n))
  {
    PublishRange(s.pool, s.allocs[id].keys, s.allocs[id].blocks, s.allocs[id].readonly, FullPages(s, id, n))
  }

  /** A commit step by step, as the code takes it. */
  lemma CommitInSteps(s: State, id: RequestId, n: nat)
    requires Inv(s) && id in s.allocs && n <= s.allocs[id].reserved
    ensures s.blockSize > 0 && KeptPages(s, id, n) <= |s.allocs[id].blocks|
            && s.allocs[id].readonly <= FullPages(s, id, n)
    ensures Publishable(s.pool, s.allocs[id].keys, s.allocs[id].blocks, s.allocs[id].readonly, FullPages(s, id, n))
    ensures Releasable(Published(s, id, n), s.allocs[id].blocks[KeptPages(s, id, n)..])
    ensures var (a, keep) := (s.allocs[id], KeptPages(s, id, n));
            var b := a.(blocks := a.blocks[..keep], readonly := FullPages(s, id, n), committed := a.committed + n,
                        reserved := 0);
            Commit(s, id, n).0 ==
              s.(pool := ReleaseMany(Published(s, id, n), a.blocks[keep..]),
                 allocs := s.allocs[id := b],
                 completionClaims := s.completionClaims + (if a.completionLimit.Some? then |a.blocks| - keep else 0),
                 initialClaims := s.initialClaims
                     + (if a.completionLimit.Some? then 0 else InitialClaim(b) - InitialClaim(a)))
  {
    hide PoolOk, Counted, ClaimsOk, IndexKeysOk, SumOver, BlocksFor, PublishRange, ReleaseMany, InitialClaim, IsChain,
      NoDup;
    CommitPages(s, id, n);
    assert AllocationOk(s, s.allocs[id]);
    TrimmedShape(s.blockSize, s.allocs[id], n);
  }

  lemma DistinctKeys(s: State, id: RequestId)
    requires Inv(s) && id in s.allocs
    ensures NoDup(s.allocs[id].keys) && NoDup(s.allocs[id].blocks)
  {
    hide PoolOk, ClaimsOk, IndexKeysOk, Counted;
    assert AllocationOk(s, s.allocs[id]);
    if s.caching { ChainDistinct(s.blockSize, s.epoch.value, s.allocs[id].keys); }
  }
}
