/** What callers of the paged KV manager may rely on: the block table a reservation hands out, when
    a best-effort reservation is granted, what initial promises cover, that a preview is what
    admission finds, and what the statistics count. */
module PagedPromises {
  import opened Collections
  import opened PrefixKeys
  import opened BlockPool
  import opened PagedState
  import opened PagedInvariant
  import opened PagedRuns

  // ---- the record a reservation returns ------------------------------------------------------

  /** The table handed out is the one the request holds from then on. */
  lemma ReservationIsTable(s: State, id: RequestId, n: int)
    requires Inv(s) && Reserve(s, id, n).1.Ok?
    ensures var (t, r) := (Reserve(s, id, n).0, Reserve(s, id, n).1.value);
            && id in s.allocs && id in t.allocs && t == Step(s, DoReserve(id, n)) && t.blockSize == s.blockSize > 0
            && r.blocks == t.allocs[id].blocks && s.allocs[id].blocks <= r.blocks
            && r.committed == t.allocs[id].committed == s.allocs[id].committed
            && r.reserved == t.allocs[id].reserved == n > 0
            && r.readonly == t.allocs[id].readonly == s.allocs[id].readonly
  {
    hide PoolOk, Counted, ClaimsOk, IndexKeysOk, AllocationOk, BlocksFor, TakeMany, Taken, ReserveRefusal, SumOver;
    ReserveNeverRunsOut(s, id, n);
  }

  /** Until the request commits or leaves, every other operation leaves its table alone. */
  lemma HeldReservation(s: State, op: Op, id: RequestId)
    requires Inv(s) && id in s.allocs && s.allocs[id].reserved > 0
    requires !(op.DoCommit? && op.id == id) && op != DoFree(id)
    ensures id in Step(s, op).allocs && Step(s, op).allocs[id] == s.allocs[id] && Step(s, op).blockSize == s.blockSize
  {
    hide Inv, Step;
    if op.DoReserve? && op.id == id { ReservedTwice(s, id, op.n); } else { ForeignKeepsTable(s, op, id); }
  }

  lemma ReservedTwice(s: State, id: RequestId, n: int)
    requires Inv(s) && id in s.allocs && s.allocs[id].reserved > 0
    ensures Step(s, DoReserve(id, n)) == s
  {
    hide Inv, ReserveFor;
  }

  predicate KeepsReservation(ops: seq<Op>, id: RequestId) {
    forall i | 0 <= i < |ops| :: !(ops[i].DoCommit? && ops[i].id == id) && ops[i] != DoFree(id)
  }

  lemma {:induction false} RunKeepsReservation(s: State, ops: seq<Op>, id: RequestId)
    requires Inv(s) && id in s.allocs && s.allocs[id].reserved > 0 && KeepsReservation(ops, id)
    ensures var t := Run(s, ops); id in t.allocs && t.allocs[id] == s.allocs[id] && t.blockSize == s.blockSize
    decreases |ops|
  {
    hide Inv, Step;
    if ops != [] {
      HeldReservation(s, ops[0], id);
      RunKeepsReservation(Step(s, ops[0]), ops[1..], id);
    }
  }

  /** Write isolation: from a granted reservation until it is committed or its request leaves,
      whatever other requests do, every position it covers has its page in the table handed out,
      at or behind the read-only prefix, in a block that no other table holds, that is referenced
      once and that no cache entry names. */
  lemma WritesAreIsolated(s: State, id: RequestId, n: int, ops: seq<Op>, position: nat)
    requires Inv(s) && Reserve(s, id, n).1.Ok? && KeepsReservation(ops, id)
    requires var r := Reserve(s, id, n).1.value; r.committed <= position < r.committed + r.reserved
    ensures var r := Reserve(s, id, n).1.value;
            Isolated(Run(Step(s, DoReserve(id, n)), ops), id, r.blocks, r.readonly, position)
  {
    hide Inv, Reserve, Run, Step, Isolated;
    ReservationIsTable(s, id, n);
    var t := Step(s, DoReserve(id, n));
    RunKeepsReservation(t, ops, id);
    SlotIsolated(Run(t, ops), id, position);
  }

  // ---- refusals --------------------------------------------------------------------------------

  /** Requests are active, and the page count is no longer the planned one. */
  predicate Outdated(s: State) {
    s.allocs != map[] && s.numBlocks != Some(s.planned)
  }

  /** Exactly which admissions are errors, and which error comes first. */
  lemma AddErrors(s: State, q: AddRequest)
    requires Inv(s)
    ensures var r := Add(s, q).1;
            var valid := && q.id != "" && q.tokens != [] && (forall t | t in q.tokens :: 0 <= t)
                         && |q.tokens| <= q.maxCommitted && 0 <= q.minFreeSlots && 0 <= q.admissionMinFreeSlots
                         && 0 <= q.initialExtraBlocks && (q.guaranteeCompletion ==> q.initialExtraBlocks == 0);
            var epochOk := s.caching ==> q.epoch.Some? && 0 <= q.epoch.value;
            if Outdated(s) then r == Err(CapacityChanged)
            else if !valid then r == Err(InvalidArgument)
            else if q.id in s.allocs then r == Err(AlreadyExists)
            else if !epochOk then r == Err(InvalidArgument)
            else if s.caching && s.allocs != map[] && s.epoch != q.epoch then r == Err(EpochChanged)
            else r.Ok?
  {
    hide PoolOk, Counted, ClaimsOk, IndexKeysOk, AllocationOk, Admit;
  }

  /** Exactly which reservations are errors before anything is counted. */
  lemma ReserveErrors(s: State, id: RequestId, n: int)
    requires Inv(s)
    ensures var r := Reserve(s, id, n).1;
            if Outdated(s) then r == Err(CapacityChanged)
            else if n <= 0 then r == Err(InvalidArgument)
            else if id !in s.allocs then r == Err(NotFound)
            else if s.allocs[id].reserved > 0 then r == Err(AlreadyReserved)
            else r.Ok? || r == Err(ClaimExhausted) || r == Err(WatermarkReached)
  {
    hide PoolOk, Counted, ClaimsOk, IndexKeysOk, AllocationOk, BlocksFor, SumOver, TakeMany, Taken;
    if !Outdated(s) && n > 0 && id in s.allocs && s.allocs[id].reserved == 0 { ReserveNeverRunsOut(s, id, n); }
  }

  /** Exactly which commits are errors, and what freeing reports. */
  lemma CommitErrors(s: State, id: RequestId, n: int)
    requires Inv(s)
    ensures var r := Commit(s, id, n).1;
            if id !in s.allocs then r == Some(NotFound)
            else if n < 0 || n > s.allocs[id].reserved then r == Some(InvalidArgument)
            else r == None
    ensures Commit(s, id, n).1.Some? ==> Commit(s, id, n).0 == s
    ensures (Free(s, id).1 <==> id in s.allocs) && id !in Free(s, id).0.allocs
  {
    hide PoolOk, Counted, ClaimsOk, IndexKeysOk, AllocationOk;
  }

  /** Exactly which previews are errors, and that nothing is cached for another epoch. */
  lemma PreviewErrors(s: State, tokens: seq<Token>, epoch: Option<int>)
    requires Inv(s)
    ensures var r := Preview(s, tokens, epoch).1;
            if Outdated(s) then r == Err(CapacityChanged)
            else if tokens == [] then r == Err(InvalidArgument)
            else && r.Ok?
                 && (r.value > 0 ==>
                       s.caching && epoch.Some? && s.epoch == epoch && s.numBlocks == Some(s.planned))
  {
    hide PoolOk, Counted, ClaimsOk, IndexKeysOk, AllocationOk, KeysFor, Matched;
  }

  // ---- best-effort reservations ----------------------------------------------------------------

  /** What a request's initial promise still covers once its table has this many pages. */
  function StillPromised(a: Allocation, pages: nat): nat {
    if a.initialLimit.Some? && a.initialLimit.value > pages then a.initialLimit.value - pages else 0
  }

  /** The table is large enough as it is, or every promise still open once it has this many pages,
      and the request's own watermark, fit into the pages that are then left. */
  predicate Fits(s: State, a: Allocation, pages: nat) {
    || pages == |a.blocks|
    || s.completionClaims + s.initialClaims - StillPromised(a, |a.blocks|) + StillPromised(a, pages) + a.minFree
       <= Available(s.pool) - (pages - |a.blocks|)
  }

  /** When a best-effort reservation is granted, inside or outside its initial promise. A page count
      re-planned meanwhile is an error of its own. */
  lemma BestEffortGranted(s: State, id: RequestId, n: nat)
    requires Ready(s, id) && n > 0 && s.allocs[id].completionLimit.None? && s.blockSize > 0
    ensures var fits := Fits(s, s.allocs[id], BlocksFor(s.blockSize, s.allocs[id].committed + n));
            && (Reserve(s, id, n).1.Ok? <==> s.numBlocks == Some(s.planned) && fits)
            && (s.numBlocks != Some(s.planned) ==> Reserve(s, id, n).1 == Err(CapacityChanged))
            && (s.numBlocks == Some(s.planned) && !fits ==> Reserve(s, id, n).1 == Err(WatermarkReached))
  {
    hide PoolOk, Counted, IndexKeysOk, SumOver, BlocksFor, Holders;
    assert AllocationOk(s, s.allocs[id]);
    hide AllocationOk;
    if s.numBlocks == Some(s.planned) { ReserveNeverRunsOut(s, id, n); }
  }

  /** The promises of an admitted request: the fewest pages that hold what it asked for. */
  lemma AdmittedPromises(s: State, q: AddRequest)
    requires Inv(s) && Add(s, q).1.Ok? && Add(s, q).1.value.Some?
    ensures var t := Step(s, DoAdd(q));
            && t.blockSize > 0 && ValidAdd(q) && q.id in t.allocs
            && var a := t.allocs[q.id];
            && (a.completionLimit.Some? <==> q.guaranteeCompletion)
            && (a.completionLimit.Some? ==> FewestPages(t.blockSize, q.maxCommitted, a.completionLimit.value))
            && (a.initialLimit.Some? <==> q.initialExtraBlocks > 0)
            && (a.initialLimit.Some? ==>
                 FewestPages(t.blockSize, InitialTokens(t.blockSize, q), a.initialLimit.value))
            && FewestPages(t.blockSize, q.minFreeSlots, a.minFree)
  {
    hide PoolOk, Counted, ClaimsOk, IndexKeysOk, AllocationOk, SumOver, Matched, Admit, PromptKeys, Flatten, IsChain;
    SyncKeepsInv(s);
    var t := Sync(s).value;
    EnsureEpochKeepsInv(t, q.epoch);
    var u := EnsureEpoch(t, q.epoch).value;
    AdmitOutcome(u, q);
    assert q.initialExtraBlocks * u.blockSize >= 0;
  }

  ghost predicate FewestPages(blockSize: nat, tokens: int, pages: nat) {
    (pages - 1) * blockSize < tokens <= pages * blockSize
  }

  /** The prompt and the extra pages, but never more than the request may commit. */
  function InitialTokens(blockSize: nat, q: AddRequest): int {
    Min(q.maxCommitted, |q.tokens| + q.initialExtraBlocks * blockSize)
  }

  /** Over every run, a best-effort request without a watermark gets whatever it was promised at
      admission: its prompt and the extra pages. */
  lemma InitialGuarantee(s0: State, q: AddRequest, ops: seq<Op>, n: nat)
    requires Inv(s0) && Add(s0, q).1.Ok? && Add(s0, q).1.value.Some?
    requires q.initialExtraBlocks > 0 && q.minFreeSlots == 0 && DoFree(q.id) !in ops && n > 0
    ensures var s := Run(Step(s0, DoAdd(q)), ops);
            && q.id in s.allocs && s.blockSize > 0
            && (&& s.allocs[q.id].reserved == 0 && s.numBlocks == Some(s.planned)
                && s.allocs[q.id].committed + n <= InitialTokens(s.blockSize, q)
                ==> Reserve(s, q.id, n).1.Ok?)
  {
    hide Inv, Run, Step, Reserve, Add, BlocksFor;
    var s1 := Step(s0, DoAdd(q));
    var s := Run(s1, ops);
    AdmittedPromises(s0, q);
    LimitsKept(s1, ops, q.id);
    var total := s.allocs[q.id].committed + n;
    var limit := s.allocs[q.id].initialLimit.value;
    NoPages(s.blockSize, s.allocs[q.id].minFree);
    if s.allocs[q.id].reserved == 0 && s.numBlocks == Some(s.planned) && total <= InitialTokens(s.blockSize, q) {
      PagesWithin(s.blockSize, total, InitialTokens(s.blockSize, q), limit);
      InitialClaimHonoured(s, q.id, n);
    }
  }

  lemma NoPages(blockSize: nat, pages: nat)
    requires blockSize > 0 && FewestPages(blockSize, 0, pages)
    ensures pages == 0
  {
    Cancel(blockSize, pages - 1, -1);
  }

  lemma PagesWithin(blockSize: nat, total: nat, tokens: nat, pages: nat)
    requires blockSize > 0 && total <= tokens && FewestPages(blockSize, tokens, pages)
    ensures BlocksFor(blockSize, total) <= pages
  {
    Cancel(blockSize, BlocksFor(blockSize, total) - 1, pages - 1);
  }

  // ---- previews ----------------------------------------------------------------------------------

  /** A preview counts exactly the tokens that admission of the same prompt then finds cached. */
  lemma PreviewIsAdmission(s: State, q: AddRequest)
    requires Inv(s) && Preview(s, q.tokens, q.epoch).1.Ok?
    requires var r := Add(Step(s, DoPreview(q.tokens, q.epoch)), q).1; r.Ok? && r.value.Some?
    ensures Preview(s, q.tokens, q.epoch).1 == Ok(Add(Step(s, DoPreview(q.tokens, q.epoch)), q).1.value.value)
  {
    hide PoolOk, Counted, ClaimsOk, IndexKeysOk, AllocationOk, SumOver, KeysFor;
    var t := Step(s, DoPreview(q.tokens, q.epoch));
    SyncKeepsInv(s);
    EnsureEpochKeepsInv(t, q.epoch);
    var u := EnsureEpoch(t, q.epoch).value;
    if t.caching && t.epoch != q.epoch { NothingCached(u, q.tokens, q.epoch); }
    if !t.caching { NoKeys(t, q.tokens, q.epoch); }
    CachedByAdmission(u, q);
  }

  lemma CachedByAdmission(s: State, q: AddRequest)
    requires Admissible(s, q) && Admit(s, q).1.Some?
    ensures Admit(s, q).1.value == |Matched(s.pool.blockOf, KeysFor(s, q.tokens, q.epoch))| * s.blockSize
  {
    hide PoolOk, Counted, ClaimsOk, IndexKeysOk, AllocationOk, SumOver, KeysFor, Matched;
  }

  lemma NothingCached(s: State, tokens: seq<Token>, epoch: Option<int>)
    requires s.blockSize > 0 && tokens != [] && (s.caching ==> epoch.Some?) && s.pool.blockOf == map[]
    ensures |Matched(s.pool.blockOf, KeysFor(s, tokens, epoch))| * s.blockSize == 0
  {
    hide KeysFor;
  }

  lemma NoKeys(s: State, tokens: seq<Token>, epoch: Option<int>)
    requires s.blockSize > 0 && tokens != [] && !s.caching
    ensures |Matched(s.pool.blockOf, KeysFor(s, tokens, epoch))| * s.blockSize == 0
  {
  }

  /** Once a request has committed its first pages, the same prompt finds them: every full page of
      what is committed, up to the pages a prompt may share. */
  lemma CommitMakesHits(s: State, id: RequestId, n: nat, tokens: seq<Token>)
    requires Inv(s) && s.caching && s.numBlocks == Some(s.planned) && id in s.allocs && n <= s.allocs[id].reserved
    requires tokens != [] && s.epoch.Some? && s.allocs[id].keys == KeysFor(s, tokens, s.epoch)
    requires forall i | 0 <= i < s.allocs[id].readonly && i < |s.allocs[id].keys| ::
             s.allocs[id].keys[i] in s.pool.blockOf
    ensures var t := Step(s, DoCommit(id, n));
            var shared := Min((s.allocs[id].committed + n) / s.blockSize, CacheablePages(s.blockSize, tokens));
            Preview(t, tokens, s.epoch).1.Ok? && Preview(t, tokens, s.epoch).1.value >= shared * s.blockSize
  {
    hide PoolOk, Counted, ClaimsOk, IndexKeysOk, AllocationOk, SumOver, Commit, Matched;
    var a := s.allocs[id];
    var t := Step(s, DoCommit(id, n));
    CommitIndexes(s, id, n);
    var shared := FullPages(s, id, n);
    MatchedAtLeast(t.pool.blockOf, a.keys, shared);
    ScaleMonotone(s.blockSize, shared, |Matched(t.pool.blockOf, a.keys)|);
  }

  /** Every page that a commit completes is in the index afterwards, and none has left it. */
  lemma CommitIndexes(s: State, id: RequestId, n: nat)
    requires Inv(s) && id in s.allocs && n <= s.allocs[id].reserved
    ensures s.blockSize > 0 && FullPages(s, id, n) <= |s.allocs[id].keys|
    ensures var (t, a) := (Step(s, DoCommit(id, n)), s.allocs[id]);
            && t.caching == s.caching && t.epoch == s.epoch && t.numBlocks == s.numBlocks && t.planned == s.planned
            && t.blockSize == s.blockSize
            && (forall k | k in s.pool.blockOf :: k in t.pool.blockOf && t.pool.blockOf[k] == s.pool.blockOf[k])
            && (forall i | a.readonly <= i < FullPages(s, id, n) :: a.keys[i] in t.pool.blockOf)
  {
    hide PoolOk, Counted, ClaimsOk, IndexKeysOk, AllocationOk, SumOver, BlocksFor, PublishRange, Publishable,
         Releasable, ReleaseMany, Commit, InitialClaim, NoDup, KeptPages;
    CommitInSteps(s, id, n);
    DistinctKeys(s, id);
    var a := s.allocs[id];
    var hi := FullPages(s, id, n);
    forall k
      ensures k in s.pool.blockOf ==>
                k in Published(s, id, n).blockOf && Published(s, id, n).blockOf[k] == s.pool.blockOf[k]
      ensures forall i | a.readonly <= i < hi && a.keys[i] == k :: k in Published(s, id, n).blockOf
    {
      PublishCovers(s.pool, a.keys, a.blocks, a.readonly, hi, k);
    }
  }

  lemma {:induction false} MatchedAtLeast(blockOf: map<Key, nat>, keys: seq<Key>, n: nat)
    requires n <= |keys| && forall i | 0 <= i < n :: keys[i] in blockOf
    ensures n <= |Matched(blockOf, keys)|
  {
    if n > 0 {
      assert forall i | 0 <= i < n - 1 :: keys[1..][i] == keys[i + 1];
      MatchedAtLeast(blockOf, keys[1..], n - 1);
    }
  }
}
