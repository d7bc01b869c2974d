/** What each operation of PagedKVCacheManager does to its state, and the invariant that
    all of them keep (src/light_vllm/runtime/kv_cache.py:351-777). */
module PagedState {
  import opened Collections
  import opened PrefixKeys
  import opened BlockPool

  type RequestId = string

  datatype Error =
    | InvalidArgument
    | AlreadyExists
    | NotFound
    | AlreadyReserved
    | CapacityChanged
    | EpochChanged
    | ClaimExhausted
    | WatermarkReached
    | NoBlockAvailable
    | NotReferenced

  datatype Allocation = Allocation(
    blocks: seq<nat>,
    completionLimit: Option<nat>,
    initialLimit: Option<nat>,
    minFree: nat,
    keys: seq<Key>,
    readonly: nat,
    committed: nat,
    reserved: nat)

  /** `planned` is the page count the capacity object currently reports; `numBlocks` is the
      count the pool was last built for; an epoch of None is the unset marker. */
  datatype State = State(
    blockSize: nat,
    caching: bool,
    planned: nat,
    numBlocks: Option<nat>,
    pool: Pool,
    epoch: Option<int>,
    allocs: map<RequestId, Allocation>,
    completionClaims: int,
    initialClaims: int)

  datatype AddRequest = AddRequest(
    id: RequestId,
    tokens: seq<Token>,
    maxCommitted: int,
    epoch: Option<int>,
    minFreeSlots: int,
    admissionMinFreeSlots: int,
    initialExtraBlocks: int,
    guaranteeCompletion: bool)

  datatype Reservation = Reservation(blocks: seq<nat>, committed: nat, reserved: nat, readonly: nat)

  function InitialState(blockSize: nat, caching: bool, planned: nat): State {
    State(blockSize, caching, planned, None, Pool([], [], [], map[], map[], 0), None, map[], 0, 0)
  }

  function BlocksFor(blockSize: nat, tokens: nat): (n: nat)
    requires blockSize > 0
    ensures (n as int - 1) * blockSize < tokens <= n * blockSize
  {
    (tokens + blockSize - 1) / blockSize
  }

  // ---- outstanding claims --------------------------------------------------------------

  function CompletionClaim(a: Allocation): nat {
    if a.completionLimit.Some? && a.completionLimit.value >= |a.blocks|
    then a.completionLimit.value - |a.blocks| else 0
  }

  function InitialClaim(a: Allocation): nat {
    if a.initialLimit.None? then 0 else Max(0, a.initialLimit.value - |a.blocks|)
  }

  ghost function Holders(allocs: map<RequestId, Allocation>, b: nat): set<RequestId> {
    set r | r in allocs && b in allocs[r].blocks
  }

  // ---- the invariant -------------------------------------------------------------------

  /** A block only its owner can reach: one reference and no index entry. */
  ghost predicate Private(p: Pool, b: nat) {
    b < |p.refs| && p.refs[b] == 1 && b !in p.keyOf
  }

  ghost predicate AllocationOk(s: State, a: Allocation)
    requires s.blockSize > 0
  {
    && NoDup(a.blocks)
    && (forall i | 0 <= i < |a.blocks| :: a.blocks[i] < |s.pool.refs|)
    && |a.blocks| == BlocksFor(s.blockSize, a.committed + a.reserved)
    && a.readonly == Min(a.committed / s.blockSize, |a.keys|)
    && (forall i | a.readonly <= i < |a.blocks| :: Private(s.pool, a.blocks[i]))
    && (a.completionLimit.Some? ==> |a.blocks| <= a.completionLimit.value && a.initialLimit.None?)
    && (if s.caching then s.epoch.Some? && IsChain(s.blockSize, s.epoch.value, a.keys) else a.keys == [])
  }

  /** Reference counts are exactly the number of block tables that hold the block. */
  ghost predicate Counted(s: State) {
    forall b | 0 <= b < |s.pool.refs| :: s.pool.refs[b] == |Holders(s.allocs, b)|
  }

  /** The counters are exactly the outstanding claims, and used + claimed <= total. */
  ghost predicate ClaimsOk(s: State) {
    && s.completionClaims == SumOver(s.allocs, CompletionClaim)
    && s.initialClaims == SumOver(s.allocs, InitialClaim)
    && s.completionClaims + s.initialClaims <= Available(s.pool)
  }

  ghost predicate IndexKeysOk(s: State) {
    forall b | b in s.pool.keyOf ::
      s.caching && s.epoch.Some? && EpochOf(s.pool.keyOf[b].digest) == s.epoch.value
      && |Flatten(s.pool.keyOf[b].digest)| >= s.blockSize
  }

  ghost predicate Inv(s: State) {
    && s.blockSize > 0 && s.planned > 0
    && PoolOk(s.pool)
    && |s.pool.refs| == (if s.numBlocks.Some? then s.numBlocks.value else 0)
    && (s.numBlocks.None? ==> s.allocs == map[])
    && (forall r | r in s.allocs :: AllocationOk(s, s.allocs[r]))
    && Counted(s)
    && ClaimsOk(s)
    && IndexKeysOk(s)
  }

  // ---- operations ----------------------------------------------------------------------

  /** Rebuilds an empty pool of n blocks. */
  function ResetPool(s: State, n: nat): State {
    s.(pool := FreshPool(n, s.pool.revision + 1), completionClaims := 0, initialClaims := 0)
  }

  /** Adopts a changed page count, which is refused while any request is active. */
  function Sync(s: State): Result<State, Error> {
    if s.numBlocks == Some(s.planned) then Ok(s)
    else if s.allocs != map[] then Err(CapacityChanged)
    else Ok(ResetPool(s, s.planned).(numBlocks := Some(s.planned), epoch := None))
  }

  function EnsureEpoch(s: State, epoch: Option<int>): Result<State, Error> {
    if !s.caching || s.epoch == epoch then Ok(s)
    else if s.allocs != map[] then Err(EpochChanged)
    else if s.numBlocks.None? then Err(CapacityChanged)
    else Ok(ResetPool(s, s.numBlocks.value).(epoch := epoch))
  }

  function KeysFor(s: State, tokens: seq<Token>, epoch: Option<int>): (keys: seq<Key>)
    requires s.blockSize > 0 && |tokens| > 0 && (s.caching ==> epoch.Some?)
  {
    if s.caching then PromptKeys(s.blockSize, tokens, epoch.value) else []
  }

  /** The pages of the longest indexed prefix of a key chain. */
  function Matched(blockOf: map<Key, nat>, keys: seq<Key>): (bs: seq<nat>)
    ensures |bs| <= |keys|
    ensures forall i | 0 <= i < |bs| :: keys[i] in blockOf && bs[i] == blockOf[keys[i]]
    ensures |bs| < |keys| ==> keys[|bs|] !in blockOf
  {
    if keys == [] || keys[0] !in blockOf then [] else [blockOf[keys[0]]] + Matched(blockOf, keys[1..])
  }

  predicate ValidAdd(q: AddRequest) {
    && q.id != "" && q.tokens != [] && (forall t | t in q.tokens :: t >= 0)
    && q.maxCommitted >= |q.tokens| && q.minFreeSlots >= 0 && q.admissionMinFreeSlots >= 0
    && q.initialExtraBlocks >= 0 && !(q.guaranteeCompletion && q.initialExtraBlocks > 0)
  }

  /** The table a request is admitted with: shared prefix pages and its block promises. */
  function Admitted(blockSize: nat, q: AddRequest, matched: seq<nat>, keys: seq<Key>): Allocation
    requires blockSize > 0 && ValidAdd(q)
  {
    Allocation(
      matched,
      if q.guaranteeCompletion then Some(BlocksFor(blockSize, q.maxCommitted)) else None,
      if !q.guaranteeCompletion && q.initialExtraBlocks > 0
      then Some(BlocksFor(blockSize, Min(q.maxCommitted, |q.tokens| + q.initialExtraBlocks * blockSize)))
      else None,
      BlocksFor(blockSize, q.minFreeSlots),
      keys,
      |matched|,
      |matched| * blockSize,
      0)
  }

  function OpenCompletion(a: Allocation): int {
    if a.completionLimit.None? then 0 else a.completionLimit.value - |a.blocks|
  }

  function OpenInitial(a: Allocation): int {
    if a.initialLimit.None? then 0 else a.initialLimit.value - |a.blocks|
  }

  /** What admission adds to used, claimed and watermark blocks. */
  function AdmissionCost(refs: seq<nat>, blockSize: nat, q: AddRequest, a: Allocation): int
    requires blockSize > 0 && ValidAdd(q)
    requires forall i | 0 <= i < |a.blocks| :: a.blocks[i] < |refs|
  {
    Idle(refs, a.blocks)
    + OpenCompletion(a) + OpenInitial(a)
    + Max(a.minFree, BlocksFor(blockSize, q.admissionMinFreeSlots))
  }

  ghost predicate Admissible(s: State, q: AddRequest) {
    && Inv(s) && ValidAdd(q) && q.id !in s.allocs && s.numBlocks.Some?
    && (s.caching ==> q.epoch.Some? && s.epoch == q.epoch)
  }

  /** Admission once capacity and epoch are settled; None means it does not fit now. */
  function Admit(s: State, q: AddRequest): (State, Option<nat>)
    requires Admissible(s, q)
  {
    var keys := KeysFor(s, q.tokens, q.epoch);
    var matched := Matched(s.pool.blockOf, keys);
    var a := Admitted(s.blockSize, q, matched, keys);
    MatchedPages(s, q);
    var used := s.numBlocks.value - Available(s.pool);
    if used + s.completionClaims + s.initialClaims + AdmissionCost(s.pool.refs, s.blockSize, q, a) > s.numBlocks.value
    then (s, None)
    else
      (s.(pool := AcquireMany(s.pool, matched),
          allocs := s.allocs[q.id := a],
          completionClaims := s.completionClaims + OpenCompletion(a),
          initialClaims := s.initialClaims + OpenInitial(a)),
       Some(|matched| * s.blockSize))
  }

  /** Matched pages are distinct indexed blocks holding the keys' own pages. */
  lemma MatchedPages(s: State, q: AddRequest)
    requires Inv(s) && ValidAdd(q) && (s.caching ==> q.epoch.Some?)
    ensures var keys := KeysFor(s, q.tokens, q.epoch);
            var bs := Matched(s.pool.blockOf, keys);
            && NoDup(bs)
            && (forall i | 0 <= i < |bs| ::
                bs[i] < |s.pool.refs| && bs[i] in s.pool.keyOf && s.pool.keyOf[bs[i]] == keys[i])
  {
    hide Counted, ClaimsOk, IndexKeysOk, AllocationOk;
    var keys := KeysFor(s, q.tokens, q.epoch);
    var bs := Matched(s.pool.blockOf, keys);
    if s.caching {
      KeyChainIsChain(s.blockSize, q.tokens, q.epoch.value, CacheablePages(s.blockSize, q.tokens));
      ChainDistinct(s.blockSize, q.epoch.value, keys);
    }
  }

  lemma ChainDistinct(blockSize: nat, epoch: int, keys: seq<Key>)
    requires blockSize > 0 && IsChain(blockSize, epoch, keys)
    ensures NoDup(keys)
  {
    forall i, j | 0 <= i < j < |keys| ensures keys[i] != keys[j] {
      PageBound(blockSize, j, i);
      assert (j + 1) * blockSize == j * blockSize + blockSize;
    }
  }

  /** Takes n blocks, or gives all of them back and reports that none was left. */
  function TakeOrRollBack(p: Pool, n: nat): (r: (Option<seq<nat>>, Pool))
    requires PoolOk(p)
    ensures n <= Available(p) ==> r == (Some(TakeMany(p, n).0), TakeMany(p, n).1)
    ensures n > Available(p) ==> r.0.None? && r.1.refs == p.refs
  {
    if n <= Available(p) then
      var (bs, q) := TakeMany(p, n);
      (Some(bs), q)
    else
      var (bs, q) := TakeMany(p, Available(p));
      TakenGivesBack(p, bs, q);
      (None, ReleaseMany(q, bs))
  }

  /** Taken blocks can be given back, and then every count is what it was. */
  lemma TakenGivesBack(p: Pool, bs: seq<nat>, q: Pool)
    requires PoolOk(q) && Taken(p, bs, q)
    ensures Releasable(q, bs) && ReleaseMany(q, bs).refs == p.refs
  {
    hide PoolOk;
    forall i | 0 <= i < |bs| ensures bs[i] < |q.refs| && q.refs[bs[i]] > 0 { assert bs[i] in bs; }
    var back := ReleaseMany(q, bs);
    assert forall b | 0 <= b < |p.refs| :: back.refs[b] == p.refs[b];
  }

  /** The initial promise a best-effort request turns into blocks in one reservation. */
  function ClaimedInitial(a: Allocation, extra: int): int {
    if extra <= 0 || a.initialLimit.None? then 0
    else Min(extra, Max(0, a.initialLimit.value - |a.blocks|))
  }

  /** What refuses a reservation before any block is taken. */
  function ReserveRefusal(s: State, a: Allocation, extra: int): Option<Error>
    requires s.numBlocks.Some?
  {
    if a.completionLimit.Some? then
      if extra > a.completionLimit.value - |a.blocks| then Some(ClaimExhausted) else None
    else if extra > 0
         && s.numBlocks.value - Available(s.pool) + s.completionClaims + s.initialClaims
            + (extra - ClaimedInitial(a, extra)) + a.minFree > s.numBlocks.value
    then Some(WatermarkReached)
    else None
  }

  function ExtraBlocks(s: State, a: Allocation, n: nat): int
    requires s.blockSize > 0
  {
    BlocksFor(s.blockSize, a.committed + n) - |a.blocks|
  }

  /** A reservation for an idle request, once the capacity is settled. */
  function ReserveFor(s: State, id: RequestId, n: nat): (State, Result<Reservation, Error>)
    requires Inv(s) && id in s.allocs && s.allocs[id].reserved == 0
  {
    var a := s.allocs[id];
    BlocksMonotone(s.blockSize, a.committed, a.committed + n);
    var extra := ExtraBlocks(s, a, n);
    match ReserveRefusal(s, a, extra)
    case Some(e) => (s, Err(e))
    case None =>
      match TakeOrRollBack(s.pool, extra) {
        case (None, p) => (s.(pool := p), Err(NoBlockAvailable))
        case (Some(bs), p) =>
          var b := a.(blocks := a.blocks + bs, reserved := n);
          (s.(pool := p,
              allocs := s.allocs[id := b],
              completionClaims := s.completionClaims - (if a.completionLimit.Some? then extra else 0),
              initialClaims := s.initialClaims - (if a.completionLimit.Some? then 0 else ClaimedInitial(a, extra))),
           Ok(Reservation(b.blocks, a.committed, n, a.readonly)))
      }
  }

  function Reserve(s: State, id: RequestId, n: int): (State, Result<Reservation, Error>)
    requires Inv(s)
  {
    SyncKeepsInv(s);
    match Sync(s)
    case Err(e) => (s, Err(e))
    case Ok(t) =>
      if n <= 0 then (t, Err(InvalidArgument))
      else if id !in t.allocs then (t, Err(NotFound))
      else if t.allocs[id].reserved > 0 then (t, Err(AlreadyReserved))
      else ReserveFor(t, id, n)
  }

  /** The table after committing n tokens: full prompt pages become read-only and the tail is cut. */
  function Trimmed(blockSize: nat, a: Allocation, n: nat): Allocation
    requires blockSize > 0 && n <= a.reserved && |a.blocks| == BlocksFor(blockSize, a.committed + a.reserved)
  {
    BlocksMonotone(blockSize, a.committed + n, a.committed + a.reserved);
    a.(blocks := a.blocks[..BlocksFor(blockSize, a.committed + n)],
       readonly := Min((a.committed + n) / blockSize, |a.keys|),
       committed := a.committed + n,
       reserved := 0)
  }

  function TrimmedOf(s: State, id: RequestId, n: nat): Allocation
    requires Inv(s) && id in s.allocs && n <= s.allocs[id].reserved
  {
    assert AllocationOk(s, s.allocs[id]);
    Trimmed(s.blockSize, s.allocs[id], n)
  }

  function Commit(s: State, id: RequestId, n: int): (State, Option<Error>)
    requires Inv(s)
  {
    if id !in s.allocs then (s, Some(NotFound))
    else if !(0 <= n <= s.allocs[id].reserved) then (s, Some(InvalidArgument))
    else
      var a := s.allocs[id];
      var b := TrimmedOf(s, id, n);
      CommitPages(s, id, n);
      var published := PublishRange(s.pool, a.keys, a.blocks, a.readonly, b.readonly);
      var released := a.blocks[|b.blocks|..];
      (s.(pool := ReleaseMany(published, released),
          allocs := s.allocs[id := b],
          completionClaims := s.completionClaims + (if a.completionLimit.Some? then |released| else 0),
          initialClaims := s.initialClaims + (if a.completionLimit.Some? then 0
                                              else InitialClaim(b) - InitialClaim(a))),
       None)
  }

  function Free(s: State, id: RequestId): (State, bool)
    requires Inv(s)
  {
    if id !in s.allocs then (s, false)
    else
      var a := s.allocs[id];
      HeldBlocks(s, id);
      (s.(pool := ReleaseMany(s.pool, a.blocks),
          allocs := s.allocs - {id},
          completionClaims := s.completionClaims - CompletionClaim(a),
          initialClaims := s.initialClaims - InitialClaim(a)),
       true)
  }

  /** Registers a request; Ok(None) means it does not fit now, and leaves no trace of it. */
  function Add(s: State, q: AddRequest): (State, Result<Option<nat>, Error>)
    requires Inv(s)
  {
    SyncKeepsInv(s);
    match Sync(s)
    case Err(e) => (s, Err(e))
    case Ok(t) =>
      if !ValidAdd(q) then (t, Err(InvalidArgument))
      else if q.id in t.allocs then (t, Err(AlreadyExists))
      else if t.caching && (q.epoch.None? || q.epoch.value < 0) then (t, Err(InvalidArgument))
      else
        EnsureEpochKeepsInv(t, q.epoch);
        match EnsureEpoch(t, q.epoch) {
          case Err(e) => (t, Err(e))
          case Ok(u) => var (v, cached) := Admit(u, q); (v, Ok(cached))
        }
  }

  /** How much of a prompt is cached now; nothing is pinned. */
  function Preview(s: State, tokens: seq<Token>, epoch: Option<int>): (State, Result<nat, Error>)
    requires Inv(s)
  {
    hide PoolOk, Counted, ClaimsOk, IndexKeysOk, AllocationOk;
    SyncKeepsInv(s);
    match Sync(s)
    case Err(e) => (s, Err(e))
    case Ok(t) =>
      if tokens == [] then (t, Err(InvalidArgument))
      else if !t.caching || epoch.None? || t.epoch != epoch then (t, Ok(0))
      else (t, Ok(|Matched(t.pool.blockOf, KeysFor(t, tokens, epoch))| * t.blockSize))
  }

  // ---- observable capacity -------------------------------------------------------------

  datatype Stats = Stats(used: int, claimed: int, capacity: int)

  /** What the statistics record refuses to be built without. */
  predicate StatsAccepted(t: Stats) {
    t.used >= 0 && t.claimed >= 0 && t.capacity > 0 && t.used + t.claimed <= t.capacity
  }

  function StatsOf(s: State): Stats
    requires s.numBlocks.Some?
  {
    Stats((s.numBlocks.value - Available(s.pool)) * s.blockSize,
          (s.completionClaims + s.initialClaims) * s.blockSize,
          s.numBlocks.value * s.blockSize)
  }

  // ---- arithmetic of pages -------------------------------------------------------------

  lemma BlocksMonotone(blockSize: nat, a: nat, b: nat)
    requires blockSize > 0 && a <= b
    ensures BlocksFor(blockSize, a) <= BlocksFor(blockSize, b)
  {
    Cancel(blockSize, BlocksFor(blockSize, a) - 1, BlocksFor(blockSize, b) - 1);
  }

  lemma PageCount(blockSize: nat, t: nat)
    requires blockSize > 0
    ensures t / blockSize <= BlocksFor(blockSize, t)
    ensures t / blockSize * blockSize <= t < (t / blockSize + 1) * blockSize
  {
    assert t == t / blockSize * blockSize + t % blockSize;
    Cancel(blockSize, t / blockSize, BlocksFor(blockSize, t));
  }

  lemma WholePages(blockSize: nat, k: nat)
    requires blockSize > 0
    ensures BlocksFor(blockSize, k * blockSize) == k && k * blockSize / blockSize == k
  {
    PageCount(blockSize, k * blockSize);
    Cancel(blockSize, k, k * blockSize / blockSize);
    Cancel(blockSize, k * blockSize / blockSize, k);
    Cancel(blockSize, k, BlocksFor(blockSize, k * blockSize));
    Cancel(blockSize, BlocksFor(blockSize, k * blockSize) - 1, k - 1);
  }

  lemma PagesFit(blockSize: nat, k: nat, t: nat)
    requires blockSize > 0 && k * blockSize <= t
    ensures k <= BlocksFor(blockSize, t)
  {
    Cancel(blockSize, k, BlocksFor(blockSize, t));
  }

  lemma FloorMonotone(blockSize: nat, a: nat, b: nat)
    requires blockSize > 0 && a <= b
    ensures a / blockSize <= b / blockSize
  {
    PageCount(blockSize, a);
    PageCount(blockSize, b);
    Cancel(blockSize, a / blockSize, b / blockSize);
  }

  // ---- what the invariant says about one request ---------------------------------------

  lemma HeldBlocks(s: State, id: RequestId)
    requires Inv(s) && id in s.allocs
    ensures NoDup(s.allocs[id].blocks)
    ensures forall i | 0 <= i < |s.allocs[id].blocks| ::
              s.allocs[id].blocks[i] < |s.pool.refs| && s.pool.refs[s.allocs[id].blocks[i]] > 0
  {
    hide PoolOk, ClaimsOk, IndexKeysOk;
    var a := s.allocs[id];
    assert AllocationOk(s, a);
    forall i | 0 <= i < |a.blocks| ensures s.pool.refs[a.blocks[i]] > 0 {
      assert id in Holders(s.allocs, a.blocks[i]);
    }
  }

  /** The pages a commit publishes and the blocks it trims are all private to the request. */
  lemma CommitPages(s: State, id: RequestId, n: nat)
    requires Inv(s) && id in s.allocs && n <= s.allocs[id].reserved
    ensures var a := s.allocs[id];
            var b := TrimmedOf(s, id, n);
            && a.readonly <= b.readonly <= |b.blocks| <= |a.blocks| && b.readonly <= |a.keys|
            && NoDup(a.blocks) && NoDup(a.blocks[|b.blocks|..])
            && (forall i | a.readonly <= i < |a.blocks| :: Private(s.pool, a.blocks[i]))
            && (forall i | 0 <= i < |a.blocks| - |b.blocks| :: Private(s.pool, a.blocks[|b.blocks|..][i]))
  {
    hide PoolOk, ClaimsOk, IndexKeysOk, Counted;
    var a := s.allocs[id];
    assert AllocationOk(s, a);
    BlocksMonotone(s.blockSize, a.committed + n, a.committed + a.reserved);
    FloorMonotone(s.blockSize, a.committed, a.committed + n);
    PageCount(s.blockSize, a.committed + n);
  }

  // ---- every operation keeps the invariant ---------------------------------------------

  lemma ResetKeepsInv(s: State, n: nat)
    requires Inv(s) && s.allocs == map[]
    ensures var t := ResetPool(s, n); forall e :: Inv(t.(numBlocks := Some(n), epoch := e))
  {
  }

  lemma SyncKeepsInv(s: State)
    requires Inv(s)
    ensures Sync(s).Ok? ==> Inv(Sync(s).value) && Sync(s).value.numBlocks == Some(s.planned)
    ensures Sync(s).Ok? ==>
              && Sync(s).value.allocs == s.allocs && Sync(s).value.caching == s.caching
              && Sync(s).value.blockSize == s.blockSize && Sync(s).value.planned == s.planned
  {
    hide PoolOk;
    if s.allocs == map[] { ResetKeepsInv(s, s.planned); }
  }

  lemma EnsureEpochKeepsInv(s: State, epoch: Option<int>)
    requires Inv(s) && s.numBlocks.Some?
    ensures var r := EnsureEpoch(s, epoch);
            r.Ok? ==>
              && Inv(r.value) && r.value.numBlocks == s.numBlocks && r.value.allocs == s.allocs
              && r.value.caching == s.caching && r.value.blockSize == s.blockSize && r.value.planned == s.planned
              && (s.caching ==> r.value.epoch == epoch)
  {
    hide PoolOk;
    if s.allocs == map[] { ResetKeepsInv(s, s.numBlocks.value); }
  }
}
