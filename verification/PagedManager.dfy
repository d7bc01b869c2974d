/** PagedKVCacheManager itself (src/light_vllm/runtime/kv_cache.py:351-777): the fields it
    updates in place, each method proved against its state function. */
module PagedManager {
  import opened Collections
  import opened PrefixKeys
  import opened BlockPool
  import opened PagedState
  import opened PagedInvariant
  import opened PagedRuns

  const MAX_PROMPT_KEY_PLANS := 1024

  /** A Python tuple: its identity and its elements. */
  datatype TokenTuple = TokenTuple(address: nat, ids: seq<Token>)

  datatype PlanKey = PlanKey(epoch: int, address: nat)

  datatype Plan = Plan(tokens: TokenTuple, keys: seq<Key>)

  ghost predicate PlanOk(blockSize: nat, planKey: PlanKey, plan: Plan)
    requires blockSize > 0
  {
    plan.tokens.ids != [] && plan.keys == PromptKeys(blockSize, plan.tokens.ids, planKey.epoch)
  }

  ghost predicate MemoOk(blockSize: nat, plans: map<PlanKey, Plan>, order: seq<PlanKey>)
    requires blockSize > 0
  {
    && NoDup(order) && |order| <= MAX_PROMPT_KEY_PLANS
    && (forall k :: k in order <==> k in plans)
    && (forall k | k in plans :: PlanOk(blockSize, k, plans[k]))
  }

  /** The order of use after one more use. */
  function UsedNow(order: seq<PlanKey>, planKey: PlanKey): (next: seq<PlanKey>)
    ensures next != [] && next[|next| - 1] == planKey
  {
    Without(order, planKey) + [planKey]
  }

  lemma UsedNowOnce(order: seq<PlanKey>, planKey: PlanKey)
    requires NoDup(order)
    ensures NoDup(UsedNow(order, planKey)) && forall k :: k in UsedNow(order, planKey) <==> k == planKey || k in order
    ensures |UsedNow(order, planKey)| == |order| + if planKey in order then 0 else 1
  {
    WithoutRemoves(order, planKey);
  }

  /** Using a plan again only changes the order. */
  lemma MemoUsed(blockSize: nat, plans: map<PlanKey, Plan>, order: seq<PlanKey>, planKey: PlanKey)
    requires blockSize > 0 && MemoOk(blockSize, plans, order) && planKey in plans
    ensures MemoOk(blockSize, plans, UsedNow(order, planKey))
  {
    hide PlanOk, UsedNow;
    UsedNowOnce(order, planKey);
  }

  /** Storing one plan and dropping the least recent one keeps the memo right. */
  lemma MemoStores(blockSize: nat, plans: map<PlanKey, Plan>, order: seq<PlanKey>, planKey: PlanKey, plan: Plan)
    requires blockSize > 0 && MemoOk(blockSize, plans, order) && PlanOk(blockSize, planKey, plan)
    ensures var (next, all) := (UsedNow(order, planKey), plans[planKey := plan]);
            if |next| <= MAX_PROMPT_KEY_PLANS then MemoOk(blockSize, all, next)
            else next[0] != planKey && MemoOk(blockSize, all - {next[0]}, next[1..])
  {
    hide PlanOk, UsedNow;
    UsedNowOnce(order, planKey);
    var next := UsedNow(order, planKey);
    if |next| > MAX_PROMPT_KEY_PLANS { assert next == [next[0]] + next[1..]; }
  }

  class PagedKVCacheManager {
    const blockSize: nat
    const caching: bool
    var planned: nat
    var numBlocks: Option<nat>
    var freeBlocks: seq<nat>
    var refCounts: seq<nat>
    var cachedBlocks: map<Key, nat>
    var blockKeys: map<nat, Key>
    var evictable: seq<nat>
    var cacheEpoch: Option<int>
    var allocations: map<RequestId, Allocation>
    var completionClaims: int
    var initialClaims: int
    var revision: nat
    var plans: map<PlanKey, Plan>
    var planOrder: seq<PlanKey>

    ghost function PoolView(): Pool
      reads `refCounts, `freeBlocks, `evictable, `cachedBlocks, `blockKeys, `revision
    {
      Pool(refCounts, freeBlocks, evictable, cachedBlocks, blockKeys, revision)
    }

    ghost function View(): State
      reads this
    {
      State(blockSize, caching, planned, numBlocks, PoolView(), cacheEpoch, allocations, completionClaims,
            initialClaims)
    }

    /** The memo of key chains agrees with computing them again. */
    ghost predicate PlansOk()
      reads `plans, `planOrder
    {
      blockSize > 0 && MemoOk(blockSize, plans, planOrder)
    }

    ghost predicate Valid()
      reads this
    {
      Inv(View()) && PlansOk()
    }

    constructor (blockSize: nat, caching: bool, planned: nat)
      requires blockSize > 0 && planned > 0
      ensures Valid() && View() == InitialState(blockSize, caching, planned)
    {
      this.blockSize, this.caching, this.planned := blockSize, caching, planned;
      numBlocks, cacheEpoch := None, None;
      freeBlocks, refCounts, evictable := [], [], [];
      cachedBlocks, blockKeys := map[], map[];
      allocations, completionClaims, initialClaims, revision := map[], 0, 0, 0;
      plans, planOrder := map[], [];
      new;
      InitialInv(blockSize, caching, planned);
    }

    // ---- blocks ------------------------------------------------------------------------

    method AllocateBlock() returns (r: Option<nat>)
      requires PoolOk(PoolView())
      modifies `freeBlocks, `refCounts, `cachedBlocks, `blockKeys, `evictable, `revision
      ensures Available(old(PoolView())) == 0 ==> r.None? && PoolView() == old(PoolView())
      ensures Available(old(PoolView())) > 0 ==> r.Some? && (r.value, PoolView()) == Take(old(PoolView()))
    {
      hide PoolOk;
      if Available(PoolView()) > 0 { PoolHead(PoolView()); }
      var block;
      if |freeBlocks| > 0 {
        block := freeBlocks[0];
        freeBlocks := freeBlocks[1..];
      } else if |evictable| == 0 {
        return None;
      } else {
        block := evictable[0];
        evictable := evictable[1..];
        var key := blockKeys[block];
        blockKeys := blockKeys - {block};
        if key in cachedBlocks && cachedBlocks[key] == block {
          cachedBlocks := cachedBlocks - {key};
          revision := revision + 1;
        }
      }
      refCounts := refCounts[block := 1];
      r := Some(block);
    }

    method AcquireBlock(b: nat)
      requires PoolOk(PoolView()) && b < |refCounts| && (refCounts[b] > 0 || b in blockKeys)
      modifies `refCounts, `evictable
      ensures PoolView() == Acquire(old(PoolView()), b)
    {
      if refCounts[b] == 0 {
        evictable := Without(evictable, b);
      }
      refCounts := refCounts[b := refCounts[b] + 1];
    }

    /** Refuses to release a block nobody holds. */
    method ReleaseBlock(b: nat) returns (released: bool)
      requires PoolOk(PoolView()) && b < |refCounts|
      modifies `freeBlocks, `refCounts, `evictable
      ensures released <==> old(refCounts[b]) > 0
      ensures PoolView() == if released then Release(old(PoolView()), b) else old(PoolView())
    {
      if refCounts[b] <= 0 {
        return false;
      }
      refCounts := refCounts[b := refCounts[b] - 1];
      if refCounts[b] == 0 {
        if b in blockKeys {
          evictable := evictable + [b];
        } else {
          freeBlocks := Push(freeBlocks, b);
        }
      }
      return true;
    }

    method ReleaseBlocks(bs: seq<nat>)
      requires Releasable(PoolView(), bs)
      modifies `freeBlocks, `refCounts, `evictable
      ensures PoolView() == ReleaseMany(old(PoolView()), bs)
    {
      hide PoolOk, Releasable, Release, ReleaseMany;
      var i := |bs|;
      assert bs[..i] == bs;
      while i > 0
        invariant 0 <= i <= |bs|
        invariant Releasable(PoolView(), bs[..i])
        invariant ReleaseMany(PoolView(), bs[..i]) == ReleaseMany(old(PoolView()), bs)
      {
        ReleaseOne(PoolView(), bs, i);
        i := i - 1;
        var released := ReleaseBlock(bs[i]);
      }
      NothingReleased(PoolView(), bs[..0]);
    }

    method AcquireBlocks(bs: seq<nat>)
      requires Acquirable(PoolView(), bs)
      modifies `refCounts, `evictable
      ensures PoolView() == AcquireMany(old(PoolView()), bs)
    {
      hide PoolOk;
      for i := 0 to |bs|
        invariant Acquirable(old(PoolView()), bs[..i])
        invariant PoolView() == AcquireMany(old(PoolView()), bs[..i])
      {
        assert bs[..i + 1][..i] == bs[..i];
        AcquireBlock(bs[i]);
      }
      assert bs[..|bs|] == bs;
    }

    /** The allocation loop of a reservation, with its roll back. */
    method TakeBlocks(n: nat) returns (r: Option<seq<nat>>)
      requires PoolOk(PoolView())
      modifies `freeBlocks, `refCounts, `cachedBlocks, `blockKeys, `evictable, `revision
      ensures (r, PoolView()) == TakeOrRollBack(old(PoolView()), n)
    {
      hide PoolOk, Taken, ReleaseMany;
      var taken := [];
      for i := 0 to n
        invariant i <= Available(old(PoolView()))
        invariant (taken, PoolView()) == TakeMany(old(PoolView()), i)
      {
        var b := AllocateBlock();
        if b.None? {
          TakenGivesBack(old(PoolView()), taken, PoolView());
          ReleaseBlocks(taken);
          return None;
        }
        taken := taken + [b.value];
      }
      r := Some(taken);
    }

    // ---- capacity and epoch ------------------------------------------------------------

    method ResetBlockPool(n: nat)
      modifies this
      ensures View() == ResetPool(old(View()), n)
      ensures plans == map[] && planOrder == []
    {
      hide PoolOk;
      var blocks := [];
      for i := 0 to n
        invariant blocks == seq(i, j => j)
      {
        blocks := blocks + [i];
      }
      freeBlocks := blocks;
      refCounts := seq(n, i => 0);
      cachedBlocks, blockKeys, evictable := map[], map[], [];
      completionClaims, initialClaims := 0, 0;
      revision := revision + 1;
      plans, planOrder := map[], [];
    }

    method SyncCapacity() returns (e: Option<Error>)
      requires Valid()
      modifies this
      ensures Valid()
      ensures match Sync(old(View()))
              case Ok(t) => e.None? && View() == t
              case Err(x) => e == Some(x) && View() == old(View())
    {
      SyncKeepsInv(View());
      if numBlocks == Some(planned) {
        return None;
      }
      if allocations != map[] {
        return Some(CapacityChanged);
      }
      numBlocks := Some(planned);
      ResetBlockPool(planned);
      cacheEpoch := None;
      return None;
    }

    method EnsureCacheEpoch(epoch: Option<int>) returns (e: Option<Error>)
      requires Valid()
      modifies this
      ensures PlansOk()
      ensures match EnsureEpoch(old(View()), epoch)
              case Ok(t) => e.None? && View() == t
              case Err(x) => e == Some(x) && View() == old(View())
    {
      if !caching || cacheEpoch == epoch {
        return None;
      }
      if allocations != map[] {
        return Some(EpochChanged);
      }
      if numBlocks.None? {
        return Some(CapacityChanged);
      }
      ResetBlockPool(numBlocks.value);
      cacheEpoch := epoch;
      return None;
    }

    // ---- prefix keys -------------------------------------------------------------------

    /** The key chain of a prompt, memoised per tuple identity; the memo is checked against the
        tuple itself before use, so the answer is always the computed one. */
    method PromptBlockKeys(tokens: TokenTuple, epoch: Option<int>) returns (keys: seq<Key>)
      requires PlansOk() && tokens.ids != [] && (caching ==> epoch.Some?)
      modifies `plans, `planOrder
      ensures PlansOk()
      ensures keys == KeysFor(View(), tokens.ids, epoch)
    {
      hide PromptKeys;
      if !caching {
        return [];
      }
      var planKey := PlanKey(epoch.value, tokens.address);
      if planKey in plans && plans[planKey].tokens == tokens {
        MemoUsed(blockSize, plans, planOrder, planKey);
        MoveToEnd(planKey);
        return plans[planKey].keys;
      }
      keys := ComputeKeys(tokens.ids, epoch.value);
      RememberPlan(planKey, Plan(tokens, keys));
    }

    /** Stores a plan as the most recent one and drops the least recent one beyond the limit. */
    method RememberPlan(planKey: PlanKey, plan: Plan)
      requires PlansOk() && PlanOk(blockSize, planKey, plan)
      modifies `plans, `planOrder
      ensures PlansOk() && planKey in plans && plans[planKey] == plan
      ensures var order := UsedNow(old(planOrder), planKey);
              if |order| <= MAX_PROMPT_KEY_PLANS
              then planOrder == order && plans == old(plans)[planKey := plan]
              else planOrder == order[1..] && plans == old(plans)[planKey := plan] - {order[0]}
    {
      hide MemoOk, PlanOk;
      MemoStores(blockSize, plans, planOrder, planKey, plan);
      plans := plans[planKey := plan];
      MoveToEnd(planKey);
      if |planOrder| > MAX_PROMPT_KEY_PLANS {
        var oldest := planOrder[0];
        plans := plans - {oldest};
        planOrder := planOrder[1..];
      }
    }

    /** OrderedDict.move_to_end for an existing or just inserted key. */
    method MoveToEnd(planKey: PlanKey)
      modifies `planOrder
      ensures planOrder == UsedNow(old(planOrder), planKey)
    {
      planOrder := Without(planOrder, planKey) + [planKey];
    }

    method ComputeKeys(tokens: seq<Token>, epoch: int) returns (keys: seq<Key>)
      requires blockSize > 0 && tokens != []
      ensures keys == PromptKeys(blockSize, tokens, epoch)
    {
      var pages := CacheablePages(blockSize, tokens);
      var parent := Root(epoch);
      keys := [];
      for i := 0 to pages
        invariant i * blockSize <= |tokens|
        invariant keys == KeyChain(blockSize, tokens, epoch, i)
        invariant parent == DigestAt(blockSize, tokens, epoch, i)
      {
        PageBound(blockSize, pages, i);
        var block := tokens[i * blockSize..(i + 1) * blockSize];
        var digest := Node(parent, block);
        keys := keys + [Key(parent, block, digest)];
        parent := digest;
      }
    }

    method MatchedPromptBlocks(keys: seq<Key>) returns (matched: seq<nat>)
      requires caching || keys == []
      ensures matched == Matched(cachedBlocks, keys)
    {
      matched := [];
      if !caching {
        return;
      }
      for i := 0 to |keys|
        invariant matched + Matched(cachedBlocks, keys[i..]) == Matched(cachedBlocks, keys)
      {
        if keys[i] !in cachedBlocks {
          return;
        }
        assert keys[i..][1..] == keys[i + 1..];
        Associative(matched, [cachedBlocks[keys[i]]], Matched(cachedBlocks, keys[i + 1..]));
        matched := matched + [cachedBlocks[keys[i]]];
      }
    }

    // ---- the request protocol ----------------------------------------------------------

    method TryAddRequest(q: AddRequest, address: nat) returns (r: Result<Option<nat>, Error>)
      requires Valid()
      modifies this
      ensures Valid() && (View(), r) == Add(old(View()), q)
    {
      hide Inv, Admit;
      ghost var before := View();
      var e := SyncCapacity();
      if e.Some? {
        return Err(e.value);
      }
      ghost var synced := View();
      SyncKeepsInv(before);
      if !ValidAdd(q) {
        return Err(InvalidArgument);
      }
      if q.id in allocations {
        return Err(AlreadyExists);
      }
      if caching && (q.epoch.None? || q.epoch.value < 0) {
        return Err(InvalidArgument);
      }
      EnsureEpochKeepsInv(synced, q.epoch);
      e := EnsureCacheEpoch(q.epoch);
      if e.Some? {
        return Err(e.value);
      }
      var cached := AdmitRequest(q, address);
      return Ok(cached);
    }

    method AdmitRequest(q: AddRequest, address: nat) returns (cached: Option<nat>)
      requires Valid() && Admissible(View(), q)
      modifies this
      ensures Valid() && (View(), cached) == Admit(old(View()), q)
    {
      hide PoolOk, Counted, ClaimsOk, IndexKeysOk, AllocationOk, SumOver, Matched, PlansOk, PromptKeys, Admit;
      var keys := PromptBlockKeys(TokenTuple(address, q.tokens), q.epoch);
      var matched := MatchedPromptBlocks(keys);
      AdmitKeepsInv(View(), q);
      cached := PinPrefix(q, keys, matched);
    }

    /** The capacity test and, when it passes, pinning the prefix and recording the promises. */
    method PinPrefix(q: AddRequest, keys: seq<Key>, matched: seq<nat>) returns (cached: Option<nat>)
      requires Admissible(View(), q)
      requires keys == KeysFor(View(), q.tokens, q.epoch) && matched == Matched(cachedBlocks, keys)
      modifies `refCounts, `evictable, `allocations, `completionClaims, `initialClaims
      ensures (View(), cached) == Admit(old(View()), q)
    {
      hide PoolOk, Counted, ClaimsOk, IndexKeysOk, AllocationOk, SumOver, Matched, BlocksFor, AcquireMany, KeysFor,
           AdmissionCost;
      MatchedPages(View(), q);
      var allocation := Admitted(blockSize, q, matched, keys);
      var used := numBlocks.value - (|freeBlocks| + |evictable|);
      var cost := AdmissionCost(refCounts, blockSize, q, allocation);
      if used + completionClaims + initialClaims + cost > numBlocks.value {
        return None;
      }
      AcquireBlocks(matched);
      allocations := allocations[q.id := allocation];
      completionClaims := completionClaims + OpenCompletion(allocation);
      initialClaims := initialClaims + OpenInitial(allocation);
      return Some(|matched| * blockSize);
    }

    method Reserve(id: RequestId, n: int) returns (r: Result<Reservation, Error>)
      requires Valid()
      modifies this
      ensures Valid() && (View(), r) == PagedState.Reserve(old(View()), id, n)
    {
      hide PoolOk, Counted, ClaimsOk, IndexKeysOk, AllocationOk, PlansOk, ReserveFor;
      var e := SyncCapacity();
      if e.Some? {
        return Err(e.value);
      }
      if n <= 0 {
        return Err(InvalidArgument);
      }
      if id !in allocations {
        return Err(NotFound);
      }
      if allocations[id].reserved > 0 {
        return Err(AlreadyReserved);
      }
      ReserveForKeepsInv(View(), id, n);
      r := ReserveBlocks(id, n);
    }

    /** The claim test of a strict request, or the watermark test of a best-effort one. */
    method CheckReserve(a: Allocation, extra: int) returns (refusal: Option<Error>, claimedInitial: int)
      requires numBlocks.Some?
      ensures refusal == ReserveRefusal(View(), a, extra)
      ensures refusal.None? ==> claimedInitial == if a.completionLimit.Some? then 0 else ClaimedInitial(a, extra)
    {
      claimedInitial := 0;
      if a.completionLimit.Some? {
        if extra > a.completionLimit.value - |a.blocks| {
          return Some(ClaimExhausted), 0;
        }
      } else if extra > 0 {
        if a.initialLimit.Some? {
          claimedInitial := Min(extra, Max(0, a.initialLimit.value - |a.blocks|));
        }
        var bestEffort := extra - claimedInitial;
        var used := numBlocks.value - (|freeBlocks| + |evictable|);
        if used + completionClaims + initialClaims + bestEffort + a.minFree > numBlocks.value {
          return Some(WatermarkReached), 0;
        }
      }
      return None, claimedInitial;
    }

    method ReserveBlocks(id: RequestId, n: nat) returns (r: Result<Reservation, Error>)
      requires Ready(View(), id)
      modifies `freeBlocks, `refCounts, `cachedBlocks, `blockKeys, `evictable, `revision, `allocations,
               `completionClaims, `initialClaims
      ensures (View(), r) == ReserveFor(old(View()), id, n)
    {
      hide PoolOk, Counted, ClaimsOk, IndexKeysOk, SumOver, BlocksFor, TakeMany, TakeOrRollBack, ReserveRefusal,
           ClaimedInitial, AllocationOk;
      ReserveNeverRunsOut(View(), id, n);
      var a := allocations[id];
      var extra := BlocksFor(blockSize, a.committed + n) - |a.blocks|;
      var refusal, claimedInitial := CheckReserve(a, extra);
      if refusal.Some? {
        return Err(refusal.value);
      }
      var taken := TakeBlocks(extra);
      if taken.None? {
        return Err(NoBlockAvailable);
      }
      a := a.(blocks := a.blocks + taken.value, reserved := n);
      allocations := allocations[id := a];
      if a.completionLimit.Some? {
        completionClaims := completionClaims - extra;
      } else {
        initialClaims := initialClaims - claimedInitial;
      }
      return Ok(Reservation(a.blocks, a.committed, n, a.readonly));
    }

    method Commit(id: RequestId, n: int) returns (e: Option<Error>)
      requires Valid()
      modifies this
      ensures Valid() && (View(), e) == PagedState.Commit(old(View()), id, n)
    {
      hide PoolOk, Counted, ClaimsOk, IndexKeysOk, PlansOk, SumOver, BlocksFor;
      CommitKeepsInv(View(), id, n);
      if id !in allocations {
        return Some(NotFound);
      }
      if !(0 <= n <= allocations[id].reserved) {
        return Some(InvalidArgument);
      }
      CommitTokens(id, n);
      return None;
    }

    method CommitTokens(id: RequestId, n: nat)
      requires Inv(View()) && id in allocations && n <= allocations[id].reserved
      modifies `freeBlocks, `refCounts, `cachedBlocks, `blockKeys, `evictable, `revision, `allocations,
               `completionClaims, `initialClaims
      ensures View() == PagedState.Commit(old(View()), id, n).0
    {
      hide PoolOk, Counted, ClaimsOk, IndexKeysOk, SumOver, BlocksFor, PublishRange, ReleaseMany, PagedState.Commit,
           AllocationOk, Publishable, Releasable;
      CommitInSteps(View(), id, n);
      var a := allocations[id];
      var committed := a.committed + n;
      var full := PublishPromptBlocks(a, committed);
      var keep := BlocksFor(blockSize, committed);
      var b := a.(blocks := a.blocks[..keep], readonly := full, committed := committed, reserved := 0);
      var released := a.blocks[keep..];
      allocations := allocations[id := b];
      if a.completionLimit.Some? {
        completionClaims := completionClaims + |released|;
      } else {
        initialClaims := initialClaims + (InitialClaim(b) - InitialClaim(a));
      }
      ReleaseBlocks(released);
    }

    /** Enters the newly completed prompt pages into the index. */
    method PublishPromptBlocks(a: Allocation, committed: nat) returns (full: nat)
      requires blockSize > 0 && a.readonly <= Min(committed / blockSize, |a.keys|)
      requires Publishable(PoolView(), a.keys, a.blocks, a.readonly, Min(committed / blockSize, |a.keys|))
      modifies `cachedBlocks, `blockKeys, `revision
      ensures full == Min(committed / blockSize, |a.keys|)
      ensures PoolView() == PublishRange(old(PoolView()), a.keys, a.blocks, a.readonly, full)
    {
      hide PoolOk;
      full := Min(committed / blockSize, |a.keys|);
      for i := a.readonly to full
        invariant PoolView() == PublishRange(old(PoolView()), a.keys, a.blocks, a.readonly, i)
      {
        if a.keys[i] !in cachedBlocks {
          cachedBlocks := cachedBlocks[a.keys[i] := a.blocks[i]];
          blockKeys := blockKeys[a.blocks[i] := a.keys[i]];
          revision := revision + 1;
        }
      }
    }

    method Free(id: RequestId) returns (freed: bool)
      requires Valid()
      modifies this
      ensures Valid() && (View(), freed) == PagedState.Free(old(View()), id)
    {
      hide PoolOk, Counted, ClaimsOk, IndexKeysOk, PlansOk, SumOver;
      FreeKeepsInv(View(), id);
      if id !in allocations {
        return false;
      }
      FreeTable(id);
      return true;
    }

    method FreeTable(id: RequestId)
      requires Inv(View()) && id in allocations
      modifies `freeBlocks, `refCounts, `evictable, `allocations, `completionClaims, `initialClaims
      ensures View() == PagedState.Free(old(View()), id).0
    {
      hide PoolOk, Counted, ClaimsOk, IndexKeysOk, SumOver, ReleaseMany, BlocksFor;
      HeldBlocks(View(), id);
      assert AllocationOk(View(), allocations[id]);
      var a := allocations[id];
      allocations := allocations - {id};
      if a.completionLimit.Some? {
        completionClaims := completionClaims - (a.completionLimit.value - |a.blocks|);
      }
      if a.initialLimit.Some? {
        initialClaims := initialClaims - Max(0, a.initialLimit.value - |a.blocks|);
      }
      ReleaseBlocks(a.blocks);
    }

    method PreviewPrefix(tokens: TokenTuple, epoch: Option<int>) returns (r: Result<nat, Error>)
      requires Valid()
      modifies this
      ensures Valid() && (View(), r) == Preview(old(View()), tokens.ids, epoch)
    {
      hide PoolOk, Counted, ClaimsOk, IndexKeysOk, AllocationOk, PlansOk, SumOver, Matched;
      var e := SyncCapacity();
      if e.Some? {
        return Err(e.value);
      }
      if tokens.ids == [] {
        return Err(InvalidArgument);
      }
      if !caching || epoch.None? || cacheEpoch != epoch {
        return Ok(0);
      }
      var keys := PromptBlockKeys(tokens, epoch);
      var matched := MatchedPromptBlocks(keys);
      return Ok(|matched| * blockSize);
    }

    /** The observable capacity: the record built here is never refused. */
    method CapacityStats() returns (r: Result<Stats, Error>)
      requires Valid()
      modifies this
      ensures Valid() && View() == Step(old(View()), DoSync)
      ensures r.Ok? <==> Sync(old(View())).Ok?
      ensures r.Ok? ==> StatsAccepted(r.value) && r.value == StatsOf(View())
    {
      hide PoolOk, Counted, IndexKeysOk, AllocationOk, PlansOk, SumOver;
      ghost var before := View();
      assert Run(before, []) == before;
      if Sync(before).Ok? { StatsAlwaysAccepted(before, []); }
      var e := SyncCapacity();
      if e.Some? {
        return Err(e.value);
      }
      var used := numBlocks.value - (|freeBlocks| + |evictable|);
      return Ok(Stats(used * blockSize, (completionClaims + initialClaims) * blockSize, numBlocks.value * blockSize));
    }
  }
}
