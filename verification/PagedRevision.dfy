/** The revision counter of the prefix index: while it stands still, so does the index, and a
    request's cached prefix may be remembered (kv_cache.py:390-428, 648-660, 711-738;
    token_budget.py:465-484). */
module PagedRevision {
  import opened Collections
  import opened PrefixKeys
  import opened BlockPool
  import opened PagedState
  import opened PagedInvariant
  import opened PagedRuns

  /** The counter never goes back, and standing still means the same index. */
  predicate IndexFollows(p: Pool, q: Pool) {
    q.revision >= p.revision && (q.revision == p.revision ==> q.blockOf == p.blockOf)
  }

  lemma TakeFollows(p: Pool)
    requires PoolOk(p) && Available(p) > 0
    ensures IndexFollows(p, Take(p).1)
  {
    hide PoolOk;
  }

  lemma {:induction false} TakeManyFollows(p: Pool, n: nat)
    requires PoolOk(p) && n <= Available(p)
    ensures IndexFollows(p, TakeMany(p, n).1)
  {
    hide PoolOk, Taken;
    if n > 0 {
      TakeManyFollows(p, n - 1);
      TakeFollows(TakeMany(p, n - 1).1);
    }
  }

  lemma {:induction false} PublishFollows(p: Pool, keys: seq<Key>, bs: seq<nat>, lo: nat, hi: nat)
    requires Publishable(p, keys, bs, lo, hi)
    ensures IndexFollows(p, PublishRange(p, keys, bs, lo, hi))
    decreases hi
  {
    hide PoolOk;
    if hi > lo { PublishFollows(p, keys, bs, lo, hi - 1); }
  }

  predicate StateFollows(s: State, t: State) {
    IndexFollows(s.pool, t.pool) && (t.pool.revision == s.pool.revision ==> t.epoch == s.epoch)
    && t.blockSize == s.blockSize && t.caching == s.caching
  }

  lemma AdmitFollows(s: State, q: AddRequest)
    requires Admissible(s, q)
    ensures StateFollows(s, Admit(s, q).0)
  {
    hide PoolOk, Counted, ClaimsOk, IndexKeysOk, AllocationOk, Matched, KeysFor, SumOver;
    MatchedPages(s, q);
  }

  lemma ReserveFollows(s: State, id: RequestId, n: nat)
    requires Ready(s, id)
    ensures StateFollows(s, ReserveFor(s, id, n).0)
  {
    hide PoolOk, Counted, ClaimsOk, IndexKeysOk, AllocationOk, SumOver, BlocksFor, TakeMany;
    ReserveNeverRunsOut(s, id, n);
    var extra := ExtraBlocks(s, s.allocs[id], n);
    if ReserveRefusal(s, s.allocs[id], extra).None? { TakeManyFollows(s.pool, extra); }
  }

  lemma CommitFollows(s: State, id: RequestId, n: nat)
    requires Inv(s) && id in s.allocs && n <= s.allocs[id].reserved
    ensures StateFollows(s, Commit(s, id, n).0)
  {
    hide PoolOk, Counted, ClaimsOk, IndexKeysOk, AllocationOk, SumOver, BlocksFor, Commit, PublishRange, Publishable,
         Releasable;
    CommitInSteps(s, id, n);
    PublishFollows(s.pool, s.allocs[id].keys, s.allocs[id].blocks, s.allocs[id].readonly, FullPages(s, id, n));
  }

  lemma FreeFollows(s: State, id: RequestId)
    requires Inv(s)
    ensures StateFollows(s, Free(s, id).0)
  {
    hide PoolOk, Counted, ClaimsOk, IndexKeysOk, AllocationOk, SumOver;
    if id in s.allocs { HeldBlocks(s, id); }
  }

  lemma SettleFollows(s: State, epoch: Option<int>)
    requires Inv(s)
    ensures Sync(s).Ok? ==> StateFollows(s, Sync(s).value)
    ensures s.numBlocks.Some? && EnsureEpoch(s, epoch).Ok? ==> StateFollows(s, EnsureEpoch(s, epoch).value)
  {
  }

  lemma StepFollows(s: State, op: Op)
    requires Inv(s)
    ensures StateFollows(s, Step(s, op))
  {
    hide PoolOk, Counted, ClaimsOk, IndexKeysOk, AllocationOk, Admit, ReserveFor, Commit, Free, Matched, SumOver,
         Sync, EnsureEpoch;
    SyncKeepsInv(s);
    SettleFollows(s, None);
    match op
    case DoAdd(q) =>
      if Sync(s).Ok? {
        var t := Sync(s).value;
        SettleFollows(t, q.epoch);
        EnsureEpochKeepsInv(t, q.epoch);
        if ValidAdd(q) && q.id !in t.allocs && !(t.caching && (q.epoch.None? || q.epoch.value < 0))
           && EnsureEpoch(t, q.epoch).Ok? {
          AdmitFollows(EnsureEpoch(t, q.epoch).value, q);
        }
      }
    case DoReserve(id, n) =>
      if Sync(s).Ok? && n > 0 && id in s.allocs && s.allocs[id].reserved == 0 {
        ReserveFollows(Sync(s).value, id, n);
      }
    case DoCommit(id, n) => if id in s.allocs && 0 <= n <= s.allocs[id].reserved { CommitFollows(s, id, n); }
        else { Refused(s, id, n); }
    case DoFree(id) => FreeFollows(s, id);
    case _ =>
  }

  lemma Refused(s: State, id: RequestId, n: int)
    requires Inv(s) && !(id in s.allocs && 0 <= n <= s.allocs[id].reserved)
    ensures Commit(s, id, n).0 == s
  {
  }

  // ---- the counter counts ------------------------------------------------------------------------

  lemma TakeCounts(p: Pool)
    requires PoolOk(p) && Available(p) > 0
    ensures var q := Take(p).1; q.revision + |q.blockOf| == p.revision + |p.blockOf|
  {
    if p.free == [] {
      assert p.lru[0] in p.lru;
      var key := p.keyOf[p.lru[0]];
      assert (p.blockOf - {key}).Keys == p.blockOf.Keys - {key};
    }
  }

  lemma {:induction false} TakeManyCounts(p: Pool, n: nat)
    requires PoolOk(p) && n <= Available(p)
    ensures var q := TakeMany(p, n).1; q.revision + |q.blockOf| == p.revision + |p.blockOf|
  {
    hide PoolOk, Taken, Take, TakeMany;
    if n == 0 {
      TakeNone(p);
    } else {
      TakeManyCounts(p, n - 1);
      TakeLast(p, n);
      TakeCounts(TakeMany(p, n - 1).1);
    }
  }

  lemma {:induction false} PublishCounts(p: Pool, keys: seq<Key>, bs: seq<nat>, lo: nat, hi: nat)
    requires Publishable(p, keys, bs, lo, hi)
    ensures var q := PublishRange(p, keys, bs, lo, hi); q.revision + |p.blockOf| == p.revision + |q.blockOf|
    decreases hi
  {
    hide PoolOk, Publish, NoDup;
    if hi > lo {
      PublishCounts(p, keys, bs, lo, hi - 1);
      var q := PublishRange(p, keys, bs, lo, hi - 1);
      assert PublishRange(p, keys, bs, lo, hi) == Publish(q, keys[hi - 1], bs[hi - 1]);
      hide PublishRange;
      PublishCountsOne(q, keys[hi - 1], bs[hi - 1]);
    }
  }

  lemma PublishCountsOne(p: Pool, key: Key, b: nat)
    requires PoolOk(p) && b < |p.refs| && p.refs[b] > 0 && b !in p.keyOf
    ensures var q := Publish(p, key, b); q.revision + |p.blockOf| == p.revision + |q.blockOf|
  {
    hide PoolOk;
    if key !in p.blockOf { assert p.blockOf[key := b].Keys == p.blockOf.Keys + {key}; }
  }

  /** The counter moves by one for every page that enters or leaves the index, and for nothing else:
      a reservation only drops pages, a commit only adds some, and freeing does neither. */
  lemma RevisionCounts(s: State, id: RequestId, n: nat)
    requires Inv(s) && id in s.allocs
    ensures Ready(s, id) ==>
              var q := ReserveFor(s, id, n).0.pool; q.revision + |q.blockOf| == s.pool.revision + |s.pool.blockOf|
    ensures n <= s.allocs[id].reserved ==>
              var q := Commit(s, id, n).0.pool; q.revision + |s.pool.blockOf| == s.pool.revision + |q.blockOf|
    ensures var q := Free(s, id).0.pool; q.revision == s.pool.revision && q.blockOf == s.pool.blockOf
  {
    hide PoolOk, Counted, ClaimsOk, IndexKeysOk, AllocationOk, SumOver, BlocksFor, TakeMany, Taken, Commit,
         PublishRange, Publishable, Releasable, ReserveRefusal;
    if Ready(s, id) {
      ReserveNeverRunsOut(s, id, n);
      var extra := ExtraBlocks(s, s.allocs[id], n);
      if ReserveRefusal(s, s.allocs[id], extra).None? { TakeManyCounts(s.pool, extra); }
    }
    if n <= s.allocs[id].reserved {
      CommitInSteps(s, id, n);
      PublishCounts(s.pool, s.allocs[id].keys, s.allocs[id].blocks, s.allocs[id].readonly, FullPages(s, id, n));
    }
    HeldBlocks(s, id);
  }

  lemma {:induction false} RunFollows(s: State, ops: seq<Op>)
    requires Inv(s)
    ensures StateFollows(s, Run(s, ops))
    decreases |ops|
  {
    hide Step;
    if ops != [] {
      StepFollows(s, ops[0]);
      RunFollows(Step(s, ops[0]), ops[1..]);
    }
  }

  /** Remembering by revision is sound: over every run that leaves the counter where it was, a
      prompt previews to exactly as many cached tokens as before. */
  lemma RevisionFixesPreview(s: State, ops: seq<Op>, tokens: seq<Token>, epoch: Option<int>)
    requires Inv(s) && s.numBlocks == Some(s.planned)
    requires Run(s, ops).numBlocks == Some(Run(s, ops).planned)
    requires Run(s, ops).pool.revision == s.pool.revision
    ensures Preview(Run(s, ops), tokens, epoch).1 == Preview(s, tokens, epoch).1
  {
    hide Inv, Run;
    RunFollows(s, ops);
  }
}
