/** What the physical pages hold. A slot's key/value pair is named by the token history it was
    computed from, which by Transformer.LocalCache is all it depends on. The worker may write
    any slot of a live reservation, and may be reloaded at any time, losing every page. */
module PagedContents {
  import opened Collections
  import opened PrefixKeys
  import opened BlockPool
  import opened PagedState
  import opened PagedInvariant
  import opened PagedRuns

  datatype Slot = Slot(block: nat, offset: nat)

  type Memory = map<Slot, seq<Token>>

  datatype System = System(manager: State, memory: Memory, worker: int)

  datatype Event =
    | Manage(op: Op)
    | Write(id: RequestId, page: nat, offset: nat, history: seq<Token>)
    | Reload(memory: Memory)

  /** The slot holds what the key's page holds at that offset. */
  ghost predicate SlotHolds(mem: Memory, blockSize: nat, b: nat, offset: nat, key: Key) {
    var prefix := Flatten(key.digest);
    && Slot(b, offset) in mem
    && 0 <= |prefix| - blockSize + offset < |prefix|
    && mem[Slot(b, offset)] == prefix[..|prefix| - blockSize + offset + 1]
  }

  ghost predicate IndexHolds(s: State, mem: Memory) {
    forall b, o | b in s.pool.keyOf && 0 <= o < s.blockSize ::
      SlotHolds(mem, s.blockSize, b, o, s.pool.keyOf[b])
  }

  /** The first n tokens of a table, as far as they have page keys, are in its pages. */
  ghost predicate TableHolds(mem: Memory, blockSize: nat, a: Allocation, n: nat) {
    forall i, o | 0 <= i < |a.keys| && i < |a.blocks| && 0 <= o < blockSize && i * blockSize + o < n ::
      SlotHolds(mem, blockSize, a.blocks[i], o, a.keys[i])
  }

  ghost predicate ContentOk(s: State, mem: Memory) {
    && IndexHolds(s, mem)
    && forall r | r in s.allocs :: TableHolds(mem, s.blockSize, s.allocs[r], s.allocs[r].committed)
  }

  /** Pages are right whenever the manager works in the worker's current epoch. */
  ghost predicate MemoryOk(y: System) {
    && Inv(y.manager)
    && (y.manager.epoch.Some? ==> y.manager.epoch.value <= y.worker)
    && (y.manager.epoch == Some(y.worker) ==> ContentOk(y.manager, y.memory))
  }

  /** What the rest of the engine owes: epochs come from the worker, writes stay inside a live
      reservation, and tokens are committed only after their slots were written. */
  ghost predicate Allowed(y: System, e: Event) {
    var s := y.manager;
    match e
    case Manage(DoAdd(q)) => q.epoch.Some? ==> q.epoch.value <= y.worker
    case Manage(DoCommit(id, n)) =>
      id in s.allocs && 0 <= n <= s.allocs[id].reserved && s.epoch == Some(y.worker)
      ==> TableHolds(y.memory, s.blockSize, s.allocs[id], s.allocs[id].committed + n)
    case Manage(_) => true
    case Write(id, page, offset, _) =>
      && id in s.allocs && page < |s.allocs[id].blocks| && offset < s.blockSize
      && s.allocs[id].committed <= page * s.blockSize + offset < s.allocs[id].committed + s.allocs[id].reserved
    case Reload(_) => true
  }

  ghost function Next(y: System, e: Event): System
    requires Inv(y.manager) && Allowed(y, e)
  {
    match e
    case Manage(op) => y.(manager := Step(y.manager, op))
    case Write(id, page, offset, history) =>
      y.(memory := y.memory[Slot(y.manager.allocs[id].blocks[page], offset) := history])
    case Reload(memory) => y.(memory := memory, worker := y.worker + 1)
  }

  ghost predicate Legal(y: System, events: seq<Event>)
    requires Inv(y.manager)
    decreases |events|
  {
    events != [] ==> Allowed(y, events[0]) && Legal(Next(y, events[0]), events[1..])
  }

  ghost function After(y: System, events: seq<Event>): System
    requires Inv(y.manager) && Legal(y, events)
    decreases |events|
  {
    if events == [] then y else After(Next(y, events[0]), events[1..])
  }

  // ---- operations keep the contents ------------------------------------------------------

  lemma AdmitKeepsContent(s: State, q: AddRequest, mem: Memory)
    requires Admissible(s, q) && ContentOk(s, mem)
    ensures ContentOk(Admit(s, q).0, mem)
  {
    hide PoolOk, Counted, ClaimsOk, IndexKeysOk, AllocationOk, SlotHolds, Admit, SumOver;
    if Admit(s, q).1.Some? {
      AdmitOutcome(s, q);
      var t := Admit(s, q).0;
      var a := t.allocs[q.id];
      assert IndexHolds(t, mem);
      assert TableHolds(mem, s.blockSize, a, a.committed);
    } else {
      assert Admit(s, q).0 == s by { AdmittedExactly(s, q); }
    }
  }

  /** A longer table without more tokens holds no more than before. */
  lemma LongerTableHolds(mem: Memory, blockSize: nat, a: Allocation, b: Allocation)
    requires blockSize > 0 && TableHolds(mem, blockSize, a, a.committed)
             && |a.blocks| == BlocksFor(blockSize, a.committed)
    requires a.blocks <= b.blocks && b.keys == a.keys && b.committed == a.committed
    ensures TableHolds(mem, blockSize, b, b.committed)
  {
    hide SlotHolds, BlocksFor;
    forall i, o | 0 <= i < |b.keys| && i < |b.blocks| && 0 <= o < blockSize && i * blockSize + o < b.committed
      ensures SlotHolds(mem, blockSize, b.blocks[i], o, b.keys[i])
    {
      Cancel(blockSize, i, BlocksFor(blockSize, a.committed) - 1);
    }
  }

  lemma ReserveKeepsContent(s: State, id: RequestId, n: nat, mem: Memory)
    requires Ready(s, id) && ReserveFor(s, id, n).1.Ok? && ContentOk(s, mem)
    ensures ContentOk(ReserveFor(s, id, n).0, mem)
  {
    hide PoolOk, Counted, ClaimsOk, IndexKeysOk, AllocationOk, SlotHolds, SumOver, BlocksFor, TableHolds, TakeMany;
    TableLength(s, id);
    ReserveNeverRunsOut(s, id, n);
    ReserveOutcome(s, id, n);
    LongerTableHolds(mem, s.blockSize, s.allocs[id], ReserveFor(s, id, n).0.allocs[id]);
  }

  lemma TableLength(s: State, id: RequestId)
    requires Inv(s) && id in s.allocs
    ensures s.blockSize > 0
    ensures |s.allocs[id].blocks| == BlocksFor(s.blockSize, s.allocs[id].committed + s.allocs[id].reserved)
  {
    hide PoolOk, Counted, ClaimsOk, IndexKeysOk;
    assert AllocationOk(s, s.allocs[id]);
  }

  lemma CommitKeepsContent(s: State, id: RequestId, n: nat, mem: Memory)
    requires Inv(s) && id in s.allocs && n <= s.allocs[id].reserved && ContentOk(s, mem)
    requires TableHolds(mem, s.blockSize, s.allocs[id], s.allocs[id].committed + n)
    ensures ContentOk(Commit(s, id, n).0, mem)
  {
    hide PoolOk, Counted, ClaimsOk, IndexKeysOk, SumOver, BlocksFor, Commit, CommitEffect, Trimmed, SlotHolds,
         AllocationOk;
    var (t, a) := (Commit(s, id, n).0, s.allocs[id]);
    TableLength(s, id);
    CommitOutcome(s, id, n);
    var b := TrimmedOf(s, id, n);
    CommitPages(s, id, n);
    EffectFrame(s, t, id, b);
    TrimmedContent(s.blockSize, a, n, mem);
    PublishedContent(s, t, id, n, mem);
  }

  lemma TrimmedContent(blockSize: nat, a: Allocation, n: nat, mem: Memory)
    requires Trimmed.requires(blockSize, a, n) && TableHolds(mem, blockSize, a, a.committed + n)
    ensures TableHolds(mem, blockSize, Trimmed(blockSize, a, n), Trimmed(blockSize, a, n).committed)
  {
    hide SlotHolds, BlocksFor;
    TrimmedShape(blockSize, a, n);
  }

  /** A newly published page is full, so every slot of it holds its key's content. */
  lemma PublishedContent(s: State, t: State, id: RequestId, n: nat, mem: Memory)
    requires s.blockSize > 0 && id in s.allocs && IndexHolds(s, mem)
    requires n <= s.allocs[id].reserved
    requires |s.allocs[id].blocks| == BlocksFor(s.blockSize, s.allocs[id].committed + s.allocs[id].reserved)
    requires CommitEffect(s, t, id, Trimmed(s.blockSize, s.allocs[id], n))
    requires TableHolds(mem, s.blockSize, s.allocs[id], s.allocs[id].committed + n)
    ensures IndexHolds(t, mem)
  {
    hide SlotHolds, BlocksFor;
    var a := s.allocs[id];
    forall c, o | c in t.pool.keyOf && 0 <= o < s.blockSize
      ensures SlotHolds(mem, s.blockSize, c, o, t.pool.keyOf[c])
    {
      if c !in s.pool.keyOf {
        var i :| 0 <= i < |a.blocks| && i < Trimmed(s.blockSize, a, n).readonly
                 && i < |a.keys| && a.blocks[i] == c && t.pool.keyOf[c] == a.keys[i];
        FullPageHeld(mem, s.blockSize, a, a.committed + n, i, o);
      }
    }
  }

  /** Every slot of a page that lies wholly within the committed tokens is held. */
  lemma FullPageHeld(mem: Memory, blockSize: nat, a: Allocation, total: nat, i: nat, o: nat)
    requires blockSize > 0 && TableHolds(mem, blockSize, a, total)
    requires i < total / blockSize && i < |a.blocks| && i < |a.keys| && o < blockSize
    ensures SlotHolds(mem, blockSize, a.blocks[i], o, a.keys[i])
  {
    hide SlotHolds;
    PageCount(blockSize, total);
    ScaleMonotone(blockSize, i + 1, total / blockSize);
    assert (i + 1) * blockSize == i * blockSize + blockSize;
  }

  lemma FreeKeepsContent(s: State, id: RequestId, mem: Memory)
    requires Inv(s) && ContentOk(s, mem)
    ensures ContentOk(Free(s, id).0, mem)
  {
    hide PoolOk, Counted, ClaimsOk, IndexKeysOk, SumOver, SlotHolds, AllocationOk;
    if id in s.allocs { HeldBlocks(s, id); }
  }

  /** A write to one block leaves what every other block holds. */
  lemma WriteElsewhere(mem: Memory, blockSize: nat, block: nat, offset: nat, history: seq<Token>, b: nat, o: nat,
                       key: Key)
    requires SlotHolds(mem, blockSize, b, o, key) && (b != block || o != offset)
    ensures SlotHolds(mem[Slot(block, offset) := history], blockSize, b, o, key)
  {
  }

  /** The slot at a position of a table lies in one place of the table only. */
  lemma SlotOfPosition(blockSize: nat, i: nat, o: nat, page: nat, offset: nat, n: nat)
    requires o < blockSize && offset < blockSize && i * blockSize + o < n <= page * blockSize + offset
    ensures i != page || o != offset
  {
  }

  lemma PageOfPosition(blockSize: nat, page: nat, offset: nat)
    requires offset < blockSize
    ensures (page * blockSize + offset) / blockSize == page
  {
    var position := page * blockSize + offset;
    PageCount(blockSize, position);
    Cancel(blockSize, page, position / blockSize);
    Cancel(blockSize, position / blockSize, page);
  }

  lemma WriteKeepsTable(s: State, id: RequestId, page: nat, offset: nat, mem: Memory, history: seq<Token>, r: RequestId)
    requires s.blockSize > 0 && id in s.allocs && r in s.allocs && page < |s.allocs[id].blocks| && offset < s.blockSize
    requires s.allocs[id].committed <= page * s.blockSize + offset
    requires r != id ==> s.allocs[id].blocks[page] !in s.allocs[r].blocks
    requires forall j | 0 <= j < |s.allocs[id].blocks| && j != page ::
             s.allocs[id].blocks[j] != s.allocs[id].blocks[page]
    requires TableHolds(mem, s.blockSize, s.allocs[r], s.allocs[r].committed)
    ensures TableHolds(mem[Slot(s.allocs[id].blocks[page], offset) := history], s.blockSize, s.allocs[r],
                       s.allocs[r].committed)
  {
    hide SlotHolds;
    var c := s.allocs[r];
    var b := s.allocs[id].blocks[page];
    var after := mem[Slot(b, offset) := history];
    forall i, o | 0 <= i < |c.keys| && i < |c.blocks| && 0 <= o < s.blockSize && i * s.blockSize + o < c.committed
      ensures SlotHolds(after, s.blockSize, c.blocks[i], o, c.keys[i])
    {
      if r == id { SlotOfPosition(s.blockSize, i, o, page, offset, c.committed); }
      WriteElsewhere(mem, s.blockSize, b, offset, history, c.blocks[i], o, c.keys[i]);
    }
  }

  lemma WriteKeepsContent(s: State, id: RequestId, page: nat, offset: nat, mem: Memory, history: seq<Token>)
    requires Inv(s) && ContentOk(s, mem)
    requires id in s.allocs && page < |s.allocs[id].blocks| && offset < s.blockSize
    requires s.allocs[id].committed <= page * s.blockSize + offset < s.allocs[id].committed + s.allocs[id].reserved
    ensures ContentOk(s, mem[Slot(s.allocs[id].blocks[page], offset) := history])
  {
    hide Inv, SlotHolds, TableHolds;
    TableLength(s, id);
    PageOfPosition(s.blockSize, page, offset);
    SlotIsolated(s, id, page * s.blockSize + offset);
    var block := s.allocs[id].blocks[page];
    var after := mem[Slot(block, offset) := history];
    forall b, o | b in s.pool.keyOf && 0 <= o < s.blockSize
      ensures SlotHolds(after, s.blockSize, b, o, s.pool.keyOf[b])
    {
      WriteElsewhere(mem, s.blockSize, block, offset, history, b, o, s.pool.keyOf[b]);
    }
    forall r | r in s.allocs
      ensures TableHolds(after, s.blockSize, s.allocs[r], s.allocs[r].committed)
    {
      WriteKeepsTable(s, id, page, offset, mem, history, r);
    }
  }

  /** An operation that rebuilds the pool leaves nothing to hold. */
  lemma EmptyContent(s: State, mem: Memory)
    requires s.pool.keyOf == map[] && s.allocs == map[]
    ensures ContentOk(s, mem)
  {
  }

  lemma SettledCapacity(s: State)
    requires Inv(s) && Sync(s).Ok? && Sync(s).value.epoch.Some?
    ensures Sync(s).value == s
  {
    hide PoolOk, Counted, ClaimsOk, IndexKeysOk, AllocationOk;
  }

  lemma EpochContent(s: State, epoch: Option<int>, mem: Memory, worker: int)
    requires Inv(s) && s.numBlocks.Some? && EnsureEpoch(s, epoch).Ok?
    requires s.epoch == Some(worker) ==> ContentOk(s, mem)
    requires s.epoch.Some? ==> s.epoch.value <= worker
    requires epoch.Some? ==> epoch.value <= worker
    ensures var t := EnsureEpoch(s, epoch).value;
            && (t.epoch == Some(worker) ==> ContentOk(t, mem))
            && (t.epoch.Some? ==> t.epoch.value <= worker)
  {
    hide PoolOk, Counted, ClaimsOk, IndexKeysOk, AllocationOk, SlotHolds;
    var t := EnsureEpoch(s, epoch).value;
    if t != s { EmptyContent(t, mem); }
  }

  lemma ReplanContent(s: State, n: nat, mem: Memory)
    requires Inv(s) && ContentOk(s, mem)
    ensures ContentOk(Step(s, DoReplan(n)), mem)
  {
    hide PoolOk, Counted, ClaimsOk, IndexKeysOk, AllocationOk;
  }

  lemma AddKeepsMemory(y: System, q: AddRequest)
    requires MemoryOk(y) && Allowed(y, Manage(DoAdd(q)))
    ensures MemoryOk(Next(y, Manage(DoAdd(q))))
  {
    hide PoolOk, Counted, ClaimsOk, IndexKeysOk, AllocationOk, ContentOk, Matched;
    var s := y.manager;
    SyncKeepsInv(s);
    if Sync(s).Ok? {
      var t := Sync(s).value;
      if t.epoch.Some? { SettledCapacity(s); }
      EnsureEpochKeepsInv(t, q.epoch);
      if ValidAdd(q) && q.id !in t.allocs && !(t.caching && (q.epoch.None? || q.epoch.value < 0))
         && EnsureEpoch(t, q.epoch).Ok? {
        var u := EnsureEpoch(t, q.epoch).value;
        EpochContent(t, q.epoch, y.memory, y.worker);
        if u.epoch == Some(y.worker) { AdmitKeepsContent(u, q, y.memory); }
      }
    }
  }

  lemma EpochUnchanged(s: State, op: Op)
    requires Inv(s) && (op.DoFree? || op.DoCommit? || op.DoReplan?)
    ensures Step(s, op).epoch == s.epoch
  {
    hide PoolOk, Counted, ClaimsOk, IndexKeysOk, AllocationOk;
  }

  lemma ReserveKeepsMemory(y: System, id: RequestId, n: int)
    requires MemoryOk(y)
    ensures MemoryOk(Next(y, Manage(DoReserve(id, n))))
  {
    hide PoolOk, Counted, ClaimsOk, IndexKeysOk, AllocationOk, ContentOk, TakeMany, SumOver;
    var s := y.manager;
    if Sync(s).Ok? && Sync(s).value.epoch.Some? { SettledCapacity(s); }
    if Sync(s).Ok? && n > 0 && id in s.allocs && s.allocs[id].reserved == 0 {
      assert Sync(s).value == s;
      ReserveNeverRunsOut(s, id, n);
      if ContentOk(s, y.memory) && ReserveFor(s, id, n).1.Ok? { ReserveKeepsContent(s, id, n, y.memory); }
    }
  }

  lemma CommitKeepsMemory(y: System, id: RequestId, n: int)
    requires MemoryOk(y) && Allowed(y, Manage(DoCommit(id, n)))
    ensures MemoryOk(Next(y, Manage(DoCommit(id, n))))
  {
    hide PoolOk, Counted, ClaimsOk, IndexKeysOk, AllocationOk, ContentOk, SumOver, TableHolds, PublishRange,
         ReleaseMany, Trimmed;
    var s := y.manager;
    EpochUnchanged(s, DoCommit(id, n));
    if s.epoch == Some(y.worker) && id in s.allocs && 0 <= n <= s.allocs[id].reserved {
      CommitKeepsContent(s, id, n, y.memory);
    }
  }

  /** Every operation of the manager keeps the pages right. */
  lemma ManageKeepsMemory(y: System, op: Op)
    requires MemoryOk(y) && Allowed(y, Manage(op))
    ensures MemoryOk(Next(y, Manage(op)))
  {
    hide PoolOk, Counted, ClaimsOk, IndexKeysOk, AllocationOk, ContentOk, Admit, ReserveFor, Commit, Free, Matched,
         TableHolds, EnsureEpoch;
    var s := y.manager;
    if Sync(s).Ok? && Sync(s).value.epoch.Some? { SettledCapacity(s); }
    match op
    case DoReplan(n) => if ContentOk(s, y.memory) { ReplanContent(s, n, y.memory); }
    case DoSync =>
    case DoAdd(q) => AddKeepsMemory(y, q);
    case DoReserve(id, n) => ReserveKeepsMemory(y, id, n);
    case DoCommit(id, n) => CommitKeepsMemory(y, id, n);
    case DoFree(id) =>
      EpochUnchanged(s, op);
      if ContentOk(s, y.memory) { FreeKeepsContent(s, id, y.memory); }
    case DoPreview(_, _) =>
  }

  lemma EventKeepsMemory(y: System, e: Event)
    requires MemoryOk(y) && Allowed(y, e)
    ensures MemoryOk(Next(y, e))
  {
    hide PoolOk, Counted, ClaimsOk, IndexKeysOk, AllocationOk, ContentOk, Step, Inv;
    match e
    case Manage(op) => ManageKeepsMemory(y, op);
    case Write(id, page, offset, history) =>
      if ContentOk(y.manager, y.memory) { WriteKeepsContent(y.manager, id, page, offset, y.memory, history); }
    case Reload(_) =>
  }

  /** Over every run, across eviction, reuse, roll back and reloads of the worker: each indexed
      page holds exactly its key's tokens and each table exactly its committed prompt pages. */
  lemma {:induction false} PagesAlwaysAgree(y: System, events: seq<Event>)
    requires MemoryOk(y) && Legal(y, events)
    ensures MemoryOk(After(y, events))
    decreases |events|
  {
    hide Inv, ContentOk, Next, Allowed;
    if events != [] {
      EventKeepsMemory(y, events[0]);
      PagesAlwaysAgree(Next(y, events[0]), events[1..]);
    }
  }

  /** At this position the request's page holds the slot computed from exactly this prompt. */
  ghost predicate HoldsPrompt(s: State, mem: Memory, id: RequestId, tokens: seq<Token>, position: nat) {
    && s.blockSize > 0 && id in s.allocs && position < |tokens|
    && position / s.blockSize < |s.allocs[id].blocks|
    && var slot := Slot(s.allocs[id].blocks[position / s.blockSize], position % s.blockSize);
       slot in mem && mem[slot] == tokens[..position + 1]
  }

  /** A request that starts from a cache hit finds, at every cached position, the slot computed
      from exactly its own prompt up to that position: what recomputing everything would write. */
  lemma HitEqualsRecompute(y: System, q: AddRequest, cached: nat, position: nat)
    requires MemoryOk(y) && q.epoch == Some(y.worker)
    requires Add(y.manager, q).1 == Ok(Some(cached)) && position < cached
    ensures HoldsPrompt(Step(y.manager, DoAdd(q)), y.memory, q.id, q.tokens, position)
  {
    hide PoolOk, Counted, ClaimsOk, IndexKeysOk, SumOver, Matched, Admit, Add, Apply, AllocationOk, PromptKeys,
         HoldsPrompt;
    AddKeepsMemory(y, q);
    AddOutcome(y.manager, q);
    var s := Step(y.manager, DoAdd(q));
    hide Inv;
    if s.caching { FreshTablePrompt(s, y.memory, q.id, q.tokens, y.worker, position); }
  }

  lemma FreshTablePrompt(s: State, mem: Memory, id: RequestId, tokens: seq<Token>, epoch: int, position: nat)
    requires s.blockSize > 0 && id in s.allocs && tokens != []
    requires s.allocs[id].keys == PromptKeys(s.blockSize, tokens, epoch)
    requires |s.allocs[id].blocks| <= |s.allocs[id].keys|
    requires position < |s.allocs[id].blocks| * s.blockSize
    requires TableHolds(mem, s.blockSize, s.allocs[id], |s.allocs[id].blocks| * s.blockSize)
    ensures HoldsPrompt(s, mem, id, tokens, position)
  {
    var a := s.allocs[id];
    var i, o := PageAndOffset(s.blockSize, |a.blocks|, position);
    KeyOfPage(s.blockSize, tokens, epoch, i);
    hide SlotHolds, Flatten, PromptKeys;
    assert SlotHolds(mem, s.blockSize, a.blocks[i], o, a.keys[i]);
    SlotIsPrefix(mem, s.blockSize, a.blocks[i], position, a.keys[i], tokens);
  }

  /** The page of a position and its offset there. */
  lemma PageAndOffset(blockSize: nat, pages: nat, position: nat) returns (i: nat, o: nat)
    requires blockSize > 0 && position < pages * blockSize
    ensures i == position / blockSize && o == position % blockSize
    ensures i < pages && o < blockSize && i * blockSize + o == position
  {
    i, o := position / blockSize, position % blockSize;
    assert i * blockSize + o == position;
    Cancel(blockSize, i, pages - 1);
  }

  lemma KeyOfPage(blockSize: nat, tokens: seq<Token>, epoch: int, i: nat)
    requires blockSize > 0 && tokens != [] && i < |PromptKeys(blockSize, tokens, epoch)|
    ensures (i + 1) * blockSize <= |tokens|
    ensures Flatten(PromptKeys(blockSize, tokens, epoch)[i].digest) == tokens[..(i + 1) * blockSize]
  {
    KeyChainHoldsPrefix(blockSize, tokens, epoch, CacheablePages(blockSize, tokens), i);
  }

  lemma SlotIsPrefix(mem: Memory, blockSize: nat, b: nat, position: nat, key: Key, tokens: seq<Token>)
    requires blockSize > 0 && (position / blockSize + 1) * blockSize <= |tokens|
    requires Flatten(key.digest) == tokens[..(position / blockSize + 1) * blockSize]
    requires SlotHolds(mem, blockSize, b, position % blockSize, key)
    ensures Slot(b, position % blockSize) in mem
    ensures position < |tokens| && mem[Slot(b, position % blockSize)] == tokens[..position + 1]
  {
    assert position == position / blockSize * blockSize + position % blockSize;
  }
}
