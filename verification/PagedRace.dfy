/** Commits out of order do occur: two requests that race on one prompt publish different pages of
    its chain, and then the first one can be evicted under the second. What the slots of the page
    that stays hold is right all the same (PagedContents.PagesAlwaysAgree). */
module PagedRace {
  import opened Collections
  import opened PrefixKeys
  import opened BlockPool
  import opened PagedState
  import opened PagedInvariant
  import opened PagedRuns
  import opened PagedLineage
  import opened PagedClosure

  const FIRST: Key := Key(Root(0), [1], Node(Root(0), [1]))
  const SECOND: Key := Key(Node(Root(0), [1]), [2], Node(Node(Root(0), [1]), [2]))

  function Racer(id: RequestId): AddRequest {
    AddRequest(id, [1, 2, 3], 3, Some(0), 0, 0, 0, false)
  }

  function Table(blocks: seq<nat>, keys: seq<Key>, readonly: nat, committed: nat, reserved: nat): Allocation {
    Allocation(blocks, None, None, 0, keys, readonly, committed, reserved)
  }

  function At(pool: Pool, allocs: map<RequestId, Allocation>): State {
    State(1, true, 3, Some(3), pool, Some(0), allocs, 0, 0)
  }

  lemma RacerKeys()
    ensures PromptKeys(1, [1, 2, 3], 0) == [FIRST, SECOND]
  {
    var ts := [1, 2, 3];
    assert ts[0..1] == [1] && ts[1..2] == [2];
    assert DigestAt(1, ts, 0, 0) == Root(0);
    assert DigestAt(1, ts, 0, 1) == Node(Root(0), [1]);
    assert DigestAt(1, ts, 0, 2) == Node(Node(Root(0), [1]), [2]);
    assert KeyAt(1, ts, 0, 0) == FIRST && KeyAt(1, ts, 0, 1) == SECOND;
    assert KeyChain(1, ts, 0, 0) == [] && KeyChain(1, ts, 0, 1) == [FIRST];
    assert KeyChain(1, ts, 0, 2) == [FIRST, SECOND];
  }

  const BOTH: seq<Key> := [FIRST, SECOND]

  lemma Fresh(revision: nat)
    ensures FreshPool(3, revision) == Pool([0, 0, 0], [0, 1, 2], [], map[], map[], revision)
  {
    assert seq(3, i => 0) == [0, 0, 0] && seq(3, i => i) == [0, 1, 2];
  }

  /** The first admission plans the pages and enters the epoch. */
  function S0(): State { At(Pool([0, 0, 0], [0, 1, 2], [], map[], map[], 2), map[]) }

  lemma FirstSettles()
    requires Inv(InitialState(1, true, 3))
    ensures Inv(S0()) && Step(InitialState(1, true, 3), DoAdd(Racer("a"))) == Step(S0(), DoAdd(Racer("a")))
  {
    hide PoolOk, Counted, ClaimsOk, IndexKeysOk, AllocationOk, FreshPool, Admit;
    var (s, q) := (InitialState(1, true, 3), Racer("a"));
    Fresh(1);
    Fresh(2);
    SyncKeepsInv(s);
    var t := Sync(s).value;
    EnsureEpochKeepsInv(t, q.epoch);
    assert EnsureEpoch(t, q.epoch).value == S0();
    AddSettled(S0(), q);
  }

  lemma AddFirst()
    requires Inv(InitialState(1, true, 3))
    ensures Step(InitialState(1, true, 3), DoAdd(Racer("a"))) == S1()
  {
    hide PoolOk, Counted, ClaimsOk, IndexKeysOk, AllocationOk, PromptKeys, Admit, Step;
    RacerKeys();
    FirstSettles();
    AddSettled(S0(), Racer("a"));
    AdmitMiss(S0(), Racer("a"));
  }

  function S1(): State { At(Pool([0, 0, 0], [0, 1, 2], [], map[], map[], 2), map["a" := Table([], BOTH, 0, 0, 0)]) }

  function S2(): State { S1().(allocs := map["a" := Table([], BOTH, 0, 0, 0), "b" := Table([], BOTH, 0, 0, 0)]) }

  function S3(): State {
    At(Pool([1, 0, 0], [1, 2], [], map[], map[], 2),
       map["a" := Table([0], BOTH, 0, 0, 1), "b" := Table([], BOTH, 0, 0, 0)])
  }

  function S4(): State {
    At(Pool([1, 0, 0], [1, 2], [], map[FIRST := 0], map[0 := FIRST], 3),
       map["a" := Table([0], BOTH, 1, 1, 0), "b" := Table([], BOTH, 0, 0, 0)])
  }

  function S5(): State {
    At(Pool([1, 1, 1], [], [], map[FIRST := 0], map[0 := FIRST], 3),
       map["a" := Table([0], BOTH, 1, 1, 0), "b" := Table([1, 2], BOTH, 0, 0, 2)])
  }

  lemma AddSecond()
    requires Inv(S1())
    ensures Step(S1(), DoAdd(Racer("b"))) == S2()
  {
    hide Inv, PromptKeys;
    RacerKeys();
    AddSettled(S1(), Racer("b"));
    AdmitMiss(S1(), Racer("b"));
    assert Step(S1(), DoAdd(Racer("b"))).allocs == S2().allocs;
  }

  lemma TakeOne(p: Pool)
    requires PoolOk(p) && Available(p) > 0
    ensures TakeMany(p, 1) == ([Take(p).0], Take(p).1)
  {
    hide Take;
    assert TakeMany(p, 0) == ([], p);
    assert [] + [Take(p).0] == [Take(p).0];
  }

  lemma TakeTwo(p: Pool)
    requires PoolOk(p) && Available(p) > 1
    ensures var q := Take(p).1; PoolOk(q) && Available(q) > 0 && TakeMany(p, 2) == ([Take(p).0, Take(q).0], Take(q).1)
  {
    TakeOne(p);
    hide Take;
    var q := Take(p).1;
    assert [Take(p).0] + [Take(q).0] == [Take(p).0, Take(q).0];
  }

  lemma TakeFromS2()
    requires PoolOk(S2().pool)
    ensures Take(S2().pool) == (0, S3().pool)
  {
    hide PoolOk;
    assert [0, 1, 2][1..] == [1, 2] && [0, 0, 0][0 := 1] == [1, 0, 0];
  }

  function Between(): Pool { S4().pool.(refs := [1, 1, 0], free := [2]) }

  lemma TakeFromS4()
    requires PoolOk(S4().pool)
    ensures Take(S4().pool) == (1, Between()) && PoolOk(Between()) && Take(Between()) == (2, S5().pool)
  {
    assert Take(S4().pool) == (1, Between()) by {
      assert [1, 2][1..] == [2] && [1, 0, 0][1 := 1] == [1, 1, 0];
    }
    hide PoolOk;
    assert [2][1..] == [] && [1, 1, 0][2 := 1] == [1, 1, 1];
  }

  lemma ReserveFirst()
    requires Inv(S2())
    ensures Step(S2(), DoReserve("a", 1)) == S3()
  {
    hide Take, TakeMany, PoolOk, Counted, ClaimsOk, IndexKeysOk, AllocationOk, Apply, Reserve, SumOver;
    TakeOne(S2().pool);
    TakeFromS2();
    ReserveTakes(S2(), "a", 1);
    assert [] + [0] == [0];
    assert S2().allocs["a" := Table([0], BOTH, 0, 0, 1)] == S3().allocs;
  }

  lemma ReserveSecond()
    requires Inv(S4())
    ensures Step(S4(), DoReserve("b", 2)) == S5()
  {
    hide Take, TakeMany, PoolOk, Counted, ClaimsOk, IndexKeysOk, AllocationOk, Apply, Reserve, SumOver;
    TakeTwo(S4().pool);
    TakeFromS4();
    ReserveTakes(S4(), "b", 2);
    assert [] + [1, 2] == [1, 2];
    assert S4().allocs["b" := Table([1, 2], BOTH, 0, 0, 2)] == S5().allocs;
  }

  /** A commit of a best-effort request that keeps all its blocks. */
  lemma CommitPublishes(s: State, id: RequestId, n: nat)
    requires Inv(s) && id in s.allocs && n <= s.allocs[id].reserved
    requires s.allocs[id].completionLimit.None? && s.allocs[id].initialLimit.None?
    requires KeptPages(s, id, n) == |s.allocs[id].blocks|
    ensures s.allocs[id].readonly <= FullPages(s, id, n)
    ensures Publishable(s.pool, s.allocs[id].keys, s.allocs[id].blocks, s.allocs[id].readonly, FullPages(s, id, n))
    ensures var a := s.allocs[id];
            var b := a.(readonly := FullPages(s, id, n), committed := a.committed + n, reserved := 0);
            Step(s, DoCommit(id, n)) == s.(pool := Published(s, id, n), allocs := s.allocs[id := b])
  {
    hide PoolOk, Counted, ClaimsOk, IndexKeysOk, AllocationOk, SumOver, BlocksFor, Commit, PublishRange, Publishable,
         Releasable, ReleaseMany;
    CommitInSteps(s, id, n);
    var a := s.allocs[id];
    assert a.blocks[..|a.blocks|] == a.blocks && a.blocks[|a.blocks|..] == [];
    NothingReleased(Published(s, id, n), []);
  }

  lemma PublishFirst()
    requires Publishable(S3().pool, BOTH, [0], 0, 1)
    ensures PublishRange(S3().pool, BOTH, [0], 0, 1) == S4().pool
  {
    hide PoolOk;
    var p := S3().pool;
    assert PublishRange(p, BOTH, [0], 0, 0) == p;
    assert Publish(p, FIRST, 0) == S4().pool;
  }

  lemma CommitFirst()
    requires Inv(S3())
    ensures Step(S3(), DoCommit("a", 1)) == S4()
  {
    hide PoolOk, Counted, ClaimsOk, IndexKeysOk, AllocationOk, Apply, Commit, PublishRange, Publishable, SumOver;
    CommitPublishes(S3(), "a", 1);
    PublishFirst();
    assert S3().allocs["a" := Table([0], BOTH, 1, 1, 0)] == S4().allocs;
  }

  /** The second request would enter its second page behind a first page of the other's. */
  lemma RaceOutOfOrder()
    requires Inv(S5())
    ensures !CommitInOrder(S5(), "b", 2)
  {
    hide PoolOk, Counted, ClaimsOk, IndexKeysOk, AllocationOk;
    CommitInSteps(S5(), "b", 2);
    assert !InOrderAt(S5().pool, S5().allocs["b"], 1);
  }

  /** The requests race: one publishes the first page, the other one holds both. */
  lemma Race() returns (ops: seq<Op>)
    ensures Inv(InitialState(1, true, 3)) && Run(InitialState(1, true, 3), ops) == S5() && Rooted(S5())
  {
    hide Inv, Lineage, Step, Run;
    var s0 := InitialState(1, true, 3);
    InitialRooted(1, true, 3);
    StepKeepsRooted(s0, DoAdd(Racer("a")));
    AddFirst();
    StepKeepsRooted(S1(), DoAdd(Racer("b")));
    AddSecond();
    StepKeepsRooted(S2(), DoReserve("a", 1));
    ReserveFirst();
    FirstInOrder();
    StepKeepsRooted(S3(), DoCommit("a", 1));
    CommitFirst();
    StepKeepsRooted(S4(), DoReserve("b", 2));
    ReserveSecond();
    ops := Chain(S4(), DoReserve("b", 2), []);
    ops := Chain(S3(), DoCommit("a", 1), ops);
    ops := Chain(S2(), DoReserve("a", 1), ops);
    ops := Chain(S1(), DoAdd(Racer("b")), ops);
    ops := Chain(s0, DoAdd(Racer("a")), ops);
    RunNone(S5());
  }

  lemma FirstInOrder()
    requires Inv(S3())
    ensures StepInOrder(S3(), DoCommit("a", 1))
  {
    hide PoolOk, Counted, ClaimsOk, IndexKeysOk, AllocationOk;
    CommitInSteps(S3(), "a", 1);
  }

  /** The index is not closed under parents over all runs. */
  lemma IndexNotParentClosed()
    ensures Inv(InitialState(1, true, 3))
    ensures exists ops :: !ParentClosed(Run(InitialState(1, true, 3), ops).pool)
  {
    hide Inv, Lineage, Step, Run, ParentClosed, CommitInOrder;
    var s0 := InitialState(1, true, 3);
    var race := Race();
    RaceOutOfOrder();
    var t := Step(S5(), DoCommit("b", 2));
    var after := OutOfOrderOpens(S5(), "b", 2);
    RunConcat(s0, race, [DoCommit("b", 2)] + after);
    RunCons(S5(), DoCommit("b", 2), after);
  }
}
