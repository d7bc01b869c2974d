/** An initial promise can be refused: the watermark a request asked for is tested again when it
    turns its promise into blocks, and other requests may have taken the slack meanwhile
    (kv_cache.py:551-559). */
module PagedWatermark {
  import opened Collections
  import opened BlockPool
  import opened PagedState
  import opened PagedInvariant
  import opened PagedRuns
  import PagedClosure

  /** One page promised beyond the prompt's own, two to be left free. */
  const PROMISED: AddRequest := AddRequest("a", [7], 5, None, 2, 0, 1, false)

  const OTHER: AddRequest := AddRequest("b", [8], 5, None, 0, 0, 0, false)

  function Empty(): State {
    State(1, false, 4, Some(4), FreshPool(4, 1), None, map[], 0, 0)
  }

  function Tables(blocks: seq<nat>, reserved: nat): map<RequestId, Allocation> {
    map["a" := Allocation([], None, Some(2), 2, [], 0, 0, 0),
        "b" := Allocation(blocks, None, None, 0, [], 0, 0, reserved)]
  }

  function Admitted1(): State {
    Empty().(allocs := map["a" := Allocation([], None, Some(2), 2, [], 0, 0, 0)], initialClaims := 2)
  }

  function Admitted2(): State {
    Admitted1().(allocs := Tables([], 0))
  }

  lemma Settles()
    ensures var s := InitialState(1, false, 4);
            Inv(s) && Inv(Empty()) && Step(s, DoAdd(PROMISED)) == Step(Empty(), DoAdd(PROMISED))
  {
    hide PoolOk, Counted, ClaimsOk, IndexKeysOk, AllocationOk, FreshPool, Admit;
    InitialInv(1, false, 4);
    SyncKeepsInv(InitialState(1, false, 4));
  }

  lemma AddUncached(s: State, q: AddRequest)
    requires Inv(s) && ValidAdd(q) && q.id !in s.allocs && s.numBlocks == Some(s.planned) && !s.caching
    ensures Admissible(s, q) && Step(s, DoAdd(q)) == Admit(s, q).0
  {
    hide PoolOk, Counted, ClaimsOk, IndexKeysOk, AllocationOk, Admit;
  }

  lemma AdmitsPromised()
    requires Inv(Empty())
    ensures Step(Empty(), DoAdd(PROMISED)) == Admitted1()
  {
    hide PoolOk, Counted, ClaimsOk, IndexKeysOk, AllocationOk, FreshPool;
  }

  lemma AdmitsOther()
    requires Inv(Admitted1())
    ensures Step(Admitted1(), DoAdd(OTHER)) == Admitted2()
  {
    hide PoolOk, Counted, ClaimsOk, IndexKeysOk, AllocationOk, FreshPool, Step, Admit;
    AddUncached(Admitted1(), OTHER);
    PagedClosure.AdmitMiss(Admitted1(), OTHER);
    assert Admitted1().allocs["b" := Allocation([], None, None, 0, [], 0, 0, 0)] == Tables([], 0);
  }

  /** The other request takes the two pages that were to be left free. */
  lemma OtherTakes()
    requires Inv(Admitted2())
    ensures var t := Step(Admitted2(), DoReserve("b", 2));
            && t.numBlocks == Some(t.planned) == Some(4) && t.blockSize == 1 && Available(t.pool) == 2
            && t.completionClaims == 0 && t.initialClaims == 2
            && "a" in t.allocs && t.allocs["a"] == Admitted2().allocs["a"]
  {
    hide PoolOk, Counted, ClaimsOk, IndexKeysOk, AllocationOk, FreshPool, TakeMany;
  }

  /** A run after which a request is refused a reservation within the promise it was admitted
      with. */
  lemma InitialClaimRefused() returns (ops: seq<Op>)
    ensures Inv(InitialState(1, false, 4))
    ensures var s := Run(InitialState(1, false, 4), ops);
            && Ready(s, "a") && s.allocs["a"].initialLimit.Some?
            && BlocksFor(s.blockSize, s.allocs["a"].committed + 1) <= s.allocs["a"].initialLimit.value
            && Reserve(s, "a", 1).1 == Err(WatermarkReached)
  {
    hide PoolOk, Counted, ClaimsOk, IndexKeysOk, AllocationOk, FreshPool, Run, Step;
    var s0 := InitialState(1, false, 4);
    Settles();
    AdmitsPromised();
    AdmitsOther();
    OtherTakes();
    var t := Step(Admitted2(), DoReserve("b", 2));
    ops := [];
    PagedClosure.RunNone(t);
    ops := PagedClosure.Chain(Admitted2(), DoReserve("b", 2), ops);
    ops := PagedClosure.Chain(Admitted1(), DoAdd(OTHER), ops);
    ops := PagedClosure.Chain(s0, DoAdd(PROMISED), ops);
  }
}
