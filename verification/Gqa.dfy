/** Which key/value head a query head attends to, on one rank and on many (qwen2.py:290-317,
    dense_attention.py:120-138). */
module Gqa {
  import opened Collections
  import opened TensorParallel

  datatype HeadError = QueryHeadsUneven | KvHeadsUneven | ReplicasUneven

  /** The heads one rank computes, and the partition its key/value heads come from. */
  datatype HeadPlan = HeadPlan(queryHeads: nat, kvHeads: nat, kvRank: nat, kvWorld: nat)

  /** What Qwen2Config guarantees about its head counts. */
  predicate HeadsOk(queryHeads: nat, kvHeads: nat) {
    queryHeads > 0 && kvHeads > 0 && queryHeads % kvHeads == 0
  }

  function PlanHeads(queryHeads: nat, kvHeads: nat, world: nat, rank: nat): Result<HeadPlan, HeadError>
    requires HeadsOk(queryHeads, kvHeads) && rank < world
  {
    if queryHeads % world != 0 then Err(QueryHeadsUneven)
    else if kvHeads >= world then
      if kvHeads % world != 0 then Err(KvHeadsUneven)
      else Ok(HeadPlan(queryHeads / world, Max(1, kvHeads / world), rank, world))
    else if world % kvHeads != 0 then Err(ReplicasUneven)
    else Ok(HeadPlan(queryHeads / world, Max(1, kvHeads / world), rank / (world / kvHeads), kvHeads))
  }

  /** Which splits are accepted, and what a rank is given: query heads divide evenly, and key/value
      heads divide evenly over the ranks or the ranks over the key/value heads. */
  lemma PlanAccepts(queryHeads: nat, kvHeads: nat, world: nat, rank: nat)
    requires HeadsOk(queryHeads, kvHeads) && rank < world
    ensures PlanHeads(queryHeads, kvHeads, world, rank).Ok? <==>
              queryHeads % world == 0 && (kvHeads % world == 0 || world % kvHeads == 0)
  {
    if kvHeads < world { Quotient(kvHeads, world, 0, kvHeads); }
    if world < kvHeads { Quotient(world, kvHeads, 0, world); }
  }

  // ---- exact division ----------------------------------------------------------------------

  lemma Exact(a: nat, b: nat)
    requires b > 0 && a % b == 0
    ensures a == a / b * b
  {
  }

  lemma Quotient(a: nat, b: nat, q: nat, rest: nat)
    requires b > 0 && a == q * b + rest && rest < b
    ensures a / b == q
  {
    Cancel(b, a / b, q);
    Cancel(b, q, a / b);
  }

  lemma MultipleDivides(a: nat, b: nat)
    requires b > 0
    ensures a * b % b == 0 && a * b / b == a
  {
    Quotient(a * b, b, a, 0);
  }

  lemma Shift(q: nat, b: nat, i: nat)
    requires b > 0
    ensures (q * b + i) / b == q + i / b
  {
    assert q * b + i == (q + i / b) * b + i % b;
    Quotient(q * b + i, b, q + i / b, i % b);
  }

  /** An even cut of equal blocks starts at whole blocks. */
  lemma EvenCut(blocks: nat, size: nat, world: nat, r: nat)
    requires world > 0 && blocks % world == 0 && r <= world && size > 0
    ensures CutAt(blocks * size, world, r) == r * (blocks / world) * size
  {
    var each := blocks / world;
    Exact(blocks, world);
    assert blocks * size == (each * size) * world by { assert blocks == each * world; }
    MultipleDivides(each * size, world);
    assert r * (each * size) == r * each * size;
  }

  // ---- the mapping -------------------------------------------------------------------------

  lemma HeadInRange(queryHeads: nat, kvHeads: nat, h: nat)
    requires HeadsOk(queryHeads, kvHeads) && h < queryHeads
    ensures queryHeads / kvHeads > 0 && h / (queryHeads / kvHeads) < kvHeads
  {
    Exact(queryHeads, kvHeads);
    var ratio := queryHeads / kvHeads;
    assert h / ratio * ratio <= h < kvHeads * ratio;
    Cancel(ratio, h / ratio, kvHeads - 1);
  }

  /** Consecutive query heads share a key/value head. */
  function SharedHead(queryHeads: nat, kvHeads: nat, h: nat): (k: nat)
    requires HeadsOk(queryHeads, kvHeads) && h < queryHeads
    ensures k < kvHeads
  {
    HeadInRange(queryHeads, kvHeads, h);
    h / (queryHeads / kvHeads)
  }

  /** Key/value head k serves the query heads of its own block, all of the same size. */
  lemma BlockSharesHead(queryHeads: nat, kvHeads: nat, k: nat, j: nat)
    requires HeadsOk(queryHeads, kvHeads) && k < kvHeads && j < queryHeads / kvHeads
    ensures k * (queryHeads / kvHeads) + j < queryHeads
    ensures SharedHead(queryHeads, kvHeads, k * (queryHeads / kvHeads) + j) == k
  {
    var ratio := queryHeads / kvHeads;
    Exact(queryHeads, kvHeads);
    ScaleMonotone(ratio, k + 1, kvHeads);
    ScaleMonotone(ratio, k, k + 1);
    Quotient(k * ratio + j, ratio, k, j);
  }

  /** With key/value heads split over the ranks: as many query heads per key/value head on a
      rank as overall. */
  lemma SplitRatio(queryHeads: nat, kvHeads: nat, world: nat)
    requires HeadsOk(queryHeads, kvHeads) && world > 0 && queryHeads % world == 0 && kvHeads % world == 0
    ensures queryHeads / world == queryHeads / kvHeads * (kvHeads / world)
  {
    var (ratio, each) := (queryHeads / kvHeads, kvHeads / world);
    Exact(queryHeads, kvHeads);
    Exact(kvHeads, world);
    assert queryHeads == ratio * each * world by { assert queryHeads == ratio * (each * world); }
    MultipleDivides(ratio * each, world);
  }

  /** With key/value heads replicated: the ranks that share one head cover its query heads. */
  lemma ReplicaRatio(queryHeads: nat, kvHeads: nat, world: nat)
    requires HeadsOk(queryHeads, kvHeads) && world > 0 && queryHeads % world == 0 && world % kvHeads == 0
    ensures queryHeads / kvHeads == queryHeads / world * (world / kvHeads)
  {
    var (each, replicas) := (queryHeads / world, world / kvHeads);
    Exact(queryHeads, world);
    Exact(world, kvHeads);
    assert queryHeads == each * replicas * kvHeads by { assert queryHeads == each * (replicas * kvHeads); }
    MultipleDivides(each * replicas, kvHeads);
  }

  lemma GlobalInRange(queryHeads: nat, world: nat, rank: nat, h: nat)
    requires rank < world && queryHeads > 0 && queryHeads % world == 0 && h < queryHeads / world
    ensures rank * (queryHeads / world) + h < queryHeads && queryHeads / world > 0
  {
    var each := queryHeads / world;
    Exact(queryHeads, world);
    assert (rank + 1) * each <= world * each && (rank + 1) * each == rank * each + each;
  }

  /** For all head counts and world sizes the checks accept, in both branches: the rank's local
      counts divide, and local query head h finds the key/value head it finds unsharded. */
  lemma HeadMappingSurvives(queryHeads: nat, kvHeads: nat, world: nat, rank: nat, h: nat)
    requires HeadsOk(queryHeads, kvHeads) && rank < world && PlanHeads(queryHeads, kvHeads, world, rank).Ok?
    requires h < PlanHeads(queryHeads, kvHeads, world, rank).value.queryHeads
    ensures var plan := PlanHeads(queryHeads, kvHeads, world, rank).value;
            && HeadsOk(plan.queryHeads, plan.kvHeads) && plan.kvRank < plan.kvWorld
            && rank * plan.queryHeads + h < queryHeads
            && plan.kvRank * plan.kvHeads + SharedHead(plan.queryHeads, plan.kvHeads, h)
               == SharedHead(queryHeads, kvHeads, rank * plan.queryHeads + h)
  {
    GlobalInRange(queryHeads, world, rank, h);
    if kvHeads >= world {
      SplitMapping(queryHeads, kvHeads, world, rank, h);
    } else {
      ReplicaMapping(queryHeads, kvHeads, world, rank, h);
    }
  }

  lemma SplitMapping(queryHeads: nat, kvHeads: nat, world: nat, rank: nat, h: nat)
    requires HeadsOk(queryHeads, kvHeads) && rank < world <= kvHeads
    requires queryHeads % world == 0 && kvHeads % world == 0 && h < queryHeads / world
    ensures var (each, kv) := (queryHeads / world, kvHeads / world);
            && kv > 0 && HeadsOk(each, kv) && h / (each / kv) < kv
            && rank * kv + h / (each / kv) == (rank * each + h) / (queryHeads / kvHeads)
  {
    var (each, kv, ratio) := (queryHeads / world, kvHeads / world, queryHeads / kvHeads);
    Exact(kvHeads, world);
    Exact(queryHeads, kvHeads);
    SplitRatio(queryHeads, kvHeads, world);
    assert kv > 0 && ratio > 0;
    MultipleDivides(ratio, kv);
    assert rank * each == rank * kv * ratio by { assert each == ratio * kv; }
    Shift(rank * kv, ratio, h);
    assert h / ratio * ratio <= h < kv * ratio;
    Cancel(ratio, h / ratio, kv - 1);
  }

  lemma WithinShare(each: nat, replicas: nat, shared: nat, part: nat, h: nat)
    requires h < each && part < replicas
    ensures (shared * replicas + part) * each + h == shared * (each * replicas) + (part * each + h)
    ensures part * each + h < each * replicas
  {
    assert shared * replicas * each == shared * (each * replicas);
    assert (part + 1) * each <= replicas * each;
  }

  lemma ReplicaMapping(queryHeads: nat, kvHeads: nat, world: nat, rank: nat, h: nat)
    requires HeadsOk(queryHeads, kvHeads) && rank < world && kvHeads < world
    requires queryHeads % world == 0 && world % kvHeads == 0 && h < queryHeads / world
    ensures var (each, replicas) := (queryHeads / world, world / kvHeads);
            && replicas > 0 && rank / replicas < kvHeads && HeadsOk(each, 1) && kvHeads / world == 0
            && rank / replicas + h / each == (rank * each + h) / (queryHeads / kvHeads)
  {
    var (each, replicas, ratio) := (queryHeads / world, world / kvHeads, queryHeads / kvHeads);
    Exact(world, kvHeads);
    Exact(queryHeads, kvHeads);
    ReplicaRatio(queryHeads, kvHeads, world);
    assert replicas > 0;
    var (shared, part) := (rank / replicas, rank % replicas);
    assert rank == shared * replicas + part;
    assert shared * replicas <= rank < kvHeads * replicas;
    Cancel(replicas, shared, kvHeads - 1);
    WithinShare(each, replicas, shared, part, h);
    Quotient(rank * each + h, ratio, shared, part * each + h);
    Quotient(h, each, 0, h);
  }

  // ---- whole layers ------------------------------------------------------------------------

  /** Attention head by head. */
  function AttendHeads<Q, K, O>(attend: (Q, K) -> O, queries: seq<Q>, kvs: seq<K>): (out: seq<O>)
    requires HeadsOk(|queries|, |kvs|)
    ensures |out| == |queries|
  {
    seq(|queries|, h requires 0 <= h < |queries| => attend(queries[h], kvs[SharedHead(|queries|, |kvs|, h)]))
  }

  /** The rows of a rank's query and key/value projections are the rows of whole heads. */
  lemma ProjectionsAreWholeHeads(queryHeads: nat, kvHeads: nat, size: nat, world: nat, rank: nat)
    requires HeadsOk(queryHeads, kvHeads) && size > 0 && rank < world && PlanHeads(queryHeads, kvHeads, world, rank).Ok?
    ensures var plan := PlanHeads(queryHeads, kvHeads, world, rank).value;
            && plan.kvRank < plan.kvWorld && plan.queryHeads > 0
            && CutAt(queryHeads * size, world, rank) == rank * plan.queryHeads * size
            && CutAt(queryHeads * size, world, rank + 1) == (rank + 1) * plan.queryHeads * size
            && CutAt(kvHeads * size, plan.kvWorld, plan.kvRank) == plan.kvRank * plan.kvHeads * size
            && CutAt(kvHeads * size, plan.kvWorld, plan.kvRank + 1) == (plan.kvRank + 1) * plan.kvHeads * size
  {
    var plan := PlanHeads(queryHeads, kvHeads, world, rank).value;
    Exact(queryHeads, world);
    HeadMappingSurvives(queryHeads, kvHeads, world, rank, 0);
    EvenCut(queryHeads, size, world, rank);
    EvenCut(queryHeads, size, world, rank + 1);
    WholeKvHeads(queryHeads, kvHeads, world, rank);
    EvenCut(kvHeads, size, plan.kvWorld, plan.kvRank);
    EvenCut(kvHeads, size, plan.kvWorld, plan.kvRank + 1);
  }

  lemma WholeKvHeads(queryHeads: nat, kvHeads: nat, world: nat, rank: nat)
    requires HeadsOk(queryHeads, kvHeads) && rank < world && PlanHeads(queryHeads, kvHeads, world, rank).Ok?
    ensures var plan := PlanHeads(queryHeads, kvHeads, world, rank).value;
            plan.kvWorld > 0 && kvHeads % plan.kvWorld == 0 && kvHeads / plan.kvWorld == plan.kvHeads
  {
    if kvHeads >= world {
      Exact(kvHeads, world);
    } else {
      Quotient(kvHeads, kvHeads, 1, 0);
      Quotient(kvHeads, world, 0, kvHeads);
    }
  }

  /** What a rank computes: its own query heads over the key/value heads it holds. */
  function LocalAttention<Q, K, O>(attend: (Q, K) -> O, queries: seq<Q>, kvs: seq<K>, world: nat, rank: nat): seq<O>
    requires HeadsOk(|queries|, |kvs|) && rank < world && PlanHeads(|queries|, |kvs|, world, rank).Ok?
  {
    var plan := PlanHeads(|queries|, |kvs|, world, rank).value;
    LocalRanges(|queries|, |kvs|, world, rank);
    AttendHeads(attend,
                queries[rank * plan.queryHeads..(rank + 1) * plan.queryHeads],
                kvs[plan.kvRank * plan.kvHeads..(plan.kvRank + 1) * plan.kvHeads])
  }

  lemma LocalRanges(queryHeads: nat, kvHeads: nat, world: nat, rank: nat)
    requires HeadsOk(queryHeads, kvHeads) && rank < world && PlanHeads(queryHeads, kvHeads, world, rank).Ok?
    ensures var plan := PlanHeads(queryHeads, kvHeads, world, rank).value;
            && HeadsOk(plan.queryHeads, plan.kvHeads)
            && CutAt(queryHeads, world, rank) == rank * plan.queryHeads <= (rank + 1) * plan.queryHeads
                == CutAt(queryHeads, world, rank + 1)
            && (rank + 1) * plan.queryHeads - rank * plan.queryHeads == plan.queryHeads
            && (plan.kvRank + 1) * plan.kvHeads - plan.kvRank * plan.kvHeads == plan.kvHeads
            && (rank + 1) * plan.queryHeads <= queryHeads && (plan.kvRank + 1) * plan.kvHeads <= kvHeads
  {
    var plan := PlanHeads(queryHeads, kvHeads, world, rank).value;
    ProjectionsAreWholeHeads(queryHeads, kvHeads, 1, world, rank);
    HeadMappingSurvives(queryHeads, kvHeads, world, rank, 0);
    CutsOrdered(queryHeads, world, rank);
    CutsOrdered(kvHeads, plan.kvWorld, plan.kvRank);
    assert (rank + 1) * plan.queryHeads == rank * plan.queryHeads + plan.queryHeads;
    assert (plan.kvRank + 1) * plan.kvHeads == plan.kvRank * plan.kvHeads + plan.kvHeads;
  }

  /** Attention survives tensor parallelism: every rank computes its slice of the unsharded
      attention, and the ranks together compute all of it. */
  lemma ShardedAttention<Q, K, O>(attend: (Q, K) -> O, queries: seq<Q>, kvs: seq<K>, world: nat)
    requires HeadsOk(|queries|, |kvs|) && world > 0 && PlanHeads(|queries|, |kvs|, world, 0).Ok?
    ensures forall r | 0 <= r < world :: PlanHeads(|queries|, |kvs|, world, r).Ok?
    ensures Concat(seq(world, r requires 0 <= r < world => LocalAttention(attend, queries, kvs, world, r)))
            == AttendHeads(attend, queries, kvs)
  {
    hide CutAt;
    var out := AttendHeads(attend, queries, kvs);
    forall r | 0 <= r < world ensures LocalAttention(attend, queries, kvs, world, r) == Slice(out, world, r) {
      LocalSlice(attend, queries, kvs, world, r);
    }
    assert seq(world, r requires 0 <= r < world => LocalAttention(attend, queries, kvs, world, r))
           == Slices(out, world);
    GatherRestores(out, world);
  }

  lemma LocalSlice<Q, K, O>(attend: (Q, K) -> O, queries: seq<Q>, kvs: seq<K>, world: nat, r: nat)
    requires HeadsOk(|queries|, |kvs|) && r < world && PlanHeads(|queries|, |kvs|, world, r).Ok?
    ensures LocalAttention(attend, queries, kvs, world, r) == Slice(AttendHeads(attend, queries, kvs), world, r)
  {
    hide CutAt, PlanHeads, SharedHead;
    LocalRanges(|queries|, |kvs|, world, r);
    var plan := PlanHeads(|queries|, |kvs|, world, r).value;
    var (local, slice) := (LocalAttention(attend, queries, kvs, world, r),
                           Slice(AttendHeads(attend, queries, kvs), world, r));
    forall h | 0 <= h < plan.queryHeads ensures local[h] == slice[h] {
      HeadMappingSurvives(|queries|, |kvs|, world, r, h);
    }
  }
}
