/** A whole attention layer on many ranks: column-parallel projections, possibly with replicated
    key/value heads, attention over the local heads, and the row-parallel output projection
    (qwen2.py:290-360, 373-440). */
module ShardedLayer {
  import opened Collections
  import opened TensorParallel
  import opened Gqa

  type Vector = seq<real>

  /** The weights of one layer, and the size of a head. */
  datatype Weights = Weights(
    size: nat,
    wq: seq<Vector>, bq: Option<Vector>,
    wk: seq<Vector>, bk: Option<Vector>,
    wv: seq<Vector>, bv: Option<Vector>,
    wo: seq<Vector>, bo: Option<Vector>)

  predicate RowsOk(weight: seq<Vector>, bias: Option<Vector>, rows: nat, width: nat) {
    |weight| == rows && IsMatrix(weight, width) && (bias.Some? ==> |bias.value| == rows)
  }

  predicate WeightsOk(w: Weights, hidden: nat, queryHeads: nat, kvHeads: nat) {
    && w.size > 0 && HeadsOk(queryHeads, kvHeads)
    && RowsOk(w.wq, w.bq, queryHeads * w.size, hidden)
    && RowsOk(w.wk, w.bk, kvHeads * w.size, hidden)
    && RowsOk(w.wv, w.bv, kvHeads * w.size, hidden)
    && RowsOk(w.wo, w.bo, hidden, queryHeads * w.size)
  }

  // ---- vectors as heads --------------------------------------------------------------------

  function HeadOf<T>(y: seq<T>, size: nat, h: nat): (head: seq<T>)
    requires (h + 1) * size <= |y|
    ensures |head| == size
  {
    ScaleMonotone(size, h, h + 1);
    y[h * size..(h + 1) * size]
  }

  function HeadsOf<T>(y: seq<T>, size: nat, n: nat): (heads: seq<seq<T>>)
    requires n * size <= |y|
    ensures |heads| == n && forall h | 0 <= h < n :: |heads[h]| == size
  {
    seq(n, h requires 0 <= h < n => (ScaleMonotone(size, h + 1, n); HeadOf(y, size, h)))
  }

  lemma DeepSlice<T>(y: seq<T>, a: nat, b: nat, i: nat, j: nat)
    requires a <= b <= |y| && i <= j <= b - a
    ensures y[a..b][i..j] == y[a + i..a + j]
  {
    var part := y[a..b];
    forall k | 0 <= k < j - i ensures part[i..j][k] == y[a + i..a + j][k] {
      assert part[i..j][k] == part[i + k] == y[a + (i + k)];
    }
  }

  lemma HeadShift<T>(y: seq<T>, size: nat, from: nat, n: nat, h: nat)
    requires h < n && (from + n) * size <= |y|
    ensures from * size + n * size == (from + n) * size && (from + h + 1) * size <= (from + n) * size
            && (h + 1) * size <= n * size
    ensures HeadOf(y[from * size..(from + n) * size], size, h) == HeadOf(y, size, from + h)
  {
    ScaleMonotone(size, h + 1, n);
    ScaleMonotone(size, h, h + 1);
    Distribute(size, from, n);
    Distribute(size, from, h);
    ScaleMonotone(size, from + h, from + h + 1);
    ScaleMonotone(size, from + h + 1, from + n);
    DeepSlice(y, from * size, (from + n) * size, h * size, (h + 1) * size);
  }

  /** Whole heads cut out of a vector are the heads with those numbers. */
  lemma HeadsOfPart<T>(y: seq<T>, size: nat, total: nat, from: nat, n: nat)
    requires |y| == total * size && from + n <= total
    ensures 0 <= from * size <= (from + n) * size <= |y| && (from + n) * size - from * size == n * size
    ensures HeadsOf(y[from * size..(from + n) * size], size, n) == HeadsOf(y, size, total)[from..from + n]
  {
    ScaleMonotone(size, from + n, total);
    Distribute(size, from, n);
    var part := y[from * size..(from + n) * size];
    forall h | 0 <= h < n ensures HeadsOf(part, size, n)[h] == HeadsOf(y, size, total)[from + h] {
      HeadShift(y, size, from, n, h);
    }
  }

  lemma {:induction false} ConcatLength<T>(heads: seq<seq<T>>, size: nat)
    requires forall h | 0 <= h < |heads| :: |heads[h]| == size
    ensures |Concat(heads)| == |heads| * size
  {
    if heads != [] {
      ConcatLength(heads[1..], size);
      ScaleMonotone(size, |heads| - 1, |heads|);
    }
  }

  lemma {:induction false} ConcatSplit<T>(heads: seq<seq<T>>, tail: seq<seq<T>>)
    ensures Concat(heads + tail) == Concat(heads) + Concat(tail)
  {
    if heads == [] {
      assert heads + tail == tail;
    } else {
      assert (heads + tail)[1..] == heads[1..] + tail;
      ConcatSplit(heads[1..], tail);
    }
  }

  /** Cutting heads and joining them is joining them and cutting the vector. */
  lemma ConcatPart<T>(heads: seq<seq<T>>, size: nat, from: nat, n: nat)
    requires from + n <= |heads| && forall h | 0 <= h < |heads| :: |heads[h]| == size
    ensures |Concat(heads)| == |heads| * size && 0 <= from * size <= (from + n) * size <= |heads| * size
    ensures Concat(heads[from..from + n]) == Concat(heads)[from * size..(from + n) * size]
  {
    var (a, b, c) := (heads[..from], heads[from..from + n], heads[from + n..]);
    assert heads == a + (b + c);
    hide Concat;
    ConcatSplit(a, b + c);
    ConcatSplit(b, c);
    ConcatLength(a, size);
    ConcatLength(b, size);
    ConcatLength(heads, size);
    Distribute(size, from, n);
    ScaleMonotone(size, from + n, |heads|);
    Middle(Concat(heads), from * size, (from + n) * size, Concat(a), Concat(b), Concat(c));
  }

  // ---- one rank and many -------------------------------------------------------------------

  /** Keys and values of all positions so far, as one key/value head sees them. */
  type History = seq<(Vector, Vector)>

  /** Attention of one query head over one key/value head; rotation by position belongs to it. */
  ghost predicate AttendOk(attend: (Vector, History) -> Vector, size: nat) {
    forall q, kv :: |attend(q, kv)| == size
  }

  function HistoryOf(ks: seq<Vector>, vs: seq<Vector>, size: nat, h: nat): (kv: History)
    requires |ks| == |vs| && forall j | 0 <= j < |ks| :: (h + 1) * size <= |ks[j]| && |vs[j]| == |ks[j]|
    ensures |kv| == |ks|
  {
    seq(|ks|, j requires 0 <= j < |ks| => (HeadOf(ks[j], size, h), HeadOf(vs[j], size, h)))
  }

  function Histories(ks: seq<Vector>, vs: seq<Vector>, size: nat, n: nat): (kvs: seq<History>)
    requires |ks| == |vs| && forall j | 0 <= j < |ks| :: |ks[j]| == n * size && |vs[j]| == n * size
    ensures |kvs| == n
  {
    seq(n, h requires 0 <= h < n => (ScaleMonotone(size, h + 1, n); HistoryOf(ks, vs, size, h)))
  }

  function Project(xs: seq<Vector>, weight: seq<Vector>, bias: Option<Vector>, hidden: nat): (ys: seq<Vector>)
    requires RowsOk(weight, bias, |weight|, hidden) && forall j | 0 <= j < |xs| :: |xs[j]| == hidden
    ensures |ys| == |xs| && forall j | 0 <= j < |xs| :: |ys[j]| == |weight|
  {
    seq(|xs|, j requires 0 <= j < |xs| => Linear(xs[j], weight, bias))
  }

  /** The keys or values one rank computes for every position. */
  function ProjectLocal(xs: seq<Vector>, weight: seq<Vector>, bias: Option<Vector>, hidden: nat, world: nat,
                        r: nat): (ys: seq<Vector>)
    requires RowsOk(weight, bias, |weight|, hidden) && (forall j | 0 <= j < |xs| :: |xs[j]| == hidden) && r < world
    ensures |ys| == |xs|
  {
    seq(|xs|, j requires 0 <= j < |xs| => ColumnLocal(xs[j], weight, bias, world, r))
  }

  predicate InputsOk(xs: seq<Vector>, hidden: nat) {
    xs != [] && forall j | 0 <= j < |xs| :: |xs[j]| == hidden
  }

  lemma HeadSizes(attend: (Vector, History) -> Vector, queries: seq<Vector>, kvs: seq<History>, size: nat)
    requires AttendOk(attend, size) && HeadsOk(|queries|, |kvs|)
    ensures forall h | 0 <= h < |queries| :: |AttendHeads(attend, queries, kvs)[h]| == size
  {
    forall h | 0 <= h < |queries| ensures |AttendHeads(attend, queries, kvs)[h]| == size {
      assert AttendHeads(attend, queries, kvs)[h] == attend(queries[h], kvs[SharedHead(|queries|, |kvs|, h)]);
    }
  }

  /** The layer on one rank, for the last of the positions xs. */
  function AttentionLayer(attend: (Vector, History) -> Vector, w: Weights, xs: seq<Vector>, hidden: nat,
                          queryHeads: nat, kvHeads: nat)
    : (y: Vector)
    requires WeightsOk(w, hidden, queryHeads, kvHeads) && InputsOk(xs, hidden) && AttendOk(attend, w.size)
    ensures |y| == hidden
  {
    var queries := AllQueries(w, xs, hidden, queryHeads, kvHeads);
    var kvs := AllHistories(w, xs, hidden, queryHeads, kvHeads);
    HeadSizes(attend, queries, kvs, w.size);
    var out := AttendHeads(attend, queries, kvs);
    ConcatLength(out, w.size);
    Linear(Concat(out), w.wo, w.bo)
  }

  ghost predicate RankOk(queryHeads: nat, kvHeads: nat, world: nat, r: nat) {
    HeadsOk(queryHeads, kvHeads) && r < world && PlanHeads(queryHeads, kvHeads, world, r).Ok?
  }

  /** The query heads rank r projects. */
  function RankQueries(w: Weights, xs: seq<Vector>, hidden: nat, queryHeads: nat, kvHeads: nat, world: nat, r: nat)
    : (queries: seq<Vector>)
    requires WeightsOk(w, hidden, queryHeads, kvHeads) && InputsOk(xs, hidden) && RankOk(queryHeads, kvHeads, world, r)
    ensures |queries| == PlanHeads(queryHeads, kvHeads, world, r).value.queryHeads
  {
    LocalWidths(w, xs, hidden, queryHeads, kvHeads, world, r);
    HeadsOf(ColumnLocal(xs[|xs| - 1], w.wq, w.bq, world, r), w.size,
            PlanHeads(queryHeads, kvHeads, world, r).value.queryHeads)
  }

  /** The key/value heads rank r projects. */
  function RankHistories(w: Weights, xs: seq<Vector>, hidden: nat, queryHeads: nat, kvHeads: nat, world: nat, r: nat)
    : (kvs: seq<History>)
    requires WeightsOk(w, hidden, queryHeads, kvHeads) && InputsOk(xs, hidden) && RankOk(queryHeads, kvHeads, world, r)
    ensures |kvs| == PlanHeads(queryHeads, kvHeads, world, r).value.kvHeads
  {
    LocalWidths(w, xs, hidden, queryHeads, kvHeads, world, r);
    var plan := PlanHeads(queryHeads, kvHeads, world, r).value;
    Histories(ProjectLocal(xs, w.wk, w.bk, hidden, plan.kvWorld, plan.kvRank),
              ProjectLocal(xs, w.wv, w.bv, hidden, plan.kvWorld, plan.kvRank), w.size, plan.kvHeads)
  }

  /** What rank r attends to, out of its own projections. */
  function RankHeads(attend: (Vector, History) -> Vector, w: Weights, xs: seq<Vector>, hidden: nat,
                     queryHeads: nat, kvHeads: nat, world: nat, r: nat): (out: seq<Vector>)
    requires WeightsOk(w, hidden, queryHeads, kvHeads) && InputsOk(xs, hidden) && RankOk(queryHeads, kvHeads, world, r)
    requires AttendOk(attend, w.size)
    ensures |out| == PlanHeads(queryHeads, kvHeads, world, r).value.queryHeads
    ensures forall h | 0 <= h < |out| :: |out[h]| == w.size
  {
    var queries := RankQueries(w, xs, hidden, queryHeads, kvHeads, world, r);
    var kvs := RankHistories(w, xs, hidden, queryHeads, kvHeads, world, r);
    LocalRanges(queryHeads, kvHeads, world, r);
    HeadSizes(attend, queries, kvs, w.size);
    AttendHeads(attend, queries, kvs)
  }

  lemma LocalWidths(w: Weights, xs: seq<Vector>, hidden: nat, queryHeads: nat, kvHeads: nat, world: nat, r: nat)
    requires WeightsOk(w, hidden, queryHeads, kvHeads) && InputsOk(xs, hidden)
    requires RankOk(queryHeads, kvHeads, world, r)
    ensures var plan := PlanHeads(queryHeads, kvHeads, world, r).value;
            && HeadsOk(plan.queryHeads, plan.kvHeads) && plan.kvRank < plan.kvWorld
            && |ColumnLocal(xs[|xs| - 1], w.wq, w.bq, world, r)| == plan.queryHeads * w.size
            && (forall j | 0 <= j < |xs| ::
                  && |ProjectLocal(xs, w.wk, w.bk, hidden, plan.kvWorld, plan.kvRank)[j]| == plan.kvHeads * w.size
                  && |ProjectLocal(xs, w.wv, w.bv, hidden, plan.kvWorld, plan.kvRank)[j]| == plan.kvHeads * w.size)
  {
    hide CutAt, PlanHeads;
    var plan := PlanHeads(queryHeads, kvHeads, world, r).value;
    ProjectionsAreWholeHeads(queryHeads, kvHeads, w.size, world, r);
    LocalRanges(queryHeads, kvHeads, world, r);
    assert (r + 1) * plan.queryHeads * w.size == r * plan.queryHeads * w.size + plan.queryHeads * w.size;
    assert (plan.kvRank + 1) * plan.kvHeads * w.size == plan.kvRank * plan.kvHeads * w.size + plan.kvHeads * w.size;
  }

  /** The layer on many ranks: each attends over its own heads and multiplies them with its own
      columns of the output projection; the sums are reduced, and the bias is added once. */
  ghost function ShardedForward(attend: (Vector, History) -> Vector, w: Weights, xs: seq<Vector>, hidden: nat,
                                queryHeads: nat, kvHeads: nat, world: nat): (y: Vector)
    requires WeightsOk(w, hidden, queryHeads, kvHeads) && InputsOk(xs, hidden) && AttendOk(attend, w.size)
    requires world > 0 && forall r | 0 <= r < world :: RankOk(queryHeads, kvHeads, world, r)
    ensures |y| == hidden
  {
    var locals := seq(world, r requires 0 <= r < world =>
                      RankOutput(attend, w, xs, hidden, queryHeads, kvHeads, world, r));
    AddBias(AllReduceSum(locals, hidden), w.bo)
  }

  ghost function RankOutput(attend: (Vector, History) -> Vector, w: Weights, xs: seq<Vector>, hidden: nat,
                            queryHeads: nat, kvHeads: nat, world: nat, r: nat): (y: Vector)
    requires WeightsOk(w, hidden, queryHeads, kvHeads) && InputsOk(xs, hidden) && AttendOk(attend, w.size)
    requires RankOk(queryHeads, kvHeads, world, r)
    ensures |y| == hidden
  {
    var out := RankHeads(attend, w, xs, hidden, queryHeads, kvHeads, world, r);
    ConcatLength(out, w.size);
    LocalColumns(w, hidden, queryHeads, kvHeads, world, r);
    Linear(Concat(out), ColumnsOf(w.wo, queryHeads * w.size, world, r), None)
  }

  lemma LocalColumns(w: Weights, hidden: nat, queryHeads: nat, kvHeads: nat, world: nat, r: nat)
    requires WeightsOk(w, hidden, queryHeads, kvHeads) && RankOk(queryHeads, kvHeads, world, r)
    ensures CutAt(queryHeads * w.size, world, r + 1) - CutAt(queryHeads * w.size, world, r)
            == PlanHeads(queryHeads, kvHeads, world, r).value.queryHeads * w.size
  {
    hide CutAt, PlanHeads;
    var plan := PlanHeads(queryHeads, kvHeads, world, r).value;
    ProjectionsAreWholeHeads(queryHeads, kvHeads, w.size, world, r);
    assert (r + 1) * plan.queryHeads * w.size == r * plan.queryHeads * w.size + plan.queryHeads * w.size;
  }

  // ---- the ranks together ------------------------------------------------------------------

  /** Some heads, one after another. */
  function Part<T>(heads: seq<T>, from: nat, n: nat): (part: seq<T>)
    requires from + n <= |heads|
    ensures |part| == n
  {
    heads[from..from + n]
  }

  lemma PlanInRange(queryHeads: nat, kvHeads: nat, world: nat, r: nat)
    requires RankOk(queryHeads, kvHeads, world, r)
    ensures var plan := PlanHeads(queryHeads, kvHeads, world, r).value;
            && plan.kvRank < plan.kvWorld && HeadsOk(plan.queryHeads, plan.kvHeads)
            && 0 <= r * plan.queryHeads && r * plan.queryHeads + plan.queryHeads <= queryHeads
            && 0 <= plan.kvRank * plan.kvHeads && plan.kvRank * plan.kvHeads + plan.kvHeads <= kvHeads
  {
    hide PlanHeads;
    LocalRanges(queryHeads, kvHeads, world, r);
    HeadMappingSurvives(queryHeads, kvHeads, world, r, 0);
  }

  /** A column-parallel projection yields whole heads, those with the rank's numbers. */
  lemma LocalHeads(x: Vector, weight: seq<Vector>, bias: Option<Vector>, size: nat, total: nat, world: nat, r: nat,
                   n: nat)
    requires RowsOk(weight, bias, total * size, |x|) && r < world && size > 0
    requires CutAt(total * size, world, r) == r * n * size && CutAt(total * size, world, r + 1) == (r * n + n) * size
    requires 0 <= r * n && r * n + n <= total
    ensures |ColumnLocal(x, weight, bias, world, r)| == n * size
    ensures HeadsOf(ColumnLocal(x, weight, bias, world, r), size, n)
            == Part(HeadsOf(Linear(x, weight, bias), size, total), r * n, n)
  {
    hide CutAt, Dot;
    var y := Linear(x, weight, bias);
    ColumnParallelIsLinear(x, weight, bias, world);
    HeadsOfPart(y, size, total, r * n, n);
    assert Slice(y, world, r) == y[r * n * size..(r * n + n) * size];
  }

  lemma QueriesAreLocal(w: Weights, xs: seq<Vector>, hidden: nat, queryHeads: nat, kvHeads: nat, world: nat, r: nat)
    requires WeightsOk(w, hidden, queryHeads, kvHeads) && InputsOk(xs, hidden) && RankOk(queryHeads, kvHeads, world, r)
    ensures var n := PlanHeads(queryHeads, kvHeads, world, r).value.queryHeads;
            && 0 <= r * n && r * n + n <= queryHeads
            && RankQueries(w, xs, hidden, queryHeads, kvHeads, world, r)
               == Part(HeadsOf(Linear(xs[|xs| - 1], w.wq, w.bq), w.size, queryHeads), r * n, n)
  {
    hide PlanHeads, CutAt, Linear, ColumnLocal, HeadsOf, Part;
    var n := PlanHeads(queryHeads, kvHeads, world, r).value.queryHeads;
    PlanInRange(queryHeads, kvHeads, world, r);
    ProjectionsAreWholeHeads(queryHeads, kvHeads, w.size, world, r);
    assert (r + 1) * n == r * n + n;
    LocalHeads(xs[|xs| - 1], w.wq, w.bq, w.size, queryHeads, world, r, n);
  }

  /** Position by position, the local vectors are heads `from`, `from` + 1, ... of the whole ones. */
  ghost predicate SameHeads(ys: seq<Vector>, locals: seq<Vector>, size: nat, total: nat, from: nat, n: nat) {
    && |ys| == |locals| && from + n <= total
    && forall j | 0 <= j < |ys| ::
         && |ys[j]| == total * size && |locals[j]| == n * size
         && HeadsOf(locals[j], size, n) == Part(HeadsOf(ys[j], size, total), from, n)
  }

  lemma HistoryPart(ks: seq<Vector>, vs: seq<Vector>, lks: seq<Vector>, lvs: seq<Vector>, size: nat, total: nat,
                    from: nat, n: nat)
    requires |ks| == |vs| && SameHeads(ks, lks, size, total, from, n) && SameHeads(vs, lvs, size, total, from, n)
    ensures Histories(lks, lvs, size, n) == Part(Histories(ks, vs, size, total), from, n)
  {
    var (local, whole) := (Histories(lks, lvs, size, n), Histories(ks, vs, size, total));
    forall h | 0 <= h < n ensures local[h] == whole[from + h] {
      forall j | 0 <= j < |ks| ensures local[h][j] == whole[from + h][j] {
        assert HeadsOf(lks[j], size, n)[h] == HeadsOf(ks[j], size, total)[from + h];
        assert HeadsOf(lvs[j], size, n)[h] == HeadsOf(vs[j], size, total)[from + h];
      }
    }
  }

  lemma LocalProjections(xs: seq<Vector>, weight: seq<Vector>, bias: Option<Vector>, hidden: nat, size: nat, total: nat,
                         world: nat, r: nat, n: nat)
    requires RowsOk(weight, bias, total * size, hidden) && InputsOk(xs, hidden) && r < world && size > 0
    requires CutAt(total * size, world, r) == r * n * size && CutAt(total * size, world, r + 1) == (r * n + n) * size
    requires 0 <= r * n && r * n + n <= total
    ensures SameHeads(Project(xs, weight, bias, hidden), ProjectLocal(xs, weight, bias, hidden, world, r),
                      size, total, r * n, n)
  {
    hide CutAt, HeadsOf, Part, Linear, ColumnLocal;
    var (ys, locals) := (Project(xs, weight, bias, hidden), ProjectLocal(xs, weight, bias, hidden, world, r));
    forall j | 0 <= j < |ys|
      ensures |ys[j]| == total * size && |locals[j]| == n * size
      ensures HeadsOf(locals[j], size, n) == Part(HeadsOf(ys[j], size, total), r * n, n)
    {
      LocalHeads(xs[j], weight, bias, size, total, world, r, n);
    }
  }

  function AllHistories(w: Weights, xs: seq<Vector>, hidden: nat, queryHeads: nat, kvHeads: nat): (kvs: seq<History>)
    requires WeightsOk(w, hidden, queryHeads, kvHeads) && InputsOk(xs, hidden)
    ensures |kvs| == kvHeads
  {
    Histories(Project(xs, w.wk, w.bk, hidden), Project(xs, w.wv, w.bv, hidden), w.size, kvHeads)
  }

  function AllQueries(w: Weights, xs: seq<Vector>, hidden: nat, queryHeads: nat, kvHeads: nat): (queries: seq<Vector>)
    requires WeightsOk(w, hidden, queryHeads, kvHeads) && InputsOk(xs, hidden)
    ensures |queries| == queryHeads
  {
    HeadsOf(Linear(xs[|xs| - 1], w.wq, w.bq), w.size, queryHeads)
  }

  /** A rank's keys and values are those of its key/value heads, replicated or not. */
  lemma HistoriesAreLocal(w: Weights, xs: seq<Vector>, hidden: nat, queryHeads: nat, kvHeads: nat, world: nat, r: nat)
    requires WeightsOk(w, hidden, queryHeads, kvHeads) && InputsOk(xs, hidden) && RankOk(queryHeads, kvHeads, world, r)
    ensures var plan := PlanHeads(queryHeads, kvHeads, world, r).value;
            && 0 <= plan.kvRank * plan.kvHeads && plan.kvRank * plan.kvHeads + plan.kvHeads <= kvHeads
            && RankHistories(w, xs, hidden, queryHeads, kvHeads, world, r)
               == Part(AllHistories(w, xs, hidden, queryHeads, kvHeads), plan.kvRank * plan.kvHeads, plan.kvHeads)
  {
    hide PlanHeads, CutAt, Project, ProjectLocal, Histories, HeadsOf, Part, SameHeads;
    var plan := PlanHeads(queryHeads, kvHeads, world, r).value;
    var (at, n) := (plan.kvRank * plan.kvHeads, plan.kvHeads);
    PlanInRange(queryHeads, kvHeads, world, r);
    ProjectionsAreWholeHeads(queryHeads, kvHeads, w.size, world, r);
    assert (plan.kvRank + 1) * n == at + n;
    LocalProjections(xs, w.wk, w.bk, hidden, w.size, kvHeads, plan.kvWorld, plan.kvRank, n);
    LocalProjections(xs, w.wv, w.bv, hidden, w.size, kvHeads, plan.kvWorld, plan.kvRank, n);
    HistoryPart(Project(xs, w.wk, w.bk, hidden), Project(xs, w.wv, w.bv, hidden),
                ProjectLocal(xs, w.wk, w.bk, hidden, plan.kvWorld, plan.kvRank),
                ProjectLocal(xs, w.wv, w.bv, hidden, plan.kvWorld, plan.kvRank), w.size, kvHeads, at, n);
  }

  /** A rank's heads, joined, are its slice of the joined heads. */
  lemma HeadsAreSlice(attend: (Vector, History) -> Vector, w: Weights, xs: seq<Vector>, hidden: nat,
                      queryHeads: nat, kvHeads: nat, world: nat, r: nat)
    requires WeightsOk(w, hidden, queryHeads, kvHeads) && InputsOk(xs, hidden) && RankOk(queryHeads, kvHeads, world, r)
    requires AttendOk(attend, w.size)
    ensures Concat(RankHeads(attend, w, xs, hidden, queryHeads, kvHeads, world, r))
            == Slice(Concat(AttendHeads(attend, AllQueries(w, xs, hidden, queryHeads, kvHeads),
                                        AllHistories(w, xs, hidden, queryHeads, kvHeads))), world, r)
  {
    hide PlanHeads, CutAt, AllQueries, AllHistories, RankQueries, RankHistories, AttendHeads;
    var queries := AllQueries(w, xs, hidden, queryHeads, kvHeads);
    var kvs := AllHistories(w, xs, hidden, queryHeads, kvHeads);
    var out := AttendHeads(attend, queries, kvs);
    var n := PlanHeads(queryHeads, kvHeads, world, r).value.queryHeads;
    PlanInRange(queryHeads, kvHeads, world, r);
    RankAttends(attend, w, xs, hidden, queryHeads, kvHeads, world, r);
    HeadSizes(attend, queries, kvs, w.size);
    ConcatPart(out, w.size, r * n, n);
    ProjectionsAreWholeHeads(queryHeads, kvHeads, w.size, world, r);
    assert (r + 1) * n == r * n + n;
  }

  lemma RankAttends(attend: (Vector, History) -> Vector, w: Weights, xs: seq<Vector>, hidden: nat,
                    queryHeads: nat, kvHeads: nat, world: nat, r: nat)
    requires WeightsOk(w, hidden, queryHeads, kvHeads) && InputsOk(xs, hidden) && RankOk(queryHeads, kvHeads, world, r)
    requires AttendOk(attend, w.size)
    ensures var n := PlanHeads(queryHeads, kvHeads, world, r).value.queryHeads;
            && 0 <= r * n && r * n + n <= queryHeads
            && RankHeads(attend, w, xs, hidden, queryHeads, kvHeads, world, r)
               == AttendHeads(attend, AllQueries(w, xs, hidden, queryHeads, kvHeads),
                              AllHistories(w, xs, hidden, queryHeads, kvHeads))[r * n..r * n + n]
  {
    hide PlanHeads, CutAt, HeadsOf, Histories, Linear, ColumnLocal, Project, ProjectLocal, AttendHeads;
    var plan := PlanHeads(queryHeads, kvHeads, world, r).value;
    var (queries, kvs) := (AllQueries(w, xs, hidden, queryHeads, kvHeads),
                           AllHistories(w, xs, hidden, queryHeads, kvHeads));
    PlanInRange(queryHeads, kvHeads, world, r);
    QueriesAreLocal(w, xs, hidden, queryHeads, kvHeads, world, r);
    HistoriesAreLocal(w, xs, hidden, queryHeads, kvHeads, world, r);
    LocalRanges(queryHeads, kvHeads, world, r);
    assert (r + 1) * plan.queryHeads == r * plan.queryHeads + plan.queryHeads;
    assert (plan.kvRank + 1) * plan.kvHeads == plan.kvRank * plan.kvHeads + plan.kvHeads;
    LocalSlice(attend, queries, kvs, world, r);
  }

  /** The attention layer survives tensor parallelism as a whole: for every head count and world
      size the checks accept, with key/value heads split or replicated, the ranks together
      compute what one rank computes. */
  lemma ShardedLayerIsAttentionLayer(attend: (Vector, History) -> Vector, w: Weights, xs: seq<Vector>, hidden: nat,
                                     queryHeads: nat, kvHeads: nat, world: nat)
    requires WeightsOk(w, hidden, queryHeads, kvHeads) && InputsOk(xs, hidden) && AttendOk(attend, w.size)
    requires world > 0 && PlanHeads(queryHeads, kvHeads, world, 0).Ok?
    ensures forall r | 0 <= r < world :: RankOk(queryHeads, kvHeads, world, r)
    ensures ShardedForward(attend, w, xs, hidden, queryHeads, kvHeads, world)
            == AttentionLayer(attend, w, xs, hidden, queryHeads, kvHeads)
  {
    assert forall r | 0 <= r < world :: RankOk(queryHeads, kvHeads, world, r);
    hide PlanHeads, CutAt, RankHeads, AllQueries, AllHistories, Linear;
    var out := AttendHeads(attend, AllQueries(w, xs, hidden, queryHeads, kvHeads),
                           AllHistories(w, xs, hidden, queryHeads, kvHeads));
    HeadSizes(attend, AllQueries(w, xs, hidden, queryHeads, kvHeads),
              AllHistories(w, xs, hidden, queryHeads, kvHeads), w.size);
    ConcatLength(out, w.size);
    var x := Concat(out);
    var locals := seq(world, r requires 0 <= r < world =>
                      RankOutput(attend, w, xs, hidden, queryHeads, kvHeads, world, r));
    var rows := seq(world, r requires 0 <= r < world => RowLocal(x, w.wo, world, r));
    forall r | 0 <= r < world ensures locals[r] == rows[r] {
      HeadsAreSlice(attend, w, xs, hidden, queryHeads, kvHeads, world, r);
    }
    assert locals == rows;
    RowParallelIsLinear(x, w.wo, w.bo, world);
  }

  /** What one rank alone computes: the input of the output projection holds, head by head, the
      attention of that slice of the last position's query over the slices of all positions' keys
      and values that belong to its key/value head. */
  lemma LayerHead(attend: (Vector, History) -> Vector, w: Weights, xs: seq<Vector>, hidden: nat,
                  queryHeads: nat, kvHeads: nat, h: nat, kv: History)
    requires WeightsOk(w, hidden, queryHeads, kvHeads) && InputsOk(xs, hidden) && AttendOk(attend, w.size)
    requires h < queryHeads && |kv| == |xs|
    requires var g := SharedHead(queryHeads, kvHeads, h);
             && 0 <= g * w.size <= (g + 1) * w.size <= kvHeads * w.size
             && forall j | 0 <= j < |xs| ::
                  && kv[j].0 == Linear(xs[j], w.wk, w.bk)[g * w.size..(g + 1) * w.size]
                  && kv[j].1 == Linear(xs[j], w.wv, w.bv)[g * w.size..(g + 1) * w.size]
    ensures 0 <= h * w.size <= (h + 1) * w.size <= queryHeads * w.size
    ensures var x := Concat(AttendHeads(attend, AllQueries(w, xs, hidden, queryHeads, kvHeads),
                                        AllHistories(w, xs, hidden, queryHeads, kvHeads)));
            && |x| == queryHeads * w.size
            && AttentionLayer(attend, w, xs, hidden, queryHeads, kvHeads) == Linear(x, w.wo, w.bo)
            && x[h * w.size..(h + 1) * w.size]
               == attend(Linear(xs[|xs| - 1], w.wq, w.bq)[h * w.size..(h + 1) * w.size], kv)
  {
    hide Dot, Concat;
    var queries := AllQueries(w, xs, hidden, queryHeads, kvHeads);
    var kvs := AllHistories(w, xs, hidden, queryHeads, kvHeads);
    var out := AttendHeads(attend, queries, kvs);
    ScaleMonotone(w.size, h, h + 1);
    ScaleMonotone(w.size, h + 1, queryHeads);
    HeadSizes(attend, queries, kvs, w.size);
    ConcatPart(out, w.size, h, 1);
    ConcatOne(out, h);
    assert kvs[SharedHead(queryHeads, kvHeads, h)] == kv;
  }

  lemma ConcatOne<T>(heads: seq<seq<T>>, h: nat)
    requires h < |heads|
    ensures Concat(heads[h..h + 1]) == heads[h]
  {
    assert heads[h..h + 1] == [heads[h]] && [heads[h]][1..] == [];
  }
}
