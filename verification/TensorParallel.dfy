/** How a dimension is cut over ranks, and why parallel layers compute what one rank would
    (src/light_vllm/modeling/tensor_parallel.py). Arithmetic is exact. */
module TensorParallel {
  import opened Collections

  datatype PartitionError = BadDimension | BadWorldSize | BadRank | WorldTooLarge | UnknownToken

  datatype Partition = Partition(total: nat, rank: nat, world: nat, start: nat, end: nat, sizes: seq<nat>)

  // ---- cutting a dimension -----------------------------------------------------------------

  function Sizes(total: nat, world: nat): (sizes: seq<nat>)
    requires world > 0
    ensures |sizes| == world
  {
    seq(world, index => total / world + if index < total % world then 1 else 0)
  }

  function Total(sizes: seq<nat>): nat {
    if sizes == [] then 0 else Total(sizes[..|sizes| - 1]) + sizes[|sizes| - 1]
  }

  function PartitionDimension(total: int, rank: int, world: int): Result<Partition, PartitionError> {
    if total <= 0 then Err(BadDimension)
    else if world <= 0 then Err(BadWorldSize)
    else if !(0 <= rank < world) then Err(BadRank)
    else
      var sizes := Sizes(total, world);
      if exists r | 0 <= r < world :: sizes[r] == 0 then Err(WorldTooLarge)
      else
        var start := Total(sizes[..rank]);
        Ok(Partition(total, rank, world, start, start + sizes[rank], sizes))
  }

  /** Where rank r begins; rank r ends where rank r + 1 begins. */
  function CutAt(total: nat, world: nat, r: nat): (at: nat)
    requires world > 0 && r <= world
  {
    r * (total / world) + Min(r, total % world)
  }

  lemma {:induction false} StartIsCut(total: nat, world: nat, r: nat)
    requires world > 0 && r <= world
    ensures Total(Sizes(total, world)[..r]) == CutAt(total, world, r)
  {
    if r > 0 {
      StartIsCut(total, world, r - 1);
      assert Sizes(total, world)[..r][..r - 1] == Sizes(total, world)[..r - 1];
      assert r * (total / world) == (r - 1) * (total / world) + total / world;
    }
  }

  lemma CutsOrdered(total: nat, world: nat, r: nat)
    requires world > 0 && r < world
    ensures CutAt(total, world, r) <= CutAt(total, world, r + 1) <= total
    ensures CutAt(total, world, 0) == 0 && CutAt(total, world, world) == total
  {
    var (base, rest) := (total / world, total % world);
    assert total == world * base + rest;
    ScaleMonotone(base, r, r + 1);
    ScaleMonotone(base, r + 1, world);
  }

  lemma CutStep(total: nat, world: nat, r: nat)
    requires world > 0 && r < world
    ensures CutAt(total, world, r + 1) == CutAt(total, world, r) + Sizes(total, world)[r]
    ensures total / world <= Sizes(total, world)[r] <= total / world + 1
  {
    assert (r + 1) * (total / world) == r * (total / world) + total / world;
  }

  lemma SmallestPiece(total: nat, world: nat)
    requires world > 0
    ensures world <= total ==> total / world > 0
    ensures total < world ==> Sizes(total, world)[world - 1] == 0
  {
  }

  /** The partition of every rank: which one is refused and why, where it starts and ends, and
      that the ranks differ by at most one element, earlier ranks holding the longer pieces. */
  lemma PartitionIsCut(total: int, rank: int, world: int)
    ensures var p := PartitionDimension(total, rank, world);
            if total <= 0 then p == Err(BadDimension)
            else if world <= 0 then p == Err(BadWorldSize)
            else if !(0 <= rank < world) then p == Err(BadRank)
            else if world > total then p == Err(WorldTooLarge)
            else && p.Ok? && p.value.start == CutAt(total, world, rank) && p.value.end == CutAt(total, world, rank + 1)
                 && p.value.start < p.value.end <= total
                 && total / world <= p.value.end - p.value.start <= total / world + 1
                 && (rank < total % world <==> p.value.end - p.value.start == total / world + 1)
                 && Total(p.value.sizes) == total
  {
    if total > 0 && 0 <= rank < world { CutIsPiece(total, rank, world); }
  }

  lemma CutIsPiece(total: nat, rank: nat, world: nat)
    requires total > 0 && rank < world
    ensures var p := PartitionDimension(total, rank, world);
            if world > total then p == Err(WorldTooLarge)
            else && p.Ok? && p.value.start == CutAt(total, world, rank) && p.value.end == CutAt(total, world, rank + 1)
                 && p.value.start < p.value.end <= total
                 && total / world <= p.value.end - p.value.start <= total / world + 1
                 && (rank < total % world <==> p.value.end - p.value.start == total / world + 1)
                 && Total(p.value.sizes) == total
  {
    StartIsCut(total, world, rank);
    StartIsCut(total, world, world);
    CutsOrdered(total, world, rank);
    CutStep(total, world, rank);
    SmallestPiece(total, world);
    var sizes := Sizes(total, world);
    assert sizes[..world] == sizes;
    forall r | 0 <= r < world ensures total / world <= sizes[r] { CutStep(total, world, r); }
    hide CutAt, Sizes;
  }

  // ---- gathering and reducing --------------------------------------------------------------

  /** Every rank's slice of a full dimension. */
  function Slices<T>(xs: seq<T>, world: nat): (slices: seq<seq<T>>)
    requires world > 0
    ensures |slices| == world
  {
    seq(world, r requires 0 <= r < world => Slice(xs, world, r))
  }

  function Slice<T>(xs: seq<T>, world: nat, r: nat): (slice: seq<T>)
    requires r < world
    ensures |slice| == CutAt(|xs|, world, r + 1) - CutAt(|xs|, world, r)
    ensures CutAt(|xs|, world, r + 1) <= |xs|
    ensures forall k | 0 <= k < |slice| :: slice[k] == xs[CutAt(|xs|, world, r) + k]
  {
    CutsOrdered(|xs|, world, r);
    xs[CutAt(|xs|, world, r)..CutAt(|xs|, world, r + 1)]
  }

  lemma {:induction false} GatherPrefix<T>(xs: seq<T>, world: nat, r: nat)
    requires world > 0 && r <= world
    ensures CutAt(|xs|, world, r) <= |xs| && Concat(Slices(xs, world)[..r]) == xs[..CutAt(|xs|, world, r)]
  {
    if r > 0 {
      GatherPrefix(xs, world, r - 1);
      CutsOrdered(|xs|, world, r - 1);
      assert Slices(xs, world)[..r] == Slices(xs, world)[..r - 1] + [Slice(xs, world, r - 1)];
      ConcatAppend(Slices(xs, world)[..r - 1], Slice(xs, world, r - 1));
    }
  }

  /** Gathering the slices of all ranks gives the full dimension back. */
  lemma GatherRestores<T>(xs: seq<T>, world: nat)
    requires world > 0
    ensures Concat(Slices(xs, world)) == xs
  {
    GatherPrefix(xs, world, world);
    CutsOrdered(|xs|, world, 0);
    assert Slices(xs, world)[..world] == Slices(xs, world);
  }

  function Sum(xs: seq<real>): real {
    if xs == [] then 0.0 else Sum(xs[..|xs| - 1]) + xs[|xs| - 1]
  }

  lemma {:induction false} SumSplit(xs: seq<real>, k: nat)
    requires k <= |xs|
    ensures Sum(xs) == Sum(xs[..k]) + Sum(xs[k..])
    decreases |xs| - k
  {
    if k == |xs| {
      assert xs[..k] == xs;
    } else {
      var last := |xs| - 1;
      SumSplit(xs[..last], k);
      assert xs[..last][..k] == xs[..k] && xs[k..][..|xs[k..]| - 1] == xs[..last][k..];
    }
  }

  lemma {:induction false} ReducePrefix(xs: seq<real>, world: nat, r: nat)
    requires world > 0 && r <= world
    ensures CutAt(|xs|, world, r) <= |xs|
    ensures Sum(seq(r, q requires 0 <= q < r => Sum(Slice(xs, world, q)))) == Sum(xs[..CutAt(|xs|, world, r)])
  {
    if r > 0 {
      ReducePrefix(xs, world, r - 1);
      CutsOrdered(|xs|, world, r - 1);
      var sums := seq(r, q requires 0 <= q < r => Sum(Slice(xs, world, q)));
      assert sums[..r - 1] == seq(r - 1, q requires 0 <= q < r - 1 => Sum(Slice(xs, world, q)));
      var (a, b) := (CutAt(|xs|, world, r - 1), CutAt(|xs|, world, r));
      SumSplit(xs[..b], a);
      assert xs[..b][..a] == xs[..a] && xs[..b][a..] == Slice(xs, world, r - 1);
    }
  }

  /** Adding up what every rank's slice sums to is the full sum. */
  lemma ReduceRestores(xs: seq<real>, world: nat)
    requires world > 0
    ensures Sum(seq(world, r requires 0 <= r < world => Sum(Slice(xs, world, r)))) == Sum(xs)
  {
    ReducePrefix(xs, world, world);
    CutsOrdered(|xs|, world, 0);
    assert xs[..|xs|] == xs;
  }

  // ---- linear layers -----------------------------------------------------------------------

  function Products(x: seq<real>, w: seq<real>): (ps: seq<real>)
    requires |x| == |w|
    ensures |ps| == |x|
  {
    seq(|x|, i requires 0 <= i < |x| => x[i] * w[i])
  }

  function Dot(x: seq<real>, w: seq<real>): real
    requires |x| == |w|
  {
    Sum(Products(x, w))
  }

  predicate IsMatrix(rows: seq<seq<real>>, width: nat) {
    forall o | 0 <= o < |rows| :: |rows[o]| == width
  }

  /** One row of weights per output. */
  function Linear(x: seq<real>, weight: seq<seq<real>>, bias: Option<seq<real>>): (y: seq<real>)
    requires IsMatrix(weight, |x|) && (bias.Some? ==> |bias.value| == |weight|)
    ensures |y| == |weight|
  {
    seq(|weight|, o requires 0 <= o < |weight| => Dot(x, weight[o]) + if bias.Some? then bias.value[o] else 0.0)
  }

  function Scale(c: real, x: seq<real>): (y: seq<real>)
    ensures |y| == |x|
  {
    seq(|x|, i requires 0 <= i < |x| => c * x[i])
  }

  function Add(x: seq<real>, y: seq<real>): (z: seq<real>)
    requires |x| == |y|
    ensures |z| == |x|
  {
    seq(|x|, i requires 0 <= i < |x| => x[i] + y[i])
  }

  lemma {:induction false} SumLinear(c: real, x: seq<real>, y: seq<real>, z: seq<real>)
    requires |x| == |y| == |z| && forall i | 0 <= i < |x| :: z[i] == c * x[i] + y[i]
    ensures Sum(z) == c * Sum(x) + Sum(y)
  {
    if x != [] {
      var last := |x| - 1;
      SumLinear(c, x[..last], y[..last], z[..last]);
      assert c * (Sum(x[..last]) + x[last]) == c * Sum(x[..last]) + c * x[last];
    }
  }

  lemma ProductLinear(c: real, x: real, y: real, w: real)
    ensures (c * x + y) * w == c * (x * w) + y * w
  {
    assert (c * x) * w == c * (x * w);
  }

  lemma DotLinear(c: real, x: seq<real>, y: seq<real>, w: seq<real>)
    requires |x| == |y| == |w|
    ensures Dot(Add(Scale(c, x), y), w) == c * Dot(x, w) + Dot(y, w)
  {
    var z := Products(Add(Scale(c, x), y), w);
    forall i | 0 <= i < |x| ensures z[i] == c * Products(x, w)[i] + Products(y, w)[i] {
      ProductLinear(c, x[i], y[i], w[i]);
    }
    hide Products, Add, Scale, Sum;
    SumLinear(c, Products(x, w), Products(y, w), z);
  }

  /** The unit vector of input i. */
  function Unit(n: nat, i: nat): (e: seq<real>)
    ensures |e| == n
  {
    seq(n, j requires 0 <= j < n => if j == i then 1.0 else 0.0)
  }

  lemma DotUnit(w: seq<real>, i: nat)
    requires i < |w|
    ensures Dot(Unit(|w|, i), w) == w[i]
  {
    SumOfOne(Products(Unit(|w|, i), w), i);
  }

  /** A layer without bias is the linear map with the given matrix: it respects sums and multiples, and
      sends the i-th unit vector to the i-th column. A bias is added on top. */
  lemma LinearIsMatrix(c: real, x: seq<real>, y: seq<real>, weight: seq<seq<real>>, bias: seq<real>, i: nat, o: nat)
    requires IsMatrix(weight, |x|) && |y| == |x| && |bias| == |weight| && i < |x| && o < |weight|
    ensures Linear(Add(Scale(c, x), y), weight, None)[o] == c * Linear(x, weight, None)[o] + Linear(y, weight, None)[o]
    ensures Linear(Unit(|x|, i), weight, None)[o] == weight[o][i]
    ensures Linear(x, weight, Some(bias))[o] == Linear(x, weight, None)[o] + bias[o]
  {
    hide Dot;
    DotLinear(c, x, y, weight[o]);
    DotUnit(weight[o], i);
  }

  /** Each rank holds some outputs, with their rows and biases. */
  function ColumnLocal(x: seq<real>, weight: seq<seq<real>>, bias: Option<seq<real>>, world: nat, r: nat): seq<real>
    requires r < world && IsMatrix(weight, |x|) && (bias.Some? ==> |bias.value| == |weight|)
  {
    CutsOrdered(|weight|, world, r);
    Linear(x, Slice(weight, world, r), if bias.Some? then Some(Slice(bias.value, world, r)) else None)
  }

  /** ColumnParallelLinear with gathered output computes the whole layer. */
  lemma ColumnParallelIsLinear(x: seq<real>, weight: seq<seq<real>>, bias: Option<seq<real>>, world: nat)
    requires world > 0 && IsMatrix(weight, |x|) && (bias.Some? ==> |bias.value| == |weight|)
    ensures forall r | 0 <= r < world ::
              ColumnLocal(x, weight, bias, world, r) == Slice(Linear(x, weight, bias), world, r)
    ensures Concat(seq(world, r requires 0 <= r < world => ColumnLocal(x, weight, bias, world, r)))
            == Linear(x, weight, bias)
  {
    hide CutAt, Dot, Slice;
    var y := Linear(x, weight, bias);
    forall r | 0 <= r < world ensures ColumnLocal(x, weight, bias, world, r) == Slice(y, world, r) {
      CutsOrdered(|weight|, world, r);
    }
    assert seq(world, r requires 0 <= r < world => ColumnLocal(x, weight, bias, world, r)) == Slices(y, world);
    GatherRestores(y, world);
  }

  function ColumnsOf(weight: seq<seq<real>>, width: nat, world: nat, r: nat): (columns: seq<seq<real>>)
    requires r < world && IsMatrix(weight, width)
    ensures |columns| == |weight| && IsMatrix(columns, CutAt(width, world, r + 1) - CutAt(width, world, r))
    ensures forall o | 0 <= o < |weight| :: columns[o] == Slice(weight[o], world, r)
  {
    seq(|weight|, o requires 0 <= o < |weight| => Slice(weight[o], world, r))
  }

  /** Each rank holds some inputs, and the columns that belong to them. */
  function RowLocal(x: seq<real>, weight: seq<seq<real>>, world: nat, r: nat): (y: seq<real>)
    requires r < world && IsMatrix(weight, |x|)
    ensures |y| == |weight|
  {
    Linear(Slice(x, world, r), ColumnsOf(weight, |x|, world, r), None)
  }

  /** The sum over ranks of one output. */
  function ReduceAt(locals: seq<seq<real>>, o: nat): real
    requires forall r | 0 <= r < |locals| :: o < |locals[r]|
  {
    Sum(seq(|locals|, r requires 0 <= r < |locals| => locals[r][o]))
  }

  function AllReduceSum(locals: seq<seq<real>>, width: nat): (y: seq<real>)
    requires forall r | 0 <= r < |locals| :: |locals[r]| == width
    ensures |y| == width
  {
    seq(width, o requires 0 <= o < width => ReduceAt(locals, o))
  }

  function AddBias(y: seq<real>, bias: Option<seq<real>>): (z: seq<real>)
    requires bias.Some? ==> |bias.value| == |y|
    ensures |z| == |y|
  {
    seq(|y|, o requires 0 <= o < |y| => y[o] + if bias.Some? then bias.value[o] else 0.0)
  }

  function RowForward(x: seq<real>, weight: seq<seq<real>>, bias: Option<seq<real>>, world: nat): seq<real>
    requires world > 0 && IsMatrix(weight, |x|) && (bias.Some? ==> |bias.value| == |weight|)
  {
    AddBias(AllReduceSum(seq(world, r requires 0 <= r < world => RowLocal(x, weight, world, r)), |weight|), bias)
  }

  function DotOf(x: seq<real>, w: seq<real>, world: nat, r: nat): real
    requires r < world && |x| == |w|
  {
    Dot(Slice(x, world, r), Slice(w, world, r))
  }

  lemma RowAt(x: seq<real>, w: seq<real>, world: nat)
    requires world > 0 && |x| == |w|
    ensures Sum(seq(world, r requires 0 <= r < world => DotOf(x, w, world, r))) == Dot(x, w)
  {
    hide CutAt, Sum, Slice;
    var ps := Products(x, w);
    ReduceRestores(ps, world);
    forall r | 0 <= r < world ensures Sum(Slice(ps, world, r)) == DotOf(x, w, world, r) {
      var (a, b, p) := (Slice(x, world, r), Slice(w, world, r), Slice(ps, world, r));
      forall k | 0 <= k < |p| ensures Products(a, b)[k] == p[k] {
        var at := CutAt(|x|, world, r) + k;
        assert a[k] == x[at] && b[k] == w[at] && p[k] == ps[at];
      }
      assert Products(a, b) == p;
    }
    assert seq(world, r requires 0 <= r < world => Sum(Slice(ps, world, r)))
        == seq(world, r requires 0 <= r < world => DotOf(x, w, world, r));
  }

  /** RowParallelLinear computes the whole layer: the bias is added once, after the reduction. */
  lemma RowParallelIsLinear(x: seq<real>, weight: seq<seq<real>>, bias: Option<seq<real>>, world: nat)
    requires world > 0 && IsMatrix(weight, |x|) && (bias.Some? ==> |bias.value| == |weight|)
    ensures RowForward(x, weight, bias, world) == Linear(x, weight, bias)
  {
    var locals := seq(world, r requires 0 <= r < world => RowLocal(x, weight, world, r));
    forall o | 0 <= o < |weight| ensures ReduceAt(locals, o) == Dot(x, weight[o]) {
      RowAt(x, weight[o], world);
      assert seq(world, r requires 0 <= r < world => locals[r][o])
          == seq(world, r requires 0 <= r < world => DotOf(x, weight[o], world, r));
    }
  }

  // ---- vocabulary --------------------------------------------------------------------------

  /** A rank looks up the tokens it owns and contributes zeros for the others. */
  function EmbedLocal(weight: seq<seq<real>>, dim: nat, token: nat, world: nat, r: nat): (y: seq<real>)
    requires r < world && IsMatrix(weight, dim)
    ensures |y| == dim
  {
    CutsOrdered(|weight|, world, r);
    var (start, end) := (CutAt(|weight|, world, r), CutAt(|weight|, world, r + 1));
    if start <= token < end then Slice(weight, world, r)[token - start] else seq(dim, _ => 0.0)
  }

  function EmbedForward(weight: seq<seq<real>>, dim: nat, token: int, world: nat): Result<seq<real>, PartitionError>
    requires world > 0 && IsMatrix(weight, dim)
  {
    if !(0 <= token < |weight|) then Err(UnknownToken)
    else if world == 1 then Ok(weight[token])
    else Ok(AllReduceSum(seq(world, r requires 0 <= r < world => EmbedLocal(weight, dim, token, world, r)), dim))
  }

  /** Exactly one rank owns a token. */
  lemma {:induction false} OwnerBelow(total: nat, world: nat, token: nat, r: nat)
    requires 0 < r <= world && token < CutAt(total, world, r)
    ensures exists owner :: 0 <= owner < r && CutAt(total, world, owner) <= token < CutAt(total, world, owner + 1)
  {
    if CutAt(total, world, r - 1) <= token {
      assert CutAt(total, world, r - 1) <= token < CutAt(total, world, (r - 1) + 1);
    } else {
      CutsOrdered(total, world, 0);
      OwnerBelow(total, world, token, r - 1);
    }
  }

  lemma {:induction false} CutsMonotone(total: nat, world: nat, a: nat, b: nat)
    requires world > 0 && a <= b <= world
    ensures CutAt(total, world, a) <= CutAt(total, world, b)
    decreases b - a
  {
    if a < b {
      CutsOrdered(total, world, a);
      CutsMonotone(total, world, a + 1, b);
    }
  }

  lemma {:induction false} SumOfOne(xs: seq<real>, at: nat)
    requires at < |xs| && forall i | 0 <= i < |xs| && i != at :: xs[i] == 0.0
    ensures Sum(xs) == xs[at]
  {
    var last := |xs| - 1;
    if at < last { SumOfOne(xs[..last], at); } else { SumOfNone(xs[..last]); }
  }

  lemma {:induction false} SumOfNone(xs: seq<real>)
    requires forall i | 0 <= i < |xs| :: xs[i] == 0.0
    ensures Sum(xs) == 0.0
  {
    if xs != [] { SumOfNone(xs[..|xs| - 1]); }
  }

  lemma OnlyOwnerEmbeds(weight: seq<seq<real>>, dim: nat, token: nat, world: nat, owner: nat, r: nat)
    requires owner < world && r < world && IsMatrix(weight, dim) && token < |weight|
    requires CutAt(|weight|, world, owner) <= token < CutAt(|weight|, world, owner + 1)
    ensures EmbedLocal(weight, dim, token, world, r) == if r == owner then weight[token] else seq(dim, _ => 0.0)
  {
    hide CutAt;
    CutsOrdered(|weight|, world, r);
    if r < owner { CutsMonotone(|weight|, world, r + 1, owner); }
    if owner < r { CutsMonotone(|weight|, world, owner + 1, r); }
  }

  /** VocabParallelEmbedding looks up the full table, for every known token and no other. */
  lemma VocabParallelIsEmbedding(weight: seq<seq<real>>, dim: nat, token: int, world: nat)
    requires world > 0 && IsMatrix(weight, dim)
    ensures EmbedForward(weight, dim, token, world) == if 0 <= token < |weight| then Ok(weight[token])
            else Err(UnknownToken)
  {
    if 0 <= token < |weight| && world > 1 {
      CutsOrdered(|weight|, world, 0);
      OwnerBelow(|weight|, world, token, world);
      var owner :| 0 <= owner < world && CutAt(|weight|, world, owner) <= token < CutAt(|weight|, world, owner + 1);
      var locals := seq(world, r requires 0 <= r < world => EmbedLocal(weight, dim, token, world, r));
      forall r | 0 <= r < world
        ensures locals[r] == if r == owner then weight[token] else seq(dim, _ => 0.0)
      {
        OnlyOwnerEmbeds(weight, dim, token, world, owner, r);
      }
      hide EmbedLocal, CutAt;
      forall o | 0 <= o < dim ensures ReduceAt(locals, o) == weight[token][o] {
        SumOfOne(seq(world, r requires 0 <= r < world => locals[r][o]), owner);
      }
      assert AllReduceSum(locals, dim) == weight[token];
    }
  }
}
