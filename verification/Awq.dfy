/** Packed four-bit weights and how they are cut over ranks
    (src/light_vllm/modeling/quantization/awq.py). A word is the bits of an int32; sums and
    products of reals are exact. */
module Awq {
  import opened Collections
  import opened TensorParallel

  datatype AwqError = BadShape | OutOfRange | Unaligned

  const PACK_ORDER: seq<nat> := [0, 2, 4, 6, 1, 3, 5, 7]

  function IndexOf(order: seq<nat>, x: nat): (at: nat)
    requires x in order
    ensures at < |order| && order[at] == x
  {
    if order[0] == x then 0 else 1 + IndexOf(order[1..], x)
  }

  /** The inverse order, computed from the pack order. */
  function UnpackOrder(): (order: seq<nat>)
    ensures order == [0, 4, 1, 5, 2, 6, 3, 7]
  {
    assert PACK_ORDER[1..] == [2, 4, 6, 1, 3, 5, 7];
    assert PACK_ORDER[1..][1..] == [4, 6, 1, 3, 5, 7];
    seq(8, i requires 0 <= i < 8 => (assert i in PACK_ORDER by { AllPacked(i); } IndexOf(PACK_ORDER, i)))
  }

  lemma AllPacked(i: nat)
    requires i < 8
    ensures i in PACK_ORDER
  {
    assert PACK_ORDER[0] == 0 && PACK_ORDER[1] == 2 && PACK_ORDER[2] == 4 && PACK_ORDER[3] == 6;
    assert PACK_ORDER[4] == 1 && PACK_ORDER[5] == 3 && PACK_ORDER[6] == 5 && PACK_ORDER[7] == 7;
  }

  // ---- one word ----------------------------------------------------------------------------

  /** The right shift of a signed word copies the sign bit. */
  function ShiftRight(w: bv32, n: bv6): bv32
    requires n <= 32
  {
    if w & 0x8000_0000 == 0 then w >> n else !(!w >> n)
  }

  /** The shift keeps the sign. */
  lemma ShiftKeepsSign(w: bv32, n: bv6)
    requires n <= 31
    ensures ShiftRight(w, n) & 0x8000_0000 == w & 0x8000_0000
  {
  }

  function Nibble(w: bv32, n: bv6): bv32
    requires n <= 32
  {
    ShiftRight(w, n) & 0xF
  }

  /** Eight nibbles from the lowest bits up; the sum wraps into the sign bit. */
  function Join(a: bv32, b: bv32, c: bv32, d: bv32, e: bv32, f: bv32, g: bv32, h: bv32): bv32 {
    a + (b << 4) + (c << 8) + (d << 12) + (e << 16) + (f << 20) + (g << 24) + (h << 28)
  }

  function PackWord(v: seq<bv32>): bv32
    requires |v| == 8
  {
    Join(v[PACK_ORDER[0]], v[PACK_ORDER[1]], v[PACK_ORDER[2]], v[PACK_ORDER[3]],
         v[PACK_ORDER[4]], v[PACK_ORDER[5]], v[PACK_ORDER[6]], v[PACK_ORDER[7]])
  }

  function UnpackWord(w: bv32): (v: seq<bv32>)
    ensures |v| == 8
  {
    var slots := [Nibble(w, 0), Nibble(w, 4), Nibble(w, 8), Nibble(w, 12), Nibble(w, 16), Nibble(w, 20),
                  Nibble(w, 24), Nibble(w, 28)];
    var order := UnpackOrder();
    [slots[order[0]], slots[order[1]], slots[order[2]], slots[order[3]], slots[order[4]], slots[order[5]],
     slots[order[6]], slots[order[7]]]
  }

  lemma JoinSplits(a: bv32, b: bv32, c: bv32, d: bv32, e: bv32, f: bv32, g: bv32, h: bv32)
    requires a < 16 && b < 16 && c < 16 && d < 16 && e < 16 && f < 16 && g < 16 && h < 16
    ensures var w := Join(a, b, c, d, e, f, g, h);
            && Nibble(w, 0) == a && Nibble(w, 4) == b && Nibble(w, 8) == c && Nibble(w, 12) == d
            && Nibble(w, 16) == e && Nibble(w, 20) == f && Nibble(w, 24) == g && Nibble(w, 28) == h
  {
  }

  /** The copied sign bits never reach the nibble that is kept. */
  lemma SignDoesNotShow(w: bv32, n: bv6)
    requires n <= 28
    ensures Nibble(w, n) == (w >> n) & 0xF
  {
  }

  lemma SplitBits(w: bv32)
    ensures (w & 0xF) + (((w >> 4) & 0xF) << 4) + (((w >> 8) & 0xF) << 8) + (((w >> 12) & 0xF) << 12)
            + (((w >> 16) & 0xF) << 16) + (((w >> 20) & 0xF) << 20) + (((w >> 24) & 0xF) << 24)
                + (((w >> 28) & 0xF) << 28) == w
  {
  }

  lemma SplitJoins(w: bv32)
    ensures Join(Nibble(w, 0), Nibble(w, 4), Nibble(w, 8), Nibble(w, 12), Nibble(w, 16), Nibble(w, 20),
                 Nibble(w, 24), Nibble(w, 28)) == w
  {
    hide Nibble;
    SignDoesNotShow(w, 0); SignDoesNotShow(w, 4); SignDoesNotShow(w, 8); SignDoesNotShow(w, 12);
    SignDoesNotShow(w, 16); SignDoesNotShow(w, 20); SignDoesNotShow(w, 24); SignDoesNotShow(w, 28);
    SplitBits(w);
  }

  predicate IsNibble(v: bv32) { v < 16 }

  lemma NibbleRange(w: bv32, n: bv6)
    requires n <= 32
    ensures IsNibble(Nibble(w, n))
  {
  }

  lemma UnpackPackWord(v: seq<bv32>)
    requires |v| == 8 && forall i | 0 <= i < 8 :: IsNibble(v[i])
    ensures UnpackWord(PackWord(v)) == v
  {
    hide Nibble, Join;
    JoinSplits(v[0], v[2], v[4], v[6], v[1], v[3], v[5], v[7]);
    var w := PackWord(v);
    assert w == Join(v[0], v[2], v[4], v[6], v[1], v[3], v[5], v[7]);
    assert UnpackWord(w) == [Nibble(w, 0), Nibble(w, 16), Nibble(w, 4), Nibble(w, 20), Nibble(w, 8), Nibble(w, 24),
                             Nibble(w, 12), Nibble(w, 28)];
  }

  lemma PackUnpackWord(w: bv32)
    ensures PackWord(UnpackWord(w)) == w
    ensures forall i | 0 <= i < 8 :: IsNibble(UnpackWord(w)[i])
  {
    hide Nibble, Join;
    SplitJoins(w);
    NibbleRange(w, 0); NibbleRange(w, 4); NibbleRange(w, 8); NibbleRange(w, 12);
    NibbleRange(w, 16); NibbleRange(w, 20); NibbleRange(w, 24); NibbleRange(w, 28);
    var v := UnpackWord(w);
    assert v == [Nibble(w, 0), Nibble(w, 16), Nibble(w, 4), Nibble(w, 20), Nibble(w, 8), Nibble(w, 24),
                 Nibble(w, 12), Nibble(w, 28)];
  }

  // ---- rows of words -----------------------------------------------------------------------

  function UnpackRow(row: seq<bv32>): (values: seq<bv32>)
    ensures |values| == 8 * |row|
  {
    seq(8 * |row|, k requires 0 <= k < 8 * |row| => UnpackWord(row[k / 8])[k % 8])
  }

  function PackRow(values: seq<bv32>): (row: seq<bv32>)
    requires |values| % 8 == 0
    ensures |row| == |values| / 8
  {
    seq(|values| / 8, j requires 0 <= j < |values| / 8 => PackWord(values[8 * j..8 * j + 8]))
  }

  /** pack_awq: widths are multiples of eight and values lie in 0..15; a negative int32 has its
      top bit set and so is out of range as well. */
  function Pack(rows: seq<seq<bv32>>): Result<seq<seq<bv32>>, AwqError> {
    if exists i | 0 <= i < |rows| :: |rows[i]| % 8 != 0 then Err(BadShape)
    else if exists i | 0 <= i < |rows| :: !AllNibbles(rows[i]) then Err(OutOfRange)
    else Ok(seq(|rows|, i requires 0 <= i < |rows| => PackRow(rows[i])))
  }

  predicate AllNibbles(row: seq<bv32>) {
    forall k | 0 <= k < |row| :: IsNibble(row[k])
  }

  function Unpack(rows: seq<seq<bv32>>): (values: seq<seq<bv32>>)
    ensures |values| == |rows|
  {
    seq(|rows|, i requires 0 <= i < |rows| => UnpackRow(rows[i]))
  }

  lemma UnpackPackRow(values: seq<bv32>)
    requires |values| % 8 == 0 && AllNibbles(values)
    ensures UnpackRow(PackRow(values)) == values
  {
    hide PackWord, UnpackWord, IsNibble;
    forall k | 0 <= k < |values| ensures UnpackRow(PackRow(values))[k] == values[k] {
      var j := k / 8;
      var group := values[8 * j..8 * j + 8];
      UnpackPackWord(group);
      assert group[k % 8] == values[k];
    }
  }

  lemma PackUnpackRow(row: seq<bv32>)
    ensures PackRow(UnpackRow(row)) == row && AllNibbles(UnpackRow(row))
  {
    hide PackWord, UnpackWord, IsNibble;
    forall j | 0 <= j < |row| ensures PackRow(UnpackRow(row))[j] == row[j] {
      PackUnpackWord(row[j]);
      assert UnpackRow(row)[8 * j..8 * j + 8] == UnpackWord(row[j]);
    }
    forall k | 0 <= k < 8 * |row| ensures IsNibble(UnpackRow(row)[k]) {
      PackUnpackWord(row[k / 8]);
    }
  }

  /** Packing is undone by unpacking, for every table of nibbles. */
  lemma UnpackPack(rows: seq<seq<bv32>>)
    ensures Pack(rows).Ok? <==> forall i | 0 <= i < |rows| :: |rows[i]| % 8 == 0 && AllNibbles(rows[i])
    ensures Pack(rows).Ok? ==> Unpack(Pack(rows).value) == rows
  {
    hide PackRow, UnpackRow;
    if Pack(rows).Ok? {
      forall i | 0 <= i < |rows| ensures Unpack(Pack(rows).value)[i] == rows[i] { UnpackPackRow(rows[i]); }
    }
  }

  /** Unpacking is undone by packing, for every table of words, negative ones included. */
  lemma PackUnpack(rows: seq<seq<bv32>>)
    ensures Pack(Unpack(rows)) == Ok(rows)
  {
    hide PackRow, UnpackRow, AllNibbles;
    forall i | 0 <= i < |rows| ensures PackRow(UnpackRow(rows[i])) == rows[i] && AllNibbles(UnpackRow(rows[i])) {
      PackUnpackRow(rows[i]);
    }
    assert Pack(Unpack(rows)).value == rows;
  }

  /** Cutting packed columns cuts the values eight times as far out. */
  lemma UnpackSlice(row: seq<bv32>, a: nat, b: nat)
    requires a <= b <= |row|
    ensures UnpackRow(row[a..b]) == UnpackRow(row)[8 * a..8 * b]
  {
    hide UnpackWord;
  }

  lemma UnpackConcat(a: seq<bv32>, b: seq<bv32>)
    ensures UnpackRow(a + b) == UnpackRow(a) + UnpackRow(b)
  {
    hide UnpackWord;
    forall k | 0 <= k < 8 * |a + b| ensures UnpackRow(a + b)[k] == (UnpackRow(a) + UnpackRow(b))[k] {
      if k >= 8 * |a| {
        assert (k - 8 * |a|) / 8 == k / 8 - |a|;
      }
    }
  }

  // ---- dequantized weights -----------------------------------------------------------------

  /** The three stored tensors; rows run over inputs or input groups, columns over outputs. */
  datatype Weight = Weight(qweight: seq<seq<bv32>>, qzeros: seq<seq<bv32>>, scales: seq<seq<real>>)

  /** How many whole groups lie before an input; so also the group of that input. */
  function Groups(i: nat, group: nat): nat
    requires group > 0
  {
    i / group
  }

  predicate WeightOk(w: Weight, inputs: nat, outputs: nat, group: nat) {
    && 0 < group && inputs % group == 0 && outputs % 8 == 0
    && |w.qweight| == inputs && |w.qzeros| == |w.scales| == Groups(inputs, group)
    && (forall i | 0 <= i < inputs :: |w.qweight[i]| == outputs / 8)
    && (forall g | 0 <= g < Groups(inputs, group) :: |w.qzeros[g]| == outputs / 8 && |w.scales[g]| == outputs)
  }

  lemma GroupInRange(inputs: nat, group: nat, i: nat)
    requires 0 < group && inputs % group == 0 && i < inputs
    ensures Groups(i, group) < Groups(inputs, group)
  {
    assert i / group * group <= i < inputs == inputs / group * group;
    Cancel(group, i / group, inputs / group - 1);
  }

  function Scaled(weight: bv32, zero: bv32, scale: real): real {
    (weight as int - zero as int) as real * scale
  }

  /** (weight - zero) * scale, from the rows of one input and its group. */
  function EntryOf(weights: seq<bv32>, zeros: seq<bv32>, scales: seq<real>, o: nat): real
    requires o < 8 * |weights| && o < 8 * |zeros| && o < |scales|
  {
    Scaled(UnpackRow(weights)[o], UnpackRow(zeros)[o], scales[o])
  }

  /** dequantize_awq, one entry: input i, output o. */
  function Dequantized(w: Weight, inputs: nat, outputs: nat, group: nat, i: nat, o: nat): real
    requires WeightOk(w, inputs, outputs, group) && i < inputs && o < outputs
  {
    GroupInRange(inputs, group, i);
    EntryOf(w.qweight[i], w.qzeros[Groups(i, group)], w.scales[Groups(i, group)], o)
  }

  /** The weights of one output over all inputs. */
  function DenseRow(w: Weight, inputs: nat, outputs: nat, group: nat, o: nat): (row: seq<real>)
    requires WeightOk(w, inputs, outputs, group) && o < outputs
    ensures |row| == inputs
  {
    seq(inputs, i requires 0 <= i < inputs => Dequantized(w, inputs, outputs, group, i, o))
  }

  function Dense(w: Weight, inputs: nat, outputs: nat, group: nat): (rows: seq<seq<real>>)
    requires WeightOk(w, inputs, outputs, group)
    ensures |rows| == outputs && IsMatrix(rows, inputs)
  {
    seq(outputs, o requires 0 <= o < outputs => DenseRow(w, inputs, outputs, group, o))
  }

  /** The group sizes AWQConfig accepts; -1 stands for one group over all inputs. */
  type GroupConfig = c: int | c == -1 || c > 0 witness -1

  function GroupOf(inputs: nat, config: GroupConfig): nat {
    if config == -1 then inputs else config
  }

  /** What was packed comes back: a dense weight is the stored value less the zero point of its
      group, times the scale of its group. Group size -1 means one group for all inputs. */
  lemma DenseIsDequantized(w: Weight, inputs: nat, outputs: nat, config: GroupConfig, values: seq<seq<bv32>>,
                           zeros: seq<seq<bv32>>, o: nat, i: nat)
    requires i < inputs && o < outputs && WeightOk(w, inputs, outputs, GroupOf(inputs, config))
    requires Pack(values) == Ok(w.qweight) && Pack(zeros) == Ok(w.qzeros)
    ensures var g := if config == -1 then 0 else i / config;
            && |values| == inputs && |values[i]| == outputs && g < |zeros| == |w.scales|
            && |zeros[g]| == outputs == |w.scales[g]|
            && Dense(w, inputs, outputs, GroupOf(inputs, config))[o][i]
               == (values[i][o] as int - zeros[g][o] as int) as real * w.scales[g][o]
  {
    hide PackRow, UnpackRow, AllNibbles;
    UnpackPack(values);
    UnpackPack(zeros);
    GroupInRange(inputs, GroupOf(inputs, config), i);
    var g := Groups(i, GroupOf(inputs, config));
    if config == -1 { assert i / inputs == 0; }
    assert Unpack(w.qweight)[i] == UnpackRow(w.qweight[i]) && Unpack(w.qzeros)[g] == UnpackRow(w.qzeros[g]);
  }

  // ---- column shards -----------------------------------------------------------------------

  function ColumnsOfRow<T>(rows: seq<seq<T>>, start: nat, end: nat): (cut: seq<seq<T>>)
    requires start <= end && forall i | 0 <= i < |rows| :: end <= |rows[i]|
    ensures |cut| == |rows| && forall i | 0 <= i < |rows| :: |cut[i]| == end - start
  {
    seq(|rows|, i requires 0 <= i < |rows| => rows[i][start..end])
  }

  /** What a rank loads when outputs are cut at eight-aligned places. */
  function ColumnShard(w: Weight, inputs: nat, outputs: nat, group: nat, start: nat, end: nat): (shard: Weight)
    requires WeightOk(w, inputs, outputs, group) && start <= end <= outputs && start % 8 == 0 && end % 8 == 0
    ensures WeightOk(shard, inputs, end - start, group)
  {
    Weight(ColumnsOfRow(w.qweight, start / 8, end / 8),
           ColumnsOfRow(w.qzeros, start / 8, end / 8),
           ColumnsOfRow(w.scales, start, end))
  }

  lemma ColumnShardEntry(w: Weight, inputs: nat, outputs: nat, group: nat, start: nat, end: nat, i: nat, o: nat)
    requires WeightOk(w, inputs, outputs, group) && start <= end <= outputs && start % 8 == 0 && end % 8 == 0
    requires i < inputs && o < end - start
    ensures Dequantized(ColumnShard(w, inputs, outputs, group, start, end), inputs, end - start, group, i, o)
            == Dequantized(w, inputs, outputs, group, i, start + o)
  {
    hide EntryOf;
    GroupInRange(inputs, group, i);
    var g := Groups(i, group);
    EntrySlice(w.qweight[i], w.qzeros[g], w.scales[g], start, end, o);
  }

  lemma EntrySlice(weights: seq<bv32>, zeros: seq<bv32>, scales: seq<real>, start: nat, end: nat, o: nat)
    requires start <= end <= |scales| && 8 * |weights| == 8 * |zeros| == |scales|
    requires start % 8 == 0 && end % 8 == 0 && o < end - start
    ensures EntryOf(weights[start / 8..end / 8], zeros[start / 8..end / 8], scales[start..end], o)
            == EntryOf(weights, zeros, scales, start + o)
  {
    hide UnpackRow, Scaled;
    UnpackSliceAt(weights, start, end, o);
    UnpackSliceAt(zeros, start, end, o);
  }

  lemma UnpackSliceAt(row: seq<bv32>, start: nat, end: nat, o: nat)
    requires start <= end <= 8 * |row| && start % 8 == 0 && end % 8 == 0 && o < end - start
    ensures UnpackRow(row[start / 8..end / 8])[o] == UnpackRow(row)[start + o]
  {
    hide UnpackRow;
    UnpackSlice(row, start / 8, end / 8);
  }

  lemma ColumnShardRow(w: Weight, inputs: nat, outputs: nat, group: nat, start: nat, end: nat, o: nat)
    requires WeightOk(w, inputs, outputs, group) && start <= end <= outputs && start % 8 == 0 && end % 8 == 0
             && o < end - start
    ensures DenseRow(ColumnShard(w, inputs, outputs, group, start, end), inputs, end - start, group, o)
            == DenseRow(w, inputs, outputs, group, start + o)
  {
    hide Dequantized, ColumnShard;
    var shard := ColumnShard(w, inputs, outputs, group, start, end);
    var (a, b) := (DenseRow(shard, inputs, end - start, group, o), DenseRow(w, inputs, outputs, group, start + o));
    forall i | 0 <= i < inputs ensures a[i] == b[i] {
      ColumnShardEntry(w, inputs, outputs, group, start, end, i, o);
    }
  }

  /** A rank's dequantized weights are the rows of its outputs. */
  lemma ColumnShardIsSlice(w: Weight, inputs: nat, outputs: nat, group: nat, start: nat, end: nat)
    requires WeightOk(w, inputs, outputs, group) && start <= end <= outputs && start % 8 == 0 && end % 8 == 0
    ensures Dense(ColumnShard(w, inputs, outputs, group, start, end), inputs, end - start, group)
            == Dense(w, inputs, outputs, group)[start..end]
  {
    hide DenseRow, ColumnShard, WeightOk;
    var (a, b) := (Dense(ColumnShard(w, inputs, outputs, group, start, end), inputs, end - start, group),
                   Dense(w, inputs, outputs, group)[start..end]);
    forall o | 0 <= o < end - start ensures a[o] == b[o] {
      ColumnShardRow(w, inputs, outputs, group, start, end, o);
    }
  }

  /** What every rank's constructor checks. */
  predicate OutputsAlign(outputs: nat, world: nat)
    requires world > 0
  {
    forall r | 0 <= r < world ::
      CutAt(outputs, world, r) % 8 == 0 && (CutAt(outputs, world, r + 1) - CutAt(outputs, world, r)) % 8 == 0
  }

  function ColumnLocalAwq(x: seq<real>, w: Weight, outputs: nat, group: nat, bias: Option<seq<real>>, world: nat,
                          r: nat): seq<real>
    requires r < world && OutputsAlign(outputs, world) && WeightOk(w, |x|, outputs, group)
    requires bias.Some? ==> |bias.value| == outputs
  {
    CutsOrdered(outputs, world, r);
    var (start, end) := (CutAt(outputs, world, r), CutAt(outputs, world, r + 1));
    Linear(x, Dense(ColumnShard(w, |x|, outputs, group, start, end), |x|, end - start, group),
           if bias.Some? then Some(bias.value[start..end]) else None)
  }

  lemma ColumnLocalIsRank(x: seq<real>, w: Weight, outputs: nat, group: nat, bias: Option<seq<real>>, world: nat,
                          r: nat)
    requires r < world && OutputsAlign(outputs, world) && WeightOk(w, |x|, outputs, group)
    requires bias.Some? ==> |bias.value| == outputs
    ensures ColumnLocalAwq(x, w, outputs, group, bias, world, r)
            == ColumnLocal(x, Dense(w, |x|, outputs, group), bias, world, r)
  {
    hide WeightOk, Linear, ColumnShard, CutAt, Dense;
    CutsOrdered(outputs, world, r);
    ColumnShardIsSlice(w, |x|, outputs, group, CutAt(outputs, world, r), CutAt(outputs, world, r + 1));
  }

  /** Column shards, gathered, compute the unsharded layer: for every world size that passes the
      alignment checks. */
  lemma ColumnShardingPreserves(x: seq<real>, w: Weight, outputs: nat, group: nat, bias: Option<seq<real>>, world: nat)
    requires world > 0 && OutputsAlign(outputs, world) && WeightOk(w, |x|, outputs, group)
    requires bias.Some? ==> |bias.value| == outputs
    ensures Concat(seq(world, r requires 0 <= r < world => ColumnLocalAwq(x, w, outputs, group, bias, world, r)))
            == Linear(x, Dense(w, |x|, outputs, group), bias)
  {
    hide Linear, ColumnLocal, ColumnLocalAwq, Dense;
    var dense := Dense(w, |x|, outputs, group);
    ColumnParallelIsLinear(x, dense, bias, world);
    forall r | 0 <= r < world
      ensures ColumnLocalAwq(x, w, outputs, group, bias, world, r) == ColumnLocal(x, dense, bias, world, r)
    {
      ColumnLocalIsRank(x, w, outputs, group, bias, world, r);
    }
    assert seq(world, r requires 0 <= r < world => ColumnLocalAwq(x, w, outputs, group, bias, world, r))
        == seq(world, r requires 0 <= r < world => ColumnLocal(x, dense, bias, world, r));
  }

  // ---- row shards --------------------------------------------------------------------------

  /** What a row-parallel rank checks: its piece is made of whole groups, unless one group
      spans all inputs. */
  predicate PieceAligns(start: nat, end: nat, config: GroupConfig) {
    start < end && (config != -1 ==> start % config == 0 && (end - start) % config == 0)
  }

  lemma GroupShift(start: nat, i: nat, group: nat)
    requires group > 0 && start % group == 0
    ensures Groups(start + i, group) == Groups(start, group) + Groups(i, group)
  {
    assert start == start / group * group;
    assert (start + i) - (start / group + i / group) * group == i % group;
    Cancel(group, (start + i) / group, start / group + i / group);
    Cancel(group, start / group + i / group, (start + i) / group);
  }

  lemma GroupsMonotone(a: nat, b: nat, group: nat)
    requires group > 0 && a <= b
    ensures Groups(a, group) <= Groups(b, group)
  {
    assert a / group * group <= a && b < (b / group + 1) * group;
    Cancel(group, a / group, b / group);
  }

  lemma OneGroup(inputs: nat, i: nat)
    requires i < inputs
    ensures Groups(i, inputs) == 0 && Groups(inputs, inputs) == 1
  {
  }

  /** The groups of a piece are consecutive groups of the whole. */
  lemma PieceGroups(start: nat, end: nat, inputs: nat, config: GroupConfig)
    requires PieceAligns(start, end, config) && end <= inputs && config != -1
    ensures Groups(start, config) <= Groups(end, config) <= Groups(inputs, config)
    ensures Groups(end - start, config) == Groups(end, config) - Groups(start, config)
  {
    GroupShift(start, end - start, config);
    GroupsMonotone(start, end, config);
    GroupsMonotone(end, inputs, config);
  }

  /** The stored tensors of a rank that holds some inputs: its input rows, and its groups, or
      the one group of all inputs. */
  function RowShard(w: Weight, inputs: nat, outputs: nat, start: nat, end: nat, config: GroupConfig): (shard: Weight)
    requires WeightOk(w, inputs, outputs, GroupOf(inputs, config)) && PieceAligns(start, end, config) && end <= inputs
    ensures WeightOk(shard, end - start, outputs, GroupOf(end - start, config))
  {
    if config == -1 then w.(qweight := w.qweight[start..end])
    else
      PieceGroups(start, end, inputs, config);
      var (from, to) := (Groups(start, config), Groups(end, config));
      Weight(w.qweight[start..end], w.qzeros[from..to], w.scales[from..to])
  }

  /** A rank finds for its input j the parameters the whole layer has for input start + j. */
  lemma GroupFound(w: Weight, inputs: nat, outputs: nat, start: nat, end: nat, config: GroupConfig, j: nat)
    requires WeightOk(w, inputs, outputs, GroupOf(inputs, config)) && PieceAligns(start, end, config) && end <= inputs
    requires j < end - start
    ensures var shard := RowShard(w, inputs, outputs, start, end, config);
            var (l, g) := (Groups(j, GroupOf(end - start, config)), Groups(start + j, GroupOf(inputs, config)));
            && l < |shard.qzeros| && l < |shard.scales| && g < |w.qzeros| && g < |w.scales|
            && shard.qzeros[l] == w.qzeros[g] && shard.scales[l] == w.scales[g]
  {
    GroupInRange(end - start, GroupOf(end - start, config), j);
    GroupInRange(inputs, GroupOf(inputs, config), start + j);
    if config == -1 {
      OneGroup(end - start, j);
      OneGroup(inputs, start + j);
    } else {
      PieceGroups(start, end, inputs, config);
      GroupShift(start, j, config);
    }
    hide Groups;
  }

  /** So its dequantized entries are those of the whole layer. */
  lemma RowShardEntry(w: Weight, inputs: nat, outputs: nat, start: nat, end: nat, config: GroupConfig, j: nat, o: nat)
    requires WeightOk(w, inputs, outputs, GroupOf(inputs, config)) && PieceAligns(start, end, config) && end <= inputs
    requires j < end - start && o < outputs
    ensures Dequantized(RowShard(w, inputs, outputs, start, end, config), end - start, outputs,
                        GroupOf(end - start, config), j, o)
            == Dequantized(w, inputs, outputs, GroupOf(inputs, config), start + j, o)
  {
    hide EntryOf, GroupOf, PieceAligns, Groups;
    GroupFound(w, inputs, outputs, start, end, config, j);
    var shard := RowShard(w, inputs, outputs, start, end, config);
    assert shard.qweight == w.qweight[start..end];
    hide RowShard, WeightOk;
  }

  /** What every rank's constructor checks. */
  predicate InputsAlign(inputs: nat, config: GroupConfig, world: nat)
    requires world > 0
  {
    forall r | 0 <= r < world :: PieceAligns(CutAt(inputs, world, r), CutAt(inputs, world, r + 1), config)
  }

  /** The dense weights a rank works with. */
  function RowLocalDense(w: Weight, inputs: nat, outputs: nat, config: GroupConfig, world: nat,
                         r: nat): (rows: seq<seq<real>>)
    requires r < world && WeightOk(w, inputs, outputs, GroupOf(inputs, config)) && InputsAlign(inputs, config, world)
    ensures |rows| == outputs && IsMatrix(rows, CutAt(inputs, world, r + 1) - CutAt(inputs, world, r))
  {
    CutsOrdered(inputs, world, r);
    var (start, end) := (CutAt(inputs, world, r), CutAt(inputs, world, r + 1));
    Dense(RowShard(w, inputs, outputs, start, end, config), end - start, outputs, GroupOf(end - start, config))
  }

  lemma RowLocalIsColumns(w: Weight, inputs: nat, outputs: nat, config: GroupConfig, world: nat, r: nat)
    requires r < world && WeightOk(w, inputs, outputs, GroupOf(inputs, config)) && InputsAlign(inputs, config, world)
    ensures RowLocalDense(w, inputs, outputs, config, world, r)
            == ColumnsOf(Dense(w, inputs, outputs, GroupOf(inputs, config)), inputs, world, r)
  {
    hide Dequantized, CutAt;
    CutsOrdered(inputs, world, r);
    var (start, end) := (CutAt(inputs, world, r), CutAt(inputs, world, r + 1));
    var a := RowLocalDense(w, inputs, outputs, config, world, r);
    var b := ColumnsOf(Dense(w, inputs, outputs, GroupOf(inputs, config)), inputs, world, r);
    forall o | 0 <= o < outputs ensures a[o] == b[o] {
      forall j | 0 <= j < end - start ensures a[o][j] == b[o][j] {
        RowShardEntry(w, inputs, outputs, start, end, config, j, o);
      }
    }
  }

  function RowForwardAwq(x: seq<real>, w: Weight, outputs: nat, config: GroupConfig, bias: Option<seq<real>>,
                         world: nat): seq<real>
    requires world > 0 && WeightOk(w, |x|, outputs, GroupOf(|x|, config)) && InputsAlign(|x|, config, world)
    requires bias.Some? ==> |bias.value| == outputs
  {
    AddBias(AllReduceSum(seq(world, r requires 0 <= r < world =>
                                   Linear(Slice(x, world, r), RowLocalDense(w, |x|, outputs, config, world, r), None)),
                         outputs),
            bias)
  }

  /** Row shards, summed, compute the unsharded layer, with the bias added once; with one group
      over all inputs every rank reuses that group. */
  lemma RowShardingPreserves(x: seq<real>, w: Weight, outputs: nat, config: GroupConfig, bias: Option<seq<real>>,
                             world: nat)
    requires world > 0 && WeightOk(w, |x|, outputs, GroupOf(|x|, config)) && InputsAlign(|x|, config, world)
    requires bias.Some? ==> |bias.value| == outputs
    ensures RowForwardAwq(x, w, outputs, config, bias, world)
            == Linear(x, Dense(w, |x|, outputs, GroupOf(|x|, config)), bias)
  {
    hide Linear, CutAt, Dense, RowLocalDense, ColumnsOf, AllReduceSum, AddBias;
    var dense := Dense(w, |x|, outputs, GroupOf(|x|, config));
    RowParallelIsLinear(x, dense, bias, world);
    forall r | 0 <= r < world
      ensures Linear(Slice(x, world, r), RowLocalDense(w, |x|, outputs, config, world, r), None)
              == RowLocal(x, dense, world, r)
    {
      RowLocalIsColumns(w, |x|, outputs, config, world, r);
    }
    assert seq(world, r requires 0 <= r < world =>
               Linear(Slice(x, world, r), RowLocalDense(w, |x|, outputs, config, world, r), None))
        == seq(world, r requires 0 <= r < world => RowLocal(x, dense, world, r));
  }
}
