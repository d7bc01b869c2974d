/** Merging the packed buffers of several layers and turning the layers into views of the
    merged buffers (awq.py:501-535). */
module AwqStorage {
  import opened Collections
  import opened TensorParallel
  import opened Awq

  /** The buffers of one column-parallel layer. */
  datatype Part = Part(w: Weight, bias: Option<seq<real>>)

  function OutputsOf(p: Part): nat {
    if p.w.scales == [] then 0 else |p.w.scales[0]|
  }

  predicate PartOk(p: Part, inputs: nat, group: nat) {
    && inputs > 0 && WeightOk(p.w, inputs, OutputsOf(p), group)
    && (p.bias.Some? ==> |p.bias.value| == OutputsOf(p))
  }

  /** Row by row, the columns of a and then those of b. */
  function SideBySide<T>(a: seq<seq<T>>, b: seq<seq<T>>): (rows: seq<seq<T>>)
    requires |a| == |b|
    ensures |rows| == |a| && forall i | 0 <= i < |a| :: rows[i] == a[i] + b[i]
  {
    seq(|a|, i requires 0 <= i < |a| => a[i] + b[i])
  }

  function Join(a: Part, b: Part): Part
    requires |a.w.qweight| == |b.w.qweight| && |a.w.qzeros| == |b.w.qzeros| && |a.w.scales| == |b.w.scales|
  {
    Part(Weight(SideBySide(a.w.qweight, b.w.qweight), SideBySide(a.w.qzeros, b.w.qzeros),
                SideBySide(a.w.scales, b.w.scales)),
         if a.bias.Some? && b.bias.Some? then Some(a.bias.value + b.bias.value) else None)
  }

  lemma JoinOk(a: Part, b: Part, inputs: nat, group: nat)
    requires PartOk(a, inputs, group) && PartOk(b, inputs, group) && a.bias.Some? == b.bias.Some?
    ensures PartOk(Join(a, b), inputs, group) && OutputsOf(Join(a, b)) == OutputsOf(a) + OutputsOf(b)
  {
    GroupInRange(inputs, group, 0);
  }

  function Apply(x: seq<real>, p: Part, group: nat): (y: seq<real>)
    requires PartOk(p, |x|, group)
    ensures |y| == OutputsOf(p)
  {
    Linear(x, Dense(p.w, |x|, OutputsOf(p), group), p.bias)
  }

  lemma EntryBeside(wa: seq<bv32>, wb: seq<bv32>, za: seq<bv32>, zb: seq<bv32>, sa: seq<real>, sb: seq<real>, o: nat)
    requires 8 * |wa| == 8 * |za| == |sa| && 8 * |wb| == 8 * |zb| == |sb| && o < |sa| + |sb|
    ensures EntryOf(wa + wb, za + zb, sa + sb, o) == if o < |sa| then EntryOf(wa, za, sa, o)
            else EntryOf(wb, zb, sb, o - |sa|)
  {
    hide UnpackRow, Scaled;
    UnpackConcat(wa, wb);
    UnpackConcat(za, zb);
  }

  lemma DenseRowBeside(a: Part, b: Part, inputs: nat, group: nat, o: nat)
    requires PartOk(a, inputs, group) && PartOk(b, inputs, group) && a.bias.Some? == b.bias.Some?
    requires o < OutputsOf(a) + OutputsOf(b)
    ensures PartOk(Join(a, b), inputs, group) && OutputsOf(Join(a, b)) == OutputsOf(a) + OutputsOf(b)
    ensures DenseRow(Join(a, b).w, inputs, OutputsOf(Join(a, b)), group, o)
            == if o < OutputsOf(a) then DenseRow(a.w, inputs, OutputsOf(a), group, o)
               else DenseRow(b.w, inputs, OutputsOf(b), group, o - OutputsOf(a))
  {
    hide EntryOf, Groups;
    JoinOk(a, b, inputs, group);
    var row := DenseRow(Join(a, b).w, inputs, OutputsOf(Join(a, b)), group, o);
    forall i | 0 <= i < inputs
      ensures row[i] == if o < OutputsOf(a) then DenseRow(a.w, inputs, OutputsOf(a), group, o)[i]
                        else DenseRow(b.w, inputs, OutputsOf(b), group, o - OutputsOf(a))[i]
    {
      GroupInRange(inputs, group, i);
      var g := Groups(i, group);
      EntryBeside(a.w.qweight[i], b.w.qweight[i], a.w.qzeros[g], b.w.qzeros[g], a.w.scales[g], b.w.scales[g], o);
    }
  }

  /** One operation on joined buffers computes the outputs of both layers, side by side. */
  lemma JoinedComputesBoth(x: seq<real>, a: Part, b: Part, group: nat)
    requires PartOk(a, |x|, group) && PartOk(b, |x|, group) && a.bias.Some? == b.bias.Some?
    ensures PartOk(Join(a, b), |x|, group)
    ensures Apply(x, Join(a, b), group) == Apply(x, a, group) + Apply(x, b, group)
  {
    hide DenseRow, Dot;
    JoinOk(a, b, |x|, group);
    var (y, z) := (Apply(x, Join(a, b), group), Apply(x, a, group) + Apply(x, b, group));
    forall o | 0 <= o < |y| ensures y[o] == z[o] {
      DenseRowBeside(a, b, |x|, group, o);
    }
  }

  // ---- any number of layers ----------------------------------------------------------------

  predicate PartsOk(parts: seq<Part>, inputs: nat, group: nat) {
    && parts != [] && (forall k | 0 <= k < |parts| :: PartOk(parts[k], inputs, group))
    && (forall k | 0 <= k < |parts| :: parts[k].bias.Some? == parts[0].bias.Some?)
  }

  function Merge(parts: seq<Part>, inputs: nat, group: nat): (merged: Part)
    requires PartsOk(parts, inputs, group)
    ensures PartOk(merged, inputs, group) && merged.bias.Some? == parts[0].bias.Some?
  {
    if |parts| == 1 then parts[0] else
      var rest := parts[1..];
      assert forall k | 0 <= k < |rest| :: rest[k] == parts[k + 1];
      JoinOk(parts[0], Merge(rest, inputs, group), inputs, group);
      Join(parts[0], Merge(rest, inputs, group))
  }

  /** The merged operation computes every layer's outputs, one after another. */
  lemma {:induction false} MergedComputesAll(x: seq<real>, parts: seq<Part>, group: nat)
    requires PartsOk(parts, |x|, group)
    ensures Apply(x, Merge(parts, |x|, group), group)
            == Concat(seq(|parts|, k requires 0 <= k < |parts| => Apply(x, parts[k], group)))
    decreases |parts|
  {
    hide Apply, Join, PartOk;
    var outputs := seq(|parts|, k requires 0 <= k < |parts| => Apply(x, parts[k], group));
    if |parts| == 1 {
      assert outputs == [Apply(x, parts[0], group)];
      assert Concat(outputs) == Apply(x, parts[0], group) + Concat(outputs[1..]);
    } else {
      var rest := parts[1..];
      assert forall k | 0 <= k < |rest| :: rest[k] == parts[k + 1];
      MergedComputesAll(x, rest, group);
      JoinedComputesBoth(x, parts[0], Merge(rest, |x|, group), group);
      assert outputs[1..] == seq(|rest|, k requires 0 <= k < |rest| => Apply(x, rest[k], group));
    }
  }

  // ---- views of the merged buffers ---------------------------------------------------------

  function Columns<T>(rows: seq<seq<T>>, from: nat, width: nat): (cut: seq<seq<T>>)
    requires forall i | 0 <= i < |rows| :: from + width <= |rows[i]|
  {
    seq(|rows|, i requires 0 <= i < |rows| => rows[i][from..from + width])
  }

  lemma ColumnsWhole<T>(rows: seq<seq<T>>, width: nat)
    requires forall i | 0 <= i < |rows| :: |rows[i]| == width
    ensures Columns(rows, 0, width) == rows
  {
    forall i | 0 <= i < |rows| ensures Columns(rows, 0, width)[i] == rows[i] {}
  }

  lemma ColumnsLeft<T>(a: seq<seq<T>>, b: seq<seq<T>>, width: nat)
    requires |a| == |b| && forall i | 0 <= i < |a| :: |a[i]| == width
    ensures Columns(SideBySide(a, b), 0, width) == a
  {
  }

  lemma ColumnsRight<T>(a: seq<seq<T>>, b: seq<seq<T>>, shift: nat, from: nat, width: nat)
    requires |a| == |b| && forall i | 0 <= i < |a| :: |a[i]| == shift && from + width <= |b[i]|
    ensures Columns(SideBySide(a, b), shift + from, width) == Columns(b, from, width)
  {
    forall i | 0 <= i < |a| ensures Columns(SideBySide(a, b), shift + from, width)[i] == Columns(b, from, width)[i] {
      assert (a[i] + b[i])[shift + from..shift + from + width] == b[i][from..from + width];
    }
  }

  /** Packed buffers as they lie in memory; several layers may look at the same ones. */
  class Buffers {
    const part: Part

    constructor (part: Part)
      ensures this.part == part
    {
      this.part := part;
    }
  }

  /** The columns a layer looks at fit into the buffers. */
  predicate ViewFits(p: Part, packedAt: nat, packedWidth: nat, at: nat, width: nat) {
    && (forall i | 0 <= i < |p.w.qweight| :: packedAt + packedWidth <= |p.w.qweight[i]|)
    && (forall i | 0 <= i < |p.w.qzeros| :: packedAt + packedWidth <= |p.w.qzeros[i]|)
    && (forall i | 0 <= i < |p.w.scales| :: at + width <= |p.w.scales[i]|)
    && (p.bias.Some? ==> at + width <= |p.bias.value|)
  }

  /** Packed columns hold eight values each, scales and biases one. */
  function ViewOf(p: Part, packedAt: nat, packedWidth: nat, at: nat, width: nat): Part
    requires ViewFits(p, packedAt, packedWidth, at, width)
  {
    Part(Weight(Columns(p.w.qweight, packedAt, packedWidth),
                Columns(p.w.qzeros, packedAt, packedWidth),
                Columns(p.w.scales, at, width)),
         if p.bias.Some? then Some(p.bias.value[at..at + width]) else None)
  }

  class AwqLayer {
    var storage: Buffers
    var packedAt: nat
    var packedWidth: nat
    var at: nat
    var width: nat

    /** A layer begins with buffers of its own. */
    constructor (part: Part, ghost inputs: nat, ghost group: nat)
      requires PartOk(part, inputs, group)
      ensures Fits() && fresh(storage) && View() == part
    {
      storage := new Buffers(part);
      packedAt, packedWidth, at, width := 0, OutputsOf(part) / 8, 0, OutputsOf(part);
      new;
      FoundAlone(part, inputs, group);
    }

    predicate Fits()
      reads this
    {
      ViewFits(storage.part, packedAt, packedWidth, at, width)
    }

    function View(): Part
      requires Fits()
      reads this
    {
      ViewOf(storage.part, packedAt, packedWidth, at, width)
    }
  }

  function Views(layers: seq<AwqLayer>): (parts: seq<Part>)
    requires forall k | 0 <= k < |layers| :: layers[k].Fits()
    reads layers
    ensures |parts| == |layers| && forall k | 0 <= k < |layers| :: parts[k] == layers[k].View()
  {
    if layers == [] then [] else [layers[0].View()] + Views(layers[1..])
  }

  /** The columns of all parts lie one after another in the merged buffers. */
  function OffsetOf(parts: seq<Part>, k: nat): nat
    requires k <= |parts|
  {
    if k == 0 then 0 else OffsetOf(parts, k - 1) + OutputsOf(parts[k - 1])
  }

  lemma {:induction false} OffsetShift(parts: seq<Part>, k: nat)
    requires 0 < k <= |parts|
    ensures OffsetOf(parts, k) == OutputsOf(parts[0]) + OffsetOf(parts[1..], k - 1)
  {
    if k > 1 { OffsetShift(parts, k - 1); }
  }

  /** A part is found again in the merged buffers at its offset. */
  ghost predicate FoundAt(merged: Part, p: Part, at: nat, inputs: nat, group: nat)
    requires PartOk(merged, inputs, group) && PartOk(p, inputs, group)
  {
    && at % 8 == 0 && at + OutputsOf(p) <= OutputsOf(merged)
    && ViewFits(merged, at / 8, OutputsOf(p) / 8, at, OutputsOf(p))
    && p == ViewOf(merged, at / 8, OutputsOf(p) / 8, at, OutputsOf(p))
  }

  lemma FoundFirst(a: Part, b: Part, inputs: nat, group: nat)
    requires PartOk(a, inputs, group) && PartOk(b, inputs, group) && a.bias.Some? == b.bias.Some?
    ensures PartOk(Join(a, b), inputs, group) && FoundAt(Join(a, b), a, 0, inputs, group)
  {
    JoinOk(a, b, inputs, group);
    ColumnsLeft(a.w.qweight, b.w.qweight, OutputsOf(a) / 8);
    ColumnsLeft(a.w.qzeros, b.w.qzeros, OutputsOf(a) / 8);
    ColumnsLeft(a.w.scales, b.w.scales, OutputsOf(a));
  }

  lemma RowWidths(p: Part, inputs: nat, group: nat)
    requires PartOk(p, inputs, group)
    ensures OutputsOf(p) % 8 == 0
    ensures forall i | 0 <= i < |p.w.qweight| :: |p.w.qweight[i]| == OutputsOf(p) / 8
    ensures forall g | 0 <= g < |p.w.qzeros| :: |p.w.qzeros[g]| == OutputsOf(p) / 8
    ensures forall g | 0 <= g < |p.w.scales| :: |p.w.scales[g]| == OutputsOf(p)
    ensures p.bias.Some? ==> |p.bias.value| == OutputsOf(p)
  {
  }

  lemma SameRows(a: Part, b: Part, inputs: nat, group: nat)
    requires PartOk(a, inputs, group) && PartOk(b, inputs, group)
    ensures |a.w.qweight| == |b.w.qweight| && |a.w.qzeros| == |b.w.qzeros| && |a.w.scales| == |b.w.scales|
  {
  }

  /** Columns of the second part, seen in the joined buffers. */
  lemma ViewBehind(a: Part, b: Part, width: nat, at: nat, n: nat)
    requires |a.w.qweight| == |b.w.qweight| && |a.w.qzeros| == |b.w.qzeros| && |a.w.scales| == |b.w.scales|
    requires a.bias.Some? == b.bias.Some? && (a.bias.Some? ==> |a.bias.value| == width)
    requires forall i | 0 <= i < |a.w.qweight| :: |a.w.qweight[i]| == width / 8
    requires forall g | 0 <= g < |a.w.qzeros| :: |a.w.qzeros[g]| == width / 8
    requires forall g | 0 <= g < |a.w.scales| :: |a.w.scales[g]| == width
    requires ViewFits(b, at / 8, n / 8, at, n)
    ensures ViewFits(Join(a, b), width / 8 + at / 8, n / 8, width + at, n)
    ensures ViewOf(Join(a, b), width / 8 + at / 8, n / 8, width + at, n) == ViewOf(b, at / 8, n / 8, at, n)
  {
    hide Columns;
    ColumnsRight(a.w.qweight, b.w.qweight, width / 8, at / 8, n / 8);
    ColumnsRight(a.w.qzeros, b.w.qzeros, width / 8, at / 8, n / 8);
    ColumnsRight(a.w.scales, b.w.scales, width, at, n);
    if a.bias.Some? {
      assert (a.bias.value + b.bias.value)[width + at..width + at + n] == b.bias.value[at..at + n];
    }
  }

  lemma FoundBehind(a: Part, b: Part, p: Part, at: nat, inputs: nat, group: nat)
    requires PartOk(a, inputs, group) && PartOk(b, inputs, group) && PartOk(p, inputs, group)
    requires a.bias.Some? == b.bias.Some? && FoundAt(b, p, at, inputs, group)
    ensures PartOk(Join(a, b), inputs, group) && FoundAt(Join(a, b), p, OutputsOf(a) + at, inputs, group)
  {
    hide PartOk, ViewFits, ViewOf, Join, OutputsOf;
    JoinOk(a, b, inputs, group);
    RowWidths(a, inputs, group);
    SameRows(a, b, inputs, group);
    var width := OutputsOf(a);
    assert (width + at) / 8 == width / 8 + at / 8;
    ViewBehind(a, b, width, at, OutputsOf(p));
  }

  /** Every layer's buffers are found again at its running offset. */
  lemma {:induction false} PartFound(parts: seq<Part>, k: nat, inputs: nat, group: nat)
    requires PartsOk(parts, inputs, group) && k < |parts|
    ensures FoundAt(Merge(parts, inputs, group), parts[k], OffsetOf(parts, k), inputs, group)
    decreases |parts|
  {
    hide FoundAt, PartOk;
    if |parts| == 1 {
      FoundAlone(parts[0], inputs, group);
    } else {
      var rest := parts[1..];
      assert forall j | 0 <= j < |rest| :: rest[j] == parts[j + 1];
      if k == 0 {
        FoundFirst(parts[0], Merge(rest, inputs, group), inputs, group);
      } else {
        OffsetShift(parts, k);
        PartFound(rest, k - 1, inputs, group);
        FoundBehind(parts[0], Merge(rest, inputs, group), parts[k], OffsetOf(rest, k - 1), inputs, group);
      }
    }
  }

  lemma FoundAlone(p: Part, inputs: nat, group: nat)
    requires PartOk(p, inputs, group)
    ensures FoundAt(p, p, 0, inputs, group)
  {
    ColumnsWhole(p.w.qweight, OutputsOf(p) / 8);
    ColumnsWhole(p.w.qzeros, OutputsOf(p) / 8);
    ColumnsWhole(p.w.scales, OutputsOf(p));
    if p.bias.Some? { assert p.bias.value[0..OutputsOf(p)] == p.bias.value; }
  }

  /** What a layer looks at determines the widths it reads off its buffers. */
  lemma WidthsOf(layer: AwqLayer, inputs: nat, group: nat)
    requires layer.Fits() && PartOk(layer.View(), inputs, group)
    ensures layer.width == OutputsOf(layer.View()) && layer.width % 8 == 0 && layer.packedWidth == layer.width / 8
  {
    GroupInRange(inputs, group, 0);
    var p := layer.View();
    assert |p.w.scales[0]| == layer.width;
    assert |p.w.qweight[0]| == layer.packedWidth;
  }

  /** Point a layer at its columns of the merged buffers; they hold what it held. */
  method Rebind(layer: AwqLayer, merged: Buffers, packedOffset: nat, offset: nat, inputs: nat, group: nat)
    requires layer.Fits() && PartOk(merged.part, inputs, group) && PartOk(layer.View(), inputs, group)
    requires FoundAt(merged.part, layer.View(), offset, inputs, group) && packedOffset == offset / 8
    modifies layer
    ensures layer.Fits() && layer.View() == old(layer.View())
    ensures layer.storage == merged && layer.at == offset && layer.packedAt == packedOffset
    ensures layer.width == old(layer.width) && layer.packedWidth == old(layer.packedWidth)
  {
    WidthsOf(layer, inputs, group);
    layer.storage := merged;
    layer.packedAt := packedOffset;
    layer.at := offset;
  }

  /** _share_merged_awq_storage: the layers end up as views of one set of merged buffers, one
      behind the other, and hold what they held. Layers with and without bias cannot be merged. */
  method ShareMergedStorage(layers: seq<AwqLayer>, inputs: nat, group: nat) returns (r: Option<Buffers>)
    requires NoDup(layers) && layers != []
    requires forall k | 0 <= k < |layers| :: layers[k].Fits() && PartOk(layers[k].View(), inputs, group)
    modifies layers
    ensures forall k | 0 <= k < |layers| :: layers[k].Fits()
    ensures Views(layers) == old(Views(layers))
    ensures r.Some? <==> PartsOk(Views(layers), inputs, group)
    ensures r.Some? ==> fresh(r.value) && r.value.part == Merge(Views(layers), inputs, group)
    ensures r.Some? ==>
              forall k | 0 <= k < |layers| ::
                layers[k].storage == r.value && layers[k].at == OffsetOf(Views(layers), k)
                && layers[k].packedAt == layers[k].at / 8
    ensures r.None? ==> forall k | 0 <= k < |layers| :: layers[k].storage == old(layers[k].storage)
  {
    hide PartOk, FoundAt, ViewFits, ViewOf, AwqLayer.Fits, AwqLayer.View;
    ghost var parts := Views(layers);
    if exists k | 0 <= k < |layers| :: layers[k].View().bias.Some? != layers[0].View().bias.Some? {
      var k :| 0 <= k < |layers| && layers[k].View().bias.Some? != layers[0].View().bias.Some?;
      assert parts[k].bias.Some? != parts[0].bias.Some?;
      return None;
    }
    assert PartsOk(parts, inputs, group);
    var merged := new Buffers(Merge(Views(layers), inputs, group));
    assert forall k | 0 <= k < |layers| :: Shows(layers[k], parts[k]);
    RebindAll(layers, parts, merged, inputs, group);
    assert forall k | 0 <= k < |layers| :: PlacedAt(layers[k], merged, OffsetOf(parts, k), parts[k]);
    assert Views(layers) == parts;
    r := Some(merged);
  }

  ghost predicate Shows(layer: AwqLayer, p: Part)
    reads layer
  {
    layer.Fits() && layer.View() == p
  }

  ghost predicate PlacedAt(layer: AwqLayer, merged: Buffers, offset: nat, p: Part)
    reads layer
  {
    Shows(layer, p) && layer.storage == merged && layer.at == offset && layer.packedAt == offset / 8
  }

  /** The running offsets point every layer at its own columns. */
  method RebindAll(layers: seq<AwqLayer>, ghost parts: seq<Part>, merged: Buffers, inputs: nat, group: nat)
    requires NoDup(layers) && |layers| == |parts| && PartsOk(parts, inputs, group)
    requires merged.part == Merge(parts, inputs, group)
    requires forall k | 0 <= k < |layers| :: Shows(layers[k], parts[k])
    modifies layers
    ensures forall k | 0 <= k < |layers| :: PlacedAt(layers[k], merged, OffsetOf(parts, k), parts[k])
  {
    hide PartOk, FoundAt, ViewFits, ViewOf, AwqLayer.Fits, AwqLayer.View;
    var offset, packedOffset := 0, 0;
    for k := 0 to |layers|
      invariant offset == OffsetOf(parts, k) && packedOffset == offset / 8 && offset % 8 == 0
      invariant forall j | 0 <= j < k :: PlacedAt(layers[j], merged, OffsetOf(parts, j), parts[j])
      invariant forall j | k <= j < |layers| :: Shows(layers[j], parts[j])
    {
      PartFound(parts, k, inputs, group);
      WidthsOf(layers[k], inputs, group);
      Rebind(layers[k], merged, packedOffset, offset, inputs, group);
      offset := offset + layers[k].width;
      packedOffset := packedOffset + layers[k].packedWidth;
    }
  }
}
