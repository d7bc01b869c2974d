/** One attention context of a packed model step over contiguous caches
    (src/light_vllm/runtime/execution/dense_attention.py). */
module DenseAttention {
  import opened Collections
  import opened Layout
  import opened Transformer

  datatype AttentionError =
    | LayerRanTwice
    | LayerNotConfigured
    | ShapeMismatch
    | HistorySharedByRequests
    | LayerMissing
    | CacheSharedByRequests

  function SumLengths(layouts: seq<seq<int>>): nat {
    if layouts == [] then 0 else SumLengths(layouts[..|layouts| - 1]) + |layouts[|layouts| - 1]|
  }

  /** Where request r starts in the packed token stream. */
  function StartOf(layouts: seq<seq<int>>, r: nat): nat
    requires r <= |layouts|
  {
    SumLengths(layouts[..r])
  }

  lemma StartStep(layouts: seq<seq<int>>, r: nat)
    requires r < |layouts|
    ensures StartOf(layouts, r + 1) == StartOf(layouts, r) + |layouts[r]|
  {
    assert layouts[..r + 1][..r] == layouts[..r];
  }

  lemma StartsOrdered(layouts: seq<seq<int>>, r: nat)
    requires r <= |layouts|
    ensures StartOf(layouts, r) <= SumLengths(layouts)
    decreases |layouts| - r
  {
    if r < |layouts| {
      StartStep(layouts, r);
      StartsOrdered(layouts, r + 1);
    } else {
      assert layouts[..r] == layouts;
    }
  }

  method QueryStartLoc(layouts: seq<seq<int>>) returns (starts: seq<nat>)
    ensures |starts| == |layouts| + 1
    ensures forall r | 0 <= r <= |layouts| :: starts[r] == StartOf(layouts, r)
  {
    starts := [0];
    for r := 0 to |layouts|
      invariant |starts| == r + 1 && forall k | 0 <= k <= r :: starts[k] == StartOf(layouts, k)
    {
      StartStep(layouts, r);
      starts := starts + [starts[r] + |layouts[r]|];
    }
  }

  class TorchDenseAttention<V> {
    const attend: (nat, V, seq<V>) -> V
    const layers: seq<string>
    const layouts: seq<seq<int>>
    const past: Option<seq<seq<V>>>
    var updates: map<string, seq<V>>

    ghost predicate Valid()
      reads this
    {
      && NoDup(layers) && layouts != []
      && (forall r | 0 <= r < |layouts| :: LayoutOk(layouts[r]))
      && (past.Some? ==> |past.value| == |layers|)
      && (forall l | l in updates :: l in layers && |updates[l]| == SumLengths(layouts))
    }

    constructor (attend: (nat, V, seq<V>) -> V, layers: seq<string>, layouts: seq<seq<int>>, past: Option<seq<seq<V>>>)
      requires NoDup(layers) && layouts != [] && forall r | 0 <= r < |layouts| :: LayoutOk(layouts[r])
      requires past.Some? ==> |past.value| == |layers|
      ensures Valid() && updates == map[]
      ensures this.attend == attend && this.layers == layers && this.layouts == layouts && this.past == past
    {
      this.attend, this.layers, this.layouts, this.past := attend, layers, layouts, past;
      updates := map[];
    }

    function PastOf(l: nat): seq<V>
      requires past.Some? ==> l < |past.value|
    {
      if past.Some? then past.value[l] else []
    }

    /** What query i of request r must get: attention over the past and its own root path,
        whatever the other requests of the batch are. */
    function Attended(l: nat, query: seq<V>, kvs: seq<V>, start: nat, layout: seq<int>, i: nat): V
      requires past.Some? ==> l < |past.value|
      requires LayoutOk(layout) && i < |layout| && start + |layout| <= |query| == |kvs|
    {
      attend(l, query[start + i], PastOf(l) + Gather(kvs[start..start + |layout|], Path(layout, i)))
    }

    /** The packed output holds the rows of request q at its own offset. */
    ghost predicate Served(output: seq<V>, l: nat, query: seq<V>, kvs: seq<V>, q: nat)
      requires past.Some? ==> l < |past.value|
      requires q < |layouts| && LayoutOk(layouts[q])
    {
      && StartOf(layouts, q) + |layouts[q]| <= |output| <= |query| == |kvs|
      && forall i | 0 <= i < |layouts[q]| ::
           output[StartOf(layouts, q) + i] == Attended(l, query, kvs, StartOf(layouts, q), layouts[q], i)
    }

    method Forward(layer: string, query: seq<V>, kvs: seq<V>) returns (r: Result<seq<V>, AttentionError>)
      requires Valid()
      modifies this
      ensures Valid()
      ensures r.Err? ==> updates == old(updates)
      ensures layer in old(updates) ==> r == Err(LayerRanTwice)
      ensures layer !in old(updates) && layer !in layers ==> r == Err(LayerNotConfigured)
      ensures r == Err(ShapeMismatch) <==>
                layer !in old(updates) && layer in layers && !(|query| == |kvs| == SumLengths(layouts))
      ensures r.Ok? <==> && layer !in old(updates) && layer in layers && |query| == |kvs| == SumLengths(layouts)
                         && (past.None? || |layouts| == 1)
      ensures r.Ok? ==> updates == old(updates)[layer := kvs] && |r.value| == |query|
      ensures r.Ok? ==> forall l, q | 0 <= l < |layers| && layers[l] == layer && 0 <= q < |layouts| ::
                          Served(r.value, l, query, kvs, q)
    {
      if layer in updates { return Err(LayerRanTwice); }
      if layer !in layers { return Err(LayerNotConfigured); }
      var l :| 0 <= l < |layers| && layers[l] == layer;
      if !(|query| == |kvs| == SumLengths(layouts)) { return Err(ShapeMismatch); }
      if past.Some? && |layouts| != 1 { return Err(HistorySharedByRequests); }
      var output: seq<V> := [];
      var starts := QueryStartLoc(layouts);
      for q := 0 to |layouts|
        invariant updates == old(updates)
        invariant |output| == StartOf(layouts, q) <= |query|
        invariant forall p | 0 <= p < q :: Served(output, l, query, kvs, p)
      {
        StartStep(layouts, q);
        StartsOrdered(layouts, q + 1);
        var rows := AttendRequest(l, query, kvs, starts[q], layouts[q]);
        forall p | 0 <= p < q ensures Served(output + rows, l, query, kvs, p) {
          assert Served(output, l, query, kvs, p);
        }
        output := output + rows;
      }
      assert layouts[..|layouts|] == layouts;
      updates := updates[layer := kvs];
      r := Ok(output);
    }

    /** The rows of one request: past keys before its own, ancestors visible, the rest masked. */
    method AttendRequest(l: nat, query: seq<V>, kvs: seq<V>, start: nat, layout: seq<int>) returns (rows: seq<V>)
      requires past.Some? ==> l < |past.value|
      requires LayoutOk(layout) && start + |layout| <= |query| == |kvs|
      ensures |rows| == |layout|
      ensures forall i | 0 <= i < |layout| :: rows[i] == Attended(l, query, kvs, start, layout, i)
    {
      var keys := kvs[start..start + |layout|];
      var visibility := QueryVisibility(layout);
      rows := [];
      for i := 0 to |layout|
        invariant |rows| == i
        invariant forall j | 0 <= j < i :: rows[j] == Attended(l, query, kvs, start, layout, j)
      {
        VisibleKeys(PastOf(l), keys, layout, visibility[i], i);
        rows := rows + [attend(l, query[start + i], Select(PastOf(l) + keys, Everything(|PastOf(l)|) + visibility[i]))];
      }
    }

    /** The new keys of every layer, in layer order; a missing layer yields nothing at all. */
    method CacheUpdates() returns (r: Result<seq<seq<V>>, AttentionError>)
      requires Valid()
      ensures r == Err(LayerMissing) <==> exists l :: l in layers && l !in updates
      ensures r == Err(CacheSharedByRequests) <==> (forall l | l in layers :: l in updates) && |layouts| != 1
      ensures r.Ok? <==> (forall l | l in layers :: l in updates) && |layouts| == 1
      ensures r.Ok? ==> |r.value| == |layers| && forall l | 0 <= l < |layers| ::
              layers[l] in updates && r.value[l] == updates[layers[l]]
    {
      if exists l | l in layers :: l !in updates { return Err(LayerMissing); }
      if |layouts| != 1 { return Err(CacheSharedByRequests); }
      r := Ok(seq(|layers|, l requires 0 <= l < |layers| reads this requires layers[l] in updates =>
                  updates[layers[l]]));
    }
  }

  lemma OwnRows<V>(m: Model<V>, l: nat, query: V, past: seq<V>, kvs: seq<V>, parents: seq<int>, row: seq<bool>, i: nat)
    requires LayoutOk(parents) && |kvs| == |parents| && i < |parents| && IsVisibility(parents, i, row)
    ensures m.attend(l, query, past + Gather(kvs[0..|kvs|], Path(parents, i)))
            == MaskedAttend(m, l, query, past, kvs, row)
  {
    VisibleKeys(past, kvs, parents, row, i);
    assert kvs[0..|kvs|] == kvs;
  }

  ghost predicate Serves<V>(context: TorchDenseAttention<V>, m: Model<V>, s: Step<V>, parents: seq<int>) {
    && ShapeOk(m, s) && LayoutOk(parents) && |parents| == |s.tokens| > 0
    && (forall i | 0 <= i < |parents| :: IsVisibility(parents, i, s.rows[i]))
    && context.attend == m.attend && |context.layers| == m.layers
    && context.layouts == [parents] && context.past == Some(s.past)
  }

  /** One decoder layer around the attention context. */
  method RunLayer<V>(m: Model<V>, s: Step<V>, parents: seq<int>, context: TorchDenseAttention<V>, l: nat,
                     hidden: seq<V>)
    returns (next: seq<V>)
    requires context.Valid() && Serves(context, m, s, parents)
    requires l < m.layers && context.layers[l] !in context.updates && hidden == StepHidden(m, s, l)
    modifies context
    ensures context.Valid() && context.updates == old(context.updates)[context.layers[l] := StepKeyValues(m, s, l)]
    ensures next == StepHidden(m, s, l + 1)
  {
    hide Select, Path, IsVisibility, Gather, MaskedAttend;
    var n := |s.tokens|;
    var query := seq(n, i requires 0 <= i < n => m.project(l, hidden[i], s.positions[i]));
    var kvs := seq(n, i requires 0 <= i < n => m.keyValue(l, hidden[i], s.positions[i]));
    assert kvs == StepKeyValues(m, s, l);
    assert [parents][..0] == [] && [parents][..1] == [parents];
    var attended := context.Forward(context.layers[l], query, kvs);
    assert context.Served(attended.value, l, query, kvs, 0);
    forall i | 0 <= i < n
      ensures attended.value[i] == MaskedAttend(m, l, query[i], s.past[l], kvs, s.rows[i])
    {
      assert StartOf(context.layouts, 0) == 0 && context.layouts[0] == parents;
      assert attended.value[StartOf(context.layouts, 0) + i] == context.Attended(l, query, kvs, 0, parents, i);
      OwnRows(m, l, query[i], s.past[l], kvs, parents, s.rows[i], i);
    }
    next := seq(n, i requires 0 <= i < n => m.finish(l, hidden[i], attended.value[i]));
  }

  /** The first n layers have handed in their keys, and no other. */
  ghost predicate Collected<V>(updates: map<string, seq<V>>, layers: seq<string>, m: Model<V>, s: Step<V>, n: nat)
    requires ShapeOk(m, s) && |layers| == m.layers
  {
    && (forall k | 0 <= k < m.layers :: layers[k] in updates <==> k < n)
    && (forall k | 0 <= k < n && k < m.layers :: updates[layers[k]] == StepKeyValues(m, s, k))
  }

  lemma CollectNext<V>(updates: map<string, seq<V>>, layers: seq<string>, m: Model<V>, s: Step<V>, n: nat)
    requires ShapeOk(m, s) && |layers| == m.layers && n < m.layers && NoDup(layers)
             && Collected(updates, layers, m, s, n)
    ensures layers[n] !in updates
    ensures Collected(updates[layers[n] := StepKeyValues(m, s, n)], layers, m, s, n + 1)
  {
    hide StepKeyValues;
  }

  lemma CollectedAll<V>(updates: map<string, seq<V>>, layers: seq<string>, m: Model<V>, s: Step<V>)
    requires ShapeOk(m, s) && |layers| == m.layers && Collected(updates, layers, m, s, m.layers)
    ensures forall name | name in layers :: name in updates
    ensures forall l | 0 <= l < m.layers :: layers[l] in updates && updates[layers[l]] == StepKeyValues(m, s, l)
  {
    hide StepKeyValues;
  }

  /** A whole model step through the attention context is the step function: the layers ask
      for attention one after another, and the new keys come out in layer order. */
  method RunModel<V>(m: Model<V>, s: Step<V>, parents: seq<int>, layers: seq<string>)
      returns (hidden: seq<V>, updates: seq<seq<V>>)
    requires ShapeOk(m, s) && LayoutOk(parents) && |parents| == |s.tokens| > 0
    requires forall i | 0 <= i < |parents| :: IsVisibility(parents, i, s.rows[i])
    requires NoDup(layers) && |layers| == m.layers
    ensures hidden == StepHidden(m, s, m.layers)
    ensures |updates| == m.layers && forall l | 0 <= l < m.layers :: updates[l] == StepKeyValues(m, s, l)
  {
    hide IsVisibility, LayoutOk;
    var context := new TorchDenseAttention(m.attend, layers, [parents], Some(s.past));
    var n := |s.tokens|;
    hidden := seq(n, i requires 0 <= i < n => m.embed(s.tokens[i]));
    assert hidden == StepHidden(m, s, 0);
    assert Serves(context, m, s, parents) && Collected(context.updates, layers, m, s, 0);
    hide StepHidden, StepKeyValues, Serves, ShapeOk, Collected, TorchDenseAttention.Valid;
    for l := 0 to m.layers
      invariant context.Valid() && fresh(context) && Serves(context, m, s, parents)
      invariant context.layers == layers && context.layouts == [parents]
      invariant hidden == StepHidden(m, s, l) && Collected(context.updates, layers, m, s, l)
    {
      CollectNext(context.updates, layers, m, s, l);
      hidden := RunLayer(m, s, parents, context, l, hidden);
    }
    CollectedAll(context.updates, layers, m, s);
    var result := context.CacheUpdates();
    updates := result.value;
  }
}
