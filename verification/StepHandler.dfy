/** One step of one request on the contiguous cache: forward, accept and compact
    (src/light_vllm/runtime/execution/worker.py:110-188, speculative.py:272-440). */
module StepHandler {
  import opened Collections
  import opened Layout
  import opened Transformer
  import opened Chunks
  import opened Speculative
  import opened Decoding
  import opened DenseAttention
  import opened ContiguousCache
  import Leases

  datatype StepError = LengthMismatch | CacheError(error: Leases.CacheError)

  /** The cached key/value pairs of a request, as a value. */
  ghost predicate Holds<V(0)>(cache: ContiguousKVCache<V>, id: string, past: seq<seq<V>>)
    reads cache, cache.entries.Values, if id in cache.entries then cache.entries[id].layers else []
  {
    && id in cache.entries && cache.BuffersOk() && |past| == cache.numLayers
    && forall l | 0 <= l < cache.numLayers :: cache.entries[id].Slots(l) == past[l]
  }

  lemma RowsAreUnique<V>(past: seq<seq<V>>, computed: nat, tokens: seq<Token>, parents: seq<int>,
                         positions: seq<nat>, rows: seq<seq<bool>>)
    requires LayoutOk(parents) && |parents| == |tokens| == |positions| == |rows|
    requires forall i | 0 <= i < |parents| ::
             positions[i] == computed + |Path(parents, i)| - 1 && IsVisibility(parents, i, rows[i])
    ensures Step(past, tokens, positions, rows) == ForestStep(past, computed, tokens, parents)
  {
    var s := ForestStep(past, computed, tokens, parents);
    assert positions == s.positions;
    forall i | 0 <= i < |parents| ensures rows[i] == s.rows[i] {
      assert IsVisibility(parents, i, s.rows[i]);
    }
    assert rows == s.rows;
  }

  class ContiguousStepHandler<V(0)> {
    const model: Model<V>
    const layerIds: seq<string>
    const cache: ContiguousKVCache<V>

    ghost predicate Valid()
      reads cache, cache.entries.Values, cache.leases
    {
      cache.Valid() && NoDup(layerIds) && |layerIds| == model.layers == cache.numLayers
    }

    constructor (model: Model<V>, layerIds: seq<string>, cache: ContiguousKVCache<V>)
      requires cache.Valid() && NoDup(layerIds) && |layerIds| == model.layers == cache.numLayers
      ensures Valid() && this.model == model && this.layerIds == layerIds && this.cache == cache
    {
      this.model, this.layerIds, this.cache := model, layerIds, cache;
    }

    /** Compute the queries of one request and append their keys to its cache; nothing is
        appended when the step does not fit. */
    method Forward(id: string, computed: nat, tokens: seq<Token>, parents: seq<int>, ghost past: seq<seq<V>>)
      returns (r: Result<seq<V>, StepError>)
      requires Valid() && Holds(cache, id, past)
      requires tokens != [] && LayoutOk(parents) && |parents| == |tokens|
      modifies cache.entries[id], cache.entries[id].layers
      ensures Valid() && cache.View() == old(cache.View()) && cache.entries == old(cache.entries)
      ensures r == Err(LengthMismatch) <==> old(cache.entries[id].length) != computed
      ensures r.Ok? <==> old(cache.entries[id].length) == computed && computed + |tokens| <= cache.entries[id].capacity
      ensures r.Err? ==> Holds(cache, id, past)
      ensures r.Ok? ==> var s := ForestStep(past, computed, tokens, parents);
                        && ShapeOk(model, s) && r.value == StepHidden(model, s, model.layers)
                        && Holds(cache, id, Appended(model, s))
    {
      hide Leases.Inv, StepHidden, StepKeyValues, ForestStep, LayoutOk, Path, IsVisibility, ContiguousKVCache.View;
      var entry := cache.entries[id];
      if entry.length != computed { return Err(LengthMismatch); }
      var positions := SemanticPositions(parents, computed);
      var rows := QueryVisibility(parents);
      var view := cache.Read(id);
      assert view.value == past;
      var s := Step(view.value, tokens, positions, rows);
      RowsAreUnique(past, computed, tokens, parents, positions, rows);
      var hidden, updates := RunModel(model, s, parents, layerIds);
      var failure := cache.Append(id, updates);
      if failure.Some? { return Err(CacheError(failure.value)); }
      r := Ok(hidden);
    }

    /** Keep the retained queries of the step; `moved` is how many of them changed place. */
    method Compact(id: string, computed: nat, retained: seq<nat>, ghost full: seq<seq<V>>) returns (moved: nat)
      requires Valid() && Holds(cache, id, full) && NoDup(retained) && computed <= cache.entries[id].length
      requires forall k | 0 <= k < |retained| :: retained[k] < cache.entries[id].length - computed
      modifies cache.entries[id], cache.entries[id].layers
      ensures Valid() && cache.View() == old(cache.View()) && cache.entries == old(cache.entries)
              && moved == Moved(retained)
      ensures forall l | 0 <= l < |full| :: computed <= |full[l]| && forall k | 0 <= k < |retained| ::
              retained[k] < |full[l]| - computed
      ensures Holds(cache, id, Kept(full, computed, retained))
    {
      hide Leases.Inv, Compacted, Moved;
      assert forall l | 0 <= l < cache.numLayers :: |full[l]| == cache.entries[id].length;
      var r := cache.Compact(id, computed, retained);
      moved := r.value;
    }
  }

  /** What the executor reports for one request. */
  datatype RequestOutput = RequestOutput(outputs: seq<Token>, cachedOutputs: nat)

  lemma RetainedDistinct(numInput: nat, draft: DraftTree, targets: seq<Token>)
    requires DraftOk(draft) && |targets| == |draft.tokens| + 1
    ensures var retained := Retained(numInput, Walk(draft, targets, -1).accepted);
            && NoDup(retained) && (forall k | 0 <= k < |retained| :: retained[k] < numInput + |draft.tokens|)
            && Moved(retained) <= |Walk(draft, targets, -1).accepted|
  {
    var accepted := Walk(draft, targets, -1).accepted;
    AcceptedAscends(draft, targets, -1);
    AcceptedInTree(draft, targets, -1);
    MovedBehind(numInput, Shifted(accepted, numInput));
  }

  lemma {:induction false} AcceptedAscends(draft: DraftTree, targets: seq<Token>, parent: int)
    requires DraftOk(draft) && |targets| == |draft.tokens| + 1 && -1 <= parent < |draft.tokens|
    ensures forall j, k | 0 <= j < k < |Walk(draft, targets, parent).accepted| ::
              Walk(draft, targets, parent).accepted[j] < Walk(draft, targets, parent).accepted[k]
    decreases |draft.tokens| - parent
  {
    var found := ChildFrom(draft, parent, targets[parent + 1], 0);
    if found.Some? {
      assert draft.parents[found.value] == parent;
      AcceptedAscends(draft, targets, found.value);
      AcceptedInTree(draft, targets, found.value);
    }
  }

  lemma LengthOf<V(0)>(cache: ContiguousKVCache<V>, id: string, past: seq<seq<V>>, n: nat)
    requires cache.Valid() && Holds(cache, id, past) && forall l | 0 <= l < cache.numLayers :: |past[l]| == n
    ensures cache.entries[id].length == n
  {
    assert |past[0]| == n;
    assert cache.entries[id].Slots(0) == past[0];
  }

  /** Accept a path of the draft and compact its keys. */
  method AcceptDraft<V(0)>(handler: ContiguousStepHandler<V>, id: string, computed: nat, numInput: nat,
                           draft: DraftTree, hidden: seq<V>,
                           ghost full: seq<seq<V>>)
    returns (result: AcceptanceResult, moved: nat)
    requires handler.Valid() && DraftOk(draft) && numInput > 0 && |hidden| == numInput + |draft.tokens|
    requires Holds(handler.cache, id, full) && |full| == handler.model.layers
    requires forall l | 0 <= l < |full| :: |full[l]| == computed + |hidden|
    modifies handler.cache.entries[id], handler.cache.entries[id].layers
    ensures handler.Valid() && handler.cache.View() == old(handler.cache.View())
    ensures result == Walk(draft, Sampled(handler.model, hidden, numInput), -1)
    ensures moved <= |result.accepted| <= |draft.tokens|
    ensures forall k | 0 <= k < |Retained(numInput, result.accepted)| ::
            Retained(numInput, result.accepted)[k] < |hidden|
    ensures Holds(handler.cache, id, Kept(full, computed, Retained(numInput, result.accepted)))
  {
    hide Leases.Inv, Moved, Gather, LayoutOk, Walk, Compacted, Retained, Holds, DraftOk;
    var targets := Sampled(handler.model, hidden, numInput);
    var outputs, accepted := Accept(draft, targets);
    RetainedDistinct(numInput, draft, targets);
    AcceptedInTree(draft, targets, -1);
    LengthOf(handler.cache, id, full, computed + |hidden|);
    moved := handler.Compact(id, computed, Retained(numInput, accepted), full);
    result := AcceptanceResult(outputs, accepted);
  }

  /** A round in terms of the model step and its acceptance. */
  lemma PlayParts<V>(m: Model<V>, st: Session<V>, round: Round)
    requires |st.caches| == m.layers && RoundOk(st, round)
    requires forall l | 0 <= l < m.layers :: |st.caches[l]| == st.computed
    ensures var (next, s) := (Play(m, st, round), RoundStep(m, st, round));
            var (hidden, full) := (StepHidden(m, s, m.layers), Appended(m, s));
            && |hidden| == round.numInput + |round.draft.tokens|
            && (forall l | 0 <= l < m.layers :: |full[l]| == st.computed + |hidden|)
            && (st.computed + round.numInput < |st.known| ==>
                 round.draft.tokens == [] && next == Session(st.known, st.computed + round.numInput, full))
            && (st.computed + round.numInput == |st.known| ==>
                 var result := Walk(round.draft, Sampled(m, hidden, round.numInput), -1);
                 && next.known == st.known + result.outputs && next.computed == |st.known| + |result.accepted|
                 && (forall k | 0 <= k < |Retained(round.numInput, result.accepted)| ::
                       Retained(round.numInput, result.accepted)[k] < |hidden|)
                 && next.caches == Kept(full, st.computed, Retained(round.numInput, result.accepted)))
  {
    hide StepHidden, DraftStep, Sampled;
    if st.computed + round.numInput == |st.known| {
      AcceptedInTree(round.draft, Targets(m, RoundStep(m, st, round), round.numInput), -1);
    }
  }

  /** SpeculativeDecodeHandler.execute for one request with room in its cache: the outputs and
      the cache left behind are those of one decoding round, and compaction moved at most the
      accepted draft nodes. */
  method ExecuteRequest<V(0)>(handler: ContiguousStepHandler<V>, id: string, st: Session<V>, round: Round)
    returns (r: RequestOutput, moved: nat)
    requires handler.Valid() && handler.model.layers == |st.caches| && Holds(handler.cache, id, st.caches)
    requires RoundOk(st, round) && forall l | 0 <= l < handler.model.layers :: |st.caches[l]| == st.computed
    requires st.computed + round.numInput + |round.draft.tokens| <= handler.cache.entries[id].capacity
    modifies handler.cache.entries[id], handler.cache.entries[id].layers
    ensures handler.Valid() && handler.cache.View() == old(handler.cache.View())
    ensures var next := Play(handler.model, st, round);
            && next.known == st.known + r.outputs && Holds(handler.cache, id, next.caches)
            && next.computed == st.computed + round.numInput + r.cachedOutputs
    ensures moved <= r.cachedOutputs <= |round.draft.tokens|
    ensures |r.outputs| == (if st.computed + round.numInput < |st.known| then 0 else r.cachedOutputs + 1)
  {
    hide StepHidden, Leases.Inv, Appended, Kept, Walk, Sampled, Retained, AppendedParents, Play, Gather,
         ContiguousKVCache.View;
    PlayParts(handler.model, st, round);
    var input := st.known[st.computed..st.computed + round.numInput];
    var parents := AppendDraftLayout(round.numInput, round.draft.parents);
    LengthOf(handler.cache, id, st.caches, st.computed);
    var forwarded := handler.Forward(id, st.computed, input + round.draft.tokens, parents, st.caches);
    ghost var full := Appended(handler.model, RoundStep(handler.model, st, round));
    assert Holds(handler.cache, id, full);
    hide Holds, RoundStep, ForestStep;
    if st.computed + round.numInput < |st.known| {
      r, moved := RequestOutput([], 0), 0;
    } else {
      var result;
      result, moved := AcceptDraft(handler, id, st.computed, round.numInput, round.draft, forwarded.value, full);
      r := RequestOutput(result.outputs, |result.accepted|);
    }
  }
}
