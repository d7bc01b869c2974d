/** Whole generations: any mixture of prefill chunks and draft-tree rounds against one cache
    gives the plain greedy continuation of the prompt. */
module Decoding {
  import opened Collections
  import opened Layout
  import opened Transformer
  import opened Chunks
  import opened Speculative

  /** The known tokens of a request, how many of them are cached, and the caches. */
  datatype Session<V> = Session(known: seq<Token>, computed: nat, caches: seq<seq<V>>)

  /** One step of a request: how much formal input it takes and the tree behind it. */
  datatype Round = Round(numInput: nat, draft: DraftTree)

  /** A step takes the next known tokens; only the step that reaches the last known token
      samples, so only that one carries a draft. */
  predicate RoundOk<V>(st: Session<V>, r: Round) {
    && 0 < r.numInput && st.computed + r.numInput <= |st.known| && DraftOk(r.draft)
    && (st.computed + r.numInput < |st.known| ==> r.draft.tokens == [])
  }

  /** The query indices kept after acceptance: all formal input, then the accepted nodes. */
  function Retained(numInput: nat, accepted: seq<nat>): (retained: seq<nat>)
    ensures |retained| == numInput + |accepted|
  {
    seq(numInput, k => k) + Shifted(accepted, numInput)
  }

  function RoundStep<V>(m: Model<V>, st: Session<V>, r: Round): (s: Step<V>)
    requires |st.caches| == m.layers && RoundOk(st, r)
    ensures ShapeOk(m, s) && s.past == st.caches
    ensures s.tokens == st.known[st.computed..st.computed + r.numInput] + r.draft.tokens
  {
    DraftStep(st.caches, st.computed, st.known[st.computed..st.computed + r.numInput], r.draft)
  }

  /** A step that stops short of the last known token only fills the cache. */
  function Prefill<V>(m: Model<V>, st: Session<V>, r: Round): (next: Session<V>)
    requires |st.caches| == m.layers && RoundOk(st, r)
  {
    Session(st.known, st.computed + r.numInput, Appended(m, RoundStep(m, st, r)))
  }

  /** Every layer compacted alike. */
  function Kept<V>(caches: seq<seq<V>>, computed: nat, retained: seq<nat>): (kept: seq<seq<V>>)
    requires forall l | 0 <= l < |caches| :: computed <= |caches[l]| && forall k | 0 <= k < |retained| ::
             retained[k] < |caches[l]| - computed
    ensures |kept| == |caches| && forall l | 0 <= l < |caches| :: kept[l] == Compacted(caches[l], computed, retained)
  {
    seq(|caches|, l requires 0 <= l < |caches| => Compacted(caches[l], computed, retained))
  }

  /** A step that reaches it samples, accepts a path of the draft and compacts the cache. */
  function Sample<V>(m: Model<V>, st: Session<V>, r: Round): (next: Session<V>)
    requires |st.caches| == m.layers && RoundOk(st, r)
    requires forall l | 0 <= l < m.layers :: |st.caches[l]| == st.computed
  {
    var s := RoundStep(m, st, r);
    var result := Walk(r.draft, Targets(m, s, r.numInput), -1);
    AcceptedInTree(r.draft, Targets(m, s, r.numInput), -1);
    Session(st.known + result.outputs, |st.known| + |result.accepted|,
            Kept(Appended(m, s), st.computed, Retained(r.numInput, result.accepted)))
  }

  function Play<V>(m: Model<V>, st: Session<V>, r: Round): (next: Session<V>)
    requires |st.caches| == m.layers && RoundOk(st, r)
    requires forall l | 0 <= l < m.layers :: |st.caches[l]| == st.computed
  {
    if st.computed + r.numInput < |st.known| then Prefill(m, st, r) else Sample(m, st, r)
  }

  lemma {:induction false} AcceptedInTree(draft: DraftTree, targets: seq<Token>, parent: int)
    requires DraftOk(draft) && |targets| == |draft.tokens| + 1 && -1 <= parent < |draft.tokens|
    ensures forall k | 0 <= k < |Walk(draft, targets, parent).accepted| ::
              parent < Walk(draft, targets, parent).accepted[k] < |draft.tokens|
    ensures |Walk(draft, targets, parent).outputs| <= |draft.tokens| - parent
    decreases |draft.tokens| - parent
  {
    var found := ChildFrom(draft, parent, targets[parent + 1], 0);
    if found.Some? {
      assert draft.parents[found.value] == parent;
      AcceptedInTree(draft, targets, found.value);
    }
  }

  /** What decoding keeps true: the known tokens are the prompt and a greedy continuation, at
      least one is not cached yet, and the caches are those of plain decoding. */
  ghost predicate Decodes<V>(m: Model<V>, prompt: seq<Token>, st: Session<V>) {
    && prompt != [] && prompt <= st.known
    && st.known == prompt + Greedy(m, prompt, |st.known| - |prompt|)
    && st.computed < |st.known|
    && st.caches == Caches(m, st.known[..st.computed])
  }

  lemma RetainedIsChain(numInput: nat, draft: DraftTree, accepted: seq<nat>)
    requires numInput > 0 && DraftOk(draft) && IsParentChain(draft.parents, accepted)
    ensures IsParentChain(AppendedParents(numInput, draft.parents), Retained(numInput, accepted))
  {
  }

  /** The cache after accepting a parent chain is the cache of the known and accepted tokens. */
  lemma KeptCache<V>(m: Model<V>, prefix: seq<Token>, input: seq<Token>, draft: DraftTree, accepted: seq<nat>, l: nat)
    requires input != [] && DraftOk(draft) && IsParentChain(draft.parents, accepted) && l < m.layers
    ensures var s := DraftStep(Caches(m, prefix), |prefix|, input, draft);
            Compacted(Appended(m, s)[l], |prefix|, Retained(|input|, accepted))
            == Caches(m, prefix + input + Gather(draft.tokens, accepted))[l]
  {
    hide Hidden, Cache, StepHidden, Caches, StepKeyValues;
    var s := DraftStep(Caches(m, prefix), |prefix|, input, draft);
    var parents := AppendedParents(|input|, draft.parents);
    var retained := Retained(|input|, accepted);
    RetainedIsChain(|input|, draft, accepted);
    assert VerifiesForest(m, prefix, parents, s);
    ChainCache(m, prefix, parents, s, l, retained);
    GatherAppended(input, draft.tokens, accepted);
    hide AppendedParents, DraftStep, LayoutOk, DraftOk, IsParentChain, VerifiesForest, Retained, Gather;
    var kvs := StepKeyValues(m, s, l);
    assert (s.past[l] + kvs)[..|prefix|] == s.past[l] && (s.past[l] + kvs)[|prefix|..] == kvs;
    assert prefix + (input + Gather(draft.tokens, accepted)) == prefix + input + Gather(draft.tokens, accepted);
  }

  /** A step without a draft leaves the cache of the longer prefix. */
  lemma PlainCache<V>(m: Model<V>, prefix: seq<Token>, input: seq<Token>, draft: DraftTree)
    requires input != [] && DraftOk(draft) && draft.tokens == []
    ensures Appended(m, DraftStep(Caches(m, prefix), |prefix|, input, draft)) == Caches(m, prefix + input)
  {
    assert AppendedParents(|input|, draft.parents) == LinearParents(|input|);
    assert input + draft.tokens == input;
    ChunkCaches(m, prefix, input);
  }

  lemma PlayAccepts<V>(m: Model<V>, ts: seq<Token>, draft: DraftTree, targets: seq<Token>)
    requires DraftOk(draft) && ts != [] && TargetsOk(m, ts, draft, targets)
    ensures var r := Walk(draft, targets, -1);
            && r.outputs == Greedy(m, ts, |r.outputs|)
            && IsParentChain(draft.parents, r.accepted)
            && Gather(draft.tokens, r.accepted) == r.outputs[..|r.accepted|]
  {
    WalkIsGreedy(m, ts, draft, targets, -1);
    assert ts + NodeTokens(draft, -1) == ts;
  }

  lemma PrefillDecodes<V>(m: Model<V>, prompt: seq<Token>, st: Session<V>, r: Round)
    requires Decodes(m, prompt, st) && RoundOk(st, r) && st.computed + r.numInput < |st.known|
    ensures Decodes(m, prompt, Prefill(m, st, r)) && Prefill(m, st, r).known == st.known
  {
    hide Greedy, Caches, Appended, DraftStep;
    var prefix := st.known[..st.computed];
    var input := st.known[st.computed..st.computed + r.numInput];
    assert st.known[..st.computed + r.numInput] == prefix + input;
    PlainCache(m, prefix, input, r.draft);
  }

  /** The sampled tokens and the kept cache, whatever tree was proposed. */
  lemma SampleEffect<V>(m: Model<V>, prompt: seq<Token>, st: Session<V>, r: Round)
    requires Decodes(m, prompt, st) && RoundOk(st, r) && st.computed + r.numInput == |st.known|
    ensures var next := Sample(m, st, r);
            && st.known <= next.known && |st.known| < |next.known| <= |st.known| + 1 + |r.draft.tokens|
            && next.known == st.known + Greedy(m, st.known, |next.known| - |st.known|)
            && next.computed == |next.known| - 1
            && next.caches == Caches(m, next.known[..next.computed])
  {
    hide Greedy, Appended, DraftStep, Gather, TargetsOk, Targets, IsParentChain, NodeTokens, Walk, Caches;
    var prefix := st.known[..st.computed];
    var input := st.known[st.computed..];
    assert prefix + input == st.known;
    assert input == st.known[st.computed..st.computed + r.numInput];
    var targets := Targets(m, RoundStep(m, st, r), r.numInput);
    StepTargets(m, prefix, input, r.draft);
    PlayAccepts(m, st.known, r.draft, targets);
    AcceptedInTree(r.draft, targets, -1);
    var result := Walk(r.draft, targets, -1);
    SampledKnown(st.known, result, r.draft);
    hide LayoutOk, DraftOk;
    KeptCaches(m, st, r, prefix, input, result.accepted);
  }

  /** The tokens known behind a sample, and those of them that are in the cache. */
  lemma SampledKnown(known: seq<Token>, result: AcceptanceResult, draft: DraftTree)
    requires |result.outputs| == |result.accepted| + 1
    requires forall k | 0 <= k < |result.accepted| :: result.accepted[k] < |draft.tokens|
    requires Gather(draft.tokens, result.accepted) == result.outputs[..|result.accepted|]
    ensures var next := known + result.outputs;
            && next[|known|..] == result.outputs
            && next[..|known| + |result.accepted|] == known + Gather(draft.tokens, result.accepted)
  {
    hide Gather;
  }

  lemma KeptCaches<V>(m: Model<V>, st: Session<V>, r: Round, prefix: seq<Token>, input: seq<Token>, accepted: seq<nat>)
    requires RoundOk(st, r) && st.computed + r.numInput == |st.known|
    requires prefix == st.known[..st.computed] && input == st.known[st.computed..] && st.caches == Caches(m, prefix)
    requires IsParentChain(r.draft.parents, accepted) && forall k | 0 <= k < |accepted| ::
             accepted[k] < |r.draft.tokens|
    ensures Kept(Appended(m, RoundStep(m, st, r)), st.computed, Retained(r.numInput, accepted))
            == Caches(m, st.known + Gather(r.draft.tokens, accepted))
  {
    hide Gather, Caches, Appended, DraftStep, IsParentChain;
    assert prefix + input == st.known && input == st.known[st.computed..st.computed + r.numInput];
    forall l | 0 <= l < m.layers
      ensures Kept(Appended(m, RoundStep(m, st, r)), st.computed, Retained(r.numInput, accepted))[l]
              == Caches(m, st.known + Gather(r.draft.tokens, accepted))[l]
    {
      KeptCache(m, prefix, input, r.draft, accepted, l);
    }
  }

  /** One step continues plain greedy decoding, whatever tree was proposed. */
  lemma PlayDecodes<V>(m: Model<V>, prompt: seq<Token>, st: Session<V>, r: Round)
    requires Decodes(m, prompt, st) && RoundOk(st, r)
    ensures Decodes(m, prompt, Play(m, st, r))
    ensures st.known <= Play(m, st, r).known
  {
    hide Greedy, Caches, Prefill, Sample;
    if st.computed + r.numInput < |st.known| {
      PrefillDecodes(m, prompt, st, r);
    } else {
      SampleEffect(m, prompt, st, r);
      var next := Sample(m, st, r);
      GreedySplit(m, prompt, |st.known| - |prompt|, |next.known| - |st.known|);
      assert next.known == prompt + Greedy(m, prompt, |next.known| - |prompt|);
    }
  }

  /** The steps of a run are legal in the states they meet. */
  ghost predicate RoundsOk<V>(m: Model<V>, prompt: seq<Token>, st: Session<V>, rounds: seq<Round>)
    requires Decodes(m, prompt, st)
    decreases |rounds|
  {
    rounds == [] ||
    (RoundOk(st, rounds[0]) &&
     (PlayDecodes(m, prompt, st, rounds[0]); RoundsOk(m, prompt, Play(m, st, rounds[0]), rounds[1..])))
  }

  ghost function PlayAll<V>(m: Model<V>, prompt: seq<Token>, st: Session<V>, rounds: seq<Round>): Session<V>
    requires Decodes(m, prompt, st) && RoundsOk(m, prompt, st, rounds)
    decreases |rounds|
  {
    if rounds == [] then st else
      PlayDecodes(m, prompt, st, rounds[0]);
      PlayAll(m, prompt, Play(m, st, rounds[0]), rounds[1..])
  }

  /** A request starts with nothing known but its prompt and nothing cached. */
  function Start<V>(m: Model<V>, prompt: seq<Token>): (st: Session<V>)
    requires prompt != []
    ensures Decodes(m, prompt, st)
  {
    assert prompt + Greedy(m, prompt, 0) == prompt;
    Session(prompt, 0, seq(m.layers, _ => []))
  }

  /** Speculation is invisible: every run, whatever its chunks and drafts, is a run of plain
      greedy decoding. */
  lemma {:induction false} RunDecodes<V>(m: Model<V>, prompt: seq<Token>, st: Session<V>, rounds: seq<Round>)
    requires Decodes(m, prompt, st) && RoundsOk(m, prompt, st, rounds)
    ensures Decodes(m, prompt, PlayAll(m, prompt, st, rounds))
    decreases |rounds|
  {
    if rounds != [] {
      PlayDecodes(m, prompt, st, rounds[0]);
      RunDecodes(m, prompt, Play(m, st, rounds[0]), rounds[1..]);
    }
  }

  /** Two decodings of one prompt agree on every token both have generated. */
  lemma SessionsAgree<V>(m: Model<V>, prompt: seq<Token>, x: Session<V>, y: Session<V>)
    requires Decodes(m, prompt, x) && Decodes(m, prompt, y) && |x.known| <= |y.known|
    ensures x.known <= y.known && (x.computed == y.computed ==> x.caches == y.caches)
  {
    hide Greedy, Caches;
    var i, j := |x.known| - |prompt|, |y.known| - |prompt|;
    GreedySplit(m, prompt, i, j - i);
    assert x.known == y.known[..|x.known|];
    if x.computed == y.computed {
      assert x.known[..x.computed] == y.known[..y.computed];
    }
  }

  /** So no schedule of chunks and drafts can be told from another by its tokens or its cache. */
  lemma RunsAgree<V>(m: Model<V>, prompt: seq<Token>, a: seq<Round>, b: seq<Round>)
    requires prompt != []
    requires RoundsOk(m, prompt, Start(m, prompt), a) && RoundsOk(m, prompt, Start(m, prompt), b)
    ensures var (x, y) := (PlayAll(m, prompt, Start(m, prompt), a), PlayAll(m, prompt, Start(m, prompt), b));
            |x.known| <= |y.known| ==> x.known <= y.known && (x.computed == y.computed ==> x.caches == y.caches)
  {
    hide Decodes, RoundsOk, PlayAll;
    RunDecodes(m, prompt, Start(m, prompt), a);
    RunDecodes(m, prompt, Start(m, prompt), b);
    var x, y := PlayAll(m, prompt, Start(m, prompt), a), PlayAll(m, prompt, Start(m, prompt), b);
    if |x.known| <= |y.known| { SessionsAgree(m, prompt, x, y); }
  }
}
