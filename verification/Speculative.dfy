/** Greedy acceptance of a draft tree and whole speculative rounds
    (src/light_vllm/runtime/execution/speculative.py). */
module Speculative {
  import opened Collections
  import opened Layout
  import opened Transformer

  datatype DraftTree = DraftTree(tokens: seq<Token>, parents: seq<int>)

  /** Parents come first and siblings carry distinct tokens. */
  predicate DraftOk(draft: DraftTree) {
    && |draft.tokens| == |draft.parents| && LayoutOk(draft.parents)
    && forall i, j | 0 <= i < j < |draft.parents| && draft.parents[i] == draft.parents[j] ::
        draft.tokens[i] != draft.tokens[j]
  }

  // ---- acceptance ------------------------------------------------------------------------

  predicate IsChild(draft: DraftTree, parent: int, token: Token, i: nat)
    requires DraftOk(draft)
  {
    i < |draft.tokens| && draft.parents[i] == parent && draft.tokens[i] == token
  }

  function ChildFrom(draft: DraftTree, parent: int, token: Token, start: nat): (child: Option<nat>)
    requires DraftOk(draft) && start <= |draft.tokens|
    ensures child.Some? ==> IsChild(draft, parent, token, child.value)
    ensures child.None? ==> forall i | start <= i < |draft.tokens| :: !IsChild(draft, parent, token, i)
    decreases |draft.tokens| - start
  {
    if start == |draft.tokens| then None
    else if IsChild(draft, parent, token, start) then Some(start)
    else ChildFrom(draft, parent, token, start + 1)
  }

  /** The tokens put out, and the draft nodes accepted. */
  datatype AcceptanceResult = AcceptanceResult(outputs: seq<Token>, accepted: seq<nat>)

  /** From a node, follow the target's token as long as the tree offers it as a child.
      targets[0] follows the formal input and
      targets[i + 1] follows node i. */
  function Walk(draft: DraftTree, targets: seq<Token>, parent: int): (r: AcceptanceResult)
    requires DraftOk(draft) && |targets| == |draft.tokens| + 1 && -1 <= parent < |draft.tokens|
    ensures |r.outputs| == |r.accepted| + 1
    decreases |draft.tokens| - parent
  {
    var target := targets[parent + 1];
    match ChildFrom(draft, parent, target, 0)
    case None => AcceptanceResult([target], [])
    case Some(child) =>
      var below := Walk(draft, targets, child);
      AcceptanceResult([target] + below.outputs, [child] + below.accepted)
  }

  /** GreedyTreeAcceptanceSampler.accept: a table of children, then one walk down. */
  method Accept(draft: DraftTree, targets: seq<Token>) returns (outputs: seq<Token>, accepted: seq<nat>)
    requires DraftOk(draft) && |targets| == |draft.tokens| + 1
    ensures AcceptanceResult(outputs, accepted) == Walk(draft, targets, -1)
  {
    var childByToken: map<(int, Token), nat> := map[];
    for i := 0 to |draft.tokens|
      invariant forall p, t | (p, t) in childByToken ::
                  childByToken[(p, t)] < i && IsChild(draft, p, t, childByToken[(p, t)])
      invariant forall j | 0 <= j < i :: (draft.parents[j], draft.tokens[j]) in childByToken
    {
      childByToken := childByToken[(draft.parents[i], draft.tokens[i]) := i];
    }
    outputs, accepted := [], [];
    var parent, targetIndex := -1, 0;
    while true
      invariant -1 <= parent < |draft.tokens| && targetIndex == parent + 1
      invariant outputs + Walk(draft, targets, parent).outputs == Walk(draft, targets, -1).outputs
      invariant accepted + Walk(draft, targets, parent).accepted == Walk(draft, targets, -1).accepted
      decreases |draft.tokens| - parent
    {
      var target := targets[targetIndex];
      ghost var found := ChildFrom(draft, parent, target, 0);
      ghost var (before, taken) := (outputs, accepted);
      outputs := outputs + [target];
      if (parent, target) !in childByToken {
        assert found.None?;
        return;
      }
      var child := childByToken[(parent, target)];
      assert IsChild(draft, parent, target, child);
      assert found == Some(child);
      Associative(before, [target], Walk(draft, targets, child).outputs);
      Associative(taken, [child], Walk(draft, targets, child).accepted);
      accepted := accepted + [child];
      parent := child;
      targetIndex := child + 1;
    }
  }

  // ---- the accepted tokens are the greedy continuation ------------------------------------

  /** The next n tokens of plain greedy decoding. */
  function Greedy<V>(m: Model<V>, ts: seq<Token>, n: nat): (tokens: seq<Token>)
    requires ts != []
    ensures |tokens| == n
    decreases n
  {
    if n == 0 then [] else
      var t := NextToken(m, ts);
      [t] + Greedy(m, ts + [t], n - 1)
  }

  lemma {:induction false} GreedySplit<V>(m: Model<V>, ts: seq<Token>, a: nat, b: nat)
    requires ts != []
    ensures Greedy(m, ts, a + b) == Greedy(m, ts, a) + Greedy(m, ts + Greedy(m, ts, a), b)
    decreases a
  {
    if a == 0 {
      assert ts + Greedy(m, ts, a) == ts;
    } else {
      var t := NextToken(m, ts);
      GreedySplit(m, ts + [t], a - 1, b);
      assert ts + [t] + Greedy(m, ts + [t], a - 1) == ts + Greedy(m, ts, a);
    }
  }

  lemma GreedyCons<V>(m: Model<V>, ts: seq<Token>, n: nat)
    requires ts != []
    ensures var t := NextToken(m, ts); Greedy(m, ts, n + 1) == [t] + Greedy(m, ts + [t], n) && Greedy(m, ts, 0) == []
    ensures n == 0 ==> Greedy(m, ts, 1) == [NextToken(m, ts)]
  {
    if n == 0 { assert Greedy(m, ts + [NextToken(m, ts)], 0) == []; }
  }

  lemma GatherCons<T>(xs: seq<T>, first: nat, rest: seq<nat>, ys: seq<T>)
    requires first < |xs| && (forall k | 0 <= k < |rest| :: rest[k] < |xs|) && |rest| <= |ys|
    requires Gather(xs, rest) == ys[..|rest|]
    ensures Gather(xs, [first] + rest) == ([xs[first]] + ys)[..|rest| + 1]
  {
    assert Gather(xs, [first] + rest) == [xs[first]] + Gather(xs, rest);
  }

  /** The tokens from a root of the draft down to a node. */
  function NodeTokens(draft: DraftTree, node: int): seq<Token>
    requires DraftOk(draft) && -1 <= node < |draft.tokens|
  {
    Gather(draft.tokens, PathAbove(draft.parents, node))
  }

  /** The sampled targets are what plain decoding would put after each node. */
  ghost predicate TargetsOk<V>(m: Model<V>, ts: seq<Token>, draft: DraftTree, targets: seq<Token>)
    requires DraftOk(draft) && ts != []
  {
    && |targets| == |draft.tokens| + 1
    && forall node | -1 <= node < |draft.tokens| :: targets[node + 1] == NextToken(m, ts + NodeTokens(draft, node))
  }

  lemma ChildTokens(draft: DraftTree, child: nat)
    requires DraftOk(draft) && child < |draft.tokens|
    ensures NodeTokens(draft, child) == NodeTokens(draft, draft.parents[child]) + [draft.tokens[child]]
  {
  }

  /** For any tree, the output is a run of the plain greedy continuation; the accepted nodes
      are a path of the tree that spells all of it but the last token. */
  lemma {:induction false} WalkIsGreedy<V>(m: Model<V>, ts: seq<Token>, draft: DraftTree, targets: seq<Token>,
                                           parent: int)
    requires DraftOk(draft) && ts != [] && TargetsOk(m, ts, draft, targets) && -1 <= parent < |draft.tokens|
    ensures var r := Walk(draft, targets, parent);
            && r.outputs == Greedy(m, ts + NodeTokens(draft, parent), |r.outputs|)
            && (forall k | 0 <= k < |r.accepted| :: r.accepted[k] < |draft.tokens|)
            && (forall k | 0 <= k < |r.accepted| ::
                draft.parents[r.accepted[k]] == if k == 0 then parent else r.accepted[k - 1])
            && Gather(draft.tokens, r.accepted) == r.outputs[..|r.accepted|]
    decreases |draft.tokens| - parent
  {
    hide NodeTokens, NextToken, Greedy, Gather, Climbs;
    var target := targets[parent + 1];
    var context := ts + NodeTokens(draft, parent);
    var found := ChildFrom(draft, parent, target, 0);
    if found.Some? {
      var child := found.value;
      var below := Walk(draft, targets, child);
      WalkIsGreedy(m, ts, draft, targets, child);
      ChildTokens(draft, child);
      Associative(ts, NodeTokens(draft, parent), [target]);
      GreedyCons(m, context, |below.outputs|);
      GatherCons(draft.tokens, child, below.accepted, below.outputs);
    } else {
      GreedyCons(m, context, 0);
      assert Gather(draft.tokens, []) == [];
    }
  }

  lemma GreedyEnds<V>(m: Model<V>, ts: seq<Token>, n: nat)
    requires ts != []
    ensures Greedy(m, ts, n + 1) == Greedy(m, ts, n) + [NextToken(m, ts + Greedy(m, ts, n))]
  {
    hide NextToken;
    GreedySplit(m, ts, n, 1);
    var next := ts + Greedy(m, ts, n);
    assert Greedy(m, next, 1) == [NextToken(m, next)] + Greedy(m, next + [NextToken(m, next)], 0);
  }

  /** A node that spells greedy tokens is the child the walk takes from its parent. */
  lemma GreedyChild<V>(m: Model<V>, ts: seq<Token>, draft: DraftTree, targets: seq<Token>, node: nat)
    requires DraftOk(draft) && ts != [] && TargetsOk(m, ts, draft, targets) && node < |draft.tokens|
    requires NodeTokens(draft, node) == Greedy(m, ts, |NodeTokens(draft, node)|)
    ensures var parent := draft.parents[node];
            && NodeTokens(draft, parent) == Greedy(m, ts, |NodeTokens(draft, parent)|)
            && ChildFrom(draft, parent, targets[parent + 1], 0) == Some(node)
  {
    hide NextToken, NodeTokens, Greedy;
    var parent := draft.parents[node];
    var above := NodeTokens(draft, parent);
    ChildTokens(draft, node);
    GreedyEnds(m, ts, |above|);
    assert (above + [draft.tokens[node]])[..|above|] == above;
    assert targets[parent + 1] == NextToken(m, ts + above);
    assert IsChild(draft, parent, targets[parent + 1], node);
  }

  /** The walk keeps exactly the longest stretch of the greedy continuation that the tree
      spells: every path of the tree that spells greedy tokens is a prefix of the accepted one. */
  lemma {:induction false} AcceptsLongestPath<V>(m: Model<V>, ts: seq<Token>, draft: DraftTree, targets: seq<Token>,
                                                 node: nat)
    requires DraftOk(draft) && ts != [] && TargetsOk(m, ts, draft, targets) && node < |draft.tokens|
    requires NodeTokens(draft, node) == Greedy(m, ts, |NodeTokens(draft, node)|)
    ensures Walk(draft, targets, -1).accepted == Path(draft.parents, node) + Walk(draft, targets, node).accepted
    decreases node
  {
    var parent := draft.parents[node];
    assert -1 <= parent < node && |targets| == |draft.tokens| + 1;
    assert Path(draft.parents, node) == PathAbove(draft.parents, parent) + [node];
    hide NextToken, NodeTokens, Greedy, TargetsOk, ChildFrom, DraftOk, Walk, Path;
    GreedyChild(m, ts, draft, targets, node);
    WalkFrom(draft, targets, node);
    if parent != -1 {
      AcceptsLongestPath(m, ts, draft, targets, parent);
      Associative(PathAbove(draft.parents, parent), [node], Walk(draft, targets, node).accepted);
    }
  }

  lemma WalkFrom(draft: DraftTree, targets: seq<Token>, node: nat)
    requires DraftOk(draft) && |targets| == |draft.tokens| + 1 && node < |draft.tokens|
    requires ChildFrom(draft, draft.parents[node], targets[draft.parents[node] + 1], 0) == Some(node)
    ensures Walk(draft, targets, draft.parents[node]).accepted == [node] + Walk(draft, targets, node).accepted
  {
  }

  // ---- one model step over formal input and draft ----------------------------------------

  /** The targets sampled from the last input row and every draft row. */
  function Sampled<V>(m: Model<V>, hidden: seq<V>, numInput: nat): (targets: seq<Token>)
    requires 0 < numInput <= |hidden|
    ensures |targets| == |hidden| - numInput + 1
  {
    seq(|hidden| - numInput + 1, k requires 0 <= k < |hidden| - numInput + 1 => m.choose(hidden[numInput - 1 + k]))
  }

  function Targets<V>(m: Model<V>, s: Step<V>, numInput: nat): (targets: seq<Token>)
    requires ShapeOk(m, s) && 0 < numInput <= |s.tokens|
    ensures |targets| == |s.tokens| - numInput + 1
  {
    Sampled(m, StepHidden(m, s, m.layers), numInput)
  }

  function DraftStep<V>(past: seq<seq<V>>, computed: nat, input: seq<Token>, draft: DraftTree): (s: Step<V>)
    requires input != [] && DraftOk(draft)
    ensures s.past == past && s.tokens == input + draft.tokens
    ensures |s.positions| == |s.rows| == |s.tokens| && forall i | 0 <= i < |s.rows| :: |s.rows[i]| == |s.tokens|
  {
    ForestStep(past, computed, input + draft.tokens, AppendedParents(|input|, draft.parents))
  }

  lemma GatherAppended<T>(xs: seq<T>, ys: seq<T>, path: seq<nat>)
    requires forall k | 0 <= k < |path| :: path[k] < |ys|
    ensures Gather(xs + ys, seq(|xs|, k => k)) == xs
    ensures Gather(xs + ys, seq(|xs|, k => k) + Shifted(path, |xs|)) == xs + Gather(ys, path)
  {
  }

  /** In the appended layout, the branch of a draft node is the whole context and its tree path. */
  lemma NodeBranch(prefix: seq<Token>, input: seq<Token>, draft: DraftTree, node: int)
    requires input != [] && DraftOk(draft) && -1 <= node < |draft.tokens|
    ensures Branch(prefix, input + draft.tokens, AppendedParents(|input|, draft.parents), |input| + node)
            == prefix + input + NodeTokens(draft, node)
  {
    hide AppendedParents, Gather, Shifted;
    if node == -1 {
      AppendedInputPath(|input|, draft.parents, |input| - 1);
      GatherAppended(input, draft.tokens, []);
    } else {
      AppendedDraftPath(|input|, draft.parents, node);
      GatherAppended(input, draft.tokens, Path(draft.parents, node));
    }
  }

  lemma StepTarget<V>(m: Model<V>, prefix: seq<Token>, parents: seq<int>, s: Step<V>, numInput: nat, node: int)
    requires VerifiesForest(m, prefix, parents, s)
    requires 0 < numInput <= |parents| && -1 <= node < |parents| - numInput
    ensures Targets(m, s, numInput)[node + 1] == NextToken(m, Branch(prefix, s.tokens, parents, numInput + node))
  {
    hide Hidden, StepHidden, Branch, Path;
    ForestEqualsDecoding(m, prefix, parents, s, m.layers);
  }

  /** The rows sampled for the draft are what plain decoding would put after each node. */
  lemma StepTargets<V>(m: Model<V>, prefix: seq<Token>, input: seq<Token>, draft: DraftTree)
    requires input != [] && DraftOk(draft)
    ensures var s := DraftStep(Caches(m, prefix), |prefix|, input, draft);
            TargetsOk(m, prefix + input, draft, Targets(m, s, |input|))
  {
    hide NextToken, NodeTokens, Branch, StepHidden;
    var parents := AppendedParents(|input|, draft.parents);
    var s := DraftStep(Caches(m, prefix), |prefix|, input, draft);
    assert VerifiesForest(m, prefix, parents, s);
    hide VerifiesForest, AppendedParents, DraftStep, Targets, LayoutOk;
    forall node | -1 <= node < |draft.tokens|
      ensures Targets(m, s, |input|)[node + 1] == NextToken(m, prefix + input + NodeTokens(draft, node))
    {
      StepTarget(m, prefix, parents, s, |input|, node);
      NodeBranch(prefix, input, draft, node);
    }
  }
}
