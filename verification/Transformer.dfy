/** A decoder stack over per-layer key/value caches. Per-token projection, attention over an
    ordered key/value list, the feed-forward part and the choice of the next token are
    parameters, so every statement holds for all models. */
module Transformer {
  import opened Collections
  import opened Layout

  type Token = int

  /** `project` and `keyValue` take the layer, the hidden state and the position; `attend` takes
      the layer, the query and the visible key/value pairs in order; `finish` closes a layer. */
  datatype Model<!V> = Model(
    layers: nat,
    embed: Token -> V,
    project: (nat, V, nat) -> V,
    keyValue: (nat, V, nat) -> V,
    attend: (nat, V, seq<V>) -> V,
    finish: (nat, V, V) -> V,
    choose: V -> Token)

  // ---- plain decoding of one sequence ----------------------------------------------------

  /** The hidden state of token i below layer l when the whole sequence is computed at once. */
  function Hidden<V>(m: Model<V>, ts: seq<Token>, l: nat, i: nat): V
    requires l <= m.layers && i < |ts|
    decreases l, 0, 0
  {
    if l == 0 then m.embed(ts[i]) else
      var h := Hidden(m, ts, l - 1, i);
      m.finish(l - 1, h, m.attend(l - 1, m.project(l - 1, h, i), Cache(m, ts, l - 1, i + 1)))
  }

  /** The key/value pairs of the first n tokens in layer l. */
  function Cache<V>(m: Model<V>, ts: seq<Token>, l: nat, n: nat): (kvs: seq<V>)
    requires l < m.layers && n <= |ts|
    ensures |kvs| == n
    decreases l, 1, n
  {
    if n == 0 then [] else
      Cache(m, ts, l, n - 1) + [m.keyValue(l, Hidden(m, ts, l, n - 1), n - 1)]
  }

  /** The token that plain greedy decoding appends to a sequence. */
  function NextToken<V>(m: Model<V>, ts: seq<Token>): Token
    requires ts != []
  {
    m.choose(Hidden(m, ts, m.layers, |ts| - 1))
  }

  /** A hidden state depends only on the tokens up to its own. */
  lemma {:induction false} LocalHidden<V>(m: Model<V>, s: seq<Token>, t: seq<Token>, l: nat, i: nat)
    requires l <= m.layers && i < |s| && i < |t| && s[..i + 1] == t[..i + 1]
    ensures Hidden(m, s, l, i) == Hidden(m, t, l, i)
    decreases l, 0, 0
  {
    assert s[i] == s[..i + 1][i] == t[..i + 1][i] == t[i];
    if l > 0 {
      LocalHidden(m, s, t, l - 1, i);
      LocalCache(m, s, t, l - 1, i + 1);
    }
  }

  /** So does every cache entry. */
  lemma {:induction false} LocalCache<V>(m: Model<V>, s: seq<Token>, t: seq<Token>, l: nat, n: nat)
    requires l < m.layers && n <= |s| && n <= |t| && s[..n] == t[..n]
    ensures Cache(m, s, l, n) == Cache(m, t, l, n)
    decreases l, 1, n
  {
    if n > 0 {
      assert s[..n - 1] == s[..n][..n - 1] == t[..n][..n - 1] == t[..n - 1];
      LocalCache(m, s, t, l, n - 1);
      LocalHidden(m, s, t, l, n - 1);
    }
  }

  // ---- one model step over a query forest ------------------------------------------------

  /** The entries a mask lets through, in order: a masked key has weight zero. */
  function Select<V>(xs: seq<V>, mask: seq<bool>): seq<V>
    requires |xs| == |mask|
  {
    if xs == [] then [] else
      var last := |xs| - 1;
      Select(xs[..last], mask[..last]) + if mask[last] then [xs[last]] else []
  }

  /** The arguments of one model step: the cached past of every layer and the new queries. */
  datatype Step<V> = Step(past: seq<seq<V>>, tokens: seq<Token>, positions: seq<nat>, rows: seq<seq<bool>>)

  predicate ShapeOk<V>(m: Model<V>, s: Step<V>) {
    && |s.past| == m.layers && |s.tokens| == |s.positions| == |s.rows|
    && forall i | 0 <= i < |s.rows| :: |s.rows[i]| == |s.tokens|
  }

  function Everything(n: nat): (mask: seq<bool>)
    ensures |mask| == n && forall j | 0 <= j < n :: mask[j]
  {
    seq(n, _ => true)
  }

  /** Attention of one query: all of the past, and the queries of this step it may see. */
  function MaskedAttend<V>(m: Model<V>, l: nat, query: V, past: seq<V>, kvs: seq<V>, row: seq<bool>): V
    requires |row| == |kvs|
  {
    m.attend(l, query, Select(past + kvs, Everything(|past|) + row))
  }

  /** The hidden states of all queries below layer l, computed together. */
  function StepHidden<V>(m: Model<V>, s: Step<V>, l: nat): (hs: seq<V>)
    requires l <= m.layers && ShapeOk(m, s)
    ensures |hs| == |s.tokens|
    decreases l, 0
  {
    if l == 0 then seq(|s.tokens|, i requires 0 <= i < |s.tokens| => m.embed(s.tokens[i])) else
      var hs := StepHidden(m, s, l - 1);
      var kvs := StepKeyValues(m, s, l - 1);
      seq(|s.tokens|, i requires 0 <= i < |s.tokens| =>
        m.finish(l - 1, hs[i],
                 MaskedAttend(m, l - 1, m.project(l - 1, hs[i], s.positions[i]), s.past[l - 1], kvs, s.rows[i])))
  }

  /** The key/value pairs layer l computes for the queries of this step. */
  function StepKeyValues<V>(m: Model<V>, s: Step<V>, l: nat): (kvs: seq<V>)
    requires l < m.layers && ShapeOk(m, s)
    ensures |kvs| == |s.tokens|
    decreases l, 1
  {
    var hs := StepHidden(m, s, l);
    seq(|hs|, i requires 0 <= i < |hs| => m.keyValue(l, hs[i], s.positions[i]))
  }

  // ---- masked selection is the root path -------------------------------------------------

  lemma {:induction false} SelectAll<V>(xs: seq<V>, mask: seq<bool>)
    requires |xs| == |mask| && forall j | 0 <= j < |mask| :: mask[j]
    ensures Select(xs, mask) == xs
  {
    if xs != [] {
      var last := |xs| - 1;
      SelectAll(xs[..last], mask[..last]);
    }
  }

  lemma {:induction false} SelectAppend<V>(xs: seq<V>, ys: seq<V>, a: seq<bool>, b: seq<bool>)
    requires |xs| == |a| && |ys| == |b|
    ensures Select(xs + ys, a + b) == Select(xs, a) + Select(ys, b)
  {
    if ys == [] {
      assert xs + ys == xs && a + b == a;
    } else {
      var last := |ys| - 1;
      assert (xs + ys)[..|xs + ys| - 1] == xs + ys[..last] && (a + b)[..|xs + ys| - 1] == a + b[..last];
      SelectAppend(xs, ys[..last], a, b[..last]);
    }
  }

  lemma GatherStep<V>(xs: seq<V>, indices: seq<nat>, n: nat)
    requires n <= |xs| && forall k | 0 <= k < |indices| :: indices[k] < n
    ensures Gather(xs[..n], indices) == Gather(xs, indices)
    ensures n < |xs| ==> Gather(xs, indices + [n]) == Gather(xs, indices) + [xs[n]]
  {
  }

  /** The indices of exactly the true entries, in ascending order. */
  predicate Marks(mask: seq<bool>, indices: seq<nat>) {
    && (forall j, k | 0 <= j < k < |indices| :: indices[j] < indices[k])
    && (forall k | 0 <= k < |indices| :: indices[k] < |mask| && mask[indices[k]])
    && (forall j | 0 <= j < |mask| :: mask[j] ==> j in indices)
  }

  lemma MarksInit(mask: seq<bool>, indices: seq<nat>)
    requires mask != [] && Marks(mask, indices)
    ensures var last := |mask| - 1;
            if mask[last] then indices != [] && indices[|indices| - 1] == last
                && Marks(mask[..last], indices[..|indices| - 1])
            else Marks(mask[..last], indices)
  {
    var last := |mask| - 1;
    if mask[last] {
      var at :| 0 <= at < |indices| && indices[at] == last;
      var top := |indices| - 1;
      assert at <= top && indices[top] <= last;
      forall j | 0 <= j < last && mask[j] ensures j in indices[..top] {
        var k :| 0 <= k < |indices| && indices[k] == j;
        assert indices[..top][k] == j;
      }
    }
  }

  /** A mask with marks selects exactly the marked entries. */
  lemma {:induction false} SelectIsGather<V>(xs: seq<V>, mask: seq<bool>, indices: seq<nat>)
    requires |xs| == |mask| && Marks(mask, indices)
    ensures Select(xs, mask) == Gather(xs, indices)
  {
    hide Gather;
    if xs != [] {
      var last := |xs| - 1;
      MarksInit(mask, indices);
      hide Marks;
      var rest := if mask[last] then indices[..|indices| - 1] else indices;
      SelectIsGather(xs[..last], mask[..last], rest);
      MarksBelow(mask[..last], rest);
      GatherStep(xs, rest, last);
      if mask[last] { assert indices == rest + [last]; }
    } else {
      assert indices == [];
    }
  }

  lemma MarksBelow(mask: seq<bool>, indices: seq<nat>)
    requires Marks(mask, indices)
    ensures forall k | 0 <= k < |indices| :: indices[k] < |mask|
  {
  }

  // ---- a forest verified at once means the same as plain decoding of each root path ------

  /** The cache of every layer after plain decoding of a sequence. */
  function Caches<V>(m: Model<V>, ts: seq<Token>): (caches: seq<seq<V>>)
    ensures |caches| == m.layers
    ensures forall l | 0 <= l < m.layers :: caches[l] == Cache(m, ts, l, |ts|)
  {
    seq(m.layers, l requires 0 <= l < m.layers => Cache(m, ts, l, |ts|))
  }

  /** The step for a forest behind cached tokens: positions are depths, rows are root paths. */
  function ForestStep<V>(past: seq<seq<V>>, computed: nat, tokens: seq<Token>, parents: seq<int>): (s: Step<V>)
    requires LayoutOk(parents) && |parents| == |tokens|
    ensures |s.positions| == |s.rows| == |tokens| && forall i | 0 <= i < |tokens| :: |s.rows[i]| == |tokens|
  {
    Step(past, tokens,
         seq(|parents|, i requires 0 <= i < |parents| => computed + |Path(parents, i)| - 1),
         seq(|parents|, i requires 0 <= i < |parents| => VisibilityRow(parents, i)))
  }

  /** The step that a layout, its positions and its visibility describe after a prefix. */
  predicate VerifiesForest<V(==)>(m: Model<V>, prefix: seq<Token>, parents: seq<int>, s: Step<V>) {
    && LayoutOk(parents) && |parents| == |s.tokens| && ShapeOk(m, s)
    && s.past == Caches(m, prefix)
    && (forall i | 0 <= i < |parents| :: s.positions[i] == |prefix| + |Path(parents, i)| - 1)
    && (forall i | 0 <= i < |parents| :: IsVisibility(parents, i, s.rows[i]))
  }

  /** The sequence plain decoding would have seen at query i. */
  function Branch(prefix: seq<Token>, tokens: seq<Token>, parents: seq<int>, i: nat): (ts: seq<Token>)
    requires LayoutOk(parents) && |parents| == |tokens| && i < |parents|
    ensures |ts| == |prefix| + |Path(parents, i)|
  {
    prefix + Gather(tokens, Path(parents, i))
  }

  /** The sequence above query i: the prefix at a root, the branch of its parent elsewhere. */
  function Above(prefix: seq<Token>, tokens: seq<Token>, parents: seq<int>, i: nat): (ts: seq<Token>)
    requires LayoutOk(parents) && |parents| == |tokens| && i < |parents|
  {
    if parents[i] == -1 then prefix else Branch(prefix, tokens, parents, parents[i])
  }

  lemma BranchStep(prefix: seq<Token>, tokens: seq<Token>, parents: seq<int>, i: nat)
    requires LayoutOk(parents) && |parents| == |tokens| && i < |parents|
    ensures Branch(prefix, tokens, parents, i) == Above(prefix, tokens, parents, i) + [tokens[i]]
  {
  }

  lemma CacheStep<V>(m: Model<V>, ts: seq<Token>, t: Token, l: nat)
    requires l < m.layers
    ensures Cache(m, ts + [t], l, |ts| + 1)
            == Cache(m, ts, l, |ts|) + [m.keyValue(l, Hidden(m, ts + [t], l, |ts|), |ts|)]
  {
    assert (ts + [t])[..|ts|] == ts[..|ts|];
    LocalCache(m, ts + [t], ts, l, |ts|);
  }

  /** The claim of tree verification for one layer. */
  ghost predicate AgreesBelow<V>(m: Model<V>, prefix: seq<Token>, parents: seq<int>, s: Step<V>, l: nat)
    requires l <= m.layers && VerifiesForest(m, prefix, parents, s)
  {
    forall j | 0 <= j < |parents| ::
      StepHidden(m, s, l)[j] == Hidden(m, Branch(prefix, s.tokens, parents, j), l, s.positions[j])
  }

  /** In layer l, the past and the keys on the path of query i are the cache of its branch. */
  lemma {:induction false} PathCache<V>(m: Model<V>, prefix: seq<Token>, parents: seq<int>, s: Step<V>, l: nat, i: nat)
    requires l < m.layers && VerifiesForest(m, prefix, parents, s) && i < |parents|
    requires AgreesBelow(m, prefix, parents, s, l)
    ensures var branch := Branch(prefix, s.tokens, parents, i);
            s.past[l] + Gather(StepKeyValues(m, s, l), Path(parents, i)) == Cache(m, branch, l, |branch|)
    decreases i
  {
    hide Hidden, Cache, StepHidden, StepKeyValues, Branch, Gather, Climbs, Path;
    var kvs := StepKeyValues(m, s, l);
    var above := Above(prefix, s.tokens, parents, i);
    BranchStep(prefix, s.tokens, parents, i);
    CacheStep(m, above, s.tokens[i], l);
    KeyOnPath(m, prefix, parents, s, l, i);
    PathStep(parents, i);
    if parents[i] == -1 {
      GatherOne(kvs, [], i);
    } else {
      PathCache(m, prefix, parents, s, l, parents[i]);
      var higher := Path(parents, parents[i]);
      assert forall k | 0 <= k < |higher| :: higher[k] < |kvs| by { PathInRange(parents, parents[i]); }
      GatherOne(kvs, higher, i);
      Associative(s.past[l], Gather(kvs, higher), [kvs[i]]);
    }
  }

  lemma PathInRange(parents: seq<int>, i: nat)
    requires LayoutOk(parents) && i < |parents|
    ensures forall k | 0 <= k < |Path(parents, i)| :: Path(parents, i)[k] < |parents|
  {
  }

  lemma GatherOne<V>(xs: seq<V>, indices: seq<nat>, last: nat)
    requires last < |xs| && forall k | 0 <= k < |indices| :: indices[k] < |xs|
    ensures Gather(xs, indices + [last]) == Gather(xs, indices) + [xs[last]]
    ensures Gather(xs, []) == [] && [] + [last] == [last]
  {
  }

  /** The key a query computes is the one plain decoding computes at the end of its branch. */
  lemma KeyOnPath<V>(m: Model<V>, prefix: seq<Token>, parents: seq<int>, s: Step<V>, l: nat, i: nat)
    requires l < m.layers && VerifiesForest(m, prefix, parents, s) && i < |parents|
    requires AgreesBelow(m, prefix, parents, s, l)
    ensures var above := Above(prefix, s.tokens, parents, i);
            StepKeyValues(m, s, l)[i] == m.keyValue(l, Hidden(m, above + [s.tokens[i]], l, |above|), |above|)
  {
    hide Hidden, Cache, StepHidden, Gather, Climbs, IsVisibility, Branch;
    BranchStep(prefix, s.tokens, parents, i);
    assert s.positions[i] == |Above(prefix, s.tokens, parents, i)|;
  }

  lemma PathMarks(parents: seq<int>, row: seq<bool>, i: nat)
    requires LayoutOk(parents) && i < |parents| && IsVisibility(parents, i, row)
    ensures |row| == |parents| && Marks(row, Path(parents, i))
  {
    var path := Path(parents, i);
    forall k | 0 <= k < |path| ensures row[path[k]] { assert path[k] in path; }
  }

  /** What query i may see of past and step keys is the past and the keys on its root path. */
  lemma VisibleKeys<V>(past: seq<V>, kvs: seq<V>, parents: seq<int>, row: seq<bool>, i: nat)
    requires LayoutOk(parents) && |kvs| == |parents| && i < |parents| && IsVisibility(parents, i, row)
    ensures Select(past + kvs, Everything(|past|) + row) == past + Gather(kvs, Path(parents, i))
  {
    hide Marks, IsVisibility, Select, Gather, Climbs;
    PathMarks(parents, row, i);
    SelectAppend(past, kvs, Everything(|past|), row);
    SelectAll(past, Everything(|past|));
    SelectIsGather(kvs, row, Path(parents, i));
  }

  /** Tree verification preserves meaning: below every layer, each query of the forest has the
      hidden state plain decoding gives to the last token of prefix plus root path. */
  lemma {:induction false} ForestEqualsDecoding<V>(m: Model<V>, prefix: seq<Token>, parents: seq<int>, s: Step<V>,
                                                   l: nat)
    requires l <= m.layers && VerifiesForest(m, prefix, parents, s)
    ensures AgreesBelow(m, prefix, parents, s, l)
    decreases l
  {
    hide StepHidden, Hidden, Branch, IsVisibility, Climbs, Path, Caches;
    if l > 0 { ForestEqualsDecoding(m, prefix, parents, s, l - 1); }
    forall i | 0 <= i < |parents|
      ensures StepHidden(m, s, l)[i] == Hidden(m, Branch(prefix, s.tokens, parents, i), l, s.positions[i])
    {
      if l > 0 { LayerAgrees(m, prefix, parents, s, l, i); } else { EmbeddingAgrees(m, prefix, parents, s, i); }
    }
  }

  lemma EmbeddingAgrees<V>(m: Model<V>, prefix: seq<Token>, parents: seq<int>, s: Step<V>, i: nat)
    requires VerifiesForest(m, prefix, parents, s) && i < |parents|
    ensures StepHidden(m, s, 0)[i] == Hidden(m, Branch(prefix, s.tokens, parents, i), 0, s.positions[i])
  {
    hide Gather, Climbs, IsVisibility;
    BranchStep(prefix, s.tokens, parents, i);
  }

  lemma LayerAgrees<V>(m: Model<V>, prefix: seq<Token>, parents: seq<int>, s: Step<V>, l: nat, i: nat)
    requires 0 < l <= m.layers && VerifiesForest(m, prefix, parents, s) && i < |parents|
    requires AgreesBelow(m, prefix, parents, s, l - 1)
    ensures StepHidden(m, s, l)[i] == Hidden(m, Branch(prefix, s.tokens, parents, i), l, s.positions[i])
  {
    hide Branch, Gather, Cache, Select, StepKeyValues;
    PathCache(m, prefix, parents, s, l - 1, i);
    VisibleKeys(s.past[l - 1], StepKeyValues(m, s, l - 1), parents, s.rows[i], i);
  }

  /** Accept, then compact: the kept keys of any parent chain, behind the past, are the cache
      plain decoding of the accepted tokens builds. */
  lemma ChainCache<V>(m: Model<V>, prefix: seq<Token>, parents: seq<int>, s: Step<V>, l: nat, chain: seq<nat>)
    requires l < m.layers && VerifiesForest(m, prefix, parents, s) && IsParentChain(parents, chain)
    ensures s.past[l] + Gather(StepKeyValues(m, s, l), chain) == Caches(m, prefix + Gather(s.tokens, chain))[l]
  {
    hide AgreesBelow;
    if chain == [] {
      assert prefix + Gather(s.tokens, chain) == prefix;
    } else {
      ChainIsPath(parents, chain);
      ForestEqualsDecoding(m, prefix, parents, s, l);
      PathCache(m, prefix, parents, s, l, chain[|chain| - 1]);
    }
  }
}
