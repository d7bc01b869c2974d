/** Running a sequence in several model steps, each against the cache the earlier steps
    appended to (dense_attention.py:115-164, kv_cache.py:961-978). */
module Chunks {
  import opened Collections
  import opened Layout
  import opened Transformer

  /** The step for a chunk of plain input: a linear layout behind the cached tokens. */
  function LinearStep<V>(past: seq<seq<V>>, computed: nat, chunk: seq<Token>): (s: Step<V>)
    ensures s.past == past && s.tokens == chunk && |s.positions| == |s.rows| == |chunk|
    ensures forall i | 0 <= i < |chunk| :: |s.rows[i]| == |chunk|
  {
    ForestStep(past, computed, chunk, LinearParents(|chunk|))
  }

  /** Every layer appends the keys of the step's queries. */
  function Appended<V>(m: Model<V>, s: Step<V>): (caches: seq<seq<V>>)
    requires ShapeOk(m, s)
    ensures |caches| == m.layers
    ensures forall l | 0 <= l < m.layers :: caches[l] == s.past[l] + StepKeyValues(m, s, l)
  {
    seq(m.layers, l requires 0 <= l < m.layers => s.past[l] + StepKeyValues(m, s, l))
  }

  /** Execute chunk after chunk: the outputs of all queries, and the final caches. */
  function RunChunks<V>(m: Model<V>, past: seq<seq<V>>, computed: nat, chunks: seq<seq<Token>>): (seq<V>, seq<seq<V>>)
    requires |past| == m.layers
    decreases |chunks|
  {
    if chunks == [] then ([], past) else
      var s := LinearStep(past, computed, chunks[0]);
      var (outputs, caches) := RunChunks(m, Appended(m, s), computed + |chunks[0]|, chunks[1..]);
      (StepHidden(m, s, m.layers) + outputs, caches)
  }

  /** The outputs of one computation of the whole sequence, from position `start` on. */
  function Outputs<V>(m: Model<V>, ts: seq<Token>, start: nat): (hs: seq<V>)
    requires start <= |ts|
    ensures |hs| == |ts| - start
  {
    seq(|ts| - start, i requires 0 <= i < |ts| - start => Hidden(m, ts, m.layers, start + i))
  }

  lemma LinearBranch(prefix: seq<Token>, chunk: seq<Token>, i: nat)
    requires i < |chunk|
    ensures Branch(prefix, chunk, LinearParents(|chunk|), i) == prefix + chunk[..i + 1]
    ensures |Path(LinearParents(|chunk|), i)| == i + 1
  {
    LinearPath(|chunk|, i);
    assert Gather(chunk, seq(i + 1, k => k)) == chunk[..i + 1];
  }

  /** The outputs of a chunk do not depend on what follows it. */
  lemma ChunkOutputs<V>(m: Model<V>, prefix: seq<Token>, chunk: seq<Token>, whole: seq<Token>, i: nat)
    requires prefix + chunk <= whole && i < |chunk|
    ensures StepHidden(m, LinearStep(Caches(m, prefix), |prefix|, chunk), m.layers)[i]
            == Hidden(m, whole, m.layers, |prefix| + i)
  {
    hide Hidden, Cache, StepHidden, Branch, Gather;
    var parents := LinearParents(|chunk|);
    var s := LinearStep(Caches(m, prefix), |prefix|, chunk);
    ForestEqualsDecoding(m, prefix, parents, s, m.layers);
    LinearBranch(prefix, chunk, i);
    hide VerifiesForest, LinearStep, Path;
    var branch := prefix + chunk[..i + 1];
    assert branch[..|prefix| + i + 1] == branch == (prefix + chunk)[..|prefix| + i + 1] == whole[..|prefix| + i + 1];
    LocalHidden(m, branch, whole, m.layers, |prefix| + i);
  }

  /** The cache after a chunk is the cache of the longer sequence. */
  lemma ChunkCaches<V>(m: Model<V>, prefix: seq<Token>, chunk: seq<Token>)
    ensures Appended(m, LinearStep(Caches(m, prefix), |prefix|, chunk)) == Caches(m, prefix + chunk)
  {
    hide Hidden, Cache, StepHidden;
    var parents := LinearParents(|chunk|);
    var s := LinearStep(Caches(m, prefix), |prefix|, chunk);
    var all: seq<nat> := seq(|chunk|, k => k);
    forall l | 0 <= l < m.layers ensures Appended(m, s)[l] == Caches(m, prefix + chunk)[l] {
      ChainCache(m, prefix, parents, s, l, all);
      assert Gather(StepKeyValues(m, s, l), all) == StepKeyValues(m, s, l);
      assert Gather(chunk, all) == chunk;
    }
  }

  /** Chunked execution equals full recompute: for every split of a token sequence, the outputs
      and the final caches are those of one computation over the whole sequence. */
  lemma {:induction false} ChunkedEqualsRecompute<V>(m: Model<V>, prefix: seq<Token>, chunks: seq<seq<Token>>)
    ensures var whole := prefix + Concat(chunks);
            RunChunks(m, Caches(m, prefix), |prefix|, chunks) == (Outputs(m, whole, |prefix|), Caches(m, whole))
    decreases |chunks|
  {
    hide Hidden, Cache, StepHidden, Appended, Caches;
    var whole := prefix + Concat(chunks);
    if chunks == [] {
      assert whole == prefix;
    } else {
      var next := prefix + chunks[0];
      assert whole == next + Concat(chunks[1..]);
      ChunkCaches(m, prefix, chunks[0]);
      ChunkedEqualsRecompute(m, next, chunks[1..]);
      var s := LinearStep(Caches(m, prefix), |prefix|, chunks[0]);
      assert Outputs(m, whole, |prefix|) == StepHidden(m, s, m.layers) + Outputs(m, whole, |next|) by {
        forall i | 0 <= i < |chunks[0]|
          ensures StepHidden(m, s, m.layers)[i] == Hidden(m, whole, m.layers, |prefix| + i)
        {
          ChunkOutputs(m, prefix, chunks[0], whole, i);
        }
      }
    }
  }

  /** So two splits of one sequence cannot be told apart. */
  lemma SplitsAgree<V>(m: Model<V>, prefix: seq<Token>, a: seq<seq<Token>>, b: seq<seq<Token>>)
    requires Concat(a) == Concat(b)
    ensures RunChunks(m, Caches(m, prefix), |prefix|, a) == RunChunks(m, Caches(m, prefix), |prefix|, b)
  {
    ChunkedEqualsRecompute(m, prefix, a);
    ChunkedEqualsRecompute(m, prefix, b);
  }
}
