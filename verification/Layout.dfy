/** Query layouts: a forest of queries given by parent links, each parent before its children
    (src/light_vllm/runtime/execution/layout.py). */
module Layout {
  import opened Collections

  /** Strictly ascending, and not beyond the end. */
  predicate Climbs(path: seq<nat>, end: nat) {
    && (forall k | 0 <= k < |path| :: path[k] <= end)
    && (forall j, k | 0 <= j < k < |path| :: path[j] < path[k])
  }

  /** What QueryLayout and DraftTree check of their parent links. */
  predicate LayoutOk(parents: seq<int>) {
    forall i | 0 <= i < |parents| :: -1 <= parents[i] < i
  }

  /** The queries from a root down to query i, in order. */
  function Path(parents: seq<int>, i: nat): (path: seq<nat>)
    requires LayoutOk(parents) && i < |parents|
    ensures |path| > 0 && path[|path| - 1] == i && Climbs(path, i)
  {
    if parents[i] == -1 then [i] else Path(parents, parents[i]) + [i]
  }

  /** The path above a parent link: empty at a root. */
  function PathAbove(parents: seq<int>, parent: int): seq<nat>
    requires LayoutOk(parents) && -1 <= parent < |parents|
  {
    if parent == -1 then [] else Path(parents, parent)
  }

  function LinearParents(n: nat): (parents: seq<int>)
    ensures |parents| == n && LayoutOk(parents)
  {
    seq(n, i => i - 1)
  }

  lemma {:induction false} LinearPath(n: nat, i: nat)
    requires i < n
    ensures Path(LinearParents(n), i) == seq(i + 1, k => k)
  {
    if i > 0 { LinearPath(n, i - 1); }
  }

  /** Positions are the prefix length plus the depth in the forest. */
  method SemanticPositions(parents: seq<int>, prefixLength: nat) returns (positions: seq<nat>)
    requires LayoutOk(parents)
    ensures |positions| == |parents|
    ensures forall i | 0 <= i < |parents| :: positions[i] == prefixLength + |Path(parents, i)| - 1
  {
    hide Climbs;
    positions := [];
    for i := 0 to |parents|
      invariant |positions| == i
      invariant forall j | 0 <= j < i :: positions[j] == prefixLength + |Path(parents, j)| - 1
    {
      positions := positions + [if parents[i] == -1 then prefixLength else positions[parents[i]] + 1];
    }
  }

  /** A query sees itself and exactly its ancestors. */
  method QueryVisibility(parents: seq<int>) returns (rows: seq<seq<bool>>)
    requires LayoutOk(parents)
    ensures |rows| == |parents|
    ensures forall i | 0 <= i < |parents| :: IsVisibility(parents, i, rows[i])
  {
    rows := [];
    for i := 0 to |parents|
      invariant |rows| == i
      invariant forall j | 0 <= j < i :: IsVisibility(parents, j, rows[j])
    {
      var visible := seq(|parents|, _ => false);
      visible := visible[i := true];
      var parent := parents[i];
      while parent != -1
        invariant -1 <= parent < i && |visible| == |parents|
        invariant forall j | 0 <= j < |parents| ::
                    j in Path(parents, i) <==> visible[j] || j in PathAbove(parents, parent)
        decreases parent
      {
        visible := visible[parent := true];
        parent := parents[parent];
      }
      rows := rows + [visible];
    }
  }

  predicate IsVisibility(parents: seq<int>, i: nat, row: seq<bool>)
    requires LayoutOk(parents) && i < |parents|
  {
    |row| == |parents| && forall j | 0 <= j < |parents| :: row[j] <==> j in Path(parents, i)
  }

  function VisibilityRow(parents: seq<int>, i: nat): (row: seq<bool>)
    requires LayoutOk(parents) && i < |parents|
    ensures IsVisibility(parents, i, row)
  {
    seq(|parents|, j requires 0 <= j < |parents| => j in Path(parents, i))
  }

  // ---- a draft tree behind the formal input ----------------------------------------------

  function AppendedParent(numInput: nat, parent: int): int {
    if parent == -1 then numInput - 1 else numInput + parent
  }

  function AppendedParents(numInput: nat, draft: seq<int>): (parents: seq<int>)
    requires numInput > 0 && LayoutOk(draft)
    ensures |parents| == numInput + |draft| && LayoutOk(parents)
  {
    LinearParents(numInput) + seq(|draft|, i requires 0 <= i < |draft| => AppendedParent(numInput, draft[i]))
  }

  method AppendDraftLayout(numInput: nat, draft: seq<int>) returns (parents: seq<int>)
    requires numInput > 0 && LayoutOk(draft)
    ensures parents == AppendedParents(numInput, draft)
  {
    parents := LinearParents(numInput);
    for i := 0 to |draft|
      invariant parents == AppendedParents(numInput, draft)[..numInput + i]
    {
      parents := parents + [AppendedParent(numInput, draft[i])];
    }
  }

  function Shifted(path: seq<nat>, offset: nat): seq<nat> {
    seq(|path|, k requires 0 <= k < |path| => path[k] + offset)
  }

  lemma {:induction false} AppendedInputPath(numInput: nat, draft: seq<int>, i: nat)
    requires numInput > 0 && LayoutOk(draft) && i < numInput
    ensures Path(AppendedParents(numInput, draft), i) == seq(i + 1, k => k)
  {
    if i > 0 { AppendedInputPath(numInput, draft, i - 1); }
  }

  lemma PathStep(parents: seq<int>, i: nat)
    requires LayoutOk(parents) && i < |parents|
    ensures Path(parents, i) == PathAbove(parents, parents[i]) + [i]
  {
    hide Climbs;
  }

  lemma ShiftOne(path: seq<nat>, last: nat, offset: nat)
    ensures Shifted(path + [last], offset) == Shifted(path, offset) + [offset + last]
    ensures Shifted([], offset) == []
  {
  }

  /** Every draft node sees the whole formal input and then its own draft ancestors. */
  lemma {:induction false} AppendedDraftPath(numInput: nat, draft: seq<int>, d: nat)
    requires numInput > 0 && LayoutOk(draft) && d < |draft|
    ensures Path(AppendedParents(numInput, draft), numInput + d)
            == seq(numInput, k => k) + Shifted(Path(draft, d), numInput)
  {
    hide Climbs, Path, Shifted;
    var parents := AppendedParents(numInput, draft);
    var inputs := seq(numInput, k => k);
    assert parents[numInput + d] == AppendedParent(numInput, draft[d]);
    PathStep(parents, numInput + d);
    PathStep(draft, d);
    ShiftOne(PathAbove(draft, draft[d]), d, numInput);
    if draft[d] == -1 {
      AppendedInputPath(numInput, draft, numInput - 1);
      assert PathAbove(draft, draft[d]) == [];
    } else {
      AppendedDraftPath(numInput, draft, draft[d]);
      Associative(inputs, Shifted(PathAbove(draft, draft[d]), numInput), [numInput + d]);
    }
  }

  /** A list of queries that starts at a root and follows parent links. */
  predicate IsParentChain(parents: seq<int>, chain: seq<nat>) {
    && (forall k | 0 <= k < |chain| :: chain[k] < |parents|)
    && (chain != [] ==> parents[chain[0]] == -1)
    && (forall k | 0 < k < |chain| :: parents[chain[k]] == chain[k - 1])
  }

  /** Such a list is the path of its last query. */
  lemma {:induction false} ChainIsPath(parents: seq<int>, chain: seq<nat>)
    requires LayoutOk(parents) && chain != [] && IsParentChain(parents, chain)
    ensures chain == Path(parents, chain[|chain| - 1])
    decreases |chain|
  {
    var last := |chain| - 1;
    assert chain == chain[..last] + [chain[last]];
    if last > 0 {
      forall k | 0 < k < last ensures parents[chain[..last][k]] == chain[..last][k - 1] {
        assert parents[chain[k]] == chain[k - 1];
      }
      assert parents[chain[last]] == chain[last - 1];
      ChainIsPath(parents, chain[..last]);
    }
  }

  lemma {:induction false} PathIsChain(parents: seq<int>, i: nat)
    requires LayoutOk(parents) && i < |parents|
    ensures IsParentChain(parents, Path(parents, i))
  {
    if parents[i] != -1 { PathIsChain(parents, parents[i]); }
  }
}
