/** The scheduler's progress is the state of the cache: over every run of planned steps it knows the
    tokens the session knows and counts exactly those that are in the caches
    (core.py:461-471, token_budget.py:245-331, speculative.py:312-440). */
module CacheProgress {
  import opened Collections
  import opened Transformer
  import opened Speculative
  import opened Decoding
  import Scheduling

  type Work = Scheduling.Progress

  /** The scheduler knows what the session knows and counts what its caches hold. */
  ghost predicate Tracks<V>(m: Model<V>, p: Work, st: Session<V>) {
    && p.known == |st.known| && p.computed == st.computed && |st.caches| == m.layers
    && forall l | 0 <= l < m.layers :: |st.caches[l]| == p.computed
  }

  /** The executor computes the planned input and drafts within the planned lookahead. */
  ghost predicate Executes<V>(plan: Scheduling.Plan, st: Session<V>, r: Round) {
    RoundOk(st, r) && r.numInput == plan.scheduled && |r.draft.tokens| <= plan.lookahead
  }

  lemma RoundAdvances<V>(m: Model<V>, prompt: seq<Token>, st: Session<V>, r: Round)
    requires Decodes(m, prompt, st) && RoundOk(st, r)
    ensures var next := Play(m, st, r);
            && st.known <= next.known && st.computed + r.numInput <= next.computed
            && next.computed - st.computed - r.numInput <= |r.draft.tokens|
            && (if st.computed + r.numInput < |st.known|
                then next.known == st.known && next.computed == st.computed + r.numInput
                else next.computed == |next.known| - 1 >= |st.known|)
  {
    hide Greedy, Caches, Sample, Prefill;
    if st.computed + r.numInput < |st.known| { PrefillAdvances(m, st, r); } else { SampleEffect(m, prompt, st, r); }
  }

  lemma PrefillAdvances<V>(m: Model<V>, st: Session<V>, r: Round)
    requires |st.caches| == m.layers && RoundOk(st, r)
    ensures Prefill(m, st, r).known == st.known && Prefill(m, st, r).computed == st.computed + r.numInput
  {
  }

  /** What the executor reports: its input, the new tokens, and how many of them it left cached. */
  ghost function ResultOf<V>(m: Model<V>, prompt: seq<Token>, st: Session<V>, r: Round): Scheduling.StepResult
    requires Decodes(m, prompt, st) && RoundOk(st, r)
  {
    RoundAdvances(m, prompt, st, r);
    var next := Play(m, st, r);
    Scheduling.StepResult(r.numInput, next.known[|st.known|..], next.computed - st.computed - r.numInput)
  }

  lemma CachesMeasure<V>(m: Model<V>, prompt: seq<Token>, st: Session<V>)
    requires Decodes(m, prompt, st)
    ensures |st.caches| == m.layers && forall l | 0 <= l < m.layers :: |st.caches[l]| == st.computed
  {
    hide Greedy, Hidden;
  }

  /** One step: the result passes validation, the commit is accepted, and the scheduler is where the
      caches are. */
  lemma RoundIsTracked<V>(m: Model<V>, prompt: seq<Token>, st: Session<V>, p: Work, plan: Scheduling.Plan, r: Round)
    requires Decodes(m, prompt, st) && Tracks(m, p, st) && Executes(plan, st, r)
    requires Scheduling.Runnable(p) && Scheduling.PlanOk(p, plan)
    ensures var result := ResultOf(m, prompt, st, r);
            var n := |result.outputs|;
            var next := Scheduling.Complete(p, Scheduling.Committed(result, n), n);
            && Scheduling.Validated(plan, result)
            && next.Ok? && next.value.limit == p.limit && Tracks(m, next.value, Play(m, st, r))
  {
    hide Decodes, Play, RoundOk;
    RoundAdvances(m, prompt, st, r);
    PlayDecodes(m, prompt, st, r);
    CachesMeasure(m, prompt, Play(m, st, r));
    var result := ResultOf(m, prompt, st, r);
    Scheduling.CompleteCountsCached(p, plan, result, |result.outputs|);
  }

  /** A stream that is cut inside the outputs leaves the scheduler at the last shown token, or short
      of it where the caches are: never beyond either. */
  lemma CutIsTracked<V>(m: Model<V>, prompt: seq<Token>, st: Session<V>, p: Work, plan: Scheduling.Plan, r: Round,
                        visible: nat)
    requires Decodes(m, prompt, st) && Tracks(m, p, st) && Executes(plan, st, r)
    requires Scheduling.Runnable(p) && Scheduling.PlanOk(p, plan)
    requires 0 < visible <= |ResultOf(m, prompt, st, r).outputs|
    ensures var result := ResultOf(m, prompt, st, r);
            var next := Scheduling.Complete(p, Scheduling.Committed(result, visible), visible);
            next.Ok? && next.value.computed == Min(Play(m, st, r).computed, |st.known| + visible)
  {
    hide Decodes, Play, RoundOk;
    RoundIsTracked(m, prompt, st, p, plan, r);
    Scheduling.CompleteCountsCached(p, plan, ResultOf(m, prompt, st, r), visible);
  }

  // ---- whole runs --------------------------------------------------------------------------------

  /** What one scheduling round decides for a request, and the draft its step verifies. */
  datatype Turn = Turn(budget: Scheduling.DecodingBudget, tokenBudget: nat, firstOutput: bool, draft: DraftTree)

  function PlanOf(p: Work, turn: Turn): Scheduling.Plan
    requires Scheduling.Runnable(p) && turn.budget.maxOutputTokens > 0 && turn.tokenBudget > 0
  {
    Scheduling.PlanStep(p, turn.budget, turn.tokenBudget, turn.firstOutput)
  }

  ghost predicate TurnOk<V>(p: Work, st: Session<V>, turn: Turn) {
    && Scheduling.Runnable(p) && turn.budget.maxOutputTokens > 0 && turn.tokenBudget > 0
    && Executes(PlanOf(p, turn), st, Round(PlanOf(p, turn).scheduled, turn.draft))
  }

  function RoundOf(p: Work, turn: Turn): Round
    requires Scheduling.Runnable(p) && turn.budget.maxOutputTokens > 0 && turn.tokenBudget > 0
  {
    Round(PlanOf(p, turn).scheduled, turn.draft)
  }

  /** The scheduler and the session after one turn whose outputs are all shown. */
  ghost function After<V>(m: Model<V>, prompt: seq<Token>, p: Work, st: Session<V>, turn: Turn): (Work, Session<V>)
    requires Decodes(m, prompt, st) && Tracks(m, p, st) && TurnOk(p, st, turn)
  {
    var r := RoundOf(p, turn);
    var result := ResultOf(m, prompt, st, r);
    var n := |result.outputs|;
    TurnIsTracked(m, prompt, p, st, turn);
    (Scheduling.Complete(p, Scheduling.Committed(result, n), n).value, Play(m, st, r))
  }

  lemma TurnIsTracked<V>(m: Model<V>, prompt: seq<Token>, p: Work, st: Session<V>, turn: Turn)
    requires Decodes(m, prompt, st) && Tracks(m, p, st) && TurnOk(p, st, turn)
    ensures var result := ResultOf(m, prompt, st, RoundOf(p, turn));
            var n := |result.outputs|;
            var next := Scheduling.Complete(p, Scheduling.Committed(result, n), n);
            && next.Ok? && next.value.limit == p.limit
            && Tracks(m, next.value, Play(m, st, RoundOf(p, turn)))
            && Decodes(m, prompt, Play(m, st, RoundOf(p, turn)))
  {
    hide Decodes, Play, Tracks;
    Scheduling.PlanFits(p, turn.budget, turn.tokenBudget, turn.firstOutput);
    RoundIsTracked(m, prompt, st, p, PlanOf(p, turn), RoundOf(p, turn));
    PlayDecodes(m, prompt, st, RoundOf(p, turn));
  }

  ghost predicate TurnsOk<V>(m: Model<V>, prompt: seq<Token>, p: Work, st: Session<V>, turns: seq<Turn>)
    requires Decodes(m, prompt, st) && Tracks(m, p, st)
    decreases |turns|
  {
    turns == [] ||
    (TurnOk(p, st, turns[0]) &&
     (TurnIsTracked(m, prompt, p, st, turns[0]);
      TurnsOk(m, prompt, After(m, prompt, p, st, turns[0]).0, After(m, prompt, p, st, turns[0]).1, turns[1..])))
  }

  ghost function AfterAll<V>(m: Model<V>, prompt: seq<Token>, p: Work, st: Session<V>, turns: seq<Turn>)
    : (Work, Session<V>)
    requires Decodes(m, prompt, st) && Tracks(m, p, st) && TurnsOk(m, prompt, p, st, turns)
    decreases |turns|
  {
    if turns == [] then (p, st) else
      TurnIsTracked(m, prompt, p, st, turns[0]);
      var (q, next) := After(m, prompt, p, st, turns[0]);
      AfterAll(m, prompt, q, next, turns[1..])
  }

  /** The known tokens are greedy, and the count is the length of every cache, a plain one. */
  ghost predicate CountsCache<V>(m: Model<V>, prompt: seq<Token>, p: Work, st: Session<V>) {
    && prompt != [] && prompt <= st.known && p.known == |st.known| && p.computed <= |st.known|
    && st.known == prompt + Greedy(m, prompt, |st.known| - |prompt|)
    && st.caches == Caches(m, st.known[..p.computed])
    && forall l | 0 <= l < |st.caches| :: |st.caches[l]| == p.computed
  }

  /** Over every run, whatever is scheduled and drafted: the scheduler knows the prompt and the greedy
      tokens generated so far, and its count of computed tokens is the length of every layer's cache,
      which is the plain cache of that many of them. */
  lemma {:induction false} ProgressIsCache<V>(m: Model<V>, prompt: seq<Token>, p: Work, st: Session<V>,
                                              turns: seq<Turn>)
    requires Decodes(m, prompt, st) && Tracks(m, p, st) && TurnsOk(m, prompt, p, st, turns)
    ensures var (q, end) := AfterAll(m, prompt, p, st, turns); q.limit == p.limit && CountsCache(m, prompt, q, end)
    decreases |turns|
  {
    hide TurnOk, After, Greedy, Caches;
    if turns != [] {
      TurnIsTracked(m, prompt, p, st, turns[0]);
      TurnAfter(m, prompt, p, st, turns[0]);
      var (q, next) := After(m, prompt, p, st, turns[0]);
      ProgressIsCache(m, prompt, q, next, turns[1..]);
    }
  }

  lemma TurnAfter<V>(m: Model<V>, prompt: seq<Token>, p: Work, st: Session<V>, turn: Turn)
    requires Decodes(m, prompt, st) && Tracks(m, p, st) && TurnOk(p, st, turn)
    ensures var (q, next) := After(m, prompt, p, st, turn);
            q.limit == p.limit && Decodes(m, prompt, next) && Tracks(m, q, next)
  {
    hide Decodes, Play, Tracks;
    TurnIsTracked(m, prompt, p, st, turn);
  }

  /** A request starts with its prompt known and nothing cached, on both sides. */
  lemma StartIsTracked<V>(m: Model<V>, prompt: seq<Token>, limit: nat)
    requires prompt != []
    ensures Tracks(m, Scheduling.Progress(|prompt|, 0, limit), Start(m, prompt)) && Decodes(m, prompt, Start(m, prompt))
  {
  }
}
