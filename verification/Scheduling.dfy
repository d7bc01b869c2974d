/** How much of a request each step takes, and why an admitted strict request never loses its
    promise (token_budget.py:233-344, core.py:97-121, 449-479). */
module Scheduling {
  import opened Collections
  import opened BlockPool
  import opened PagedState
  import opened PagedRuns

  /** Known tokens (prompt and generated), tokens in the cache, and the admitted capacity. */
  datatype Progress = Progress(known: nat, computed: nat, limit: nat)

  datatype DecodingBudget = DecodingBudget(maxOutputTokens: nat, lookaheadTokens: nat)

  datatype Plan = Plan(scheduled: nat, lookahead: nat, maxOutput: nat)

  /** What the executor reports for one request. */
  datatype StepResult = StepResult(inputComputed: nat, outputs: seq<int>, cachedOutputs: nat)

  /** A request that can still run: something is pending and a token may still be generated. */
  predicate Runnable(p: Progress) {
    p.computed < p.known < p.limit
  }

  /** TokenBudgetScheduler._schedule_request, up to the reservation. */
  function PlanStep(p: Progress, budget: DecodingBudget, tokenBudget: nat, firstOutput: bool): Plan
    requires Runnable(p) && budget.maxOutputTokens > 0 && tokenBudget > 0
  {
    var pending := p.known - p.computed;
    var scheduled := Min(pending, tokenBudget);
    if scheduled < pending then Plan(scheduled, 0, 0) else
      var roundMax := Min(budget.maxOutputTokens, p.limit - p.known);
      var desired := Min(budget.lookaheadTokens, roundMax - 1);
      if scheduled + desired <= tokenBudget then Plan(scheduled, desired, roundMax)
      else if pending == 1 || firstOutput then Plan(scheduled, 0, 1)
      else Plan(scheduled - 1, 0, 0)
  }

  /** A plan moves forward, samples exactly when it reaches the last known token, and reserves
      no slot beyond the last token that is ever written. */
  predicate PlanOk(p: Progress, plan: Plan) {
    && 0 < plan.scheduled && p.computed + plan.scheduled <= p.known
    && (plan.maxOutput > 0 <==> p.computed + plan.scheduled == p.known)
    && plan.lookahead <= Max(0, plan.maxOutput - 1)
    && p.known + plan.maxOutput <= p.limit
    && p.computed + plan.scheduled + plan.lookahead <= p.limit - 1
  }

  /** Every plan is in order and stays in the token budget. */
  lemma PlanFits(p: Progress, budget: DecodingBudget, tokenBudget: nat, firstOutput: bool)
    requires Runnable(p) && budget.maxOutputTokens > 0 && tokenBudget > 0
    ensures var plan := PlanStep(p, budget, tokenBudget, firstOutput);
            plan.scheduled + plan.lookahead <= tokenBudget && PlanOk(p, plan)
  {
  }

  /** A plan is as large as it may be. It takes all pending tokens the budget has room for, except
      that the last one waits when the whole round does not fit behind it, so that the next step can
      draft; a lone token or the first output does not wait. A step that samples does so with all
      the lookahead allowed, or else with none and for one token. */
  lemma PlanUsesBudget(p: Progress, budget: DecodingBudget, tokenBudget: nat, firstOutput: bool)
    requires Runnable(p) && budget.maxOutputTokens > 0 && tokenBudget > 0
    ensures var plan := PlanStep(p, budget, tokenBudget, firstOutput);
            var pending := p.known - p.computed;
            var fullOutput := Min(budget.maxOutputTokens, p.limit - p.known);
            var fullLookahead := Min(budget.lookaheadTokens, fullOutput - 1);
            && (pending > tokenBudget ==> plan.scheduled == tokenBudget)
            && (pending <= tokenBudget ==>
                 plan.scheduled == if pending + fullLookahead > tokenBudget && pending > 1 && !firstOutput
                                   then pending - 1 else pending)
            && (plan.maxOutput > 0 <==> plan.scheduled == pending)
            && (plan.maxOutput > 0 && pending + fullLookahead <= tokenBudget ==>
                 plan.maxOutput == fullOutput && plan.lookahead == fullLookahead)
            && (plan.maxOutput > 0 && pending + fullLookahead > tokenBudget ==>
                 plan.maxOutput == 1 && plan.lookahead == 0)
  {
  }

  /** What _validated_output and RequestOutput let through. */
  predicate Validated(plan: Plan, result: StepResult) {
    && result.inputComputed == plan.scheduled
    && |result.outputs| <= plan.maxOutput && (result.outputs != [] <==> plan.maxOutput > 0)
    && result.cachedOutputs <= plan.lookahead && result.cachedOutputs <= |result.outputs|
  }

  datatype CompleteError = TokenLimitExceeded | CommittedUnknown

  /** TokenBudgetScheduler.complete, up to the cache commit. */
  function Complete(p: Progress, committed: nat, fresh': nat): Result<Progress, CompleteError> {
    if p.known + fresh' > p.limit then Err(TokenLimitExceeded)
    else if p.computed + committed > p.known + fresh' then Err(CommittedUnknown)
    else Ok(Progress(p.known + fresh', p.computed + committed, p.limit))
  }

  /** What the engine commits when the first `visible` outputs are shown. */
  function Committed(result: StepResult, visible: nat): nat {
    result.inputComputed + Min(result.cachedOutputs, visible)
  }

  /** Progress never overruns the promise: whatever a validated step returns and wherever the
      stream cuts it, committed <= known <= capacity, the commit fits the reservation, the
      scheduler accepts it, and something was gained. */
  lemma CompleteAccepts(p: Progress, plan: Plan, result: StepResult, visible: nat)
    requires Runnable(p) && PlanOk(p, plan) && Validated(plan, result)
    requires visible <= |result.outputs| && (result.outputs != [] ==> visible > 0)
    ensures var r := Complete(p, Committed(result, visible), visible);
            && r.Ok? && r.value.limit == p.limit && r.value.known == p.known + visible
            && r.value.computed <= r.value.known <= r.value.limit
            && r.value.computed <= p.limit - 1
            && Committed(result, visible) <= plan.scheduled + plan.lookahead
            && (r.value.computed == r.value.known <==> 0 < visible <= result.cachedOutputs)
            && p.known + p.computed < r.value.known + r.value.computed
  {
  }

  /** What the scheduler counts as cached after a step is what the executor cached, up to the last
      token that is shown. */
  lemma CompleteCountsCached(p: Progress, plan: Plan, result: StepResult, visible: nat)
    requires Runnable(p) && PlanOk(p, plan) && Validated(plan, result)
    requires visible <= |result.outputs| && (result.outputs != [] ==> visible > 0)
    ensures var r := Complete(p, Committed(result, visible), visible);
            && r.Ok? && r.value.computed == Min(p.computed + result.inputComputed + result.cachedOutputs, r.value.known)
            && (visible == |result.outputs| ==>
                 r.value.computed == p.computed + result.inputComputed + result.cachedOutputs)
  {
  }

  /** The request can be scheduled again exactly when it is short of its limit and the executor
      left its last visible token out of the cache. */
  lemma RunnableAgain(p: Progress, plan: Plan, result: StepResult, visible: nat)
    requires Runnable(p) && PlanOk(p, plan) && Validated(plan, result)
    requires visible <= |result.outputs| && (result.outputs != [] ==> visible > 0)
    ensures var next := Complete(p, Committed(result, visible), visible);
            next.Ok? && (Runnable(next.value)
                         <==> p.known + visible < p.limit && (visible == 0 || result.cachedOutputs < visible))
  {
    CompleteAccepts(p, plan, result, visible);
  }

  /** A result that passes every check and leaves a request that is short of its limit with
      nothing to compute, so that it is never scheduled again. */
  predicate Stalls(p: Progress, plan: Plan, result: StepResult, visible: nat) {
    && Validated(plan, result) && visible <= |result.outputs| && (result.outputs != [] ==> visible > 0)
    && var next := Complete(p, Committed(result, visible), visible);
    && next.Ok? && next.value.known < next.value.limit && next.value.computed == next.value.known
  }

  /** The checks alone let such a result through exactly for the plans with lookahead. Accepting
      a draft never produces one: it leaves the last token out of the cache. */
  lemma StallsExactly(p: Progress, plan: Plan)
    requires Runnable(p) && PlanOk(p, plan)
    ensures (exists result, visible :: Stalls(p, plan, result, visible)) <==> plan.lookahead > 0
  {
    if plan.lookahead > 0 {
      assert Stalls(p, plan, StepResult(plan.scheduled, [0], 1), 1);
    }
  }

  // ---- a strict request on the paged cache -------------------------------------------------

  /** One admitted strict request: its progress, the plan it is executing, and the manager. */
  datatype Link = Link(s: State, p: Progress, flight: Option<Plan>)

  ghost predicate Linked(k: Link, id: RequestId) {
    && Inv(k.s) && id in k.s.allocs && Runnable(k.p)
    && var a := k.s.allocs[id];
    && a.committed == k.p.computed
    && a.completionLimit == Some(BlocksFor(k.s.blockSize, k.p.limit - 1))
    && (match k.flight
        case None => a.reserved == 0
        case Some(plan) => a.reserved == plan.scheduled + plan.lookahead && PlanOk(k.p, plan))
  }

  /** Scheduling a strict request between steps: the reservation is always granted, unless the
      page count was re-planned under the running requests, and then the error says so. */
  lemma ScheduleNeverLosesPromise(k: Link, id: RequestId, budget: DecodingBudget, tokenBudget: nat, firstOutput: bool)
    requires Linked(k, id) && k.flight.None? && budget.maxOutputTokens > 0 && tokenBudget > 0
    ensures var plan := PlanStep(k.p, budget, tokenBudget, firstOutput);
            var n := plan.scheduled + plan.lookahead;
            && (Reserve(k.s, id, n).1.Ok? <==> k.s.numBlocks == Some(k.s.planned))
            && (Reserve(k.s, id, n).1.Err? ==> Reserve(k.s, id, n).1 == Err(CapacityChanged))
            && (Reserve(k.s, id, n).1.Ok? ==> Linked(Link(Step(k.s, DoReserve(id, n)), k.p, Some(plan)), id))
  {
    hide PoolOk, Counted, ClaimsOk, IndexKeysOk, AllocationOk, SumOver, BlocksFor, Apply, Reserve;
    var plan := PlanStep(k.p, budget, tokenBudget, firstOutput);
    var n := plan.scheduled + plan.lookahead;
    PlanFits(k.p, budget, tokenBudget, firstOutput);
    var limit := BlocksFor(k.s.blockSize, k.p.limit - 1);
    BlocksMonotone(k.s.blockSize, k.p.computed + n, k.p.limit - 1);
    StrictReserve(k.s, id, n, limit);
    if k.s.numBlocks == Some(k.s.planned) {
      AfterReserve(k.s, id, n);
    } else {
      ReplannedFails(k.s, id, n);
    }
  }

  lemma ReplannedFails(s: State, id: RequestId, n: nat)
    requires Inv(s) && id in s.allocs && s.numBlocks != Some(s.planned)
    ensures Reserve(s, id, n).1 == Err(CapacityChanged)
  {
    hide PoolOk, Counted, ClaimsOk, IndexKeysOk, AllocationOk;
  }

  lemma ReserveKeepsPlan(s: State, id: RequestId, n: nat)
    requires Inv(s) && id in s.allocs
    ensures Step(s, DoReserve(id, n)).planned == s.planned && Step(s, DoReserve(id, n)).numBlocks == s.numBlocks
  {
    hide PoolOk, Counted, ClaimsOk, IndexKeysOk, AllocationOk;
  }

  lemma CommitKeepsPlan(s: State, id: RequestId, n: nat)
    requires Inv(s) && id in s.allocs
    ensures var t := Step(s, DoCommit(id, n));
            && t.planned == s.planned && t.numBlocks == s.numBlocks && t.blockSize == s.blockSize
    ensures n <= s.allocs[id].reserved ==> Commit(s, id, n).1.None?
  {
    hide PoolOk, Counted, ClaimsOk, IndexKeysOk, AllocationOk;
  }

  /** Finishing the step: the scheduler and the cache accept the commit, and a request that
      goes on is between steps again. */
  lemma CompleteNeverFails(k: Link, id: RequestId, result: StepResult, visible: nat)
    requires Linked(k, id) && k.flight.Some? && Validated(k.flight.value, result)
    requires visible <= |result.outputs| && (result.outputs != [] ==> visible > 0)
    ensures var n := Committed(result, visible);
            var next := Complete(k.p, n, visible);
            && next.Ok? && Commit(k.s, id, n).1.None?
            && (Runnable(next.value) ==> Linked(Link(Step(k.s, DoCommit(id, n)), next.value, None), id))
  {
    hide PoolOk, Counted, ClaimsOk, IndexKeysOk, AllocationOk, SumOver, BlocksFor, Apply, Commit;
    var n := Committed(result, visible);
    CommitKeepsPlan(k.s, id, n);
    AfterCommit(k.s, id, n);
  }

  datatype LinkEvent =
    | Other(op: Op)
    | Schedule(budget: DecodingBudget, tokenBudget: nat, firstOutput: bool)
    | Finish(result: StepResult, visible: nat)

  /** Events that can come next; a request whose stream ends leaves, so it has no next event. */
  predicate Possible(k: Link, id: RequestId, e: LinkEvent) {
    match e
    case Other(op) => Foreign(op, id)
    case Schedule(budget, tokenBudget, _) => k.flight.None? && budget.maxOutputTokens > 0 && tokenBudget > 0
    case Finish(result, visible) =>
      && k.flight.Some? && Validated(k.flight.value, result)
      && visible <= |result.outputs| && (result.outputs != [] ==> visible > 0)
      && k.p.known + visible < k.p.limit && (visible == 0 || result.cachedOutputs < visible)
  }

  datatype LinkError = Cache(cause: PagedState.Error) | Scheduler(reason: CompleteError)

  /** The next link, or the error of the manager or the scheduler. */
  ghost function Next(k: Link, id: RequestId, e: LinkEvent): Result<Link, LinkError>
    requires Linked(k, id) && Possible(k, id, e)
  {
    match e
    case Other(op) => Ok(k.(s := Step(k.s, op)))
    case Schedule(budget, tokenBudget, firstOutput) =>
      var plan := PlanStep(k.p, budget, tokenBudget, firstOutput);
      var n := plan.scheduled + plan.lookahead;
      var r := Reserve(k.s, id, n).1;
      if r.Err? then Err(Cache(r.error)) else Ok(Link(Step(k.s, DoReserve(id, n)), k.p, Some(plan)))
    case Finish(result, visible) =>
      var n := Committed(result, visible);
      var next := Complete(k.p, n, visible);
      var refused := Commit(k.s, id, n).1;
      if next.Err? then Err(Scheduler(next.error))
      else if refused.Some? then Err(Cache(refused.value))
      else Ok(Link(Step(k.s, DoCommit(id, n)), next.value, None))
  }

  /** The page count the pool was built for is not the one planned now. */
  predicate Replanned(s: State) {
    s.numBlocks != Some(s.planned)
  }

  /** The only event that is ever refused is scheduling on a page count that was re-planned. */
  lemma NextSucceedsExactly(k: Link, id: RequestId, e: LinkEvent)
    requires Linked(k, id) && Possible(k, id, e)
    ensures var next := Next(k, id, e);
            && (next.Err? <==> e.Schedule? && Replanned(k.s))
            && (next.Err? ==> next == Err(Cache(CapacityChanged)))
            && (next.Ok? ==> Linked(next.value, id))
            && (next.Ok? && Replanned(next.value.s) ==> Replanned(k.s) || (e.Other? && e.op.DoReplan?))
  {
    hide PoolOk, Counted, ClaimsOk, IndexKeysOk, AllocationOk, SumOver, BlocksFor, Apply, Commit, Reserve;
    match e
    case Other(op) => ForeignKeepsTable(k.s, op, id);
    case Schedule(budget, tokenBudget, firstOutput) =>
      ScheduleNeverLosesPromise(k, id, budget, tokenBudget, firstOutput);
      var plan := PlanStep(k.p, budget, tokenBudget, firstOutput);
      ReserveKeepsPlan(k.s, id, plan.scheduled + plan.lookahead);
    case Finish(result, visible) =>
      CompleteNeverFails(k, id, result, visible);
      CommitKeepsPlan(k.s, id, Committed(result, visible));
  }

  /** Each event is possible where it comes; after an error nothing comes. */
  ghost predicate PossibleRun(k: Link, id: RequestId, events: seq<LinkEvent>)
    requires Linked(k, id)
    decreases |events|
  {
    events == [] ||
    (Possible(k, id, events[0]) &&
     (NextSucceedsExactly(k, id, events[0]);
      if Next(k, id, events[0]).Err? then |events| == 1
          else PossibleRun(Next(k, id, events[0]).value, id, events[1..])))
  }

  /** The outcome of a whole run. */
  ghost function RunLink(k: Link, id: RequestId, events: seq<LinkEvent>): Result<Link, LinkError>
    requires Linked(k, id) && PossibleRun(k, id, events)
    decreases |events|
  {
    if events == [] then Ok(k) else
      NextSucceedsExactly(k, id, events[0]);
      var next := Next(k, id, events[0]);
      if next.Err? then next else RunLink(next.value, id, events[1..])
  }

  predicate Replans(e: LinkEvent) {
    e.Other? && e.op.DoReplan?
  }

  /** From admission on, over every interleaving with other requests and with changes of the page
      count, a strict request meets no error but "the page count has changed", and meets that only
      after it has; the scheduler's "lost its completion guarantee" error cannot occur. */
  lemma {:induction false} GuaranteeNeverLost(k: Link, id: RequestId, events: seq<LinkEvent>)
    requires Linked(k, id) && PossibleRun(k, id, events)
    ensures var end := RunLink(k, id, events);
            && (end.Ok? ==> Linked(end.value, id))
            && (end.Err? ==> end == Err(Cache(CapacityChanged)))
            && (end.Err? ==> Replanned(k.s) || exists i :: 0 <= i < |events| && Replans(events[i]))
    decreases |events|
  {
    hide Linked, Possible, Next, Replanned;
    if events != [] {
      NextSucceedsExactly(k, id, events[0]);
      var next := Next(k, id, events[0]);
      if next.Ok? {
        GuaranteeNeverLost(next.value, id, events[1..]);
        if i :| 0 <= i < |events[1..]| && Replans(events[1..][i]) {
          assert Replans(events[i + 1]);
        }
      }
    }
  }

  /** Admission as the scheduler does it, with one slot less than the capacity, sets this up. */
  lemma AdmissionLinks(s: State, q: AddRequest, limit: nat)
    requires Inv(s) && q.guaranteeCompletion && q.maxCommitted == limit - 1
    requires Add(s, q).1.Ok? && Add(s, q).1.value.Some?
    ensures var cached := Add(s, q).1.value.value;
            && cached < |q.tokens| < limit && !Replanned(Step(s, DoAdd(q)))
            && Linked(Link(Step(s, DoAdd(q)), Progress(|q.tokens|, cached, limit), None), q.id)
  {
    hide PoolOk, Counted, ClaimsOk, IndexKeysOk, AllocationOk, SumOver, BlocksFor, Apply, Add;
    AddOutcome(s, q);
    AdmittedLimit(s, q);
  }
}
