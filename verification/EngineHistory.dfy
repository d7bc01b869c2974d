/** What the engine remembers of a request over every interleaving: the prompt it registered with,
    the results of its own steps and nothing else; so every batch input is a slice of that prompt
    followed by what its consumer was shown (core.py:233-535). */
module EngineHistory {
  import opened Collections
  import opened Stream
  import opened EngineState
  import opened EngineRuns
  import opened EngineCancellation
  import Scheduling

  // ---- one section -------------------------------------------------------------------------------

  /** Nothing is taken in: requests that stay are as they were, and so is what was recorded. */
  ghost predicate Quiet(e: Engine, t: Engine) {
    && t.channels.Keys == e.channels.Keys && t.closed == e.closed
    && (forall id | id in e.channels ::
          t.channels[id].ask == e.channels[id].ask && t.channels[id].steps == e.channels[id].steps)
    && (forall id | id in t.states :: id in e.states && t.states[id] == e.states[id])
  }

  lemma RemoveQuiet(e: Engine, id: RequestId)
    ensures Quiet(e, Remove(e, id)) && Remove(e, id).channels == e.channels
    ensures Remove(e, id).states == e.states - {id}
  {
  }

  lemma NotifyQuiet(e: Engine, id: RequestId, event: Event)
    requires id in e.channels
    ensures Quiet(e, Notify(e, id, event)) && Notify(e, id, event).states == e.states
  {
  }

  lemma FailOneQuiet(e: Engine, id: RequestId)
    ensures Quiet(e, FailOne(e, id))
  {
    hide Remove, Notify, Quiet;
    Unchanged(e);
    RemoveQuiet(e, id);
    if id in e.channels {
      NotifyQuiet(Remove(e, id), id, Failed);
      QuietTwice(e, Remove(e, id), Notify(Remove(e, id), id, Failed));
    }
  }

  lemma {:induction false} FailEachQuiet(e: Engine, ids: seq<RequestId>)
    ensures Quiet(e, FailEach(e, ids))
    decreases |ids|
  {
    hide FailOne, Quiet;
    if ids == [] {
      Unchanged(e);
    } else {
      FailOneQuiet(e, ids[0]);
      FailEachQuiet(FailOne(e, ids[0]), ids[1..]);
      QuietTwice(e, FailOne(e, ids[0]), FailEach(e, ids));
    }
  }

  lemma {:induction false} FinishEachQuiet(e: Engine, ids: seq<RequestId>)
    ensures Quiet(e, FinishEach(e, ids))
    decreases |ids|
  {
    if ids != [] { FinishEachQuiet(FinishOne(e, ids[0]), ids[1..]); }
  }

  lemma CancelQuiet(e: Engine, id: RequestId)
    ensures Quiet(e, CancelRequest(e, id))
  {
  }

  lemma QuietTwice(e: Engine, f: Engine, t: Engine)
    requires Quiet(e, f) && Quiet(f, t)
    ensures Quiet(e, t)
  {
  }

  /** The same request with possibly more tokens. */
  ghost predicate Continues(a: Request, b: Request) {
    b.ask == a.ask && b.promptLength == a.promptLength && a.tokens <= b.tokens
  }

  /** Requests that stay only gain tokens, and each channel gains the given outputs. */
  ghost predicate Gains(e: Engine, t: Engine, gained: map<RequestId, seq<seq<Token>>>) {
    && t.channels.Keys == e.channels.Keys && t.closed == e.closed
    && (forall id | id in e.channels ::
          && t.channels[id].ask == e.channels[id].ask
          && t.channels[id].steps == e.channels[id].steps + if id in gained then gained[id] else [])
    && (forall id | id in t.states :: id in e.states && Continues(e.states[id], t.states[id]))
  }

  lemma QuietGains(e: Engine, t: Engine)
    requires Quiet(e, t)
    ensures Gains(e, t, map[])
  {
  }

  /** What a step brings to its live requests. */
  function Brought(e: Engine, items: seq<Planned>, results: Results): map<RequestId, seq<seq<Token>>> {
    map id | id in e.states && id in Ids(items) && id in results :: [results[id].outputs]
  }

  lemma ShownGains(e: Engine, id: RequestId, result: Scheduling.StepResult)
    requires id in e.states && id in e.scheduler && id in e.channels
    requires Completed(e.scheduler[id], e.states[id], result).Ok?
    ensures Gains(e, Shown(e, id, result), map[id := [result.outputs]])
    ensures Shown(e, id, result).states.Keys == e.states.Keys
  {
    hide Completed, VisibleOf, TokenEvents;
  }

  lemma LeaveQuiet(e: Engine, id: RequestId, reason: Option<FinishReason>)
    requires id in e.channels
    ensures Quiet(e, Leave(e, id, reason))
    ensures forall other | other in e.states && other != id :: other in Leave(e, id, reason).states
  {
    hide Remove, Notify, Quiet;
    Unchanged(e);
    RemoveQuiet(e, id);
    if reason.Some? {
      NotifyQuiet(Remove(e, id), id, Finished(reason.value));
      QuietTwice(e, Remove(e, id), Notify(Remove(e, id), id, Finished(reason.value)));
    }
  }

  lemma GainsThenQuiet(e: Engine, f: Engine, t: Engine, gained: map<RequestId, seq<seq<Token>>>)
    requires Gains(e, f, gained) && Quiet(f, t)
    ensures Gains(e, t, gained)
  {
  }

  lemma ApplyOneGains(e: Engine, id: RequestId, result: Scheduling.StepResult)
    requires Structure(e) && ApplyOne(e, id, result).1
    ensures Gains(e, ApplyOne(e, id, result).0, if id in e.states then map[id := [result.outputs]] else map[])
    ensures forall other | other in e.states && other != id :: other in ApplyOne(e, id, result).0.states
  {
    hide Completed, Shown, Leave, ReasonOf, Structure, Gains;
    CoreKeys(e);
    if id in e.states {
      var shown := Shown(e, id, result);
      ShownGains(e, id, result);
      ShownKeys(e, id, result);
      LeaveQuiet(shown, id, ReasonOf(e.states[id], result));
      GainsThenQuiet(e, shown, Leave(shown, id, ReasonOf(e.states[id], result)), map[id := [result.outputs]]);
    } else {
      Unchanged(e);
    }
  }

  lemma ShownKeys(e: Engine, id: RequestId, result: Scheduling.StepResult)
    requires id in e.states && id in e.scheduler && id in e.channels
    requires Completed(e.scheduler[id], e.states[id], result).Ok?
    ensures id in Shown(e, id, result).channels
  {
    hide Completed, VisibleOf, TokenEvents;
  }

  lemma Unchanged(e: Engine)
    ensures Gains(e, e, map[]) && Quiet(e, e)
  {
  }

  /** One request after the other, none of them twice. */
  lemma GainsTwice(e: Engine, f: Engine, t: Engine, a: map<RequestId, seq<seq<Token>>>, b: map<RequestId,
                   seq<seq<Token>>>,
                   c: map<RequestId, seq<seq<Token>>>)
    requires Gains(e, f, a) && Gains(f, t, b) && a.Keys !! b.Keys && c == a + b
    ensures Gains(e, t, c)
  {
    hide Continues;
    forall id | id in e.channels
      ensures t.channels[id].steps == e.channels[id].steps + if id in c then c[id] else []
    {
      assert t.channels[id].steps == f.channels[id].steps + if id in b then b[id] else [];
      assert f.channels[id].steps == e.channels[id].steps + if id in a then a[id] else [];
    }
    forall id | id in t.states ensures id in e.states && Continues(e.states[id], t.states[id]) {
      ContinuesTwice(e.states[id], f.states[id], t.states[id]);
    }
  }

  lemma ContinuesTwice(a: Request, b: Request, c: Request)
    requires Continues(a, b) && Continues(b, c)
    ensures Continues(a, c)
  {
  }

  lemma {:induction false} ApplyEachGains(e: Engine, items: seq<Planned>, results: Results)
    requires Core(e) && NoDup(Ids(items))
    requires forall i | 0 <= i < |items| ::
               items[i].id in results && Scheduling.Validated(items[i].plan, results[items[i].id])
    requires forall i | 0 <= i < |items| && items[i].id in e.states :: ItemOk(e, items[i])
    ensures Gains(e, ApplyEach(e, items, results).0, Brought(e, items, results))
    decreases |items|
  {
    if items == [] {
      Unchanged(e);
      assert Brought(e, items, results) == map[];
    } else {
      RestIsReady(e, items, results);
      var (id, rest) := (items[0].id, items[1..]);
      assert Structure(e);
      hide Core, ApplyOne, Scheduling.Validated, ItemOk, Gains, Structure, NoDup;
      ApplyOneGains(e, id, results[id]);
      var next := ApplyOne(e, id, results[id]).0;
      ApplyEachGains(next, rest, results);
      var first := if id in e.states then map[id := [results[id].outputs]] else map[];
      GainedStates(e, next, first);
      BroughtSplits(e, next, items, results);
      GainsTwice(e, next, ApplyEach(next, rest, results).0, first, Brought(next, rest, results),
                 Brought(e, items, results));
    }
  }

  lemma GainedStates(e: Engine, t: Engine, gained: map<RequestId, seq<seq<Token>>>)
    requires Gains(e, t, gained)
    ensures forall id | id in t.states :: id in e.states
  {
  }

  lemma BroughtSplits(e: Engine, next: Engine, items: seq<Planned>, results: Results)
    requires items != [] && items[0].id in results && items[0].id !in Ids(items[1..])
    requires Ids(items) == [items[0].id] + Ids(items[1..])
    requires forall id | id in next.states :: id in e.states
    requires forall id | id in e.states && id != items[0].id :: id in next.states
    ensures var first := if items[0].id in e.states then map[items[0].id := [results[items[0].id].outputs]] else map[];
            && first.Keys !! Brought(next, items[1..], results).Keys
            && Brought(e, items, results) == first + Brought(next, items[1..], results)
  {
    hide Ids;
    var (id, rest) := (items[0].id, Ids(items[1..]));
    forall other ensures other in Ids(items) <==> other == id || other in rest { InCons(id, rest, other); }
    var first := if id in e.states then map[id := [results[id].outputs]] else map[];
    var (whole, tail) := (Brought(e, items, results), Brought(next, items[1..], results));
    assert whole.Keys == first.Keys + tail.Keys;
  }

  lemma InCons(x: RequestId, rest: seq<RequestId>, y: RequestId)
    ensures y in [x] + rest <==> y == x || y in rest
  {
  }

  // ---- one operation -----------------------------------------------------------------------------

  /** What a completed step brings, if its results pass validation. */
  function Taking(e: Engine, outcome: Outcome): map<RequestId, seq<seq<Token>>>
    requires e.flight.Some?
  {
    if outcome.Succeeded? && OutputOk(e.flight.value, outcome.results, outcome.modelTokens)
    then Brought(e, e.flight.value, outcome.results) else map[]
  }

  lemma SettleGains(e: Engine, outcome: Outcome)
    requires Inv(e) && e.flight.Some?
    ensures Gains(e, Settle(e, outcome).0, Taking(e, outcome))
  {
    hide Core, OutputOk, Scheduling.Validated, ItemOk, Gains, Quiet, FinishEach, FailEach, ApplyEach, Brought;
    var items := e.flight.value;
    var idle := FinishExecution(e);
    FinishIsIdle(e);
    FinishQuiet(e);
    if outcome.Succeeded? && OutputOk(items, outcome.results, outcome.modelTokens) {
      ResultsCover(items, outcome.results, outcome.modelTokens);
      ApplyEachGains(idle, items, outcome.results);
      SameBrought(e, idle, items, outcome.results);
      QuietThenGains(e, idle, Settle(e, outcome).0, Brought(e, items, outcome.results));
    } else {
      FailEachQuiet(idle, Ids(items));
      QuietTwice(e, idle, FailEach(idle, Ids(items)));
      QuietGains(e, FailEach(idle, Ids(items)));
    }
  }

  lemma FinishQuiet(e: Engine)
    requires e.flight.Some?
    ensures Quiet(e, FinishExecution(e))
  {
    hide FinishEach;
    FinishEachQuiet(e.(flight := None), Ids(e.flight.value));
  }

  lemma SameBrought(e: Engine, t: Engine, items: seq<Planned>, results: Results)
    requires t.states == e.states
    ensures Brought(t, items, results) == Brought(e, items, results)
  {
  }

  lemma QuietThenGains(e: Engine, f: Engine, t: Engine, gained: map<RequestId, seq<seq<Token>>>)
    requires Quiet(e, f) && Gains(f, t, gained)
    ensures Gains(e, t, gained)
  {
  }

  lemma LaunchQuiet(e: Engine, choice: Choice, leased: bool)
    requires ChoiceOk(e, choice)
    ensures Quiet(e, Launch(e, choice, leased).0)
    ensures Launch(e, choice, leased).0.states == e.states && Launch(e, choice, leased).0.channels == e.channels
  {
    hide BuildBatch, PlannedFor;
  }

  /** What an operation takes in. */
  function Taken(m: Machine, op: Op): map<RequestId, seq<seq<Token>>> {
    if op.DoAdvance? && op.outcome.Some? && m.engine.flight.Some? then Taking(m.engine, op.outcome.value) else map[]
  }

  lemma AdvanceGains(m: Machine, outcome: Option<Outcome>, choice: Choice, leased: bool)
    requires MachineOk(m) && Possible(m, DoAdvance(outcome, choice, leased))
    ensures Gains(m.engine, Advance(m, outcome, choice, leased).0.engine, Taken(m, DoAdvance(outcome, choice, leased)))
  {
    hide Inv, Settle, Launch, Gains, Quiet, ChoiceOk, Taking;
    AdvanceKeepsOk(m, outcome, choice, leased);
    var settled := Settled(m.engine, outcome).0;
    if outcome.Some? { SettleGains(m.engine, outcome.value); } else { Unchanged(m.engine); }
    LaunchQuiet(settled, choice, leased);
    GainsThenQuiet(m.engine, settled, Launch(settled, choice, leased).0, Taken(m, DoAdvance(outcome, choice, leased)));
  }

  /** Everything but a registration changes requests only by what it takes in. */
  lemma OpGains(m: Machine, op: Op)
    requires MachineOk(m) && Possible(m, op) && !op.DoRegister?
    ensures Gains(if op.DoClose? then m.engine.(closed := true) else m.engine, Apply(m, op).engine, Taken(m, op))
  {
    hide Inv, Settled, ChoiceOk, CancelRequest, FailEach, FinishEach, Advance, Gains, Quiet, LiveIds;
    var e := m.engine;
    match op
    case DoCancel(id) =>
      CancelQuiet(e, id);
      QuietGains(e, CancelRequest(e, id));
    case DoClose =>
      var t := e.(closed := true);
      Unchanged(t);
      FailEachQuiet(t, LiveIds(t, t.nextId));
      QuietGains(t, FailEach(t, LiveIds(t, t.nextId)));
      if e.closed { assert t == e; }
    case DoAdvance(outcome, choice, leased) => AdvanceGains(m, outcome, choice, leased);
    case DoAbandon =>
      FinishQuiet(e);
      QuietGains(e, FinishExecution(e));
    case DoFailRest =>
      FailEachQuiet(e, LiveIds(e, e.nextId));
      QuietGains(e, FailAll(e));
    case DoEnd => Unchanged(e);
  }

  /** A registration enters the request with the prompt it came with, and touches no other. */
  lemma RegisterEnters(m: Machine, ask: Ask, prompt: seq<Token>, admitted: bool, answer: Answer)
    requires MachineOk(m)
    ensures var (t, r) := Admit(m, ask, prompt, admitted, answer);
            && (forall id | id in m.engine.channels ::
                  && id in t.engine.channels && t.engine.channels[id] == m.engine.channels[id]
                  && (id in t.engine.states ==> id in m.engine.states && t.engine.states[id] == m.engine.states[id]))
            && t.engine.closed == m.engine.closed
            && (r.Ok? ==>
                 && r.value !in m.engine.channels && r.value in t.engine.states && r.value in t.engine.channels
                 && t.engine.states[r.value] == Request(ask, |prompt|, prompt, 0)
                 && t.engine.channels[r.value] == Channel(ask, [], [], false)
                 && r.value in t.engine.scheduler
                 && t.engine.scheduler[r.value]
                    == Scheduling.Progress(|prompt|, 0, |prompt| + ask.maxNewTokens)
                 && t.driver == if m.driver.Absent? then Running else m.driver)
            && (r.Err? ==> t.driver == m.driver)
            && (forall id | id in t.engine.channels && id !in m.engine.channels :: r == Ok(id))
            && (r.Ok? <==> !m.engine.closed && admitted && Accepted(ask, prompt, answer))
  {
    hide ChannelOk, RequestOk, FlightOk;
    RegisterStructure(m.engine, ask, prompt, admitted, answer);
  }

  /** What a launched step executes: for each request picked, the plan for its progress with as much
      computed as the scheduler found, which is then also what the scheduler counts. */
  lemma LaunchPlans(e: Engine, choice: Choice, leased: bool, j: nat)
    requires Idle(e) && ChoiceOk(e, choice) && choice.Picks? && j < |choice.picks|
    requires Launch(e, choice, leased).1.Ok? && Launch(e, choice, leased).1.value.Some?
    ensures var (t, pick) := (Launch(e, choice, leased).0, choice.picks[j]);
            && t.flight.Some? && |t.flight.value| == |choice.picks|
                && t.executing == e.executing + (set id | id in Ids(t.flight.value))
            && pick.id in e.scheduler && pick.id in t.scheduler
            && t.scheduler[pick.id] == e.scheduler[pick.id].(computed := choice.computed[pick.id])
            && t.flight.value[j].id == pick.id && t.flight.value[j].computed == choice.computed[pick.id]
            && t.flight.value[j].plan
               == Scheduling.PlanStep(t.scheduler[pick.id], choice.budget, pick.tokenBudget, pick.firstOutput)
  {
    hide Core, BuildBatch;
  }

  /** An error fails everything: until the section that handles it has come, only requests register,
      cancel or the engine closes; and that section leaves no request live. */
  lemma ErrorFailsAll(m: Machine, op: Op)
    requires MachineOk(m) && m.driver.Failing? && Possible(m, op)
    ensures var t := Apply(m, op);
            || (t.driver.Failing? && (op.DoRegister? || op.DoCancel? || op.DoClose?))
            || (t.driver.Ending? && op.DoFailRest? && t.engine.states == map[])
  {
    hide Inv, CancelRequest, Close, Register;
    if op.DoFailRest? { FailRestKeepsOk(m); }
  }

  // ---- every interleaving ------------------------------------------------------------------------

  /** The machine remembers the request as it registered. */
  ghost predicate Remembers(e: Engine, id: RequestId, ask: Ask, prompt: seq<Token>) {
    && id in e.channels && e.channels[id].ask == ask
    && (id in e.states ==> Continues(Request(ask, |prompt|, prompt, 0), e.states[id]))
  }

  lemma OpRemembers(m: Machine, op: Op, id: RequestId, ask: Ask, prompt: seq<Token>)
    requires MachineOk(m) && Possible(m, op) && Remembers(m.engine, id, ask, prompt)
    ensures Remembers(Apply(m, op).engine, id, ask, prompt)
  {
    hide MachineOk, Possible, Admit, Taken;
    if op.DoRegister? { RegisterEnters(m, op.ask, op.prompt, op.admitted, op.answer); } else { OpGains(m, op); }
  }

  /** From its registration on, over every interleaving, a request keeps what it asked for and its
      prompt: the tokens of a live request begin with that prompt. */
  lemma {:induction false} PromptIsKept(states: seq<Machine>, ops: seq<Op>, k: nat, i: nat, id: RequestId)
    requires RunOf(states, ops) && k < i < |states| && ops[k].DoRegister?
    requires Admit(states[k], ops[k].ask, ops[k].prompt, ops[k].admitted, ops[k].answer).1 == Ok(id)
    ensures Remembers(states[i].engine, id, ops[k].ask, ops[k].prompt)
    ensures id in states[i].engine.states ==>
              var st := states[i].engine.states[id];
              && st.ask == ops[k].ask && st.promptLength == |ops[k].prompt| <= |st.tokens|
              && st.tokens[..st.promptLength] == ops[k].prompt
    decreases i
  {
    hide MachineOk, Possible, Apply, Admit;
    RunKeepsOk(states, ops, i - 1);
    if i - 1 == k {
      RegisterEnters(states[k], ops[k].ask, ops[k].prompt, ops[k].admitted, ops[k].answer);
      Registers(states[k], ops[k]);
    } else {
      PromptIsKept(states, ops, k, i - 1, id);
      OpRemembers(states[i - 1], ops[i - 1], id, ops[k].ask, ops[k].prompt);
    }
  }

  lemma Registers(m: Machine, op: Op)
    requires op.DoRegister?
    ensures Possible(m, op) && Apply(m, op) == Admit(m, op.ask, op.prompt, op.admitted, op.answer).0
  {
  }

  /** What a launched step was given: the inputs are slices of the tokens of live requests. */
  lemma LaunchedInputs(m: Machine, outcome: Option<Outcome>, choice: Choice, leased: bool, j: nat)
    requires MachineOk(m) && Possible(m, DoAdvance(outcome, choice, leased))
    requires var batch := Advance(m, outcome, choice, leased).1;
             batch.Ok? && batch.value.Some? && j < |batch.value.value|
    ensures var (t, input) := (Advance(m, outcome, choice, leased).0.engine,
                               Advance(m, outcome, choice, leased).1.value.value[j]);
            && MachineOk(Advance(m, outcome, choice, leased).0)
            && t.flight.Some? && j < |t.flight.value|
            && var item := t.flight.value[j];
            && item.id in t.states && item.id in t.channels
            && item.computed + item.plan.scheduled <= |t.states[item.id].tokens|
            && input == t.states[item.id].tokens[item.computed..item.computed + item.plan.scheduled]
  {
    hide Inv, Settle, Launch, ChoiceOk;
    AdvanceKeepsOk(m, outcome, choice, leased);
    var settled := Settled(m.engine, outcome).0;
    LaunchAlwaysBuilds(settled, choice, leased);
    LaunchQuiet(settled, choice, leased);
    CoreKeysOf(Launch(settled, choice, leased).0);
  }

  /** The tokens of a live request are its prompt and then what its consumer was shown. */
  lemma TokensAreShown(e: Engine, id: RequestId, ask: Ask, prompt: seq<Token>)
    requires Inv(e) && id in e.states && Remembers(e, id, ask, prompt)
    ensures var shown := ApplySteps(ask, Start(), e.channels[id].steps).generated;
            e.states[id].tokens == prompt + shown && e.channels[id].events == TokenEvents(shown, 0)
  {
    hide ApplySteps, FlightOk, TokenEvents, StopsAt, Structure, RequestOk;
    assert ChannelOk(e, id);
    StreamIsCut(ask, e.channels[id].steps);
    hide Core;
    var st := e.states[id];
    assert st.tokens == st.tokens[..st.promptLength] + st.tokens[st.promptLength..];
    var shown := ApplySteps(ask, Start(), e.channels[id].steps).generated;
    assert shown[..|shown|] == shown && Concat(e.channels[id].steps)[..|shown|] == shown;
    assert TokenEvents(shown, 0) + [] == TokenEvents(shown, 0);
  }

  /** Over every interleaving: each input of a launched step is a slice of the prompt its request
      registered with, followed by the tokens its consumer was shown so far. */
  lemma InputsAreHistory(states: seq<Machine>, ops: seq<Op>, k: nat, i: nat, j: nat)
    requires RunOf(states, ops) && k < i < |ops| && ops[k].DoRegister? && ops[i].DoAdvance?
    requires Possible(states[i], ops[i])
    requires var batch := Advance(states[i], ops[i].outcome, ops[i].choice, ops[i].leased).1;
             batch.Ok? && batch.value.Some? && j < |batch.value.value|
    requires var t := states[i + 1].engine;
             && t.flight.Some? && j < |t.flight.value|
             && Admit(states[k], ops[k].ask, ops[k].prompt, ops[k].admitted, ops[k].answer).1
                 == Ok(t.flight.value[j].id)
    ensures var (t, input) := (states[i + 1].engine,
                               Advance(states[i], ops[i].outcome, ops[i].choice, ops[i].leased).1.value.value[j]);
            var item := t.flight.value[j];
            item.id in t.channels
            && var ch := t.channels[item.id];
            && var shown := ApplySteps(ops[k].ask, Start(), ch.steps).generated;
            && ch.events == TokenEvents(shown, 0)
            && item.computed + item.plan.scheduled <= |ops[k].prompt + shown|
            && input == (ops[k].prompt + shown)[item.computed..item.computed + item.plan.scheduled]
  {
    hide Inv, Admit, Advance, ApplySteps, TokenEvents;
    RunKeepsOk(states, ops, i);
    Advances(states[i], ops[i]);
    LaunchedInputs(states[i], ops[i].outcome, ops[i].choice, ops[i].leased, j);
    var id := states[i + 1].engine.flight.value[j].id;
    PromptIsKept(states, ops, k, i + 1, id);
    TokensAreShown(states[i + 1].engine, id, ops[k].ask, ops[k].prompt);
  }

  lemma Advances(m: Machine, op: Op)
    requires op.DoAdvance? && Possible(m, op)
    ensures Apply(m, op) == Advance(m, op.outcome, op.choice, op.leased).0
  {
  }

  // ---- results -----------------------------------------------------------------------------------

  /** The outputs that steps brought to a request in the first i operations. */
  function TakenSoFar(states: seq<Machine>, ops: seq<Op>, i: nat, id: RequestId): seq<seq<Token>>
    requires i <= |ops| && |states| == |ops| + 1
  {
    if i == 0 then [] else
      var taken := Taken(states[i - 1], ops[i - 1]);
      TakenSoFar(states, ops, i - 1, id) + if id in taken then taken[id] else []
  }

  lemma TakenIsLive(m: Machine, op: Op, id: RequestId)
    requires id in Taken(m, op)
    ensures id in m.engine.states
  {
    hide OutputOk;
  }

  lemma {:induction false} NothingBefore(states: seq<Machine>, ops: seq<Op>, i: nat, id: RequestId)
    requires RunOf(states, ops) && i <= |ops| && id !in states[i].engine.channels
    ensures TakenSoFar(states, ops, i, id) == []
  {
    hide MachineOk, Possible, Apply, Taken;
    if i > 0 {
      NotLiveBefore(states, ops, i, id);
      if id in Taken(states[i - 1], ops[i - 1]) { TakenIsLive(states[i - 1], ops[i - 1], id); }
      NoChannelBefore(states, ops, i, id);
      NothingBefore(states, ops, i - 1, id);
    }
  }

  lemma NoChannelBefore(states: seq<Machine>, ops: seq<Op>, i: nat, id: RequestId)
    requires RunOf(states, ops) && 0 < i <= |ops| && id !in states[i].engine.channels
    ensures id !in states[i - 1].engine.channels
  {
    hide MachineOk, Possible, Admit, Taken;
    RunKeepsOk(states, ops, i - 1);
    var (m, op) := (states[i - 1], ops[i - 1]);
    if op.DoRegister? { RegisterEnters(m, op.ask, op.prompt, op.admitted, op.answer); } else { OpGains(m, op); }
  }

  /** Over every interleaving, what was recorded for a request are the outputs of exactly those
      steps that were taken in while it was in flight and live, in their order. */
  lemma {:induction false} StepsAreResults(states: seq<Machine>, ops: seq<Op>, i: nat, id: RequestId)
    requires RunOf(states, ops) && i <= |ops| && id in states[i].engine.channels
    ensures states[i].engine.channels[id].steps == TakenSoFar(states, ops, i, id)
  {
    hide MachineOk, Possible, Apply, Admit, Taken;
    if i > 0 {
      RunKeepsOk(states, ops, i - 1);
      var (m, op) := (states[i - 1], ops[i - 1]);
      if op.DoRegister? {
        Registers(m, op);
        RegisterEnters(m, op.ask, op.prompt, op.admitted, op.answer);
        RegisterTakesNothing(m, op);
      } else {
        OpGains(m, op);
      }
      if id in m.engine.channels { StepsAreResults(states, ops, i - 1, id); }
          else { NothingBefore(states, ops, i - 1, id); }
    }
  }

  lemma RegisterTakesNothing(m: Machine, op: Op)
    requires op.DoRegister?
    ensures Taken(m, op) == map[]
  {
  }

  // ---- progress ----------------------------------------------------------------------------------

  /** The scheduler's entry of a request moved by what the step computed and left cached, as far as it
      was shown. */
  ghost predicate Advanced(e: Engine, t: Engine, id: RequestId, result: Scheduling.StepResult) {
    && id in e.states && id in t.states && id in e.scheduler && id in t.scheduler
    && |e.states[id].tokens| <= |t.states[id].tokens|
    && var shown := |t.states[id].tokens| - |e.states[id].tokens|;
    && t.scheduler[id] == Scheduling.Progress(e.scheduler[id].known + shown,
                                              e.scheduler[id].computed + result.inputComputed
                                              + Min(result.cachedOutputs, shown),
                                              e.scheduler[id].limit)
  }

  ghost predicate SameProgress(e: Engine, t: Engine, id: RequestId) {
    && id in e.states && id in t.states && id in e.scheduler && id in t.scheduler
    && t.states[id] == e.states[id] && t.scheduler[id] == e.scheduler[id]
  }

  lemma ApplyOneProgress(e: Engine, id: RequestId, result: Scheduling.StepResult)
    requires Structure(e) && ApplyOne(e, id, result).1
    ensures var t := ApplyOne(e, id, result).0;
            && (forall other | other in t.states && other != id :: SameProgress(e, t, other))
            && (id in t.states ==> Advanced(e, t, id, result))
  {
    hide TokenEvents, Cut, EndOf, Structure;
    CoreKeys(e);
    if id in e.states {
      ShownProgressOf(e, id, result);
      LeaveProgress(Shown(e, id, result), id, ReasonOf(e.states[id], result));
    }
  }

  lemma ShownProgressOf(e: Engine, id: RequestId, result: Scheduling.StepResult)
    requires id in e.states && id in e.scheduler && id in e.channels
    requires Completed(e.scheduler[id], e.states[id], result).Ok?
    requires forall other | other in e.states :: other in e.scheduler
    ensures var t := Shown(e, id, result);
            && id in t.channels && t.states.Keys == e.states.Keys && t.scheduler.Keys == e.scheduler.Keys
            && (forall other | other in t.states && other != id :: SameProgress(e, t, other))
            && Advanced(e, t, id, result)
  {
    hide TokenEvents, Cut;
  }

  lemma LeaveProgress(e: Engine, id: RequestId, reason: Option<FinishReason>)
    requires id in e.channels && forall other | other in e.states :: other in e.scheduler
    ensures var t := Leave(e, id, reason);
            && (forall other | other in t.states && other != id :: SameProgress(e, t, other))
            && (id in t.states ==> reason.None? && SameProgress(e, t, id))
  {
  }

  lemma {:induction false} ApplyEachProgress(e: Engine, items: seq<Planned>, results: Results)
    requires Core(e) && NoDup(Ids(items))
    requires forall i | 0 <= i < |items| ::
               items[i].id in results && Scheduling.Validated(items[i].plan, results[items[i].id])
    requires forall i | 0 <= i < |items| && items[i].id in e.states :: ItemOk(e, items[i])
    ensures var t := ApplyEach(e, items, results).0;
            forall id | id in t.states ::
              if id in Ids(items) then id in results && Advanced(e, t, id, results[id]) else SameProgress(e, t, id)
    decreases |items|
  {
    if items == [] {
      CoreKeys(e);
    } else {
      RestIsReady(e, items, results);
      var (id, rest) := (items[0].id, items[1..]);
      assert Structure(e);
      hide Core, ApplyOne, Scheduling.Validated, ItemOk, Structure, NoDup, Ids, Advanced, SameProgress;
      ApplyOneProgress(e, id, results[id]);
      var next := ApplyOne(e, id, results[id]).0;
      ApplyEachProgress(next, rest, results);
      var t := ApplyEach(next, rest, results).0;
      forall other | other in t.states
        ensures if other in Ids(items) then other in results && Advanced(e, t, other, results[other])
                else SameProgress(e, t, other)
      {
        InCons(id, Ids(rest), other);
        StillThere(next, t, other, other in Ids(rest), if other in results then results[other] else results[id]);
        if other in results { ProgressTwice(e, next, t, other, results[other]); } else { SameTwice(e, next, t, other); }
      }
    }
  }

  lemma StillThere(e: Engine, t: Engine, id: RequestId, moved: bool, result: Scheduling.StepResult)
    requires if moved then Advanced(e, t, id, result) else SameProgress(e, t, id)
    ensures id in e.states
  {
  }

  lemma SameTwice(e: Engine, f: Engine, t: Engine, id: RequestId)
    ensures SameProgress(e, f, id) && SameProgress(f, t, id) ==> SameProgress(e, t, id)
  {
  }

  lemma ProgressTwice(e: Engine, f: Engine, t: Engine, id: RequestId, result: Scheduling.StepResult)
    ensures SameProgress(e, f, id) && Advanced(f, t, id, result) ==> Advanced(e, t, id, result)
    ensures Advanced(e, f, id, result) && SameProgress(f, t, id) ==> Advanced(e, t, id, result)
    ensures SameProgress(e, f, id) && SameProgress(f, t, id) ==> SameProgress(e, t, id)
  {
  }

  /** Taking in a step: each request of it that stays has moved by its input and by what was cached of
      its outputs, as far as they are shown, and no other request has moved. */
  lemma SettleProgress(e: Engine, outcome: Outcome)
    requires Inv(e) && e.flight.Some? && outcome.Succeeded?
    requires OutputOk(e.flight.value, outcome.results, outcome.modelTokens)
    ensures var (t, ids) := (Settle(e, outcome).0, Ids(e.flight.value));
            forall id | id in t.states ::
              if id in ids then id in outcome.results && Advanced(e, t, id, outcome.results[id])
              else SameProgress(e, t, id)
  {
    hide Core, OutputOk, Scheduling.Validated, ItemOk, ApplyEach, FinishEach, Advanced, SameProgress;
    var items := e.flight.value;
    FinishIsIdle(e);
    FinishProgress(e);
    ResultsCover(items, outcome.results, outcome.modelTokens);
    ApplyEachProgress(FinishExecution(e), items, outcome.results);
    var (idle, t) := (FinishExecution(e), Settle(e, outcome).0);
    forall id | id in t.states
      ensures if id in Ids(items) then id in outcome.results && Advanced(e, t, id, outcome.results[id])
              else SameProgress(e, t, id)
    {
      SameFinished(e, idle, id);
      StillThere(idle, t, id, id in Ids(items), if id in outcome.results then outcome.results[id] else Nothing());
      if id in outcome.results { ProgressTwice(e, idle, t, id, outcome.results[id]); }
          else { SameTwice(e, idle, t, id); }
    }
  }

  function Nothing(): Scheduling.StepResult { Scheduling.StepResult(0, [], 0) }

  lemma SameFinished(e: Engine, t: Engine, id: RequestId)
    requires t.states == e.states
    requires forall id | id in e.states :: id in e.scheduler && id in t.scheduler && t.scheduler[id] == e.scheduler[id]
    ensures id in e.states ==> SameProgress(e, t, id)
  {
  }

  lemma FinishProgress(e: Engine)
    requires Inv(e) && e.flight.Some?
    ensures forall id | id in e.states ::
              && id in e.scheduler && id in FinishExecution(e).scheduler
              && FinishExecution(e).scheduler[id] == e.scheduler[id]
  {
    var landed := e.(flight := None);
    assert Core(landed) by {
      hide Structure, ApplySteps;
      assert Structure(landed) by { LandedStructure(e); }
      CoreFrame(e, landed);
    }
    hide Core;
    FinishEachKeepsCore(landed, Ids(e.flight.value));
  }

  /** A launch that the executor grants no lease leaves what the scheduler has found, and nothing
      executing. */
  lemma UnleasedLaunch(e: Engine, choice: Choice)
    requires Idle(e) && ChoiceOk(e, choice) && choice.Picks? && e.scheduler != map[]
    ensures var t := Launch(e, choice, false).0;
            && t.executing == {} && t.flight.None? && t.scheduler.Keys == e.scheduler.Keys
            && forall id | id in e.scheduler :: t.scheduler[id] == e.scheduler[id].(computed := choice.computed[id])
  {
    hide Core, BuildBatch;
  }

  // ---- closing -----------------------------------------------------------------------------------

  /** Closing is final: from then on no request is live, every registration is refused, and a driver
      that ends is not followed by another. */
  lemma {:induction false} ClosingIsFinal(states: seq<Machine>, ops: seq<Op>, k: nat, i: nat)
    requires RunOf(states, ops) && k < i <= |ops| && ops[k].DoClose?
    ensures states[i].engine.closed && states[i].engine.states == map[]
    ensures ops[i - 1].DoEnd? ==> states[i].driver.Absent?
    ensures forall ask, prompt, admitted, answer :: Admit(states[i], ask, prompt, admitted, answer).1 == Err(Closed)
    decreases i
  {
    hide Inv, Possible, Taken, Apply, Admit;
    RunKeepsOk(states, ops, i - 1);
    RunKeepsOk(states, ops, i);
    var (m, op) := (states[i - 1], ops[i - 1]);
    if i - 1 > k { ClosingIsFinal(states, ops, k, i - 1); }
    if op.DoRegister? {
      Registers(m, op);
      RegisterEnters(m, op.ask, op.prompt, op.admitted, op.answer);
    } else {
      OpGains(m, op);
      if op.DoEnd? { ClosedEnds(m, op); }
    }
    ClosedRefuses(states[i]);
  }

  lemma ClosedEnds(m: Machine, op: Op)
    requires op.DoEnd? && Possible(m, op) && m.engine.closed
    ensures Apply(m, op).driver.Absent?
  {
  }

  lemma ClosedRefuses(m: Machine)
    requires MachineOk(m) && m.engine.closed
    ensures m.engine.states == map[]
    ensures forall ask, prompt, admitted, answer :: Admit(m, ask, prompt, admitted, answer).1 == Err(Closed)
  {
    hide Core, FlightOk;
  }

  // ---- validation --------------------------------------------------------------------------------

  function Total(xs: seq<nat>): nat {
    if xs == [] then 0 else Total(xs[..|xs| - 1]) + xs[|xs| - 1]
  }

  function Inputs(items: seq<Planned>): seq<nat> {
    seq(|items|, i requires 0 <= i < |items| => items[i].plan.scheduled)
  }

  function Slots(items: seq<Planned>): seq<nat> {
    seq(|items|, i requires 0 <= i < |items| => items[i].plan.scheduled + items[i].plan.lookahead)
  }

  lemma {:induction false} TotalCons(x: nat, xs: seq<nat>)
    ensures Total([x] + xs) == x + Total(xs)
  {
    if xs == [] {
      assert ([x] + xs)[..0] == [];
    } else {
      assert ([x] + xs)[..|xs|] == [x] + xs[..|xs| - 1];
      TotalCons(x, xs[..|xs| - 1]);
    }
  }

  lemma {:induction false} WorkIsTotal(items: seq<Planned>)
    ensures MinWork(items) == Total(Inputs(items)) && MaxWork(items) == Total(Slots(items))
  {
    if items != [] {
      WorkIsTotal(items[1..]);
      TotalCons(items[0].plan.scheduled, Inputs(items[1..]));
      TotalCons(items[0].plan.scheduled + items[0].plan.lookahead, Slots(items[1..]));
      assert Inputs(items) == [items[0].plan.scheduled] + Inputs(items[1..]);
      assert Slots(items) == [items[0].plan.scheduled + items[0].plan.lookahead] + Slots(items[1..]);
    }
  }

  /** Which results are let through: one for each request of the step and for no other; the model
      work is at least all inputs and at most all inputs and lookahead; each request computed its
      whole input, returned tokens exactly when it was asked to and not more than it was asked for,
      and cached no more than the lookahead it had reserved or the tokens it returned. */
  lemma OutputOkExactly(items: seq<Planned>, results: Results, modelTokens: int)
    ensures OutputOk(items, results, modelTokens) <==>
              && results.Keys == (set id | id in Ids(items))
              && Total(Inputs(items)) <= modelTokens <= Total(Slots(items))
              && forall i | 0 <= i < |items| ::
                   && items[i].id in results
                   && var (plan, r) := (items[i].plan, results[items[i].id]);
                   && r.inputComputed == plan.scheduled
                   && |r.outputs| <= plan.maxOutput && (|r.outputs| == 0 <==> plan.maxOutput == 0)
                   && r.cachedOutputs <= Min(plan.lookahead, |r.outputs|)
  {
    WorkIsTotal(items);
    hide MinWork, MaxWork, Inputs, Slots;
    forall i | 0 <= i < |items| ensures items[i].id in Ids(items) { assert Ids(items)[i] in Ids(items); }
  }

  lemma {:induction false} FailEachExactly(e: Engine, ids: seq<RequestId>)
    requires Core(e)
    ensures var t := FailEach(e, ids);
            forall id | id in e.channels ::
              && id in t.channels
              && t.channels[id].events == e.channels[id].events + if id in e.states && id in ids then [Failed] else []
    decreases |ids|
  {
    hide Core, FailOne;
    if ids != [] {
      FailOneKeepsCore(e, ids[0]);
      FailOneExactly(e, ids[0]);
      FailEachExactly(FailOne(e, ids[0]), ids[1..]);
      assert ids == [ids[0]] + ids[1..];
    }
  }

  lemma FailOneExactly(e: Engine, ids: RequestId)
    requires Core(e)
    ensures var t := FailOne(e, ids);
            && t.channels.Keys == e.channels.Keys
            && forall id | id in e.channels ::
                 t.channels[id].events == e.channels[id].events + if id in e.states && id == ids then [Failed] else []
  {
    hide ChannelOk, RequestOk;
    RemoveQuiet(e, ids);
  }

  /** A step that failed, or whose results do not pass, fails exactly its live requests: each gets one
      failure and leaves, and no other request is touched. */
  lemma RejectedFails(e: Engine, outcome: Outcome)
    requires Inv(e) && e.flight.Some?
    requires outcome.StepFailed? || !OutputOk(e.flight.value, outcome.results, outcome.modelTokens)
    ensures var (t, ids) := (Settle(e, outcome).0, Ids(e.flight.value));
            && (forall id :: id in t.states <==> id in e.states && id !in ids)
            && (forall id | id in t.states :: t.states[id] == e.states[id])
            && (forall id | id in e.channels ::
                  && id in t.channels && t.channels[id].steps == e.channels[id].steps
                  && t.channels[id].events
                     == e.channels[id].events + if id in e.states && id in ids then [Failed] else [])
  {
    hide Core, OutputOk, FinishEach, FailEach, FlightOk;
    var idle := FinishExecution(e);
    FinishIsIdle(e);
    FinishQuiet(e);
    FinishKeepsChannels(e);
    FailEachKeepsCore(idle, Ids(e.flight.value));
    FailEachQuiet(idle, Ids(e.flight.value));
    FailEachExactly(idle, Ids(e.flight.value));
  }

  lemma FinishKeepsChannels(e: Engine)
    requires e.flight.Some?
    ensures FinishExecution(e).channels == e.channels
  {
    hide FinishEach;
    FinishEachKeepsChannels(e.(flight := None), Ids(e.flight.value));
  }

  lemma {:induction false} FinishEachKeepsChannels(e: Engine, ids: seq<RequestId>)
    ensures FinishEach(e, ids).channels == e.channels
    decreases |ids|
  {
    if ids != [] { FinishEachKeepsChannels(FinishOne(e, ids[0]), ids[1..]); }
  }
}
