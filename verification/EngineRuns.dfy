/** What holds after every interleaving of registration, cancellation, closing, failures and
    steps of the engine. */
module EngineRuns {
  import opened Collections
  import opened Stream
  import opened EngineState
  import Scheduling

  // ---- the invariant -----------------------------------------------------------------------

  /** The scheduler knows exactly the live requests and those whose removal waits for the step
      in flight; every request that ever registered is there or was removed once. */
  ghost predicate Structure(e: Engine) {
    && e.held == e.states.Keys
    && (forall id :: id in e.scheduler <==> id in e.states || id in e.pending)
    && (forall id | id in e.pending :: id !in e.states && id in e.executing)
    && (forall id | id in e.executing :: id in e.scheduler)
    && NoDup(e.removed)
    && (forall id :: id in e.channels <==> id in e.scheduler || id in e.removed)
    && (forall id | id in e.removed :: id !in e.scheduler)
    && (forall id | id in e.channels :: id < e.nextId)
  }

  /** Cached <= known <= capacity, and the scheduler counts the tokens the engine holds. */
  ghost predicate RequestOk(e: Engine, id: RequestId)
    requires id in e.states && id in e.scheduler && id in e.channels
  {
    var (st, work) := (e.states[id], e.scheduler[id]);
    && 0 < st.promptLength <= |st.tokens| && st.promptLength + st.generated == |st.tokens|
    && st.generated < st.ask.maxNewTokens
    && work.computed <= work.known == |st.tokens| < work.limit == st.promptLength + st.ask.maxNewTokens
    && e.channels[id].ask == st.ask
  }

  /** What the consumer has been sent is the stream of the outputs taken in. A request that left
      was cancelled and has no terminal event, or has exactly one: its stream ended, or a failure
      came instead. */
  ghost predicate ChannelOk(e: Engine, id: RequestId)
    requires id in e.channels
  {
    var ch := e.channels[id];
    var p := ApplySteps(ch.ask, Start(), ch.steps);
    && ch.ask.maxNewTokens > 0
    && (if id in e.states
        then e.states[id].promptLength <= |e.states[id].tokens| && !ch.cancelled
             && p.reason.None? && ch.events == p.events
                 && p.generated == e.states[id].tokens[e.states[id].promptLength..]
        else if ch.cancelled then p.reason.None? && ch.events == p.events
        else ch.events == if p.reason.Some? then p.events else p.events + [Failed])
  }

  ghost predicate Core(e: Engine) {
    && Structure(e)
    && (forall id | id in e.states :: RequestOk(e, id))
    && (forall id | id in e.channels :: ChannelOk(e, id))
  }

  /** The plan of a request in flight still fits its progress. */
  ghost predicate ItemOk(e: Engine, item: Planned) {
    && item.id in e.scheduler && item.computed == e.scheduler[item.id].computed
    && Scheduling.Runnable(e.scheduler[item.id]) && Scheduling.PlanOk(e.scheduler[item.id], item.plan)
  }

  ghost predicate FlightOk(e: Engine) {
    match e.flight
    case None => e.executing == {}
    case Some(items) =>
      && NoDup(Ids(items)) && (forall id :: id in e.executing <==> id in Ids(items))
      && forall i | 0 <= i < |items| :: ItemOk(e, items[i])
  }

  ghost predicate Inv(e: Engine) {
    Core(e) && FlightOk(e) && (e.closed ==> e.states == map[])
  }

  // ---- single sections ---------------------------------------------------------------------

  lemma RegisterStructure(e: Engine, ask: Ask, prompt: seq<Token>, admitted: bool, answer: Answer)
    requires Structure(e)
    ensures Structure(Register(e, ask, prompt, admitted, answer).0)
            && SameFlight(e, Register(e, ask, prompt, admitted, answer).0)
    ensures e.nextId !in e.channels && e.nextId !in e.states
  {
  }

  lemma StepsEmpty(ask: Ask)
    ensures ApplySteps(ask, Start(), []) == Start()
  {
  }

  lemma NewRequestOk(e: Engine, ask: Ask, prompt: seq<Token>)
    requires prompt != [] && ask.maxNewTokens > 0 && e.nextId !in e.channels
    ensures var t := Register(e, ask, prompt, true, Taken).0;
            !e.closed ==> && e.nextId in t.states && e.nextId in t.scheduler && e.nextId in t.channels
                          && RequestOk(t, e.nextId) && ChannelOk(t, e.nextId)
  {
    hide ApplySteps;
    StepsEmpty(ask);
  }

  lemma RegisterKeepsInv(e: Engine, ask: Ask, prompt: seq<Token>, admitted: bool, answer: Answer)
    requires Inv(e)
    ensures Inv(Register(e, ask, prompt, admitted, answer).0)
            && SameFlight(e, Register(e, ask, prompt, admitted, answer).0)
  {
    hide ApplySteps, Structure, RequestOk, ChannelOk, FlightOk;
    var (t, r) := Register(e, ask, prompt, admitted, answer);
    CoreKeys(e);
    RegisterStructure(e, ask, prompt, admitted, answer);
    if r.Ok? { NewRequestOk(e, ask, prompt); }
    CoreFrame(e, t);
    FlightFrame(e, t);
  }

  lemma FlightFrame(e: Engine, t: Engine)
    requires FlightOk(e) && SameFlight(e, t)
    ensures FlightOk(t)
  {
    if e.flight.Some? {
      forall i | 0 <= i < |e.flight.value| ensures ItemOk(t, e.flight.value[i]) {
        assert ItemOk(e, e.flight.value[i]);
        assert Ids(e.flight.value)[i] in Ids(e.flight.value);
      }
    }
  }

  /** What a section does not touch stays as it was. */
  lemma CoreFrame(e: Engine, t: Engine)
    requires Core(e) && Structure(t)
    requires forall id | id in t.states ::
               || (&& id in e.states && t.states[id] == e.states[id] && t.scheduler[id] == e.scheduler[id]
                   && t.channels[id] == e.channels[id])
               || RequestOk(t, id)
    requires forall id | id in t.channels ::
               || (&& id in e.channels && t.channels[id] == e.channels[id]
                   && (id in t.states <==> id in e.states) && (id in t.states ==> t.states[id] == e.states[id]))
               || ChannelOk(t, id)
    ensures Core(t)
  {
    hide ApplySteps;
    forall id | id in t.states ensures RequestOk(t, id) {
      if id in e.states { assert RequestOk(e, id); }
    }
    forall id | id in t.channels ensures ChannelOk(t, id) {
      if id in e.channels { assert ChannelOk(e, id); }
    }
  }

  lemma UnscheduleStructure(e: Engine, id: RequestId)
    requires Structure(e) && id in e.scheduler && id !in e.executing
    ensures Structure(Unschedule(e, id).(states := e.states - {id}, held := e.held - {id}))
  {
  }

  lemma RemoveStructure(e: Engine, id: RequestId)
    requires Structure(e)
    ensures Structure(Remove(e, id)) && Remove(e, id).states == e.states - {id}
    ensures Remove(e, id).channels == e.channels && Remove(e, id).flight == e.flight
            && Remove(e, id).executing == e.executing
    ensures Remove(e, id).closed == e.closed
    ensures forall other | other in e.scheduler && (other != id || id in e.executing) ::
              other in Remove(e, id).scheduler && Remove(e, id).scheduler[other] == e.scheduler[other]
  {
    if id !in e.states {
      assert e.states - {id} == e.states;
    } else if id !in e.executing {
      UnscheduleStructure(e, id);
      assert Remove(e, id) == Unschedule(e, id).(states := e.states - {id}, held := e.held - {id});
    }
  }

  lemma CancelKeepsCore(e: Engine, id: RequestId)
    requires Core(e)
    ensures Core(CancelRequest(e, id)) && CancelRequest(e, id).states == e.states - {id}
            && SameFlight(e, CancelRequest(e, id))
  {
    hide ApplySteps, RequestOk, Remove, Structure;
    CoreKeys(e);
    RemoveStructure(e, id);
    if id in e.states {
      assert ChannelOk(e, id);
      MarkStructure(Remove(e, id), id);
      CoreFrame(e, CancelRequest(e, id));
    } else {
      assert e.states - {id} == e.states;
    }
  }

  lemma MarkStructure(e: Engine, id: RequestId)
    requires Structure(e) && id in e.channels
    ensures Structure(e.(channels := e.channels[id := e.channels[id].(cancelled := true)]))
  {
  }

  lemma CoreKeys(e: Engine)
    requires Structure(e)
    ensures forall id | id in e.states :: id in e.scheduler && id in e.channels
  {
  }

  /** The step in flight is untouched: its requests are still scheduled as they were. */
  ghost predicate SameFlight(e: Engine, t: Engine) {
    && t.flight == e.flight && t.executing == e.executing && t.closed == e.closed
    && forall id | id in e.executing && id in e.scheduler :: id in t.scheduler && t.scheduler[id] == e.scheduler[id]
  }

  lemma CoreKeysOf(e: Engine)
    requires Inv(e)
    ensures forall id | id in e.states :: id in e.scheduler && id in e.channels
  {
  }

  lemma FailOneKeepsCore(e: Engine, id: RequestId)
    requires Core(e)
    ensures Core(FailOne(e, id)) && FailOne(e, id).states == e.states - {id} && SameFlight(e, FailOne(e, id))
  {
    hide ApplySteps, RequestOk, Remove, Structure;
    CoreKeys(e);
    RemoveStructure(e, id);
    if id in e.states {
      assert ChannelOk(e, id);
      NotifyStructure(Remove(e, id), id, Failed);
      CoreFrame(e, FailOne(e, id));
    } else {
      assert e.states - {id} == e.states;
    }
  }

  lemma NotifyStructure(e: Engine, id: RequestId, event: Event)
    requires Structure(e) && id in e.channels
    ensures Structure(Notify(e, id, event))
  {
  }

  lemma FinishStructure(e: Engine, id: RequestId)
    requires Structure(e)
    ensures var t := FinishOne(e, id);
            && Structure(t) && t.executing == e.executing - {id} && t.states == e.states && t.channels == e.channels
            && t.flight == e.flight && t.closed == e.closed
            && forall other | other in e.states :: other in t.scheduler && t.scheduler[other] == e.scheduler[other]
  {
    var idle := e.(executing := e.executing - {id}, pending := e.pending - {id});
    if id in e.pending {
      assert FinishOne(e, id) == Unschedule(idle, id);
    }
  }

  lemma FinishOneKeepsCore(e: Engine, id: RequestId)
    requires Core(e)
    ensures Core(FinishOne(e, id))
  {
    hide RequestOk, ChannelOk, Structure, FinishOne;
    CoreKeys(e);
    FinishStructure(e, id);
    CoreFrame(e, FinishOne(e, id));
  }

  // ---- taking in a step --------------------------------------------------------------------

  /** The progress of the request itself: it stays within its capacity, and a stream that goes
      on is short of its limit. */
  lemma ShownProgress(st: Request, work: Work, plan: Scheduling.Plan, result: Scheduling.StepResult)
    requires st.promptLength + st.generated == |st.tokens| && work.known == |st.tokens|
    requires work.limit == st.promptLength + st.ask.maxNewTokens
    requires Scheduling.Runnable(work) && Scheduling.PlanOk(work, plan) && Scheduling.Validated(plan, result)
    ensures var r := Completed(work, st, result);
            && r.Ok? && r.value.limit == work.limit && r.value.known == work.known + |VisibleOf(st, result)|
            && r.value.computed <= r.value.known <= r.value.limit
            && (ReasonOf(st, result).None? ==> r.value.known < r.value.limit)
  {
    Scheduling.CompleteAccepts(work, plan, result, |VisibleOf(st, result)|);
  }

  /** The stream of the request itself: what is sent is the stream of what was taken in. */
  lemma ShownStream(ch: Channel, st: Request, result: Scheduling.StepResult)
    requires ch.ask == st.ask && st.promptLength + st.generated == |st.tokens|
    requires var p := ApplySteps(ch.ask, Start(), ch.steps);
             p.reason.None? && ch.events == p.events && p.generated == st.tokens[st.promptLength..]
    ensures var visible := VisibleOf(st, result);
            ApplySteps(ch.ask, Start(), ch.steps + [result.outputs])
            == Progress((st.tokens + visible)[st.promptLength..],
                        ch.events + TokenEvents(visible, st.generated) + Terminal(ReasonOf(st, result)),
                        ReasonOf(st, result))
  {
    hide Cut, EndOf, TokenEvents;
    StepsAppend(ch.ask, Start(), ch.steps, result.outputs);
  }

  lemma ShownStructure(e: Engine, id: RequestId, result: Scheduling.StepResult)
    requires Structure(e) && id in e.states && id in e.scheduler && id in e.channels
    requires Completed(e.scheduler[id], e.states[id], result).Ok?
    ensures var t := Shown(e, id, result);
            && Structure(t) && t.states.Keys == e.states.Keys && t.executing == e.executing && t.flight == e.flight
            && t.closed == e.closed && t.channels.Keys == e.channels.Keys && t.scheduler.Keys == e.scheduler.Keys
            && (forall other | other in e.states && other != id :: t.states[other] == e.states[other])
            && (forall other | other in e.channels && other != id :: t.channels[other] == e.channels[other])
            && (forall other | other in e.scheduler && other != id :: t.scheduler[other] == e.scheduler[other])
  {
    hide Completed, VisibleOf;
  }

  lemma ApplyOneKeepsCore(e: Engine, item: Planned, result: Scheduling.StepResult)
    requires Core(e) && Scheduling.Validated(item.plan, result)
    requires item.id in e.states ==> ItemOk(e, item)
    ensures var (t, ok) := ApplyOne(e, item.id, result);
            && ok && Core(t) && t.executing == e.executing && t.flight == e.flight && t.closed == e.closed
            && (forall id | id in t.states :: id in e.states)
            && (forall id | id in t.states && id != item.id ::
                id in t.scheduler && id in e.scheduler && t.scheduler[id] == e.scheduler[id])
  {
    hide ApplySteps, Completed, VisibleOf, ReasonOf, TokenEvents, Structure, Scheduling.Validated, Scheduling.PlanOk,
         Scheduling.Runnable;
    var id := item.id;
    CoreKeys(e);
    if id in e.states {
      var st := e.states[id];
      assert RequestOk(e, id) && ChannelOk(e, id);
      ShownProgress(st, e.scheduler[id], item.plan, result);
      if ReasonOf(st, result).None? { GoesOn(e, id, result); } else { Leaves(e, id, result); }
    }
  }

  lemma GoesOn(e: Engine, id: RequestId, result: Scheduling.StepResult)
    requires Core(e) && id in e.states && id in e.scheduler && id in e.channels
    requires var r := Completed(e.scheduler[id], e.states[id], result);
             && r.Ok? && r.value.limit == e.scheduler[id].limit
             && r.value.known == e.scheduler[id].known + |VisibleOf(e.states[id], result)| < r.value.limit
             && r.value.computed <= r.value.known
    requires ReasonOf(e.states[id], result).None?
    ensures Core(Shown(e, id, result))
  {
    hide ApplySteps, Completed, VisibleOf, ReasonOf, TokenEvents, Structure;
    assert RequestOk(e, id) && ChannelOk(e, id);
    ShownStream(e.channels[id], e.states[id], result);
    ShownStructure(e, id, result);
    CoreFrame(e, Shown(e, id, result));
  }

  lemma Leaves(e: Engine, id: RequestId, result: Scheduling.StepResult)
    requires Core(e) && id in e.states && id in e.scheduler && id in e.channels
    requires Completed(e.scheduler[id], e.states[id], result).Ok? && ReasonOf(e.states[id], result).Some?
    ensures var t := Leave(Shown(e, id, result), id, ReasonOf(e.states[id], result));
            && Core(t) && t.executing == e.executing && t.flight == e.flight && t.closed == e.closed
            && (forall other | other in t.states :: other in e.states)
            && (forall other | other in t.states && other != id ::
                  other in t.scheduler && other in e.scheduler && t.scheduler[other] == e.scheduler[other])
  {
    hide ApplySteps, Completed, VisibleOf, ReasonOf, TokenEvents, Structure, Remove;
    CoreKeys(e);
    assert RequestOk(e, id) && ChannelOk(e, id);
    ShownStream(e.channels[id], e.states[id], result);
    ShownStructure(e, id, result);
    var shown := Shown(e, id, result);
    RemoveStructure(shown, id);
    NotifyStructure(Remove(shown, id), id, Finished(ReasonOf(e.states[id], result).value));
    CoreFrame(e, Leave(shown, id, ReasonOf(e.states[id], result)));
  }

  // ---- all requests of a step, or all live ones --------------------------------------------

  lemma {:induction false} FailEachKeepsCore(e: Engine, ids: seq<RequestId>)
    requires Core(e)
    ensures var t := FailEach(e, ids);
            && Core(t) && SameFlight(e, t)
            && (forall id :: id in t.states <==> id in e.states && id !in ids)
    decreases |ids|
  {
    hide Core, FailOne;
    if ids != [] {
      FailOneKeepsCore(e, ids[0]);
      FailEachKeepsCore(FailOne(e, ids[0]), ids[1..]);
      assert ids == [ids[0]] + ids[1..];
    }
  }

  /** Requests fail in the order they registered, each live one once. */
  lemma {:induction false} LiveIdsComplete(e: Engine, n: nat)
    ensures forall id :: id in LiveIds(e, n) <==> id < n && id in e.states
    ensures forall i, j | 0 <= i < j < |LiveIds(e, n)| :: LiveIds(e, n)[i] < LiveIds(e, n)[j]
  {
    if n > 0 {
      LiveIdsComplete(e, n - 1);
      var below := LiveIds(e, n - 1);
      assert forall i | 0 <= i < |below| :: below[i] in below;
    }
  }

  lemma FailAllKeepsCore(e: Engine)
    requires Core(e)
    ensures Core(FailAll(e)) && SameFlight(e, FailAll(e)) && FailAll(e).states == map[]
  {
    assert forall id | id in e.states :: id < e.nextId;
    hide Core;
    LiveIdsComplete(e, e.nextId);
    FailEachKeepsCore(e, LiveIds(e, e.nextId));
  }

  lemma {:induction false} FinishEachKeepsCore(e: Engine, ids: seq<RequestId>)
    requires Core(e)
    ensures var t := FinishEach(e, ids);
            && Core(t) && t.flight == e.flight && t.closed == e.closed && t.states == e.states
            && (forall id :: id in t.executing <==> id in e.executing && id !in ids)
            && (forall id | id in e.states ::
                id in e.scheduler && id in t.scheduler && t.scheduler[id] == e.scheduler[id])
    decreases |ids|
  {
    CoreKeys(e);
    if ids != [] {
      FinishOneKeepsCore(e, ids[0]);
      FinishStructure(e, ids[0]);
      hide Core, FinishOne;
      FinishEachKeepsCore(FinishOne(e, ids[0]), ids[1..]);
      assert ids == [ids[0]] + ids[1..];
    }
  }

  /** After the first request the rest of the step can be taken in just as well. */
  lemma RestIsReady(e: Engine, items: seq<Planned>, results: Results)
    requires Core(e) && NoDup(Ids(items)) && items != []
    requires forall i | 0 <= i < |items| ::
             items[i].id in results && Scheduling.Validated(items[i].plan, results[items[i].id])
    requires forall i | 0 <= i < |items| && items[i].id in e.states :: ItemOk(e, items[i])
    ensures var (next, ok) := ApplyOne(e, items[0].id, results[items[0].id]);
            && ok && Core(next) && next.executing == e.executing && next.flight == e.flight && next.closed == e.closed
            && (e.states == map[] ==> next.states == map[])
            && (forall i | 0 <= i < |items[1..]| && items[1..][i].id in next.states :: ItemOk(next, items[1..][i]))
    ensures NoDup(Ids(items[1..])) && items[0].id !in Ids(items[1..]) && Ids(items) == [items[0].id] + Ids(items[1..])
    ensures forall i | 0 <= i < |items[1..]| ::
              items[1..][i].id in results && Scheduling.Validated(items[1..][i].plan, results[items[1..][i].id])
  {
    ApplyOneKeepsCore(e, items[0], results[items[0].id]);
    var next := ApplyOne(e, items[0].id, results[items[0].id]).0;
    hide Core, ApplyOne, Scheduling.Validated;
    forall i | 0 <= i < |items[1..]| && items[1..][i].id in next.states ensures ItemOk(next, items[1..][i]) {
      assert Ids(items)[0] != Ids(items)[i + 1];
      assert ItemOk(e, items[i + 1]);
    }
    forall i, j | 0 <= i < j < |items[1..]| ensures Ids(items[1..])[i] != Ids(items[1..])[j] {
      assert Ids(items)[i + 1] != Ids(items)[j + 1];
    }
    forall i | 0 <= i < |items[1..]| ensures Ids(items[1..])[i] != items[0].id {
      assert Ids(items)[0] != Ids(items)[i + 1];
    }
  }

  lemma {:induction false} ApplyEachKeepsCore(e: Engine, items: seq<Planned>, results: Results)
    requires Core(e) && NoDup(Ids(items))
    requires forall i | 0 <= i < |items| ::
             items[i].id in results && Scheduling.Validated(items[i].plan, results[items[i].id])
    requires forall i | 0 <= i < |items| && items[i].id in e.states :: ItemOk(e, items[i])
    ensures var (t, ok) := ApplyEach(e, items, results);
            ok && Core(t) && t.executing == e.executing && t.flight == e.flight && t.closed == e.closed
            && (e.states == map[] ==> t.states == map[])
    decreases |items|
  {
    if items != [] {
      RestIsReady(e, items, results);
      hide Core, ApplyOne, Scheduling.Validated, ItemOk;
      var next := ApplyOne(e, items[0].id, results[items[0].id]).0;
      ApplyEachKeepsCore(next, items[1..], results);
    }
  }

  // ---- the sections of the driver ----------------------------------------------------------

  /** Between steps. */
  ghost predicate Idle(e: Engine) {
    Inv(e) && e.flight.None?
  }

  lemma FinishIsIdle(e: Engine)
    requires Inv(e) && e.flight.Some?
    ensures Idle(FinishExecution(e)) && FinishExecution(e).states == e.states && FinishExecution(e).closed == e.closed
    ensures forall i | 0 <= i < |e.flight.value| && e.flight.value[i].id in e.states ::
              ItemOk(FinishExecution(e), e.flight.value[i])
  {
    var landed := e.(flight := None);
    assert Core(landed) by {
      hide Structure, ApplySteps;
      assert Structure(landed) by { LandedStructure(e); }
      CoreFrame(e, landed);
    }
    hide Core;
    FinishEachKeepsCore(landed, Ids(e.flight.value));
    forall i | 0 <= i < |e.flight.value| && e.flight.value[i].id in e.states
      ensures ItemOk(FinishExecution(e), e.flight.value[i])
    {
      assert ItemOk(e, e.flight.value[i]);
    }
  }

  lemma LandedStructure(e: Engine)
    requires Structure(e)
    ensures Structure(e.(flight := None))
  {
  }

  /** Taking in a completed step never raises: every commit is accepted. */
  lemma SettleNeverRaises(e: Engine, outcome: Outcome)
    requires Inv(e) && e.flight.Some?
    ensures Settle(e, outcome).1 && Idle(Settle(e, outcome).0)
  {
    hide Core, OutputOk, FinishExecution, Scheduling.Validated, ItemOk;
    var items := e.flight.value;
    FinishIsIdle(e);
    var idle := FinishExecution(e);
    FailEachKeepsCore(idle, Ids(items));
    if outcome.Succeeded? && OutputOk(items, outcome.results, outcome.modelTokens) {
      ResultsCover(items, outcome.results, outcome.modelTokens);
      ApplyEachKeepsCore(idle, items, outcome.results);
    }
  }

  lemma ResultsCover(items: seq<Planned>, results: Results, modelTokens: int)
    requires OutputOk(items, results, modelTokens)
    ensures forall i | 0 <= i < |items| ::
              items[i].id in results && Scheduling.Validated(items[i].plan, results[items[i].id])
  {
    forall i | 0 <= i < |items| ensures items[i].id in results {
      assert Ids(items)[i] in Ids(items);
    }
  }

  lemma RescheduledStructure(e: Engine, computed: map<RequestId, nat>)
    requires Structure(e) && computed.Keys == e.scheduler.Keys
    ensures Structure(Rescheduled(e, computed))
  {
  }

  lemma RescheduledIsIdle(e: Engine, computed: map<RequestId, nat>)
    requires Idle(e) && computed.Keys == e.scheduler.Keys
    requires forall id | id in e.scheduler :: computed[id] <= e.scheduler[id].known
    ensures Idle(Rescheduled(e, computed))
  {
    hide RequestOk, ChannelOk, Structure;
    var t := Rescheduled(e, computed);
    RescheduledStructure(e, computed);
    CoreKeys(e);
    forall id | id in t.states ensures RequestOk(t, id) { RescheduledRequest(e, computed, id); }
    forall id | id in t.channels ensures ChannelOk(t, id) { SameChannel(e, t, id); }
  }

  lemma RescheduledRequest(e: Engine, computed: map<RequestId, nat>, id: RequestId)
    requires computed.Keys == e.scheduler.Keys && id in e.states && id in e.scheduler && id in e.channels
    requires RequestOk(e, id) && computed[id] <= e.scheduler[id].known
    ensures RequestOk(Rescheduled(e, computed), id)
  {
  }

  lemma SameChannel(e: Engine, t: Engine, id: RequestId)
    requires id in e.channels && t.channels == e.channels && t.states == e.states && ChannelOk(e, id)
    ensures ChannelOk(t, id)
  {
    hide ApplySteps;
  }

  /** Every picked request is live and its input lies within its tokens. */
  lemma InputFound(e: Engine, item: Planned)
    requires Idle(e) && ItemOk(e, item)
    ensures item.id in e.states && InputOf(e, item).Ok? && |InputOf(e, item).value| == item.plan.scheduled
    ensures InputOf(e, item).value == e.states[item.id].tokens[item.computed..item.computed + item.plan.scheduled]
  {
    hide ChannelOk, Structure, ApplySteps, Scheduling.Runnable;
    IdleScheduler(e);
    CoreKeys(e);
    assert RequestOk(e, item.id);
  }

  lemma {:induction false} BatchFound(e: Engine, items: seq<Planned>)
    requires Idle(e) && forall i | 0 <= i < |items| :: ItemOk(e, items[i])
    ensures BuildBatch(e, items).Ok? && |BuildBatch(e, items).value| == |items|
    ensures forall i | 0 <= i < |items| ::
              InputOf(e, items[i]).Ok? && BuildBatch(e, items).value[i] == InputOf(e, items[i]).value
    decreases |items|
  {
    hide Idle, ItemOk, InputOf;
    if items != [] {
      InputFound(e, items[0]);
      BatchFound(e, items[1..]);
    }
  }

  /** The plans of the picked requests. */
  function PickedItems(e: Engine, choice: Choice): (items: seq<Planned>)
    requires ChoiceOk(e, choice) && choice.Picks?
    ensures |items| == |choice.picks|
  {
    var ready := Rescheduled(e, choice.computed);
    seq(|choice.picks|, i requires 0 <= i < |choice.picks| => PlannedFor(ready, choice.budget, choice.picks[i]))
  }

  lemma PickedItemsOk(e: Engine, choice: Choice)
    requires ChoiceOk(e, choice) && choice.Picks?
    ensures NoDup(Ids(PickedItems(e, choice)))
    ensures forall i | 0 <= i < |PickedItems(e, choice)| ::
            ItemOk(Rescheduled(e, choice.computed), PickedItems(e, choice)[i])
  {
    var ready := Rescheduled(e, choice.computed);
    forall i | 0 <= i < |choice.picks| ensures ItemOk(ready, PickedItems(e, choice)[i]) {
      var pick := choice.picks[i];
      Scheduling.PlanFits(ready.scheduler[pick.id], choice.budget, pick.tokenBudget, pick.firstOutput);
    }
  }

  /** Building a batch always finds its requests: a launch fails only when the scheduler raises
      or the executor grants no lease. */
  lemma LaunchAlwaysBuilds(e: Engine, choice: Choice, leased: bool)
    requires Idle(e) && ChoiceOk(e, choice)
    ensures var (t, batch) := Launch(e, choice, leased);
            && Inv(t) && (batch.Err? ==> Idle(t)) && t.closed == e.closed
            && (batch.Err? <==> e.scheduler != map[] && (choice.Raises? || !leased))
            && (batch.Ok? && batch.value.Some? ==>
                 choice.Picks? && t.flight == Some(PickedItems(e, choice)) && |batch.value.value| == |choice.picks|
                 && forall i | 0 <= i < |choice.picks| ::
                      var item := t.flight.value[i];
                      && item.id in e.states && item.computed + item.plan.scheduled <= |e.states[item.id].tokens|
                      && batch.value.value[i]
                          == e.states[item.id].tokens[item.computed..item.computed + item.plan.scheduled])
  {
    hide Core;
    if e.scheduler != map[] && choice.Picks? {
      var ready := Rescheduled(e, choice.computed);
      var items := PickedItems(e, choice);
      PickedItemsOk(e, choice);
      RescheduledIsIdle(e, choice.computed);
      BatchFound(ready, items);
      forall i | 0 <= i < |items| ensures items[i].id in e.states && InputOf(ready,
            items[i]).Ok? { InputFound(ready, items[i]); }
      if leased {
        LaunchedCore(ready, items);
      }
    }
  }

  lemma LaunchedStructure(e: Engine, items: seq<Planned>)
    requires Structure(e) && forall i | 0 <= i < |items| :: items[i].id in e.scheduler
    ensures Structure(e.(executing := e.executing + (set id | id in Ids(items)), flight := Some(items)))
  {
  }

  lemma LaunchedCore(e: Engine, items: seq<Planned>)
    requires Idle(e) && NoDup(Ids(items)) && forall i | 0 <= i < |items| :: ItemOk(e, items[i])
    ensures Inv(e.(executing := e.executing + (set id | id in Ids(items)), flight := Some(items)))
  {
    hide ApplySteps, Structure;
    var t := e.(executing := e.executing + (set id | id in Ids(items)), flight := Some(items));
    forall i | 0 <= i < |items| ensures ItemOk(t, items[i]) { assert ItemOk(e, items[i]); }
    CoreKeys(e);
    LaunchedStructure(e, items);
    CoreFrame(e, t);
  }

  // ---- all interleavings -------------------------------------------------------------------

  datatype Op =
    | DoRegister(ask: Ask, prompt: seq<Token>, admitted: bool, answer: Answer)
    | DoCancel(id: RequestId)
    | DoClose
    | DoAdvance(outcome: Option<Outcome>, choice: Choice, leased: bool)
    | DoAbandon
    | DoFailRest
    | DoEnd

  /** A driver section comes when the driver has got there; registration, cancellation and
      closing may come between any two sections. */
  ghost predicate Possible(m: Machine, op: Op) {
    match op
    case DoAdvance(outcome, choice, _) =>
      && m.driver.Running? && (outcome.Some? <==> m.engine.flight.Some?)
      && ChoiceOk(Settled(m.engine, outcome).0, choice)
    case DoAbandon => m.driver.Running? && m.engine.flight.Some?
    case DoFailRest => m.driver.Failing?
    case DoEnd => m.driver.Ending?
    case _ => true
  }

  function Apply(m: Machine, op: Op): Machine
    requires Possible(m, op)
  {
    match op
    case DoRegister(ask, prompt, admitted, answer) => Admit(m, ask, prompt, admitted, answer).0
    case DoCancel(id) => m.(engine := CancelRequest(m.engine, id))
    case DoClose => m.(engine := Close(m.engine))
    case DoAdvance(outcome, choice, leased) => Advance(m, outcome, choice, leased).0
    case DoAbandon => Abandon(m)
    case DoFailRest => FailRest(m)
    case DoEnd => End(m)
  }

  /** A step is in flight only while the driver runs, and no live request is without a driver. */
  ghost predicate MachineOk(m: Machine) {
    && Inv(m.engine)
    && (m.engine.flight.Some? ==> m.driver.Running?)
    && (m.driver.Absent? ==> m.engine.states == map[])
  }

  lemma CancelKeepsInv(e: Engine, id: RequestId)
    requires Inv(e)
    ensures Inv(CancelRequest(e, id)) && SameFlight(e, CancelRequest(e, id))
            && CancelRequest(e, id).states == e.states - {id}
  {
    hide Core, CancelRequest, FlightOk;
    CancelKeepsCore(e, id);
    FlightFrame(e, CancelRequest(e, id));
  }

  lemma FailAllKeepsInv(e: Engine)
    requires Core(e) && FlightOk(e)
    ensures Inv(FailAll(e)) && SameFlight(e, FailAll(e)) && FailAll(e).states == map[]
  {
    hide Core, FlightOk, FailAll;
    FailAllKeepsCore(e);
    FlightFrame(e, FailAll(e));
  }

  lemma CloseKeepsInv(e: Engine)
    requires Inv(e)
    ensures Inv(Close(e)) && Close(e).flight == e.flight && Close(e).executing == e.executing
            && Close(e).states == map[]
    ensures forall id | id in e.executing && id in e.scheduler ::
              id in Close(e).scheduler && Close(e).scheduler[id] == e.scheduler[id]
  {
    if !e.closed {
      var t := e.(closed := true);
      ClosedCore(e);
      hide Core, FailAll;
      FailAllKeepsInv(t);
    }
  }

  lemma ClosedCore(e: Engine)
    requires Core(e) && FlightOk(e)
    ensures Core(e.(closed := true)) && FlightOk(e.(closed := true))
  {
    hide ApplySteps, Structure;
    var t := e.(closed := true);
    assert Structure(t) by { ClosedStructure(e); }
    CoreKeys(e);
    CoreFrame(e, t);
    if e.flight.Some? {
      forall i | 0 <= i < |e.flight.value| ensures ItemOk(t, e.flight.value[i]) { assert ItemOk(e, e.flight.value[i]); }
    }
  }

  lemma ClosedStructure(e: Engine)
    requires Structure(e)
    ensures Structure(e.(closed := true))
  {
  }

  /** A driver turn keeps the invariant, and fails only when the scheduler raises or the
      executor grants no lease; then nothing is in flight, and the live requests wait for the
      section that fails them. */
  lemma AdvanceKeepsOk(m: Machine, outcome: Option<Outcome>, choice: Choice, leased: bool)
    requires MachineOk(m) && m.driver.Running? && (outcome.Some? <==> m.engine.flight.Some?)
    requires ChoiceOk(Settled(m.engine, outcome).0, choice)
    ensures var settled := Settled(m.engine, outcome).0;
            var (t, batch) := Advance(m, outcome, choice, leased);
            && MachineOk(t) && Settled(m.engine, outcome).1 && Idle(settled)
            && (batch.Err? ==> Idle(t.engine) && t.driver.Failing?)
            && (batch.Ok? ==> t.driver == if t.engine.flight.Some? then Running else Ending)
            && (batch.Ok? && t.engine.flight.None? ==> t.engine.scheduler == map[])
            && (batch.Err? <==> settled.scheduler != map[] && (choice.Raises? || !leased))
            && t.engine == Launch(settled, choice, leased).0 && batch == Launch(settled, choice, leased).1
  {
    hide Core, FlightOk, Settle, Launch, ChoiceOk;
    if outcome.Some? { SettleNeverRaises(m.engine, outcome.value); }
    var settled := Settled(m.engine, outcome).0;
    LaunchAlwaysBuilds(settled, choice, leased);
    LaunchFlies(settled, choice, leased);
  }

  lemma LaunchFlies(e: Engine, choice: Choice, leased: bool)
    requires ChoiceOk(e, choice) && e.flight.None?
    ensures var (t, batch) := Launch(e, choice, leased);
            && (t.flight.Some? <==> batch.Ok? && batch.value.Some?)
            && (batch.Ok? && batch.value.None? ==> t.scheduler == map[])
  {
  }

  /** Failing all requests after an error leaves none, whatever came in since the error. */
  lemma FailRestKeepsOk(m: Machine)
    requires MachineOk(m) && m.driver.Failing?
    ensures MachineOk(FailRest(m)) && FailRest(m).engine.states == map[] && FailRest(m).driver.Ending?
  {
    hide Core, FlightOk, FailAll;
    FailAllKeepsInv(m.engine);
  }

  lemma AbandonKeepsOk(m: Machine)
    requires MachineOk(m) && m.engine.flight.Some?
    ensures MachineOk(Abandon(m)) && Idle(Abandon(m).engine) && Abandon(m).engine.states == m.engine.states
    ensures Abandon(m).driver.Failing?
  {
    hide Core, FlightOk, FinishExecution;
    FinishIsIdle(m.engine);
  }

  lemma EndKeepsOk(m: Machine)
    requires MachineOk(m) && m.driver.Ending?
    ensures MachineOk(End(m)) && End(m).engine == m.engine
    ensures End(m).driver == if m.engine.scheduler == map[] then Absent else Running
  {
    CoreKeys(m.engine);
    if m.engine.scheduler == map[] { assert m.engine.states == map[]; }
    if m.engine.closed { IdleScheduler(m.engine); }
  }

  lemma IdleScheduler(e: Engine)
    requires Idle(e)
    ensures e.pending == {} && e.scheduler.Keys == e.states.Keys
  {
  }

  lemma AdmitKeepsOk(m: Machine, ask: Ask, prompt: seq<Token>, admitted: bool, answer: Answer)
    requires MachineOk(m)
    ensures MachineOk(Admit(m, ask, prompt, admitted, answer).0)
  {
    hide Inv, Register;
    RegisterKeepsInv(m.engine, ask, prompt, admitted, answer);
    RegisterRefused(m.engine, ask, prompt, admitted, answer);
  }

  lemma CancelKeepsOk(m: Machine, id: RequestId)
    requires MachineOk(m)
    ensures MachineOk(m.(engine := CancelRequest(m.engine, id)))
  {
    hide Inv, CancelRequest;
    CancelKeepsInv(m.engine, id);
  }

  lemma CloseKeepsOk(m: Machine)
    requires MachineOk(m)
    ensures MachineOk(m.(engine := Close(m.engine)))
  {
    hide Inv, Close;
    CloseKeepsInv(m.engine);
  }

  lemma ApplyKeepsOk(m: Machine, op: Op)
    requires MachineOk(m) && Possible(m, op)
    ensures MachineOk(Apply(m, op))
  {
    hide Inv, Core, FlightOk, Settled, ChoiceOk, Admit, CancelRequest, Close, Advance, Abandon, FailRest, End,
         MachineOk;
    match op
    case DoRegister(ask, prompt, admitted, answer) => AdmitKeepsOk(m, ask, prompt, admitted, answer);
    case DoCancel(id) => CancelKeepsOk(m, id);
    case DoClose => CloseKeepsOk(m);
    case DoAdvance(outcome, choice, leased) => AdvanceKeepsOk(m, outcome, choice, leased);
    case DoAbandon => AbandonKeepsOk(m);
    case DoFailRest => FailRestKeepsOk(m);
    case DoEnd => EndKeepsOk(m);
  }

  /** The next number is unused everywhere. */
  lemma FreshId(e: Engine)
    requires Inv(e)
    ensures e.nextId !in e.states && e.nextId !in e.held && e.nextId !in e.scheduler
  {
  }

  /** A registration that fails leaves nothing of the request behind, but one that was admitted has
      used up its number. */
  lemma RegisterRefused(e: Engine, ask: Ask, prompt: seq<Token>, admitted: bool, answer: Answer)
    ensures var (t, r) := Register(e, ask, prompt, admitted, answer);
            r.Err? ==> t == if e.closed || !admitted then e else e.(nextId := e.nextId + 1)
  {
  }

  /** The states an engine can reach, with the operations that lead there. */
  ghost predicate RunOf(states: seq<Machine>, ops: seq<Op>) {
    && |states| == |ops| + 1 && states[0] == Off()
    && forall i | 0 <= i < |ops| :: Possible(states[i], ops[i]) && states[i + 1] == Apply(states[i], ops[i])
  }

  lemma {:induction false} RunKeepsOk(states: seq<Machine>, ops: seq<Op>, i: nat)
    requires RunOf(states, ops) && i < |states|
    ensures MachineOk(states[i])
  {
    hide MachineOk, Possible, Apply;
    if i == 0 {
      EmptyOk();
    } else {
      RunKeepsOk(states, ops, i - 1);
      ApplyKeepsOk(states[i - 1], ops[i - 1]);
    }
  }

  lemma EmptyOk()
    ensures MachineOk(Off())
  {
    EmptyInv();
    hide Inv;
  }

  lemma EmptyInv()
    ensures Inv(Empty())
  {
  }

  // ---- what it means -----------------------------------------------------------------------

  /** In-flight safety, over every interleaving: the scheduler holds exactly the live requests
      and those waiting for the step in flight, the executor exactly the live ones; a request
      that is executing is still scheduled; every registered request is scheduled or was removed,
      never both and never twice; with no step in flight nothing waits; and whenever something is
      scheduled, a driver is there to go on. */
  lemma InFlightSafety(states: seq<Machine>, ops: seq<Op>, i: nat)
    requires RunOf(states, ops) && i < |states|
    ensures var e := states[i].engine;
            && (forall id :: id in e.scheduler <==> id in e.states || id in e.pending)
            && (forall id | id in e.pending :: id !in e.states && id in e.executing)
            && (forall id | id in e.executing :: id in e.scheduler)
            && (forall id | id in e.channels :: multiset(e.removed)[id] == if id in e.scheduler then 0 else 1)
            && (e.flight.None? ==> e.executing == {} && e.pending == {} && e.scheduler.Keys == e.states.Keys)
            && e.held == e.states.Keys
            && (e.closed ==> e.states == map[])
            && (states[i].driver.Absent? ==> e.scheduler == map[])
  {
    RunKeepsOk(states, ops, i);
    var e := states[i].engine;
    hide ApplySteps;
    forall id | id in e.channels ensures multiset(e.removed)[id] == if id in e.scheduler then 0 else 1 {
      DistinctOnce(e.removed, id);
    }
    if states[i].driver.Absent? { IdleScheduler(e); }
  }

  lemma {:induction false} DistinctOnce(s: seq<RequestId>, x: RequestId)
    requires NoDup(s)
    ensures multiset(s)[x] == if x in s then 1 else 0
  {
    if s != [] {
      var last := |s| - 1;
      DistinctOnce(s[..last], x);
      assert s == s[..last] + [s[last]];
    }
  }

  /** While a step is in flight, neither registration, cancellation nor closing takes one of
      its requests from the scheduler or changes its progress. */
  lemma ExecutingIsKept(m: Machine, op: Op, id: RequestId)
    requires Inv(m.engine) && id in m.engine.executing && (op.DoRegister? || op.DoCancel? || op.DoClose?)
    ensures var (e, t) := (m.engine, Apply(m, op).engine);
            && id in e.scheduler && id in t.scheduler && t.scheduler[id] == e.scheduler[id]
            && id in t.executing && t.flight == e.flight
  {
    assert id in m.engine.scheduler;
    hide Inv, Core, Register, CancelRequest, Close;
    match op
    case DoRegister(ask, prompt, admitted, answer) => RegisterKeepsInv(m.engine, ask, prompt, admitted, answer);
    case DoCancel(other) => CancelKeepsInv(m.engine, other);
    case DoClose => CloseKeepsInv(m.engine);
  }

  /** Progress never overruns the promise, over every interleaving. */
  lemma ProgressWithinCapacity(states: seq<Machine>, ops: seq<Op>, i: nat, id: RequestId)
    requires RunOf(states, ops) && i < |states| && id in states[i].engine.states
    ensures var e := states[i].engine;
            && id in e.scheduler
            && e.scheduler[id].computed <= e.scheduler[id].known == |e.states[id].tokens| < e.scheduler[id].limit
            && e.scheduler[id].limit == e.states[id].promptLength + e.states[id].ask.maxNewTokens
            && e.states[id].promptLength + e.states[id].generated == |e.states[id].tokens|
  {
    RunKeepsOk(states, ops, i);
    CoreKeys(states[i].engine);
    assert RequestOk(states[i].engine, id);
  }

  /** Every consumer, in every interleaving, sees the tokens its request took in, one event
      each at positions 0, 1, 2, ..., cut at the first end token or at the length limit. A live
      request has no terminal event, one that left without being cancelled has exactly one, at
      the end, and a cancelled one has none. */
  lemma StreamsAreCuts(states: seq<Machine>, ops: seq<Op>, i: nat, id: RequestId)
    requires RunOf(states, ops) && i < |states| && id in states[i].engine.channels
    ensures var e := states[i].engine;
            var ch := e.channels[id];
            var all := Concat(ch.steps);
            var p := ApplySteps(ch.ask, Start(), ch.steps);
            var n := |p.generated|;
            && n <= |all| && (forall k: nat | k < n :: !StopsAt(ch.ask, all, k))
            && (p.reason.Some? <==> StopsAt(ch.ask, all, n))
            && (p.reason.None? ==> n == |all|)
            && (if id in e.states || ch.cancelled then p.reason.None? && ch.events == TokenEvents(all, 0)
                else if p.reason.Some? then ch.events == TokenEvents(all[..n], 0) + [Finished(p.reason.value)]
                else ch.events == TokenEvents(all, 0) + [Failed])
            && (ch.cancelled ==> id !in e.states)
  {
    RunKeepsOk(states, ops, i);
    assert ChannelOk(states[i].engine, id);
    var ch := states[i].engine.channels[id];
    StreamIsCut(ch.ask, ch.steps);
    hide ApplySteps, Core, TokenEvents, StopsAt;
    var all := Concat(ch.steps);
    assert all[..|all|] == all;
    assert TokenEvents(all, 0) + [] == TokenEvents(all, 0);
  }
}
