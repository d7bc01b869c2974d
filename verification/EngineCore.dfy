/** The engine as the program runs it: fields updated section by section, loops over the
    requests of a step (src/light_vllm/runtime/engine/core.py:233-535). */
module EngineCore {
  import opened Collections
  import opened Stream
  import opened EngineState
  import EngineRuns
  import Scheduling

  class EngineCore {
    var states: map<RequestId, Request>
    var held: set<RequestId>
    var executing: set<RequestId>
    var pending: set<RequestId>
    var scheduler: map<RequestId, Work>
    var channels: map<RequestId, Channel>
    var flight: Option<seq<Planned>>
    var nextId: nat
    var closed: bool
    var driver: Driver
    ghost var removed: seq<RequestId>

    ghost function View(): Engine
      reads this
    {
      Engine(states, held, executing, pending, scheduler, channels, removed, flight, nextId, closed)
    }

    ghost function Whole(): Machine
      reads this
    {
      Machine(View(), driver)
    }

    ghost predicate Valid()
      reads this
    {
      EngineRuns.MachineOk(Whole())
    }

    constructor ()
      ensures Valid() && Whole() == Off()
    {
      states, held, executing, pending, scheduler, channels := map[], {}, {}, {}, map[], map[];
      flight, nextId, closed, removed, driver := None, 0, false, [], Absent;
      new;
      EngineRuns.EmptyOk();
    }

    /** Executor and scheduler take a request, or one of them raises. */
    method HandOver(id: RequestId, ask: Ask, prompt: seq<Token>, answer: Answer) returns (ok: bool)
      modifies this`held, this`scheduler
      ensures ok <==> Accepted(ask, prompt, answer)
      ensures if ok then held == old(held) + {id} else old(held) <= held <= old(held) + {id}
      ensures var work := Scheduling.Progress(|prompt|, 0, |prompt| + ask.maxNewTokens);
              scheduler == if ok then old(scheduler)[id := work] else old(scheduler)
    {
      if answer.ExecutorRaises? {
        if answer.noted { held := held + {id}; }
        return false;
      }
      held := held + {id};
      if !Accepted(ask, prompt, answer) { return false; }
      scheduler := scheduler[id := Scheduling.Progress(|prompt|, 0, |prompt| + ask.maxNewTokens)];
      ok := true;
    }

    /** The request enters the table first; if executor or scheduler raises, all of it is undone. */
    method AddRequest(ask: Ask, prompt: seq<Token>, admitted: bool, answer: Answer)
      returns (r: Result<RequestId, EngineError>)
      requires Valid()
      modifies this
      ensures Valid() && (Whole(), r) == Admit(old(Whole()), ask, prompt, admitted, answer)
    {
      hide EngineRuns.Inv;
      EngineRuns.AdmitKeepsOk(Whole(), ask, prompt, admitted, answer);
      EngineRuns.FreshId(View());
      if closed { return Err(Closed); }
      if !admitted { return Err(NotAdmitted); }
      var id := nextId;
      nextId := nextId + 1;
      states := states[id := Request(ask, |prompt|, prompt, 0)];
      var ok := HandOver(id, ask, prompt, answer);
      if !ok {
        held := held - {id};
        UnscheduleRequest(id);
        states := states - {id};
        assert states == old(states) && held == old(held);
        return Err(AddFailed);
      }
      channels := channels[id := Channel(ask, [], [], false)];
      if driver.Absent? { driver := Running; }
      r := Ok(id);
    }

    // ---- leaving ---------------------------------------------------------------------------

    method UnscheduleRequest(id: RequestId)
      modifies this`scheduler, this`removed
      ensures View() == Unschedule(old(View()), id)
    {
      if id in scheduler {
        scheduler := scheduler - {id};
        removed := removed + [id];
      }
    }

    method RemoveRequest(id: RequestId) returns (found: bool)
      modifies this`states, this`held, this`pending, this`scheduler, this`removed
      ensures View() == Remove(old(View()), id) && (found <==> id in old(states))
    {
      found := id in states;
      if found {
        states := states - {id};
        if id in executing {
          pending := pending + {id};
        } else {
          UnscheduleRequest(id);
        }
        held := held - {id};
      }
    }

    method Put(id: RequestId, event: Event)
      requires id in channels
      modifies this`channels
      ensures View() == Notify(old(View()), id, event)
    {
      channels := channels[id := channels[id].(events := channels[id].events + [event])];
    }

    method Cancel(id: RequestId)
      requires Valid()
      modifies this
      ensures Valid() && Whole() == old(Whole()).(engine := CancelRequest(old(View()), id))
    {
      hide EngineRuns.Inv;
      EngineRuns.CancelKeepsInv(View(), id);
      EngineRuns.CoreKeysOf(View());
      var found := RemoveRequest(id);
      if found { channels := channels[id := channels[id].(cancelled := true)]; }
    }

    method FailRequests(ids: seq<RequestId>)
      requires forall id | id in states :: id in channels
      modifies this`states, this`held, this`pending, this`scheduler, this`removed, this`channels
      ensures View() == FailEach(old(View()), ids)
    {
      for i := 0 to |ids|
        invariant forall id | id in states :: id in channels
        invariant FailEach(View(), ids[i..]) == FailEach(old(View()), ids)
      {
        assert ids[i..][0] == ids[i] && ids[i..][1..] == ids[i + 1..];
        ghost var before := View();
        var found := RemoveRequest(ids[i]);
        if found { Put(ids[i], Failed); }
        assert View() == FailOne(before, ids[i]);
      }
    }

    /** Every live request, in the order they registered. */
    method FailEverything()
      requires forall id | id in states :: id in channels
      modifies this`states, this`held, this`pending, this`scheduler, this`removed, this`channels
      ensures View() == FailAll(old(View()))
    {
      var ids: seq<RequestId> := [];
      for id := 0 to nextId
        invariant View() == old(View()) && ids == LiveIds(View(), id)
      {
        if id in states { ids := ids + [id]; }
      }
      FailRequests(ids);
    }

    method Shutdown()
      requires Valid()
      modifies this
      ensures Valid() && Whole() == old(Whole()).(engine := Close(old(View())))
    {
      hide EngineRuns.Inv;
      EngineRuns.CloseKeepsInv(View());
      EngineRuns.CoreKeysOf(View());
      if !closed {
        closed := true;
        FailEverything();
      }
    }

    // ---- one step --------------------------------------------------------------------------

    method FinishStep()
      requires flight.Some?
      modifies this`flight, this`executing, this`pending, this`scheduler, this`removed
      ensures View() == FinishExecution(old(View()))
    {
      var ids := Ids(flight.value);
      flight := None;
      ghost var landed := View();
      for i := 0 to |ids|
        invariant FinishEach(View(), ids[i..]) == FinishEach(landed, ids)
      {
        assert ids[i..][0] == ids[i] && ids[i..][1..] == ids[i + 1..];
        ghost var before := View();
        executing := executing - {ids[i]};
        if ids[i] in pending {
          pending := pending - {ids[i]};
          UnscheduleRequest(ids[i]);
        }
        assert View() == FinishOne(before, ids[i]);
      }
    }

    /** One event for each visible token, at its position. */
    static method Announced(queue: seq<Event>, visible: seq<Token>, position: nat) returns (events: seq<Event>)
      ensures events == queue + TokenEvents(visible, position)
    {
      events := queue;
      for k := 0 to |visible|
        invariant events == queue + TokenEvents(visible[..k], position)
      {
        events := events + [TokenGenerated(visible[k], position + k)];
        assert TokenEvents(visible[..k + 1], position)
            == TokenEvents(visible[..k], position) + [TokenGenerated(visible[k], position + k)];
      }
      assert visible[..|visible|] == visible;
    }

    method ApplyRequest(id: RequestId, result: Scheduling.StepResult) returns (ok: bool)
      modifies this`states, this`held, this`pending, this`scheduler, this`removed, this`channels
      ensures (View(), ok) == ApplyOne(old(View()), id, result)
    {
      hide TokenEvents, Cut, EndOf;
      if id !in states { return true; }
      if id !in scheduler || id !in channels { return false; }
      var st := states[id];
      var visible, reason := VisibleTokens(st.ask, st.generated, result.outputs);
      assert visible == VisibleOf(st, result);
      var work := Scheduling.Complete(scheduler[id], Scheduling.Committed(result, |visible|), |visible|);
      if work.Err? { return false; }
      ghost var shown := Shown(View(), id, result);
      var ch := channels[id];
      var events := Announced(ch.events, visible, st.generated);
      scheduler := scheduler[id := work.value];
      states := states[id := st.(tokens := st.tokens + visible, generated := st.generated + |visible|)];
      channels := channels[id := ch.(events := events, steps := ch.steps + [result.outputs])];
      assert View() == shown;
      if reason.Some? {
        var _ := RemoveRequest(id);
        Put(id, Finished(reason.value));
      }
      ok := true;
    }

    method ApplyOutputs(items: seq<Planned>, results: Results) returns (ok: bool)
      requires forall i | 0 <= i < |items| :: items[i].id in results
      modifies this`states, this`held, this`pending, this`scheduler, this`removed, this`channels
      ensures (View(), ok) == ApplyEach(old(View()), items, results)
    {
      for i := 0 to |items|
        invariant ApplyEach(View(), items[i..], results) == ApplyEach(old(View()), items, results)
      {
        assert items[i..][0] == items[i] && items[i..][1..] == items[i + 1..];
        ghost var before := View();
        ok := ApplyRequest(items[i].id, results[items[i].id]);
        assert (View(), ok) == ApplyOne(before, items[i].id, results[items[i].id]);
        if !ok { return; }
      }
      ok := true;
    }

    method TakeIn(outcome: Outcome) returns (ok: bool)
      requires EngineRuns.Inv(View()) && flight.Some?
      modifies this`flight, this`executing, this`states, this`held, this`pending, this`scheduler, this`removed,
               this`channels
      ensures (View(), ok) == Settle(old(View()), outcome)
    {
      var items := flight.value;
      EngineRuns.FinishIsIdle(View());
      FinishStep();
      EngineRuns.CoreKeysOf(View());
      if outcome.Succeeded? && OutputOk(items, outcome.results, outcome.modelTokens) {
        EngineRuns.ResultsCover(items, outcome.results, outcome.modelTokens);
        ok := ApplyOutputs(items, outcome.results);
      } else {
        FailRequests(Ids(items));
        ok := true;
      }
    }

    method BuildInputs(items: seq<Planned>) returns (r: Result<seq<seq<Token>>, EngineError>)
      ensures r == BuildBatch(View(), items)
    {
      var inputs: seq<seq<Token>> := [];
      for i := 0 to |items|
        invariant BuildBatch(View(), items[i..]).Err? ==> BuildBatch(View(), items) == BuildBatch(View(), items[i..])
        invariant BuildBatch(View(), items[i..]).Ok? ==>
                    && BuildBatch(View(), items).Ok?
                    && BuildBatch(View(), items).value == inputs + BuildBatch(View(), items[i..]).value
      {
        assert items[i..][0] == items[i] && items[i..][1..] == items[i + 1..];
        var input := SliceInput(items[i]);
        if input.Err? { return Err(input.error); }
        if BuildBatch(View(), items[i + 1..]).Ok? {
          assert inputs + BuildBatch(View(), items[i..]).value
                 == inputs + [input.value] + BuildBatch(View(), items[i + 1..]).value;
        }
        inputs := inputs + [input.value];
      }
      assert inputs == BuildBatch(View(), items).value;
      r := Ok(inputs);
    }

    method SliceInput(item: Planned) returns (r: Result<seq<Token>, EngineError>)
      ensures r == InputOf(View(), item)
    {
      if item.id !in states { return Err(StepBroken); }
      var tokens := states[item.id].tokens;
      if item.computed + item.plan.scheduled > |tokens| { return Err(StepBroken); }
      r := Ok(tokens[item.computed..item.computed + item.plan.scheduled]);
    }

    /** Schedule, build the batch and acquire its lease. */
    method LaunchStep(choice: Choice, leased: bool) returns (r: Result<Option<seq<seq<Token>>>, EngineError>)
      requires ChoiceOk(View(), choice)
      modifies this`scheduler, this`executing, this`flight
      ensures (View(), r) == Launch(old(View()), choice, leased)
    {
      if scheduler == map[] { return Ok(None); }
      if choice.Raises? { return Err(NothingScheduled); }
      scheduler := map id | id in scheduler :: scheduler[id].(computed := choice.computed[id]);
      ghost var ready := Rescheduled(old(View()), choice.computed);
      assert View() == ready;
      ghost var planned := EngineRuns.PickedItems(old(View()), choice);
      var items: seq<Planned> := [];
      for i := 0 to |choice.picks|
        invariant View() == ready && items == planned[..i]
      {
        var pick := choice.picks[i];
        var work := scheduler[pick.id];
        items := items + [Planned(pick.id, work.computed,
                                  Scheduling.PlanStep(work, choice.budget, pick.tokenBudget, pick.firstOutput))];
      }
      assert items == planned;
      var batch := BuildInputs(items);
      if batch.Err? { return Err(batch.error); }
      if !leased { return Err(StepBroken); }
      executing := executing + set id | id in Ids(items);
      flight := Some(items);
      r := Ok(Some(batch.value));
    }

    // ---- the driver ------------------------------------------------------------------------

    /** One driver turn: take in the completed step, launch the next one. */
    method Turn(outcome: Option<Outcome>, choice: Choice, leased: bool)
      returns (r: Result<Option<seq<seq<Token>>>, EngineError>)
      requires Valid() && driver.Running? && (outcome.Some? <==> flight.Some?)
      requires ChoiceOk(Settled(View(), outcome).0, choice)
      modifies this
      ensures Valid() && (Whole(), r) == Advance(old(Whole()), outcome, choice, leased)
    {
      hide EngineRuns.Core, EngineRuns.FlightOk, Settle, Launch, ChoiceOk;
      EngineRuns.AdvanceKeepsOk(Whole(), outcome, choice, leased);
      if outcome.Some? {
        var ok := TakeIn(outcome.value);
        assert ok;
      }
      r := LaunchStep(choice, leased);
      driver := if r.Err? then Failing else if r.value.None? then Ending else Running;
    }

    /** The step escaped with an error, or its lease could not be released. */
    method AbandonStep()
      requires Valid() && driver.Running? && flight.Some?
      modifies this
      ensures Valid() && Whole() == Abandon(old(Whole()))
    {
      hide EngineRuns.Inv;
      EngineRuns.AbandonKeepsOk(Whole());
      FinishStep();
      driver := Failing;
    }

    /** The handler of an error that left the driver: every live request fails, those that came
        in after the error too. */
    method FailLive()
      requires Valid() && driver.Failing?
      modifies this
      ensures Valid() && Whole() == FailRest(old(Whole()))
    {
      hide EngineRuns.Inv;
      EngineRuns.FailRestKeepsOk(Whole());
      EngineRuns.CoreKeysOf(View());
      FailEverything();
      driver := Ending;
    }

    /** The driver is done; requests that came in meanwhile get a new one. */
    method EndDriver()
      requires Valid() && driver.Ending?
      modifies this
      ensures Valid() && Whole() == End(old(Whole()))
    {
      hide EngineRuns.Inv;
      EngineRuns.EndKeepsOk(Whole());
      driver := Absent;
      if scheduler != map[] && !closed { driver := Running; }
    }
  }
}
