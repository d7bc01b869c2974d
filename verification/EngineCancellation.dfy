/** Who marks a consumer as gone: only a cancellation that finds its request live. So a consumer
    that stays is sent exactly one terminal event when its request leaves. */
module EngineCancellation {
  import opened Collections
  import opened Stream
  import opened EngineState
  import opened EngineRuns

  /** Channels stay, with their marks, and new ones are not marked. */
  ghost predicate MarksKept(e: Engine, t: Engine) {
    && (forall id | id in e.channels :: id in t.channels && t.channels[id].cancelled == e.channels[id].cancelled)
    && (forall id | id in t.channels && id !in e.channels :: !t.channels[id].cancelled)
  }

  lemma {:induction false} FailEachKeepsMarks(e: Engine, ids: seq<RequestId>)
    ensures MarksKept(e, FailEach(e, ids))
    decreases |ids|
  {
    if ids != [] { FailEachKeepsMarks(FailOne(e, ids[0]), ids[1..]); }
  }

  lemma {:induction false} FinishEachKeepsMarks(e: Engine, ids: seq<RequestId>)
    ensures MarksKept(e, FinishEach(e, ids))
    decreases |ids|
  {
    if ids != [] { FinishEachKeepsMarks(FinishOne(e, ids[0]), ids[1..]); }
  }

  lemma {:induction false} ApplyEachKeepsMarks(e: Engine, items: seq<Planned>, results: Results)
    requires forall i | 0 <= i < |items| :: items[i].id in results
    ensures MarksKept(e, ApplyEach(e, items, results).0)
    decreases |items|
  {
    hide Completed, VisibleOf, ReasonOf, TokenEvents;
    if items != [] {
      ApplyEachKeepsMarks(ApplyOne(e, items[0].id, results[items[0].id]).0, items[1..], results);
    }
  }

  lemma SettleKeepsMarks(e: Engine, outcome: Outcome)
    requires e.flight.Some?
    ensures MarksKept(e, Settle(e, outcome).0)
  {
    hide OutputOk, ApplyEach, FailEach, FinishEach;
    var items := e.flight.value;
    var idle := FinishExecution(e);
    FinishEachKeepsMarks(e.(flight := None), Ids(items));
    FailEachKeepsMarks(idle, Ids(items));
    if outcome.Succeeded? && OutputOk(items, outcome.results, outcome.modelTokens) {
      ResultsCover(items, outcome.results, outcome.modelTokens);
      ApplyEachKeepsMarks(idle, items, outcome.results);
    }
  }

  lemma RegisterKeepsMarks(e: Engine, ask: Ask, prompt: seq<Token>, admitted: bool, answer: Answer)
    requires Inv(e)
    ensures MarksKept(e, Register(e, ask, prompt, admitted, answer).0)
  {
    hide ChannelOk, RequestOk, FlightOk;
    RegisterStructure(e, ask, prompt, admitted, answer);
  }

  lemma FailAllKeepsMarks(e: Engine)
    ensures MarksKept(e, FailAll(e)) && MarksKept(e, Close(e))
  {
    hide FailEach, LiveIds;
    FailEachKeepsMarks(e, LiveIds(e, e.nextId));
    var t := e.(closed := true);
    FailEachKeepsMarks(t, LiveIds(t, t.nextId));
  }

  lemma AdvanceKeepsMarks(m: Machine, outcome: Option<Outcome>, choice: Choice, leased: bool)
    requires (outcome.Some? <==> m.engine.flight.Some?) && ChoiceOk(Settled(m.engine, outcome).0, choice)
    ensures MarksKept(m.engine, Advance(m, outcome, choice, leased).0.engine)
  {
    hide Settle, ChoiceOk, BuildBatch, PlannedFor;
    if outcome.Some? { SettleKeepsMarks(m.engine, outcome.value); }
  }

  lemma ApplyKeepsMarks(m: Machine, op: Op)
    requires MachineOk(m) && Possible(m, op) && !op.DoCancel?
    ensures MarksKept(m.engine, Apply(m, op).engine)
  {
    hide Inv, Settled, FailAll, Close, Register, Advance, FinishEach, ChoiceOk, MarksKept;
    var e := m.engine;
    match op
    case DoRegister(ask, prompt, admitted, answer) => RegisterKeepsMarks(e, ask, prompt, admitted, answer);
    case DoClose => FailAllKeepsMarks(e);
    case DoAdvance(outcome, choice, leased) => AdvanceKeepsMarks(m, outcome, choice, leased);
    case DoAbandon => FinishKeepsMarks(e);
    case DoFailRest => FailAllKeepsMarks(e);
    case DoEnd => Unmarked(e);
  }

  lemma FinishKeepsMarks(e: Engine)
    requires e.flight.Some?
    ensures MarksKept(e, FinishExecution(e))
  {
    FinishEachKeepsMarks(e.(flight := None), Ids(e.flight.value));
  }

  lemma Unmarked(e: Engine)
    ensures MarksKept(e, e)
  {
  }

  lemma CancelMarks(m: Machine, id: RequestId)
    requires MachineOk(m)
    ensures var (e, t) := (m.engine, CancelRequest(m.engine, id));
            && (forall other | other in e.channels ::
                  other in t.channels
                  && (t.channels[other].cancelled <==> e.channels[other].cancelled || (other == id && id in e.states)))
            && t.channels.Keys == e.channels.Keys
  {
    CoreKeysOf(m.engine);
  }

  /** A consumer is marked as gone exactly when it cancelled while its request was live. */
  lemma {:induction false} MarkedByCancel(states: seq<Machine>, ops: seq<Op>, i: nat, id: RequestId)
    requires RunOf(states, ops) && i < |states| && id in states[i].engine.channels
    ensures states[i].engine.channels[id].cancelled <==>
              exists k :: 0 <= k < i && ops[k] == DoCancel(id) && id in states[k].engine.states
  {
    hide MachineOk, Possible, Apply;
    if i > 0 {
      var (m, op) := (states[i - 1], ops[i - 1]);
      RunKeepsOk(states, ops, i - 1);
      if op.DoCancel? {
        CancelMarks(m, op.id);
        CancelApplied(m, op.id);
      } else {
        ApplyKeepsMarks(m, op);
        if id !in m.engine.channels { NotLiveBefore(states, ops, i - 1, id); }
      }
      if id in m.engine.channels { MarkedByCancel(states, ops, i - 1, id); }
    }
  }

  lemma CancelApplied(m: Machine, id: RequestId)
    ensures Possible(m, DoCancel(id)) && Apply(m, DoCancel(id)).engine == CancelRequest(m.engine, id)
  {
  }

  /** A request without a channel has not been live at any time before. */
  lemma {:induction false} NotLiveBefore(states: seq<Machine>, ops: seq<Op>, i: nat, id: RequestId)
    requires RunOf(states, ops) && i < |states| && id !in states[i].engine.channels
    ensures forall k | 0 <= k <= i :: id !in states[k].engine.states
  {
    hide MachineOk, Possible, Apply;
    RunKeepsOk(states, ops, i);
    if id in states[i].engine.states { LiveHasChannel(states[i], id); }
    if i > 0 {
      var (m, op) := (states[i - 1], ops[i - 1]);
      RunKeepsOk(states, ops, i - 1);
      if op.DoCancel? {
        CancelMarks(m, op.id);
        CancelApplied(m, op.id);
      } else {
        ApplyKeepsMarks(m, op);
      }
      NotLiveBefore(states, ops, i - 1, id);
    }
  }

  lemma LiveHasChannel(m: Machine, id: RequestId)
    requires MachineOk(m) && id in m.engine.states
    ensures id in m.engine.channels
  {
    CoreKeysOf(m.engine);
  }
}
