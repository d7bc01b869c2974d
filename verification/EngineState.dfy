/** The engine's step machine: schedule, execute, update, with registration, cancellation,
    failure and closing in between (src/light_vllm/runtime/engine/core.py:233-535). Each
    function is one section under the engine lock; the scheduler is a table of progress, and
    what it and the executor decide are parameters. */
module EngineState {
  import opened Collections
  import opened Stream
  import Scheduling

  /** Requests are numbered in the order they register. */
  type RequestId = nat

  type Work = Scheduling.Progress

  datatype Request = Request(ask: Ask, promptLength: nat, tokens: seq<Token>, generated: nat)

  /** The event queue of a request, and as history the outputs the engine took in for it and
      whether its consumer walked away. */
  datatype Channel = Channel(ask: Ask, events: seq<Event>, steps: seq<seq<Token>>, cancelled: bool)

  datatype Planned = Planned(id: RequestId, computed: nat, plan: Scheduling.Plan)

  /** `held` are the requests the executor keeps a cache for. */
  datatype Engine = Engine(
    states: map<RequestId, Request>,
    held: set<RequestId>,
    executing: set<RequestId>,
    pending: set<RequestId>,
    scheduler: map<RequestId, Work>,
    channels: map<RequestId, Channel>,
    removed: seq<RequestId>,
    flight: Option<seq<Planned>>,
    nextId: nat,
    closed: bool)

  datatype EngineError = Closed | NotAdmitted | AddFailed | NothingScheduled | StepBroken

  function Empty(): Engine {
    Engine(map[], {}, {}, {}, map[], map[], [], None, 0, false)
  }

  function Ids(items: seq<Planned>): (ids: seq<RequestId>)
    ensures |ids| == |items| && forall i | 0 <= i < |items| :: ids[i] == items[i].id
  {
    seq(|items|, i requires 0 <= i < |items| => items[i].id)
  }

  // ---- registration ------------------------------------------------------------------------

  /** How executor and scheduler answer a new request; the executor may fail after it has noted
      the request. */
  datatype Answer = Taken | ExecutorRaises(noted: bool) | SchedulerRaises

  /** The scheduler refuses an empty prompt and a request for no token. */
  predicate Accepted(ask: Ask, prompt: seq<Token>, answer: Answer) {
    answer.Taken? && prompt != [] && ask.maxNewTokens > 0
  }

  /** `admitted` is what readiness and admission decide. A registration that fails leaves nothing
      of the request behind, but uses up its number. */
  function Register(e: Engine, ask: Ask, prompt: seq<Token>, admitted: bool, answer: Answer)
    : (Engine, Result<RequestId, EngineError>)
  {
    if e.closed then (e, Err(Closed))
    else if !admitted then (e, Err(NotAdmitted))
    else if !Accepted(ask, prompt, answer) then (e.(nextId := e.nextId + 1), Err(AddFailed))
    else
      (e.(states := e.states[e.nextId := Request(ask, |prompt|, prompt, 0)],
          held := e.held + {e.nextId},
          scheduler := e.scheduler[e.nextId := Scheduling.Progress(|prompt|, 0, |prompt| + ask.maxNewTokens)],
          channels := e.channels[e.nextId := Channel(ask, [], [], false)],
          nextId := e.nextId + 1),
       Ok(e.nextId))
  }

  // ---- leaving -----------------------------------------------------------------------------

  /** The scheduler forgets a request; a second time has no effect. */
  function Unschedule(e: Engine, id: RequestId): Engine {
    if id !in e.scheduler then e else e.(scheduler := e.scheduler - {id}, removed := e.removed + [id])
  }

  /** A request leaves the engine at once, but the scheduler keeps it while its step runs. */
  function Remove(e: Engine, id: RequestId): Engine {
    if id !in e.states then e else
      var gone := e.(states := e.states - {id}, held := e.held - {id});
      if id in e.executing then gone.(pending := gone.pending + {id}) else Unschedule(gone, id)
  }

  function Notify(e: Engine, id: RequestId, event: Event): Engine
    requires id in e.channels
  {
    e.(channels := e.channels[id := e.channels[id].(events := e.channels[id].events + [event])])
  }

  /** The consumer walks away; a request that has left already is not touched. */
  function CancelRequest(e: Engine, id: RequestId): Engine {
    if id !in e.states || id !in e.channels then e else
      var gone := Remove(e, id);
      gone.(channels := gone.channels[id := gone.channels[id].(cancelled := true)])
  }

  function FailOne(e: Engine, id: RequestId): Engine {
    if id !in e.states || id !in e.channels then e else Notify(Remove(e, id), id, Failed)
  }

  function FailEach(e: Engine, ids: seq<RequestId>): Engine
    decreases |ids|
  {
    if ids == [] then e else FailEach(FailOne(e, ids[0]), ids[1..])
  }

  /** The live requests in the order they registered. */
  function LiveIds(e: Engine, n: nat): seq<RequestId> {
    if n == 0 then [] else LiveIds(e, n - 1) + if n - 1 in e.states then [n - 1] else []
  }

  function FailAll(e: Engine): Engine {
    FailEach(e, LiveIds(e, e.nextId))
  }

  function Close(e: Engine): Engine {
    if e.closed then e else FailAll(e.(closed := true))
  }

  // ---- the end of a step -------------------------------------------------------------------

  function FinishOne(e: Engine, id: RequestId): Engine {
    var idle := e.(executing := e.executing - {id});
    if id in e.pending then Unschedule(idle.(pending := idle.pending - {id}), id) else idle
  }

  function FinishEach(e: Engine, ids: seq<RequestId>): Engine
    decreases |ids|
  {
    if ids == [] then e else FinishEach(FinishOne(e, ids[0]), ids[1..])
  }

  /** The step in flight is over: its requests are idle, and those that left meanwhile go. */
  function FinishExecution(e: Engine): Engine
    requires e.flight.Some?
  {
    FinishEach(e.(flight := None), Ids(e.flight.value))
  }

  /** What a step returned for each of its requests. */
  type Results = map<RequestId, Scheduling.StepResult>

  function MinWork(items: seq<Planned>): nat {
    if items == [] then 0 else items[0].plan.scheduled + MinWork(items[1..])
  }

  function MaxWork(items: seq<Planned>): nat {
    if items == [] then 0 else items[0].plan.scheduled + items[0].plan.lookahead + MaxWork(items[1..])
  }

  /** _validated_output. */
  predicate OutputOk(items: seq<Planned>, results: Results, modelTokens: int) {
    && (forall id | id in results :: id in Ids(items)) && (forall id | id in Ids(items) :: id in results)
    && MinWork(items) <= modelTokens <= MaxWork(items)
    && forall i | 0 <= i < |items| :: Scheduling.Validated(items[i].plan, results[items[i].id])
  }

  /** The outputs a consumer gets to see, and whether they end the stream. */
  function VisibleOf(st: Request, result: Scheduling.StepResult): (visible: seq<Token>)
    ensures visible <= result.outputs
  {
    result.outputs[..Cut(st.ask, st.generated, result.outputs)]
  }

  function ReasonOf(st: Request, result: Scheduling.StepResult): Option<FinishReason> {
    EndOf(st.ask, st.generated, VisibleOf(st, result))
  }

  /** scheduler.complete for the visible outputs. */
  function Completed(work: Work, st: Request, result: Scheduling.StepResult): Result<Work, Scheduling.CompleteError> {
    var n := |VisibleOf(st, result)|;
    Scheduling.Complete(work, Scheduling.Committed(result, n), n)
  }

  /** The request after its outputs were committed, appended and shown. */
  function Shown(e: Engine, id: RequestId, result: Scheduling.StepResult): Engine
    requires id in e.states && id in e.scheduler && id in e.channels
    requires Completed(e.scheduler[id], e.states[id], result).Ok?
  {
    var (st, ch) := (e.states[id], e.channels[id]);
    var visible := VisibleOf(st, result);
    e.(scheduler := e.scheduler[id := Completed(e.scheduler[id], st, result).value],
       states := e.states[id := st.(tokens := st.tokens + visible, generated := st.generated + |visible|)],
       channels := e.channels[id := ch.(events := ch.events + TokenEvents(visible, st.generated),
                                       steps := ch.steps + [result.outputs])])
  }

  /** A request whose stream ended leaves with a terminal event. */
  function Leave(e: Engine, id: RequestId, reason: Option<FinishReason>): Engine
    requires id in e.channels
  {
    if reason.None? then e else Notify(Remove(e, id), id, Finished(reason.value))
  }

  /** One request takes in its outputs; one that left meanwhile ignores them. The flag is false
      when the scheduler refuses the commit, which raises. */
  function ApplyOne(e: Engine, id: RequestId, result: Scheduling.StepResult): (Engine, bool) {
    if id !in e.states then (e, true)
    else if id !in e.scheduler || id !in e.channels then (e, false)
    else if Completed(e.scheduler[id], e.states[id], result).Err? then (e, false)
    else (Leave(Shown(e, id, result), id, ReasonOf(e.states[id], result)), true)
  }

  function ApplyEach(e: Engine, items: seq<Planned>, results: Results): (Engine, bool)
    requires forall i | 0 <= i < |items| :: items[i].id in results
    decreases |items|
  {
    if items == [] then (e, true) else
      var (next, ok) := ApplyOne(e, items[0].id, results[items[0].id]);
      if ok then ApplyEach(next, items[1..], results) else (next, false)
  }

  /** How a step ended: its results, or an error of the executor or of validation. */
  datatype Outcome = Succeeded(results: Results, modelTokens: int) | StepFailed

  /** Results that do not pass validation count as a failed step. */
  function Settle(e: Engine, outcome: Outcome): (Engine, bool)
    requires e.flight.Some?
  {
    var items := e.flight.value;
    var idle := FinishExecution(e);
    if outcome.Succeeded? && OutputOk(items, outcome.results, outcome.modelTokens)
    then ApplyEach(idle, items, outcome.results)
    else (FailEach(idle, Ids(items)), true)
  }

  // ---- the start of a step -----------------------------------------------------------------

  /** What the scheduler does in one round: requests may attach to cached prefixes or fall back
      to nothing cached, and some runnable ones are picked with a token budget each. */
  datatype Pick = Pick(id: RequestId, tokenBudget: nat, firstOutput: bool)

  datatype Choice =
    | Raises
    | Picks(computed: map<RequestId, nat>, budget: Scheduling.DecodingBudget, picks: seq<Pick>)

  predicate ChoiceOk(e: Engine, choice: Choice) {
    choice.Picks? ==>
      && choice.computed.Keys == e.scheduler.Keys && choice.budget.maxOutputTokens > 0
      && (forall id | id in e.scheduler :: choice.computed[id] <= e.scheduler[id].known)
      && choice.picks != []
      && (forall i, j | 0 <= i < j < |choice.picks| :: choice.picks[i].id != choice.picks[j].id)
      && (forall i | 0 <= i < |choice.picks| ::
            var pick := choice.picks[i];
            && pick.id in e.scheduler && pick.tokenBudget > 0
            && Scheduling.Runnable(e.scheduler[pick.id].(computed := choice.computed[pick.id])))
  }

  function Rescheduled(e: Engine, computed: map<RequestId, nat>): Engine
    requires computed.Keys == e.scheduler.Keys
  {
    e.(scheduler := map id | id in e.scheduler :: e.scheduler[id].(computed := computed[id]))
  }

  function PlannedFor(e: Engine, budget: Scheduling.DecodingBudget, pick: Pick): Planned
    requires pick.id in e.scheduler && pick.tokenBudget > 0 && budget.maxOutputTokens > 0
    requires Scheduling.Runnable(e.scheduler[pick.id])
  {
    var work := e.scheduler[pick.id];
    Planned(pick.id, work.computed, Scheduling.PlanStep(work, budget, pick.tokenBudget, pick.firstOutput))
  }

  /** The formal input of one scheduled request; it must exist and lie within its tokens. */
  function InputOf(e: Engine, item: Planned): Result<seq<Token>, EngineError> {
    if item.id !in e.states then Err(StepBroken)
    else
      var tokens := e.states[item.id].tokens;
      if item.computed + item.plan.scheduled > |tokens| then Err(StepBroken)
      else Ok(tokens[item.computed..item.computed + item.plan.scheduled])
  }

  function BuildBatch(e: Engine, items: seq<Planned>): Result<seq<seq<Token>>, EngineError>
    decreases |items|
  {
    if items == [] then Ok([]) else
      match InputOf(e, items[0])
      case Err(x) => Err(x)
      case Ok(input) =>
        match BuildBatch(e, items[1..])
        case Err(x) => Err(x)
        case Ok(rest) => Ok([input] + rest)
  }

  /** Schedule and build the next step. `leased` is whether the executor grants its lease. */
  function Launch(e: Engine, choice: Choice, leased: bool): (Engine, Result<Option<seq<seq<Token>>>, EngineError>)
    requires ChoiceOk(e, choice)
  {
    if e.scheduler == map[] then (e, Ok(None))
    else if choice.Raises? then (e, Err(NothingScheduled))
    else
      var ready := Rescheduled(e, choice.computed);
      var items := seq(|choice.picks|,
                       i requires 0 <= i < |choice.picks| => PlannedFor(ready, choice.budget, choice.picks[i]));
      match BuildBatch(ready, items)
      case Err(x) => (ready, Err(x))
      case Ok(batch) =>
        if !leased then (ready, Err(StepBroken))
        else
          (ready.(executing := ready.executing + (set id | id in Ids(items)), flight := Some(items)), Ok(Some(batch)))
  }

  function Settled(e: Engine, outcome: Option<Outcome>): (Engine, bool)
    requires outcome.Some? <==> e.flight.Some?
  {
    if outcome.Some? then Settle(e, outcome.value) else (e, true)
  }

  // ---- the driver --------------------------------------------------------------------------

  /** Where the driver task stands between two sections under the lock: it runs steps, or an
      error is about to fail all requests, or it is about to end. */
  datatype Driver = Absent | Running | Failing | Ending

  datatype Machine = Machine(engine: Engine, driver: Driver)

  /** No request and no driver yet. */
  function Off(): Machine { Machine(Empty(), Absent) }

  /** Registration starts a driver if there is none. */
  function Admit(m: Machine, ask: Ask, prompt: seq<Token>, admitted: bool, answer: Answer)
    : (Machine, Result<RequestId, EngineError>)
  {
    var (e, r) := Register(m.engine, ask, prompt, admitted, answer);
    (Machine(e, if r.Ok? && m.driver.Absent? then Running else m.driver), r)
  }

  /** One turn: take in the completed step, if any, and launch the next one. The driver ends when
      nothing is scheduled; an error leaves the section first and fails the requests later. */
  function Advance(m: Machine, outcome: Option<Outcome>, choice: Choice, leased: bool)
    : (Machine, Result<Option<seq<seq<Token>>>, EngineError>)
    requires outcome.Some? <==> m.engine.flight.Some?
    requires ChoiceOk(Settled(m.engine, outcome).0, choice)
  {
    var (settled, ok) := Settled(m.engine, outcome);
    if !ok then (Machine(settled, Failing), Err(StepBroken)) else
      var (next, batch) := Launch(settled, choice, leased);
      (Machine(next, if batch.Err? then Failing else if batch.value.None? then Ending else Running), batch)
  }

  /** The step escaped with an error, or its lease could not be released: the step is over. */
  function Abandon(m: Machine): Machine
    requires m.engine.flight.Some?
  {
    Machine(FinishExecution(m.engine), Failing)
  }

  /** The section that handles an error of the driver. */
  function FailRest(m: Machine): Machine {
    Machine(FailAll(m.engine), Ending)
  }

  /** The driver's last section: another one follows if requests came in meanwhile. */
  function End(m: Machine): Machine {
    m.(driver := if m.engine.scheduler != map[] && !m.engine.closed then Running else Absent)
  }
}
