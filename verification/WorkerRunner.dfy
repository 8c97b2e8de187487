/** The worker loop (worker_runner.py, runner/loop_state.py): what a turn, a compaction and a whole
    loop compute, and the methods that do it on a mutable state. */
module WorkerRunner {
  import opened Common
  import opened Conversation
  import opened Compaction
  import opened WorkerTools
  import opened WorkerTurn

  const SUMMARY_ATTEMPT_LIMIT := 2

  // What a turn's requests to the model come back with, and what they cost; nothing is recorded for a
  // request that raised or whose usage is empty.
  datatype Reply =
    | Calls(text: string, calls: seq<ToolCall>, cost: Option<real>)
    | Final(text: string, cost: Option<real>)
    | ContextLimit(cost: Option<real>)
    | Broken(error: string, cost: Option<real>)

  // The model and the tools behind it; replies may differ from turn to turn.
  datatype Model = Model(
    respond: (seq<Message>, nat) -> Reply,
    summarize: (seq<Message>, nat) -> Option<string>,
    run: (Tool, ToolCall) -> ToolResult,
    turnOf: string -> nat)

  // Call ids are new: `turnOf` tells the turn an id belongs to.
  ghost predicate FreshModel(model: Model) {
    forall ms, t :: model.respond(ms, t).Calls? ==> FreshCalls(model, model.respond(ms, t).calls, t)
  }

  predicate FreshCalls(model: Model, calls: seq<ToolCall>, turn: nat) {
    calls != [] && DistinctIds(calls) && forall c :: c in calls ==> c.id != "" && model.turnOf(c.id) == turn
  }

  datatype Config = Config(
    maxIterations: nat, maxToolCalls: nat, respectContextWindow: bool, maxContextMessages: Option<nat>,
    budget: Option<real>)

  datatype Outcome = Done(text: string) | Waiting(pending: Pending) | FailedRun(error: string)

  // ---- Spending ---------------------------------------------------------------------------------

  function Sum(costs: seq<real>): real
    decreases |costs|
  {
    if costs == [] then 0.0 else Sum(costs[..|costs| - 1]) + costs[|costs| - 1]
  }

  // The cost entry of a metrics dict: missing until a turn is recorded.
  function Tally(costs: seq<real>): Option<real> {
    if costs == [] then None else Some(Sum(costs))
  }

  function Spent(cost: Option<real>): real {
    if cost.Some? then cost.value else 0.0
  }

  lemma {:induction false} TallyOneMore(costs: seq<real>, cost: real)
    ensures Tally(costs + [cost]) == Some(Spent(Tally(costs)) + cost)
  {
    assert (costs + [cost])[..|costs|] == costs;
    assert costs == [] ==> Sum(costs) == 0.0;
  }

  // ---- The loop on values -----------------------------------------------------------------------

  // What a loop works on, and where it stops. `run` lists the cost of every recorded turn of the run
  // so far, `turn` counts all turns.
  datatype Core = Core(messages: seq<Message>, toolCalls: seq<ToolCall>, summaries: nat, executions: seq<Execution>)

  datatype Stop = Stop(outcome: Outcome, core: Core, iteration: nat, run: seq<real>, turn: nat)

  function CoreOf(state: LoopState): Core
    reads state
  {
    Core(state.messages, state.toolCalls, state.contextSummaries, state.executions)
  }

  function Summarized(model: Model, ms: seq<Message>, turn: nat, preserveRecent: bool, limit: Option<nat>)
    : Option<seq<Message>> {
    var s := SummarySplit(ms, preserveRecent, limit);
    if s.head == [] then None
    else
      var summary := model.summarize(s.head, turn);
      if summary.None? then None else Some(Committed(s, summary.value))
  }

  function ContextLimited(model: Model, config: Config, c: Core, turn: nat): (Option<string>, Core) {
    if !config.respectContextWindow then (Some("Context length exceeded."), c)
    else
      var summarized := Summarized(model, c.messages, turn, false, None);
      if c.summaries >= SUMMARY_ATTEMPT_LIMIT || summarized.None? then
        (Some("Context length exceeded after summarization attempts."), c)
      else (None, c.(messages := summarized.value, summaries := c.summaries + 1))
  }

  function Shortened(model: Model, config: Config, ms: seq<Message>, turn: nat): seq<Message> {
    if config.maxContextMessages.Some? && |ms| > config.maxContextMessages.value then
      var summarized := Summarized(model, ms, turn, true, config.maxContextMessages);
      if summarized.Some? then summarized.value else ms
    else ms
  }

  function CallsTaken(model: Model, tools: map<string, Tool>, c: Core, text: string, calls: seq<ToolCall>, max: nat)
    : (ToolPlan, Core) {
    var plan := PlanOf(calls, tools, |c.toolCalls|, max);
    ExecutableHaveTools(calls, tools, |c.toolCalls|, max);
    var results := Results(plan, tools, model.run);
    var recorded := c.toolCalls + calls[..Smaller(|calls|, Room(|c.toolCalls|, max))];
    (plan, c.(messages := c.messages + [AssistantMessage(text, calls)] + Answered(plan.ordered, results),
              toolCalls := ReplacedAll(recorded, plan.ordered, results),
              executions := c.executions + PlannedRuns(plan.executable, tools)))
  }

  function CallsReplied(model: Model, config: Config, tools: map<string, Tool>, c: Core, text: string,
                        calls: seq<ToolCall>)
    : (Option<Outcome>, Core)
  {
    var (plan, after) := CallsTaken(model, tools, c, text, calls, config.maxToolCalls);
    (if plan.exceeded then Some(FailedRun("Max tool calls exceeded"))
     else if plan.pending.Some? then Some(Waiting(plan.pending.value)) else None,
     after)
  }

  function Replied(model: Model, config: Config, tools: map<string, Tool>, c: Core, turn: nat, reply: Reply)
    : (Option<Outcome>, Core) {
    match reply
    case ContextLimit(_) =>
      var (error, after) := ContextLimited(model, config, c, turn + 1);
      (if error.Some? then Some(FailedRun(error.value)) else None, after)
    case Broken(error, _) => (Some(FailedRun(error)), c)
    case Final(text, _) => (Some(Done(text)), c.(messages := c.messages + [AssistantMessage(text, [])]))
    case Calls(text, calls, _) => CallsReplied(model, config, tools, c, text, calls)
  }

  predicate OverBudget(config: Config, run: seq<real>) {
    config.budget.Some? && Sum(run) > config.budget.value
  }

  // One turn: shorten the conversation if asked to, ask the model, and deal with the reply.
  function TurnOf(model: Model, config: Config, tools: map<string, Tool>, c: Core, turn: nat)
    : (Option<Outcome>, Core) {
    var short := c.(messages := Shortened(model, config, c.messages, turn));
    Replied(model, config, tools, short, turn, model.respond(short.messages, turn))
  }

  // What a turn adds to the recorded costs.
  function Billed(cost: Option<real>): seq<real> {
    if cost.Some? then [cost.value] else []
  }

  function CostOf(model: Model, config: Config, c: Core, turn: nat): seq<real> {
    Billed(model.respond(Shortened(model, config, c.messages, turn), turn).cost)
  }

  function LoopOf(model: Model, config: Config, tools: map<string, Tool>, c: Core, iteration: nat, run: seq<real>,
                  turn: nat): Stop
    decreases config.maxIterations - iteration
  {
    if iteration >= config.maxIterations then Stop(FailedRun("Max iterations exceeded"), c, iteration, run, turn)
    else if OverBudget(config, run) then Stop(FailedRun("Cost budget exceeded"), c, iteration + 1, run, turn)
    else
      var (stop, after) := TurnOf(model, config, tools, c, turn);
      var run' := run + CostOf(model, config, c, turn);
      if stop.Some? then Stop(stop.value, after, iteration + 1, run', turn + 1)
      else LoopOf(model, config, tools, after, iteration + 1, run', turn + 1)
  }

  lemma {:induction false} ExecutableHaveTools(calls: seq<ToolCall>, tools: map<string, Tool>, recorded: nat,
          max: nat)
    ensures forall c :: c in PlanOf(calls, tools, recorded, max).executable ==> c.name in tools
  {
    var admitted := calls[..Smaller(|calls|, Room(recorded, max))];
    RunnableSound(admitted[..FirstGated(admitted, tools)], tools);
  }

  // ---- Starting ---------------------------------------------------------------------------------

  // `_build_messages`
  function BuildMessages(initial: seq<Message>, system: Option<string>, input: string): seq<Message> {
    BuildStart(initial, system) + [UserMessage(input)]
  }

  function BuildStart(initial: seq<Message>, system: Option<string>): seq<Message> {
    if system.None? || system.value == "" then initial
    else if initial == [] || initial[0].role != System then [SystemMessage(system.value)] + initial
    else [initial[0].(content := initial[0].content + "\n\n" + system.value)] + initial[1..]
  }

  // ---- The totals of a run ----------------------------------------------------------------------

  // The totals of a run, shared by everything that runs in it.
  class RunTotals {
    var cost: Option<real>
    // history: the cost of every recorded turn of the run
    var turns: seq<real>

    constructor (turns: seq<real>)
      ensures cost == None && this.turns == turns
    {
      cost, this.turns := None, turns;
    }

    /** `restore_totals`: totals that already hold something are left alone. */
    method Restore(stored: Option<real>)
      modifies this`cost
      ensures cost == if old(cost).Some? then old(cost) else stored
    {
      if cost.None? {
        cost := stored;
      }
    }
  }

  // The worker's own metrics and the run's totals each are the sum of their turns.
  ghost predicate Accounted(state: LoopState, totals: RunTotals)
    reads state, totals
  {
    totals.cost == Tally(totals.turns) && state.spent == Tally(state.ownTurns)
  }

  /** `record_turn`: the worker's own metrics and the run's totals both grow by the cost. */
  method RecordTurn(state: LoopState, totals: RunTotals, cost: real)
    requires Accounted(state, totals)
    modifies state`spent, state`ownTurns, totals
    ensures Accounted(state, totals)
    ensures totals.turns == old(totals.turns) + [cost] && state.ownTurns == old(state.ownTurns) + [cost]
  {
    TallyOneMore(totals.turns, cost);
    TallyOneMore(state.ownTurns, cost);
    state.spent, state.ownTurns := Some(Spent(state.spent) + cost), state.ownTurns + [cost];
    totals.cost, totals.turns := Some(Spent(totals.cost) + cost), totals.turns + [cost];
  }

  /** `_record_usage`: a response without usage leaves metrics and totals alone. */
  method RecordUsage(state: LoopState, totals: RunTotals, cost: Option<real>)
    requires Accounted(state, totals)
    modifies state`spent, state`ownTurns, totals
    ensures Accounted(state, totals)
    ensures totals.turns == old(totals.turns) + Billed(cost)
    ensures state.ownTurns == old(state.ownTurns) + Billed(cost)
  {
    if cost.Some? {
      RecordTurn(state, totals, cost.value);
    }
  }

  // ---- The loop in place ------------------------------------------------------------------------

  // The first n messages that are not system messages were replaced by what the model made of them; or
  // nothing changed, because there are none or the model made nothing of them.
  ghost predicate SummaryApplied(model: Model, before: seq<Message>, after: seq<Message>, turn: nat,
                                 preserveRecent: bool, limit: Option<nat>, n: nat) {
    var rest := Filter(before, NotSystem);
    && n <= |rest| && Summarizes(before, preserveRecent, limit, n)
    && var summary := model.summarize(rest[..n], turn);
       if n > 0 && summary.Some? then Compacted(before, after, n, summary.value) else after == before
  }

  lemma {:induction false} SummarizedMeans(model: Model, ms: seq<Message>, turn: nat, preserveRecent: bool,
                                           limit: Option<nat>)
    ensures var summarized := Summarized(model, ms, turn, preserveRecent, limit);
            var s := SummarySplit(ms, preserveRecent, limit);
            && |s.head| <= |Filter(ms, NotSystem)|
            && SummaryApplied(model, ms, if summarized.Some? then summarized.value else ms, turn, preserveRecent, limit,
                              |s.head|)
  {
    var s := SummarySplit(ms, preserveRecent, limit);
    SplitMeans(ms, preserveRecent, limit);
    if s.head != [] && model.summarize(s.head, turn).Some? {
      CommittedMeans(ms, preserveRecent, limit, model.summarize(s.head, turn).value);
    }
  }

  method ApplyContextSummary(model: Model, state: LoopState, turn: nat, preserveRecent: bool, limit: Option<nat>)
    returns (applied: bool)
    modifies state`messages
    ensures var summarized := Summarized(model, old(state.messages), turn, preserveRecent, limit);
            applied == summarized.Some? && state.messages == if applied then summarized.value else old(state.messages)
    ensures exists n: nat :: SummaryApplied(model, old(state.messages), state.messages, turn, preserveRecent, limit, n)
    ensures !applied ==> state.messages == old(state.messages)
  {
    SummarizedMeans(model, state.messages, turn, preserveRecent, limit);
    var s := SummarySplit(state.messages, preserveRecent, limit);
    if s.head == [] {
      return false;
    }
    var summary := model.summarize(s.head, turn);
    if summary.None? {
      return false;
    }
    state.messages := Committed(s, summary.value);
    applied := true;
  }

  /** `handle_context_limit` */
  method HandleContextLimit(model: Model, config: Config, state: LoopState, turn: nat)
    returns (error: Option<string>)
    modifies state`messages, state`contextSummaries
    ensures (error, CoreOf(state)) == ContextLimited(model, config, old(CoreOf(state)), turn)
  {
    if !config.respectContextWindow {
      return Some("Context length exceeded.");
    }
    if state.contextSummaries >= SUMMARY_ATTEMPT_LIMIT {
      return Some("Context length exceeded after summarization attempts.");
    }
    ghost var c := CoreOf(state);
    var applied := ApplyContextSummary(model, state, turn, false, None);
    assert applied == Summarized(model, c.messages, turn, false, None).Some?;
    if !applied {
      return Some("Context length exceeded after summarization attempts.");
    }
    state.contextSummaries := state.contextSummaries + 1;
    error := None;
  }

  /** `_process_turn_response` for a response with tool calls. */
  method ProcessToolCalls(model: Model, config: Config, tools: map<string, Tool>, state: LoopState, text: string,
                          calls: seq<ToolCall>)
    returns (outcome: Option<Outcome>)
    modifies state`messages, state`toolCalls, state`executions
    ensures (outcome, CoreOf(state)) == CallsReplied(model, config, tools, old(CoreOf(state)), text, calls)
  {
    ExecutableHaveTools(calls, tools, |state.toolCalls|, config.maxToolCalls);
    ghost var c := CoreOf(state);
    state.messages := state.messages + [AssistantMessage(text, calls)];
    var plan := state.PlanToolCalls(calls, tools, config.maxToolCalls);
    state.ExecuteToolCalls(plan, tools, model.run);
    assert CoreOf(state) == CallsReplied(model, config, tools, c, text, calls).1;
    if plan.exceeded {
      return Some(FailedRun("Max tool calls exceeded"));
    }
    outcome := if plan.pending.Some? then Some(Waiting(plan.pending.value)) else None;
  }

  method AfterReply(model: Model, config: Config, tools: map<string, Tool>, state: LoopState, turn: nat,
                    reply: Reply)
    returns (stop: Option<Outcome>)
    modifies state`messages, state`toolCalls, state`executions, state`contextSummaries
    ensures (stop, CoreOf(state)) == Replied(model, config, tools, old(CoreOf(state)), turn, reply)
  {
    match reply
    case ContextLimit(_) =>
      var error := HandleContextLimit(model, config, state, turn + 1);
      stop := if error.Some? then Some(FailedRun(error.value)) else None;
    case Broken(error, _) =>
      stop := Some(FailedRun(error));
    case Final(text, _) =>
      state.messages := state.messages + [AssistantMessage(text, [])];
      stop := Some(Done(text));
    case Calls(text, calls, _) =>
      stop := ProcessToolCalls(model, config, tools, state, text, calls);
  }

  method Shorten(model: Model, config: Config, state: LoopState, turn: nat)
    modifies state`messages
    ensures state.messages == Shortened(model, config, old(state.messages), turn)
  {
    if config.maxContextMessages.Some? && |state.messages| > config.maxContextMessages.value {
      var _ := ApplyContextSummary(model, state, turn, true, config.maxContextMessages);
    }
  }

  method TakeTurn(model: Model, config: Config, tools: map<string, Tool>, state: LoopState, totals: RunTotals,
                  turn: nat)
    returns (stop: Option<Outcome>)
    requires Accounted(state, totals)
    modifies state, totals
    ensures Accounted(state, totals) && state.iteration == old(state.iteration)
    ensures (stop, CoreOf(state)) == TurnOf(model, config, tools, old(CoreOf(state)), turn)
    ensures var cost := CostOf(model, config, old(CoreOf(state)), turn);
            totals.turns == old(totals.turns) + cost && state.ownTurns == old(state.ownTurns) + cost
  {
    ghost var c := CoreOf(state);
    Shorten(model, config, state, turn);
    var reply := model.respond(state.messages, turn);
    assert CostOf(model, config, c, turn) == Billed(reply.cost);
    RecordUsage(state, totals, reply.cost);
    stop := AfterReply(model, config, tools, state, turn, reply);
  }

  /** `_arun_loop` */
  method RunLoop(model: Model, config: Config, tools: map<string, Tool>, state: LoopState, totals: RunTotals,
                 first: nat)
    returns (outcome: Outcome, turn: nat, ghost costs: seq<real>)
    requires Accounted(state, totals)
    modifies state, totals
    ensures Accounted(state, totals)
    ensures Stop(outcome, CoreOf(state), state.iteration, totals.turns, turn)
            == LoopOf(model, config, tools, old(CoreOf(state)), old(state.iteration), old(totals.turns), first)
    ensures totals.turns == old(totals.turns) + costs && state.ownTurns == old(state.ownTurns) + costs
  {
    turn, costs := first, [];
    ghost var end := LoopOf(model, config, tools, CoreOf(state), state.iteration, totals.turns, first);
    while state.iteration < config.maxIterations
      invariant Accounted(state, totals)
      invariant totals.turns == old(totals.turns) + costs && state.ownTurns == old(state.ownTurns) + costs
      invariant LoopOf(model, config, tools, CoreOf(state), state.iteration, totals.turns, turn) == end
      decreases config.maxIterations - state.iteration
    {
      ghost var c, run := CoreOf(state), totals.turns;
      state.iteration := state.iteration + 1;
      if config.budget.Some? && Spent(totals.cost) > config.budget.value {
        return FailedRun("Cost budget exceeded"), turn, costs;
      }
      LoopStep(model, config, tools, c, state.iteration - 1, run, turn);
      var stop := TakeTurn(model, config, tools, state, totals, turn);
      ghost var cost := CostOf(model, config, c, turn);
      OneMoreCost(old(totals.turns), costs, cost);
      OneMoreCost(old(state.ownTurns), costs, cost);
      costs := costs + cost;
      turn := turn + 1;
      if stop.Some? {
        return stop.value, turn, costs;
      }
    }
    outcome := FailedRun("Max iterations exceeded");
  }

  lemma {:induction false} OneMoreCost(before: seq<real>, costs: seq<real>, cost: seq<real>)
    ensures (before + costs) + cost == before + (costs + cost)
  {
  }

  lemma {:induction false} LoopStep(model: Model, config: Config, tools: map<string, Tool>, c: Core, iteration: nat,
                                    run: seq<real>, turn: nat)
    requires iteration < config.maxIterations && !OverBudget(config, run)
    ensures var next := TurnOf(model, config, tools, c, turn);
            var run' := run + CostOf(model, config, c, turn);
            LoopOf(model, config, tools, c, iteration, run, turn)
            == if next.0.Some? then Stop(next.0.value, next.1, iteration + 1, run', turn + 1)
               else LoopOf(model, config, tools, next.1, iteration + 1, run', turn + 1)
  {
  }
}
