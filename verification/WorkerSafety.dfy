/** What every run of the worker loop keeps: the pairing of calls and answers, the limits, the gates
    in front of tools, and the budget. */
module WorkerSafety {
  import opened Common
  import opened Conversation
  import opened Compaction
  import opened WorkerTools
  import opened WorkerTurn
  import opened WorkerRunner

  // Calls and answers are paired up to `open`, and every call belongs to an earlier turn.
  ghost predicate Conversing(model: Model, ms: seq<Message>, open: set<string>, turn: nat) {
    && Paired(ms, open) && NonEmptyIds(ms)
    && forall id :: id in ReadAll(EMPTY, ms).declared ==> model.turnOf(id) < turn
  }

  // A tool behind a gate runs only when the pause for that very call is resumed, with an approving
  // decision or with the input put under its key.
  predicate Safe(e: Execution) {
    e.tool.handoff || e.tool.confirm || e.tool.input ==>
      && e.via.Resumed? && e.via.pending.kind == GateKind(e.tool)
      && e.call.id == e.via.pending.call.id && e.tool.name == e.via.pending.call.name
      && (e.tool.confirm && !e.tool.handoff ==> Approved(e.via.decision))
      && (if e.tool.handoff || e.tool.confirm then e.call == e.via.pending.call
          else HasInput(e.call, e.via.pending, e.via.decision))
  }

  // The gate of a tool that has one.
  function GateKind(tool: Tool): Kind {
    if tool.handoff then Handoff else if tool.confirm then Confirmation else UserInput
  }

  // The call is the pending one with the decision under the key that the pause named, and all its other
  // arguments.
  predicate HasInput(call: ToolCall, pending: Pending, decision: Decision) {
    var key := if pending.inputKey.Some? then pending.inputKey.value else "user_input";
    && call == pending.call.(arguments := call.arguments) && key in call.arguments
    && call.arguments[key]
       == (match decision
           case Yes => "True"
           case No => "False"
           case Nothing => "None"
           case Text(text) => text)
    && call.arguments.Keys == pending.call.arguments.Keys + {key}
    && forall k :: k in pending.call.arguments && k != key ==> call.arguments[k] == pending.call.arguments[k]
  }

  predicate AllSafe(es: seq<Execution>) {
    forall e :: e in es ==> Safe(e)
  }

  // Tools that ran since then ran behind their gates, if all the earlier ones did.
  ghost predicate SafeStill(before: seq<Execution>, after: seq<Execution>) {
    before <= after && (AllSafe(before) ==> AllSafe(after))
  }

  // No call is executed twice, and only calls of earlier turns have been.
  predicate OnceEach(model: Model, es: seq<Execution>, turn: nat) {
    && (forall i, j :: 0 <= i < j < |es| ==> es[i].call.id != es[j].call.id)
    && (forall i :: 0 <= i < |es| ==> model.turnOf(es[i].call.id) < turn)
  }

  predicate NotRun(es: seq<Execution>, id: string) {
    forall i :: 0 <= i < |es| ==> es[i].call.id != id
  }

  predicate RecordedCall(calls: seq<ToolCall>, id: string) {
    exists k :: 0 <= k < |calls| && calls[k].id == id
  }

  // Every recorded turn began with no more than the budget spent.
  predicate WithinBudget(costs: seq<real>, budget: Option<real>) {
    budget.Some? ==> forall k :: 0 <= k < |costs| ==> Sum(costs[..k]) <= budget.value
  }

  lemma {:induction false} SpendOneMore(costs: seq<real>, cost: Option<real>, budget: Option<real>)
    requires WithinBudget(costs, budget) && (budget.Some? ==> Sum(costs) <= budget.value)
    ensures WithinBudget(costs + Billed(cost), budget)
  {
    var all := costs + Billed(cost);
    forall k | 0 <= k < |all| && budget.Some?
      ensures Sum(all[..k]) <= budget.value
    {
      assert all[..k] == costs[..k];
      if k == |costs| {
        assert costs[..k] == costs;
      }
    }
  }

  // A paused run: exactly the pending call is open, and its tool is behind the gate that was named.
  ghost predicate WaitsFor(model: Model, tools: map<string, Tool>, ms: seq<Message>, pending: Pending, turn: nat) {
    && Conversing(model, ms, {pending.call.id}, turn)
    && pending.call.name in tools && ActionType(tools[pending.call.name]) == Some(pending.kind)
  }

  // What holds whenever the loop starts a turn.
  ghost predicate Running(model: Model, config: Config, c: Core, iteration: nat, turn: nat) {
    Conversing(model, c.messages, {}, turn) && InLimits(model, config, c, iteration, turn)
  }

  ghost predicate InLimits(model: Model, config: Config, c: Core, iteration: nat, turn: nat) {
    && iteration <= config.maxIterations
    && |c.toolCalls| <= config.maxToolCalls
    && c.summaries <= SUMMARY_ATTEMPT_LIMIT
    && OnceEach(model, c.executions, turn)
  }

  // What every stop of a run guarantees, whether it is the first or comes after resumes.
  ghost predicate Kept(model: Model, config: Config, tools: map<string, Tool>, c: Core, iteration: nat,
                       outcome: Outcome, turn: nat) {
    && InLimits(model, config, c, iteration, turn)
    && (outcome.Done? ==> Conversing(model, c.messages, {}, turn))
    && (outcome.Waiting? ==>
          && WaitsFor(model, tools, c.messages, outcome.pending, turn)
          && RecordedCall(c.toolCalls, outcome.pending.call.id)
          && NotRun(c.executions, outcome.pending.call.id))
  }

  // ---- One turn ---------------------------------------------------------------------------------

  lemma {:induction false} PlainKeeps(model: Model, ms: seq<Message>, turn: nat, text: string)
    requires Conversing(model, ms, {}, turn)
    ensures Conversing(model, ms + [AssistantMessage(text, [])], {}, turn)
  {
    var m := AssistantMessage(text, []);
    LedgerIsPairing(ms, {});
    ReadAppend(EMPTY, ms, [m]);
    ReadOne(ReadAll(EMPTY, ms), m);
    assert Ids([]) == {};
    var l := ReadAll(EMPTY, ms);
    assert l.declared + {} == l.declared && l.open + {} == l.open;
    LedgerIsPairing(ms + [m], {});
  }

  lemma {:induction false} TurnKeeps(model: Model, ms: seq<Message>, turn: nat, text: string, calls: seq<ToolCall>,
                                     tools: map<string, Tool>, recorded: nat, max: nat,
                                     results: map<string, ToolResult>)
    requires Conversing(model, ms, {}, turn) && FreshCalls(model, calls, turn)
    requires !PlanOf(calls, tools, recorded, max).exceeded
    ensures var plan := PlanOf(calls, tools, recorded, max);
            var after := ms + [AssistantMessage(text, calls)] + Answered(plan.ordered, results);
            Conversing(model, after, if plan.pending.Some? then {plan.pending.value.call.id} else {}, turn + 1)
  {
    var plan := PlanOf(calls, tools, recorded, max);
    var answers := Answered(plan.ordered, results);
    forall id | id in Ids(calls)
      ensures id !in ReadAll(EMPTY, ms).declared && model.turnOf(id) == turn
    {
    }
    TurnKeepsPairing(ms, text, calls, tools, recorded, max, results);
    AnswersDeclareNothing(plan.ordered, results);
  }

  lemma {:induction false} AnswersDeclareNothing(calls: seq<ToolCall>, results: map<string, ToolResult>)
    ensures forall m :: m in Answered(calls, results) ==> m.toolCalls == []
    decreases |calls|
  {
    if calls != [] {
      AnswersDeclareNothing(calls[..|calls| - 1], results);
    }
  }

  lemma {:induction false} TurnWaits(model: Model, ms: seq<Message>, turn: nat, text: string, calls: seq<ToolCall>,
                                     tools: map<string, Tool>, recorded: nat, max: nat,
                                     results: map<string, ToolResult>)
    requires Conversing(model, ms, {}, turn) && FreshCalls(model, calls, turn)
    ensures var plan := PlanOf(calls, tools, recorded, max);
            var after := ms + [AssistantMessage(text, calls)] + Answered(plan.ordered, results);
            && Ungated(plan, tools)
            && (!plan.exceeded && plan.pending.None? ==> Conversing(model, after, {}, turn + 1))
            && (!plan.exceeded && plan.pending.Some? ==> WaitsFor(model, tools, after, plan.pending.value, turn + 1))
  {
    PlanIsSafe(calls, tools, recorded, max);
    if !PlanOf(calls, tools, recorded, max).exceeded {
      TurnKeeps(model, ms, turn, text, calls, tools, recorded, max, results);
    }
  }

  lemma {:induction false} RunnableDistinct(calls: seq<ToolCall>, tools: map<string, Tool>)
    requires DistinctIds(calls)
    ensures DistinctIds(Runnable(calls, tools))
    decreases |calls|
  {
    if calls != [] {
      var pre, c := calls[..|calls| - 1], calls[|calls| - 1];
      LastDistinct(calls);
      RunnableDistinct(pre, tools);
      RunnableSound(pre, tools);
      forall d | d in Runnable(pre, tools)
        ensures d.id != c.id
      {
        assert d.id in Ids(pre);
      }
    }
  }

  lemma {:induction false} PlannedRunsAt(calls: seq<ToolCall>, tools: map<string, Tool>, k: nat)
    requires k < |calls| && forall c :: c in calls ==> c.name in tools
    ensures |PlannedRuns(calls, tools)| == |calls| && PlannedRuns(calls, tools)[k].call == calls[k]
    decreases |calls|
  {
    if k < |calls| - 1 {
      PlannedRunsAt(calls[..|calls| - 1], tools, k);
    } else if k > 0 {
      PlannedRunsAt(calls[..|calls| - 1], tools, k - 1);
    }
  }

  // The executions of a plan run each call once, and not the one that is held back.
  lemma {:induction false} PlannedOnce(model: Model, es: seq<Execution>, calls: seq<ToolCall>, plan: ToolPlan,
                                       tools: map<string, Tool>, turn: nat)
    requires OnceEach(model, es, turn) && FreshCalls(model, calls, turn)
    requires Ungated(plan, tools) && DistinctIds(plan.executable)
    requires forall c :: c in plan.executable ==> c in calls
    requires plan.pending.Some? ==> plan.pending.value.call in calls && plan.pending.value.call !in plan.executable
    ensures var all := es + PlannedRuns(plan.executable, tools);
            OnceEach(model, all, turn + 1) && (plan.pending.Some? ==> NotRun(all, plan.pending.value.call.id))
  {
    var runs := PlannedRuns(plan.executable, tools);
    var all := es + runs;
    forall k | 0 <= k < |runs|
      ensures |runs| == |plan.executable| && runs[k].call == plan.executable[k]
    {
      if plan.executable != [] {
        PlannedRunsAt(plan.executable, tools, 0);
        PlannedRunsAt(plan.executable, tools, k);
      }
    }
    forall k | 0 <= k < |runs|
      ensures model.turnOf(runs[k].call.id) == turn
      ensures plan.pending.Some? ==> runs[k].call.id != plan.pending.value.call.id
    {
      assert runs[k].call in plan.executable;
      if plan.pending.Some? {
        SameIdSameCall(calls, runs[k].call, plan.pending.value.call);
      }
    }
    forall i, j | 0 <= i < j < |all|
      ensures all[i].call.id != all[j].call.id
    {
      if i >= |es| {
        assert all[i] == runs[i - |es|] && all[j] == runs[j - |es|];
      } else if j >= |es| {
        assert all[i] == es[i] && all[j] == runs[j - |es|];
      }
    }
  }

  lemma {:induction false} SameIdSameCall(calls: seq<ToolCall>, c: ToolCall, d: ToolCall)
    requires DistinctIds(calls) && c in calls && d in calls && c != d
    ensures c.id != d.id
  {
    var i :| 0 <= i < |calls| && calls[i] == c;
    var j :| 0 <= j < |calls| && calls[j] == d;
    assert i < j || j < i;
  }

  // What the executions and the recorded calls look like after a turn.
  lemma {:induction false} TurnIsSafe(model: Model, calls: seq<ToolCall>, tools: map<string, Tool>, recorded: nat,
                                      max: nat, es: seq<Execution>, turn: nat)
    requires FreshCalls(model, calls, turn) && OnceEach(model, es, turn)
    ensures var plan := PlanOf(calls, tools, recorded, max);
            && Ungated(plan, tools)
            && var all := es + PlannedRuns(plan.executable, tools);
            && SafeStill(es, all) && OnceEach(model, all, turn + 1)
            && (plan.pending.Some? ==> NotRun(all, plan.pending.value.call.id))
  {
    var plan := PlanOf(calls, tools, recorded, max);
    var admitted := calls[..Smaller(|calls|, Room(recorded, max))];
    PlanIsSafe(calls, tools, recorded, max);
    ExecutableIsAdmitted(calls, tools, recorded, max);
    assert forall c :: c in admitted ==> c in calls;
    PlannedOnce(model, es, calls, plan, tools, turn);
  }

  lemma {:induction false} ExecutableIsAdmitted(calls: seq<ToolCall>, tools: map<string, Tool>, recorded: nat,
          max: nat)
    requires DistinctIds(calls)
    ensures var plan := PlanOf(calls, tools, recorded, max);
            && DistinctIds(plan.executable)
            && (forall c :: c in plan.executable ==> c in calls)
            && (plan.pending.Some? ==> plan.pending.value.call in calls && plan.pending.value.call !in plan.executable)
  {
    var n := Smaller(|calls|, Room(recorded, max));
    var admitted := calls[..n];
    var p := FirstGated(admitted, tools);
    var before := admitted[..p];
    assert forall i :: 0 <= i < p ==> before[i] == calls[i];
    RunnableDistinct(before, tools);
    RunnableSound(before, tools);
  }

  lemma {:induction false} IdsKept(all: seq<ToolCall>, updated: ToolCall)
    ensures forall k :: 0 <= k < |all| ==> Replaced(all, updated)[k].id == all[k].id
  {
    if all != [] {
      IdsKept(all[1..], updated);
      forall k | 0 <= k < |all|
        ensures Replaced(all, updated)[k].id == all[k].id
      {
        if k > 0 && all[0].id != updated.id {
          assert all[1..][k - 1] == all[k];
        }
      }
    }
  }

  lemma {:induction false} AllIdsKept(all: seq<ToolCall>, calls: seq<ToolCall>, results: map<string, ToolResult>)
    ensures forall k :: 0 <= k < |all| ==> ReplacedAll(all, calls, results)[k].id == all[k].id
    decreases |calls|
  {
    if calls != [] {
      var c := calls[|calls| - 1];
      var result := ResultFor(c, results);
      AllIdsKept(all, calls[..|calls| - 1], results);
      IdsKept(ReplacedAll(all, calls[..|calls| - 1], results), c.(result := Some(result), error := result.error));
    }
  }

  // A call that is held back has been recorded.
  lemma {:induction false} PendingRecorded(before: seq<ToolCall>, calls: seq<ToolCall>, tools: map<string, Tool>,
                                           max: nat)
    requires |before| <= max
    ensures var n := Smaller(|calls|, Room(|before|, max));
            var plan := PlanOf(calls, tools, |before|, max);
            plan.pending.Some? ==> RecordedCall(before + calls[..n], plan.pending.value.call.id)
  {
    var n := Smaller(|calls|, Room(|before|, max));
    var p := FirstGated(calls[..n], tools);
    if p < n {
      assert (before + calls[..n])[|before| + p] == calls[..n][p];
    }
  }

  lemma {:induction false} Sooner(model: Model, ms: seq<Message>, es: seq<Execution>, turn: nat)
    requires Conversing(model, ms, {}, turn) && OnceEach(model, es, turn)
    ensures Conversing(model, ms, {}, turn + 1) && OnceEach(model, es, turn + 1)
  {
  }

  lemma {:induction false} StillRecorded(before: seq<ToolCall>, after: seq<ToolCall>, plan: ToolPlan)
    requires |before| == |after| && forall k :: 0 <= k < |before| ==> after[k].id == before[k].id
    requires plan.pending.Some? ==> RecordedCall(before, plan.pending.value.call.id)
    ensures plan.pending.Some? ==> RecordedCall(after, plan.pending.value.call.id)
  {
  }

  // ---- From turn to turn ------------------------------------------------------------------------

  lemma {:induction false} SummarizedKeeps(model: Model, ms: seq<Message>, turn: nat, preserveRecent: bool,
                                           limit: Option<nat>, at: nat)
    requires Conversing(model, ms, {}, turn)
    ensures var summarized := Summarized(model, ms, at, preserveRecent, limit);
            summarized.Some? ==> Conversing(model, summarized.value, {}, turn) && |summarized.value| <= |ms|
  {
    var s := SummarySplit(ms, preserveRecent, limit);
    if s.head != [] {
      var summary := model.summarize(s.head, at);
      if summary.Some? {
        CompactionKeepsPairing(ms, preserveRecent, limit, summary.value);
        SummaryNeverLengthens(ms, preserveRecent, limit, summary.value);
      }
    }
  }

  /** A context limit is met with a summary at most twice between two stops, and the conversation
      stays paired and does not grow. */
  lemma {:induction false} ContextLimitedKeeps(model: Model, config: Config, c: Core, iteration: nat, turn: nat)
    requires Running(model, config, c, iteration, turn)
    ensures var (error, after) := ContextLimited(model, config, c, turn);
            && Running(model, config, after, iteration, turn)
            && |after.messages| <= |c.messages|
            && after.summaries == (if error.None? then c.summaries + 1 else c.summaries) <= SUMMARY_ATTEMPT_LIMIT
  {
    SummarizedKeeps(model, c.messages, turn, false, None, turn);
  }

  lemma {:induction false} CallsKeep(model: Model, config: Config, tools: map<string, Tool>, c: Core,
                                     iteration: nat, turn: nat, text: string, calls: seq<ToolCall>)
    requires Running(model, config, c, iteration, turn) && FreshCalls(model, calls, turn)
    ensures var (stop, after) := CallsReplied(model, config, tools, c, text, calls);
            && SafeStill(c.executions, after.executions)
            && (stop.None? ==> Running(model, config, after, iteration, turn + 1))
            && (stop.Some? ==> Kept(model, config, tools, after, iteration, stop.value, turn + 1))
  {
    var recorded, max := |c.toolCalls|, config.maxToolCalls;
    var (plan, after) := CallsTaken(model, tools, c, text, calls, max);
    TurnIsSafe(model, calls, tools, recorded, max, c.executions, turn);
    TurnWaits(model, c.messages, turn, text, calls, tools, recorded, max, Results(plan, tools, model.run));
    PendingRecorded(c.toolCalls, calls, tools, max);
    var all := c.toolCalls + calls[..Smaller(|calls|, Room(recorded, max))];
    AllIdsKept(all, plan.ordered, Results(plan, tools, model.run));
    StillRecorded(all, after.toolCalls, plan);
  }

  lemma {:induction false} RepliedKeeps(model: Model, config: Config, tools: map<string, Tool>, c: Core,
                                        iteration: nat, turn: nat, reply: Reply)
    requires Running(model, config, c, iteration, turn)
    requires reply.Calls? ==> FreshCalls(model, reply.calls, turn)
    ensures var (stop, after) := Replied(model, config, tools, c, turn, reply);
            && SafeStill(c.executions, after.executions)
            && (stop.None? ==> Running(model, config, after, iteration, turn + 1))
            && (stop.Some? ==> Kept(model, config, tools, after, iteration, stop.value, turn + 1))
  {
    Sooner(model, c.messages, c.executions, turn);
    match reply
    case ContextLimit(_) => ContextLimitedKeeps(model, config, c, iteration, turn + 1);
    case Broken(error, _) =>
    case Final(text, _) => PlainKeeps(model, c.messages, turn + 1, text);
    case Calls(text, calls, _) => CallsKeep(model, config, tools, c, iteration, turn, text, calls);
  }

  lemma {:induction false} TurnKeepsAll(model: Model, config: Config, tools: map<string, Tool>, c: Core,
                                        iteration: nat, turn: nat)
    requires FreshModel(model) && Running(model, config, c, iteration, turn)
    ensures var (stop, after) := TurnOf(model, config, tools, c, turn);
            && SafeStill(c.executions, after.executions)
            && (stop.None? ==> Running(model, config, after, iteration, turn + 1))
            && (stop.Some? ==> Kept(model, config, tools, after, iteration, stop.value, turn + 1))
  {
    var short := c.(messages := Shortened(model, config, c.messages, turn));
    SummarizedKeeps(model, c.messages, turn, true, config.maxContextMessages, turn);
    assert Running(model, config, short, iteration, turn);
    RepliedKeeps(model, config, tools, short, iteration, turn, model.respond(short.messages, turn));
  }

  // What holds of a stop: nothing is broken, turns are counted, and each began within the budget.
  ghost predicate Stopped(model: Model, config: Config, tools: map<string, Tool>, stop: Stop) {
    && Kept(model, config, tools, stop.core, stop.iteration, stop.outcome, stop.turn)
    && WithinBudget(stop.run, config.budget)
  }

  lemma {:induction false} RunningStops(model: Model, config: Config, tools: map<string, Tool>, c: Core,
                                        iteration: nat, error: string, turn: nat)
    requires Running(model, config, c, iteration, turn)
    ensures Kept(model, config, tools, c, iteration, FailedRun(error), turn)
  {
  }

  lemma {:induction false} TurnSpends(model: Model, config: Config, c: Core, run: seq<real>, turn: nat)
    requires WithinBudget(run, config.budget) && !OverBudget(config, run)
    ensures var costs := CostOf(model, config, c, turn);
            WithinBudget(run + costs, config.budget) && |costs| <= 1 && run <= run + costs
  {
    SpendOneMore(run, model.respond(Shortened(model, config, c.messages, turn), turn).cost, config.budget);
  }

  // What a loop that starts with these has come to when it stops.
  ghost predicate LoopsTo(model: Model, config: Config, tools: map<string, Tool>, c: Core, iteration: nat,
                          run: seq<real>, turn: nat, stop: Stop) {
    && Stopped(model, config, tools, stop)
    && run <= stop.run && |stop.run| - |run| <= stop.turn - turn <= stop.iteration - iteration
    && SafeStill(c.executions, stop.core.executions)
  }

  lemma {:induction false} TurnFirst(model: Model, config: Config, tools: map<string, Tool>, c: Core, after: Core,
                                     iteration: nat, run: seq<real>, costs: seq<real>, turn: nat, stop: Stop)
    requires SafeStill(c.executions, after.executions) && |costs| <= 1
    requires LoopsTo(model, config, tools, after, iteration + 1, run + costs, turn + 1, stop)
    ensures LoopsTo(model, config, tools, c, iteration, run, turn, stop)
  {
    assert run <= run + costs <= stop.run;
  }

  lemma {:induction false} TurnLast(model: Model, config: Config, tools: map<string, Tool>, c: Core, after: Core,
                                    iteration: nat, run: seq<real>, costs: seq<real>, turn: nat, outcome: Outcome)
    requires SafeStill(c.executions, after.executions) && |costs| <= 1 && WithinBudget(run + costs, config.budget)
    requires Kept(model, config, tools, after, iteration + 1, outcome, turn + 1)
    ensures LoopsTo(model, config, tools, c, iteration, run, turn,
                    Stop(outcome, after, iteration + 1, run + costs, turn + 1))
  {
  }

  /** From a paired conversation the loop stops with everything kept, whatever the model replies. */
  lemma {:induction false} LoopKeeps(model: Model, config: Config, tools: map<string, Tool>, c: Core,
                                     iteration: nat, run: seq<real>, turn: nat)
    requires FreshModel(model) && Running(model, config, c, iteration, turn) && WithinBudget(run, config.budget)
    ensures LoopsTo(model, config, tools, c, iteration, run, turn,
                    LoopOf(model, config, tools, c, iteration, run, turn))
    decreases config.maxIterations - iteration
  {
    if iteration >= config.maxIterations || OverBudget(config, run) {
      NoTurn(model, config, tools, c, iteration, run, turn);
    } else {
      var next, costs := TurnOf(model, config, tools, c, turn), CostOf(model, config, c, turn);
      TurnKeepsAll(model, config, tools, c, iteration + 1, turn);
      TurnSpends(model, config, c, run, turn);
      LoopStep(model, config, tools, c, iteration, run, turn);
      if next.0.Some? {
        TurnLast(model, config, tools, c, next.1, iteration, run, costs, turn, next.0.value);
      } else {
        LoopKeeps(model, config, tools, next.1, iteration + 1, run + costs, turn + 1);
        TurnFirst(model, config, tools, c, next.1, iteration, run, costs, turn,
                  LoopOf(model, config, tools, next.1, iteration + 1, run + costs, turn + 1));
      }
    }
  }

  lemma {:induction false} NoTurn(model: Model, config: Config, tools: map<string, Tool>, c: Core,
                                  iteration: nat, run: seq<real>, turn: nat)
    requires Running(model, config, c, iteration, turn) && WithinBudget(run, config.budget)
    requires iteration >= config.maxIterations || OverBudget(config, run)
    ensures LoopsTo(model, config, tools, c, iteration, run, turn,
                    LoopOf(model, config, tools, c, iteration, run, turn))
  {
    if iteration < config.maxIterations {
      RunningStops(model, config, tools, c, iteration + 1, "Cost budget exceeded", turn);
    }
  }

  // ---- Starting ---------------------------------------------------------------------------------

  lemma {:induction false} BuildKeeps(model: Model, initial: seq<Message>, system: Option<string>, input: string,
                                      turn: nat)
    requires Conversing(model, initial, {}, turn)
    ensures Conversing(model, BuildMessages(initial, system, input), {}, turn)
  {
    var built := BuildMessages(initial, system, input);
    var start := BuildStart(initial, system);
    LedgerIsPairing(initial, {});
    assert ReadAll(EMPTY, start) == ReadAll(EMPTY, initial) by {
      SystemFirst(initial, system, start);
    }
    ReadAppend(EMPTY, start, [UserMessage(input)]);
    ReadOne(ReadAll(EMPTY, start), UserMessage(input));
    LedgerIsPairing(built, {});
    assert forall m :: m in initial[..] ==> m in initial;
  }

  lemma {:induction false} SystemFirst(initial: seq<Message>, system: Option<string>, start: seq<Message>)
    requires start == BuildStart(initial, system)
    ensures ReadAll(EMPTY, start) == ReadAll(EMPTY, initial)
  {
    if system.None? || system.value == "" {
      assert start == initial;
    } else if initial == [] || initial[0].role != System {
      assert start == [SystemMessage(system.value)] + initial;
      ReadAppend(EMPTY, [SystemMessage(system.value)], initial);
      ReadOne(EMPTY, SystemMessage(system.value));
    } else {
      var m := initial[0].(content := initial[0].content + "\n\n" + system.value);
      assert start == [m] + initial[1..] && initial == [initial[0]] + initial[1..];
      ReadAppend(EMPTY, [m], initial[1..]);
      ReadAppend(EMPTY, [initial[0]], initial[1..]);
      ReadOne(EMPTY, m);
      ReadOne(EMPTY, initial[0]);
    }
  }
}
