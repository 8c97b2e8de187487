/** One turn with tool calls: planning and executing them (worker_runner_helpers.py), and what
    that does to the conversation. */
module WorkerTurn {
  import opened Common
  import opened Conversation
  import opened WorkerTools

  // ---- What a plan is, independent of how it is found -------------------------------------------

  datatype ToolPlan = ToolPlan(
    ordered: seq<ToolCall>,
    executable: seq<ToolCall>,
    immediate: map<string, ToolResult>,
    pending: Option<Pending>,
    exceeded: bool)

  // The error a call is answered with without being executed.
  function Refusal(call: ToolCall, tools: map<string, Tool>): Option<string> {
    if call.error.Some? && call.error.value != "" then call.error
    else if call.name !in tools then Some("Tool not found: " + call.name)
    else None
  }

  function GateOf(call: ToolCall, tools: map<string, Tool>): Option<Kind> {
    if Refusal(call, tools).None? then ActionType(tools[call.name]) else None
  }

  function Room(recorded: nat, max: nat): nat {
    if recorded < max then max - recorded else 0
  }

  function Smaller(a: nat, b: nat): nat {
    if a <= b then a else b
  }

  // The first call behind a gate, or |calls|.
  function FirstGated(calls: seq<ToolCall>, tools: map<string, Tool>): (p: nat)
    ensures p <= |calls|
    ensures forall i :: 0 <= i < p ==> GateOf(calls[i], tools).None?
    ensures p < |calls| ==> GateOf(calls[p], tools).Some?
  {
    if calls == [] then 0
    else if GateOf(calls[0], tools).Some? then 0
    else 1 + FirstGated(calls[1..], tools)
  }

  function Skipped(): ToolResult {
    ToolResult(None, Some("Skipped: another tool requires confirmation first"))
  }

  function Refused(error: string): ToolResult {
    ToolResult(None, Some(error))
  }

  // Calls that run at once.
  function Runnable(calls: seq<ToolCall>, tools: map<string, Tool>): seq<ToolCall>
    decreases |calls|
  {
    if calls == [] then []
    else
      var c := calls[|calls| - 1];
      Runnable(calls[..|calls| - 1], tools)
      + if Refusal(c, tools).None? && GateOf(c, tools).None? then [c] else []
  }

  function Refusals(calls: seq<ToolCall>, tools: map<string, Tool>): map<string, ToolResult>
    decreases |calls|
  {
    if calls == [] then map[]
    else
      var c := calls[|calls| - 1];
      var before := Refusals(calls[..|calls| - 1], tools);
      if Refusal(c, tools).Some? then before[c.id := Refused(Refusal(c, tools).value)] else before
  }

  function SkipAll(calls: seq<ToolCall>, before: map<string, ToolResult>): map<string, ToolResult>
    decreases |calls|
  {
    if calls == [] then before
    else SkipAll(calls[..|calls| - 1], before)[calls[|calls| - 1].id := Skipped()]
  }

  function MakePending(call: ToolCall, tool: Tool): Pending
    requires ActionType(tool).Some?
  {
    Pending(ActionType(tool).value, call, if tool.inputKey == Some("") then None else tool.inputKey)
  }

  // The calls the budget admits, in order; the first gated one is held back and later ones are skipped.
  function PlanOf(calls: seq<ToolCall>, tools: map<string, Tool>, recorded: nat, max: nat): ToolPlan {
    var n := Smaller(|calls|, Room(recorded, max));
    var admitted := calls[..n];
    var p := FirstGated(admitted, tools);
    var before := admitted[..p];
    if p == n then
      ToolPlan(before, Runnable(before, tools), Refusals(before, tools), None, n < |calls|)
    else
      ToolPlan(before + admitted[p + 1..], Runnable(before, tools),
               SkipAll(admitted[p + 1..], Refusals(before, tools)),
               Some(MakePending(admitted[p], tools[admitted[p].name])), n < |calls|)
  }

  // ---- The mutable loop state -------------------------------------------------------------------

  // How a tool came to run: from the plan of a turn, or when a pending call was resumed.
  datatype Via = Planned | Resumed(pending: Pending, decision: Decision)

  datatype Execution = Execution(call: ToolCall, tool: Tool, via: Via)

  class LoopState {
    var messages: seq<Message>
    var toolCalls: seq<ToolCall>
    var iteration: nat
    var contextSummaries: nat
    // what this worker's turns cost; None is a dict without the key
    var spent: Option<real>
    // history: tools that were run, and what each recorded turn cost
    var executions: seq<Execution>
    var ownTurns: seq<real>

    constructor (messages: seq<Message>, toolCalls: seq<ToolCall>, iteration: nat, spent: Option<real>,
                 executions: seq<Execution>, ownTurns: seq<real>)
      ensures this.messages == messages && this.toolCalls == toolCalls && this.iteration == iteration
      ensures contextSummaries == 0 && this.spent == spent
      ensures this.executions == executions && this.ownTurns == ownTurns
    {
      this.messages, this.toolCalls, this.iteration := messages, toolCalls, iteration;
      contextSummaries, this.spent, this.executions, this.ownTurns := 0, spent, executions, ownTurns;
    }

    /** `plan_tool_calls` */
    method PlanToolCalls(calls: seq<ToolCall>, tools: map<string, Tool>, max: nat) returns (plan: ToolPlan)
      modifies this`toolCalls
      ensures plan == PlanOf(calls, tools, |old(toolCalls)|, max)
      ensures toolCalls == old(toolCalls) + calls[..Smaller(|calls|, Room(|old(toolCalls)|, max))]
    {
      var ordered, executable, immediate: map<string, ToolResult> := [], [], map[];
      ghost var recorded, n := toolCalls, Smaller(|calls|, Room(|toolCalls|, max));
      var i: nat := 0;
      while i < |calls|
        invariant i <= n && NoGate(calls[..i], tools)
        invariant toolCalls == recorded + calls[..i]
        invariant ordered == calls[..i] && executable == Runnable(calls[..i], tools)
                  && immediate == Refusals(calls[..i], tools)
      {
        if |toolCalls| >= max {
          PlanWithoutGate(calls, tools, |recorded|, max, i);
          return ToolPlan(ordered, executable, immediate, None, true);
        }
        var call := calls[i];
        toolCalls := toolCalls + [call];
        var refusal := Refusal(call, tools);
        if refusal.Some? {
          AdmitRefused(calls, tools, recorded, i);
          ordered := ordered + [call];
          immediate := immediate[call.id := Refused(refusal.value)];
        } else if ActionType(tools[call.name]).Some? {
          var exceeded;
          ordered, immediate, exceeded := SkipRemaining(calls, i + 1, max, ordered, immediate);
          PlanWithGate(calls, tools, |recorded|, max, i);
          Recorded(recorded, calls, i, n);
          return ToolPlan(ordered, executable, immediate, Some(MakePending(call, tools[call.name])), exceeded);
        } else {
          AdmitRunnable(calls, tools, recorded, i);
          ordered := ordered + [call];
          executable := executable + [call];
        }
        i := i + 1;
      }
      PlanWithoutGate(calls, tools, |recorded|, max, i);
      plan := ToolPlan(ordered, executable, immediate, None, false);
    }

    // The calls after a held-back one: recorded within the budget and answered as skipped.
    method SkipRemaining(calls: seq<ToolCall>, first: nat, max: nat, ordered: seq<ToolCall>,
                         immediate: map<string, ToolResult>)
      returns (ordered': seq<ToolCall>, immediate': map<string, ToolResult>, exceeded: bool)
      requires first <= |calls| && |toolCalls| <= max
      modifies this`toolCalls
      ensures var n := first + Smaller(|calls| - first, max - |old(toolCalls)|);
              && toolCalls == old(toolCalls) + calls[first..n]
              && ordered' == ordered + calls[first..n]
              && immediate' == SkipAll(calls[first..n], immediate)
              && exceeded == (n < |calls|)
    {
      ordered', immediate', exceeded := ordered, immediate, false;
      for j := first to |calls|
        invariant j - first <= max - |old(toolCalls)|
        invariant toolCalls == old(toolCalls) + calls[first..j]
        invariant ordered' == ordered + calls[first..j]
        invariant immediate' == SkipAll(calls[first..j], immediate)
        invariant !exceeded
      {
        if |toolCalls| >= max {
          exceeded := true;
          break;
        }
        OneMore(calls, first, j);
        toolCalls := toolCalls + [calls[j]];
        ordered' := ordered' + [calls[j]];
        immediate' := immediate'[calls[j].id := Skipped()];
      }
    }

    /** `replace_tool_call`: the first call with that id; None found is the source's ValueError. */
    method ReplaceToolCall(updated: ToolCall) returns (found: bool)
      modifies this`toolCalls
      ensures toolCalls == Replaced(old(toolCalls), updated)
      ensures found <==> exists k :: 0 <= k < |old(toolCalls)| && old(toolCalls)[k].id == updated.id
    {
      for index := 0 to |toolCalls|
        invariant toolCalls == old(toolCalls)
        invariant forall k :: 0 <= k < index ==> toolCalls[k].id != updated.id
      {
        if toolCalls[index].id == updated.id {
          ReplacedAt(toolCalls, updated, index);
          toolCalls := toolCalls[index := updated];
          return true;
        }
      }
      ReplacedNowhere(toolCalls, updated);
      found := false;
    }

    /** `aexecute_tool_calls`: run what may run, then answer every planned call in order. */
    method ExecuteToolCalls(plan: ToolPlan, tools: map<string, Tool>, run: (Tool, ToolCall) -> ToolResult)
      requires forall c :: c in plan.executable ==> c.name in tools
      modifies this`messages, this`toolCalls, this`executions
      ensures messages == old(messages) + Answered(plan.ordered, Results(plan, tools, run))
      ensures toolCalls == ReplacedAll(old(toolCalls), plan.ordered, Results(plan, tools, run))
      ensures executions == old(executions) + PlannedRuns(plan.executable, tools)
      ensures |messages| == |old(messages)| + |plan.ordered| && messages[..|old(messages)|] == old(messages)
      ensures DistinctIds(plan.ordered) && (forall c :: c in plan.executable ==> c in plan.ordered) ==>
                forall k :: 0 <= k < |plan.ordered| ==>
                  var c, m := plan.ordered[k], messages[|old(messages)| + k];
                  && (c in plan.executable ==> Tells(m, c.id, run(tools[c.name], c)))
                  && (c !in plan.executable && c.id in plan.immediate ==> Tells(m, c.id, plan.immediate[c.id]))
    {
      if DistinctIds(plan.ordered) && forall c :: c in plan.executable ==> c in plan.ordered {
        PlannedTell(plan, tools, run);
      }
      var results := RunPlanned(plan, tools, run);
      AnswerPlanned(plan.ordered, results);
    }

    method RunPlanned(plan: ToolPlan, tools: map<string, Tool>, run: (Tool, ToolCall) -> ToolResult)
      returns (results: map<string, ToolResult>)
      requires forall c :: c in plan.executable ==> c.name in tools
      modifies this`executions
      ensures results == Results(plan, tools, run)
      ensures executions == old(executions) + PlannedRuns(plan.executable, tools)
    {
      var calls := plan.executable;
      results := plan.immediate;
      for i := 0 to |calls|
        invariant results == ResultsOf(calls[..i], tools, run, plan.immediate)
        invariant executions == old(executions) + PlannedRuns(calls[..i], tools)
      {
        OneMore(calls, 0, i);
        results := results[calls[i].id := run(tools[calls[i].name], calls[i])];
        executions := executions + [Execution(calls[i], tools[calls[i].name], Planned)];
      }
      assert calls[..|calls|] == calls;
    }

    method AnswerPlanned(calls: seq<ToolCall>, results: map<string, ToolResult>)
      modifies this`messages, this`toolCalls
      ensures messages == old(messages) + Answered(calls, results)
      ensures toolCalls == ReplacedAll(old(toolCalls), calls, results)
    {
      ghost var before, recorded := messages, toolCalls;
      for i := 0 to |calls|
        invariant messages == before + Answered(calls[..i], results)
        invariant toolCalls == ReplacedAll(recorded, calls[..i], results)
      {
        var call, result := calls[i], ResultFor(calls[i], results);
        AnswerOneMore(before, recorded, calls, i, results);
        AnswerCall(call, result);
      }
      assert calls[..|calls|] == calls;
    }

    method AnswerCall(call: ToolCall, result: ToolResult)
      modifies this`messages, this`toolCalls
      ensures messages == old(messages) + [ToolMessage(call.id, ResultText(result))]
      ensures toolCalls == Replaced(old(toolCalls), call.(result := Some(result), error := result.error))
    {
      messages := messages + [ToolMessage(call.id, ResultText(result))];
      var _ := ReplaceToolCall(call.(result := Some(result), error := result.error));
    }
  }

  lemma {:induction false} AnswerOneMore(before: seq<Message>, recorded: seq<ToolCall>, calls: seq<ToolCall>,
                                         i: nat, results: map<string, ToolResult>)
    requires i < |calls|
    ensures var call, result := calls[i], ResultFor(calls[i], results);
            && before + Answered(calls[..i + 1], results)
               == (before + Answered(calls[..i], results)) + [ToolMessage(call.id, ResultText(result))]
            && ReplacedAll(recorded, calls[..i + 1], results)
               == Replaced(ReplacedAll(recorded, calls[..i], results),
                           call.(result := Some(result), error := result.error))
  {
    assert calls[..i + 1][..i] == calls[..i];
  }

  // ---- What execution computes ------------------------------------------------------------------

  function ResultText(r: ToolResult): string {
    if r.text.Some? then r.text.value else if r.error.Some? then r.error.value else ""
  }

  // The message answers the call with what the tool gave: its content, or else its error, or nothing.
  predicate Tells(m: Message, id: string, r: ToolResult) {
    && m.role == ToolRole && m.toolCallId == Some(id) && m.toolCalls == [] && !m.summary
    && (r.text.Some? ==> m.content == r.text.value)
    && (r.text.None? && r.error.Some? ==> m.content == r.error.value)
    && (r.text.None? && r.error.None? ==> m.content == "")
  }

  // The message answers the call with this error.
  predicate TellsError(m: Message, id: string, error: string) {
    m.role == ToolRole && m.toolCallId == Some(id) && m.toolCalls == [] && !m.summary && m.content == error
  }

  lemma {:induction false} AnswerTells(id: string, r: ToolResult)
    ensures Tells(ToolMessage(id, ResultText(r)), id, r)
  {
  }

  lemma {:induction false} AnsweredAt(calls: seq<ToolCall>, results: map<string, ToolResult>, k: nat)
    requires k < |calls| && calls[k].id in results
    ensures Tells(Answered(calls, results)[k], calls[k].id, results[calls[k].id])
    decreases |calls|
  {
    if k < |calls| - 1 {
      AnsweredAt(calls[..|calls| - 1], results, k);
    } else {
      AnswerTells(calls[k].id, results[calls[k].id]);
    }
  }

  // Every call that is run has the result of its own run, and the others what they had before.
  lemma {:induction false} ResultsAt(calls: seq<ToolCall>, tools: map<string, Tool>,
                                     run: (Tool, ToolCall) -> ToolResult, before: map<string, ToolResult>, id: string)
    requires forall c :: c in calls ==> c.name in tools
    requires forall c, d :: c in calls && d in calls && c.id == d.id ==> c == d
    ensures (forall c :: c in calls ==> c.id != id) ==>
              (id in ResultsOf(calls, tools, run, before) <==> id in before)
              && (id in before ==> ResultsOf(calls, tools, run, before)[id] == before[id])
    ensures forall c :: c in calls && c.id == id ==>
              id in ResultsOf(calls, tools, run, before)
              && ResultsOf(calls, tools, run, before)[id] == run(tools[c.name], c)
    decreases |calls|
  {
    if calls != [] {
      var pre, last := calls[..|calls| - 1], calls[|calls| - 1];
      assert calls == pre + [last];
      ResultsAt(pre, tools, run, before, id);
    }
  }

  // What the messages say for which the planned calls are answered.
  lemma {:induction false} PlannedTell(plan: ToolPlan, tools: map<string, Tool>, run: (Tool, ToolCall) -> ToolResult)
    requires forall c :: c in plan.executable ==> c.name in tools && c in plan.ordered
    requires DistinctIds(plan.ordered)
    ensures var answers := Answered(plan.ordered, Results(plan, tools, run));
            forall k :: 0 <= k < |plan.ordered| ==>
              var c := plan.ordered[k];
              && (c in plan.executable ==> Tells(answers[k], c.id, run(tools[c.name], c)))
              && (c !in plan.executable && c.id in plan.immediate ==> Tells(answers[k], c.id, plan.immediate[c.id]))
  {
    var results := Results(plan, tools, run);
    forall c, d | c in plan.ordered && d in plan.ordered && c.id == d.id
      ensures c == d
    {
      var i :| 0 <= i < |plan.ordered| && plan.ordered[i] == c;
      var j :| 0 <= j < |plan.ordered| && plan.ordered[j] == d;
      assert i < j || j < i || i == j;
    }
    forall k | 0 <= k < |plan.ordered|
      ensures var c := plan.ordered[k];
              && (c in plan.executable ==> Tells(Answered(plan.ordered, results)[k], c.id, run(tools[c.name], c)))
              && (c !in plan.executable && c.id in plan.immediate ==>
                    Tells(Answered(plan.ordered, results)[k], c.id, plan.immediate[c.id]))
    {
      var c := plan.ordered[k];
      ResultsAt(plan.executable, tools, run, plan.immediate, c.id);
      if c in plan.executable || c.id in plan.immediate {
        AnsweredAt(plan.ordered, results, k);
      }
    }
  }

  function ResultsOf(calls: seq<ToolCall>, tools: map<string, Tool>, run: (Tool, ToolCall) -> ToolResult,
                     before: map<string, ToolResult>)
    : map<string, ToolResult>
    requires forall c :: c in calls ==> c.name in tools
    decreases |calls|
  {
    if calls == [] then before
    else
      var c := calls[|calls| - 1];
      ResultsOf(calls[..|calls| - 1], tools, run, before)[c.id := run(tools[c.name], c)]
  }

  function Results(plan: ToolPlan, tools: map<string, Tool>, run: (Tool, ToolCall) -> ToolResult)
    : map<string, ToolResult>
    requires forall c :: c in plan.executable ==> c.name in tools
  {
    ResultsOf(plan.executable, tools, run, plan.immediate)
  }

  function ResultFor(c: ToolCall, results: map<string, ToolResult>): ToolResult {
    if c.id in results then results[c.id] else Refused("Tool execution failed")
  }

  function Answered(calls: seq<ToolCall>, results: map<string, ToolResult>): (ms: seq<Message>)
    ensures |ms| == |calls|
    decreases |calls|
  {
    if calls == [] then []
    else
      var c := calls[|calls| - 1];
      Answered(calls[..|calls| - 1], results) + [ToolMessage(c.id, ResultText(ResultFor(c, results)))]
  }

  function PlannedRuns(calls: seq<ToolCall>, tools: map<string, Tool>): (es: seq<Execution>)
    requires forall c :: c in calls ==> c.name in tools
    ensures forall e :: e in es ==> e.via == Planned && e.call in calls && e.tool == tools[e.call.name]
    decreases |calls|
  {
    if calls == [] then []
    else
      var c := calls[|calls| - 1];
      PlannedRuns(calls[..|calls| - 1], tools) + [Execution(c, tools[c.name], Planned)]
  }

  function Replaced(calls: seq<ToolCall>, updated: ToolCall): (r: seq<ToolCall>)
    ensures |r| == |calls|
  {
    if calls == [] then []
    else if calls[0].id == updated.id then [updated] + calls[1..]
    else [calls[0]] + Replaced(calls[1..], updated)
  }

  function ReplacedAll(all: seq<ToolCall>, calls: seq<ToolCall>, results: map<string, ToolResult>)
    : (r: seq<ToolCall>)
    ensures |r| == |all|
    decreases |calls|
  {
    if calls == [] then all
    else
      var c := calls[|calls| - 1];
      var result := ResultFor(c, results);
      Replaced(ReplacedAll(all, calls[..|calls| - 1], results), c.(result := Some(result), error := result.error))
  }

  lemma {:induction false} ReplacedAt(calls: seq<ToolCall>, updated: ToolCall, k: nat)
    requires k < |calls| && calls[k].id == updated.id && forall i :: 0 <= i < k ==> calls[i].id != updated.id
    ensures Replaced(calls, updated) == calls[k := updated]
  {
    if k > 0 {
      assert forall i :: 0 <= i < k - 1 ==> calls[1..][i] == calls[i + 1];
      ReplacedAt(calls[1..], updated, k - 1);
    }
  }

  lemma {:induction false} ReplacedNowhere(calls: seq<ToolCall>, updated: ToolCall)
    requires forall i :: 0 <= i < |calls| ==> calls[i].id != updated.id
    ensures Replaced(calls, updated) == calls
  {
    if calls != [] {
      assert forall i :: 0 <= i < |calls[1..]| ==> calls[1..][i] == calls[i + 1];
      ReplacedNowhere(calls[1..], updated);
    }
  }

  lemma {:induction false} OneMore(calls: seq<ToolCall>, first: nat, j: nat)
    requires first <= j < |calls|
    ensures calls[first..j + 1] == calls[first..j] + [calls[j]]
    ensures calls[first..j + 1][..j - first] == calls[first..j]
    ensures first == 0 ==> calls[..j + 1] == calls[..j] + [calls[j]] && calls[..j + 1][..j] == calls[..j]
  {
  }

  // What admitting call i adds to the lists that planning builds.
  lemma {:induction false} AdmitRefused(calls: seq<ToolCall>, tools: map<string, Tool>, recorded: seq<ToolCall>,
                                        i: nat)
    requires i < |calls| && NoGate(calls[..i], tools) && Refusal(calls[i], tools).Some?
    ensures (recorded + calls[..i]) + [calls[i]] == recorded + calls[..i + 1]
    ensures calls[..i] + [calls[i]] == calls[..i + 1] && NoGate(calls[..i + 1], tools)
    ensures Runnable(calls[..i + 1], tools) == Runnable(calls[..i], tools)
    ensures Refusals(calls[..i + 1], tools)
            == Refusals(calls[..i], tools)[calls[i].id := Refused(Refusal(calls[i], tools).value)]
  {
    assert calls[..i + 1] == calls[..i] + [calls[i]];
    AppendCall(calls[..i], calls[i], tools);
  }

  lemma {:induction false} AdmitRunnable(calls: seq<ToolCall>, tools: map<string, Tool>, recorded: seq<ToolCall>,
                                         i: nat)
    requires i < |calls| && NoGate(calls[..i], tools)
    requires Refusal(calls[i], tools).None? && GateOf(calls[i], tools).None?
    ensures (recorded + calls[..i]) + [calls[i]] == recorded + calls[..i + 1]
    ensures calls[..i] + [calls[i]] == calls[..i + 1] && NoGate(calls[..i + 1], tools)
    ensures Runnable(calls[..i + 1], tools) == Runnable(calls[..i], tools) + [calls[i]]
    ensures Refusals(calls[..i + 1], tools) == Refusals(calls[..i], tools)
  {
    assert calls[..i + 1] == calls[..i] + [calls[i]];
    AppendCall(calls[..i], calls[i], tools);
  }

  lemma {:induction false} AppendCall(calls: seq<ToolCall>, c: ToolCall, tools: map<string, Tool>)
    ensures Runnable(calls + [c], tools)
            == Runnable(calls, tools) + if Refusal(c, tools).None? && GateOf(c, tools).None? then [c] else []
    ensures Refusals(calls + [c], tools)
            == if Refusal(c, tools).Some? then Refusals(calls, tools)[c.id := Refused(Refusal(c, tools).value)]
               else Refusals(calls, tools)
  {
    assert (calls + [c])[..|calls|] == calls;
  }

  lemma {:induction false} Recorded(recorded: seq<ToolCall>, calls: seq<ToolCall>, i: nat, n: nat)
    requires i < n <= |calls|
    ensures ((recorded + calls[..i]) + [calls[i]]) + calls[i + 1..n] == recorded + calls[..n]
  {
  }

  predicate NoGate(calls: seq<ToolCall>, tools: map<string, Tool>) {
    forall i :: 0 <= i < |calls| ==> GateOf(calls[i], tools).None?
  }

  lemma {:induction false} PlanWithoutGate(calls: seq<ToolCall>, tools: map<string, Tool>, recorded: nat, max: nat,
                                           i: nat)
    requires i == Smaller(|calls|, Room(recorded, max)) && NoGate(calls[..i], tools)
    ensures PlanOf(calls, tools, recorded, max)
            == ToolPlan(calls[..i], Runnable(calls[..i], tools), Refusals(calls[..i], tools), None, i < |calls|)
  {
    assert calls[..i][..i] == calls[..i];
  }

  lemma {:induction false} PlanWithGate(calls: seq<ToolCall>, tools: map<string, Tool>, recorded: nat, max: nat,
                                        i: nat)
    requires i < Smaller(|calls|, Room(recorded, max)) && NoGate(calls[..i], tools) && GateOf(calls[i], tools).Some?
    ensures var n := Smaller(|calls|, Room(recorded, max));
            PlanOf(calls, tools, recorded, max)
            == ToolPlan(calls[..i] + calls[i + 1..n], Runnable(calls[..i], tools),
                        SkipAll(calls[i + 1..n], Refusals(calls[..i], tools)),
                        Some(MakePending(calls[i], tools[calls[i].name])), n < |calls|)
  {
    var n := Smaller(|calls|, Room(recorded, max));
    var admitted := calls[..n];
    assert admitted[i] == calls[i];
    forall k | 0 <= k < i
      ensures GateOf(admitted[k], tools).None?
    {
      assert admitted[k] == calls[..i][k];
    }
    assert FirstGated(admitted, tools) == i;
    assert admitted[..i] == calls[..i] && admitted[i + 1..] == calls[i + 1..n];
  }

  // ---- What a plan guarantees -------------------------------------------------------------------

  lemma {:induction false} RunnableSound(calls: seq<ToolCall>, tools: map<string, Tool>)
    ensures forall c :: c in Runnable(calls, tools) <==> c in calls && Refusal(c, tools).None? && GateOf(c, tools).None?
    decreases |calls|
  {
    if calls != [] {
      var pre, c := calls[..|calls| - 1], calls[|calls| - 1];
      assert calls == pre + [c];
      RunnableSound(pre, tools);
    }
  }

  lemma {:induction false} RefusalsSound(calls: seq<ToolCall>, tools: map<string, Tool>)
    requires DistinctIds(calls)
    ensures forall c :: c in calls ==>
              (Refusal(c, tools).Some? ==>
                 c.id in Refusals(calls, tools) && Refusals(calls, tools)[c.id] == Refused(Refusal(c, tools).value))
              && (Refusal(c, tools).None? ==> c.id !in Refusals(calls, tools))
    ensures forall id :: id in Refusals(calls, tools) ==> id in Ids(calls)
    decreases |calls|
  {
    if calls != [] {
      var pre, last := calls[..|calls| - 1], calls[|calls| - 1];
      assert calls == pre + [last];
      RefusalsSound(pre, tools);
      forall c | c in pre
        ensures c.id != last.id
      {
        var k :| 0 <= k < |pre| && pre[k] == c;
        assert calls[k] == c;
      }
    }
  }

  lemma {:induction false} SkipSound(calls: seq<ToolCall>, before: map<string, ToolResult>)
    ensures forall c :: c in calls ==> c.id in SkipAll(calls, before) && SkipAll(calls, before)[c.id] == Skipped()
    ensures forall id :: id in SkipAll(calls, before) <==> id in before || id in Ids(calls)
    ensures forall id :: id in before && id !in Ids(calls) ==> SkipAll(calls, before)[id] == before[id]
    decreases |calls|
  {
    if calls != [] {
      var pre, c := calls[..|calls| - 1], calls[|calls| - 1];
      assert calls == pre + [c];
      assert Ids(calls) == Ids(pre) + {c.id};
      SkipSound(pre, before);
    }
  }

  // The calls before the first gated one are executed or refused.
  lemma {:induction false} BeforeGate(before: seq<ToolCall>, tools: map<string, Tool>)
    requires DistinctIds(before) && NoGate(before, tools)
    ensures forall c :: c in before ==>
              c in Runnable(before, tools)
              || (c.id in Refusals(before, tools) && Refusals(before, tools)[c.id].error.Some?)
    ensures forall c :: c in Runnable(before, tools) ==>
              c in before && c.name in tools && ActionType(tools[c.name]).None? && Refusal(c, tools).None?
  {
    RunnableSound(before, tools);
    RefusalsSound(before, tools);
    forall c | c in before && Refusal(c, tools).None?
      ensures c in Runnable(before, tools)
    {
      var k :| 0 <= k < |before| && before[k] == c;
      assert GateOf(before[k], tools).None?;
    }
  }

  lemma {:induction false} SplitDistinct(calls: seq<ToolCall>, p: nat)
    requires DistinctIds(calls) && p < |calls|
    ensures DistinctIds(calls[..p]) && DistinctIds(calls[p + 1..]) && DistinctIds(calls[..p] + calls[p + 1..])
    ensures forall c :: c in calls <==> c in calls[..p] + calls[p + 1..] || c == calls[p]
    ensures calls[p] !in calls[..p] + calls[p + 1..]
    ensures Ids(calls[..p]) !! Ids(calls[p + 1..])
  {
    var before, after := calls[..p], calls[p + 1..];
    assert calls == before + [calls[p]] + after;
    assert forall k :: 0 <= k < |after| ==> after[k] == calls[p + 1 + k];
    forall c, d | c in before && d in after
      ensures c.id != d.id
    {
      var i :| 0 <= i < |before| && before[i] == c;
      var j :| 0 <= j < |after| && after[j] == d;
      assert calls[i] == c && calls[p + 1 + j] == d;
    }
    HeldNotAmongRest(calls, p);
  }

  lemma {:induction false} HeldNotAmongRest(calls: seq<ToolCall>, p: nat)
    requires DistinctIds(calls) && p < |calls|
    ensures calls[p] !in calls[..p] + calls[p + 1..]
  {
    var before, after := calls[..p], calls[p + 1..];
    forall c | c in before + after
      ensures c != calls[p]
    {
      if c in before {
        var i :| 0 <= i < |before| && before[i] == c;
        assert calls[i] == c;
      } else {
        var j :| 0 <= j < |after| && after[j] == c;
        assert calls[p + 1 + j] == c;
      }
    }
  }

  // Every planned call is answered from the plan: executed, or given an error.
  predicate Answerable(plan: ToolPlan) {
    forall c :: c in plan.ordered ==>
      c in plan.executable || (c.id in plan.immediate && plan.immediate[c.id].error.Some?)
  }

  predicate Ungated(plan: ToolPlan, tools: map<string, Tool>) {
    forall c :: c in plan.executable ==> c.name in tools && ActionType(tools[c.name]).None? && Refusal(c, tools).None?
  }

  ghost predicate Admits(plan: ToolPlan, admitted: seq<ToolCall>) {
    forall c :: c in admitted <==> c in plan.ordered || (plan.pending.Some? && c == plan.pending.value.call)
  }

  // The pending call is gated by the tool it names, and nothing else is behind a gate before it.
  predicate HoldsFirst(plan: ToolPlan, admitted: seq<ToolCall>, tools: map<string, Tool>) {
    var p := FirstGated(admitted, tools);
    if p == |admitted| then plan.pending.None?
    else
      && plan.pending.Some? && plan.pending.value.call == admitted[p]
      && admitted[p] !in plan.ordered
      && admitted[p].name in tools && ActionType(tools[admitted[p].name]) == Some(plan.pending.value.kind)
  }

  // What a plan for the admitted calls guarantees.
  ghost predicate SafePlan(plan: ToolPlan, admitted: seq<ToolCall>, tools: map<string, Tool>) {
    && Ungated(plan, tools) && Answerable(plan) && Admits(plan, admitted) && HoldsFirst(plan, admitted, tools)
    && DistinctIds(plan.ordered)
  }

  /** A plan holds back exactly the first gated call; every other admitted call is either executed,
      and then has no gate, or answered with an error. Nothing beyond the budget is admitted. */
  lemma {:induction false} PlanIsSafe(calls: seq<ToolCall>, tools: map<string, Tool>, recorded: nat, max: nat)
    requires DistinctIds(calls)
    ensures SafePlan(PlanOf(calls, tools, recorded, max), calls[..Smaller(|calls|, Room(recorded, max))], tools)
    ensures PlanOf(calls, tools, recorded, max).exceeded <==> recorded + |calls| > max && |calls| > 0
  {
    var n := Smaller(|calls|, Room(recorded, max));
    var admitted := calls[..n];
    assert DistinctIds(admitted);
    if FirstGated(admitted, tools) < n {
      HeldBack(admitted, tools, n < |calls|);
    } else {
      NothingHeld(admitted, tools, n < |calls|);
    }
  }

  lemma {:induction false} NothingHeld(admitted: seq<ToolCall>, tools: map<string, Tool>, exceeded: bool)
    requires DistinctIds(admitted) && FirstGated(admitted, tools) == |admitted|
    ensures var all := admitted[..|admitted|];
            SafePlan(ToolPlan(all, Runnable(all, tools), Refusals(all, tools), None, exceeded), admitted, tools)
  {
    assert admitted[..|admitted|] == admitted;
    BeforeGate(admitted, tools);
  }

  lemma {:induction false} HeldBack(admitted: seq<ToolCall>, tools: map<string, Tool>, exceeded: bool)
    requires DistinctIds(admitted) && FirstGated(admitted, tools) < |admitted|
    ensures var p := FirstGated(admitted, tools);
            SafePlan(ToolPlan(admitted[..p] + admitted[p + 1..], Runnable(admitted[..p], tools),
                              SkipAll(admitted[p + 1..], Refusals(admitted[..p], tools)),
                              Some(MakePending(admitted[p], tools[admitted[p].name])), exceeded),
                     admitted, tools)
  {
    var p := FirstGated(admitted, tools);
    var before, after := admitted[..p], admitted[p + 1..];
    var plan := ToolPlan(before + after, Runnable(before, tools), SkipAll(after, Refusals(before, tools)),
                         Some(MakePending(admitted[p], tools[admitted[p].name])), exceeded);
    SplitDistinct(admitted, p);
    assert Ungated(plan, tools) by {
      BeforeGate(before, tools);
    }
    assert Answerable(plan) by {
      RestAnswered(before, after, tools);
    }
  }

  // Every call but the one held back is run, refused or skipped.
  lemma {:induction false} RestAnswered(before: seq<ToolCall>, after: seq<ToolCall>, tools: map<string, Tool>)
    requires DistinctIds(before) && NoGate(before, tools) && Ids(before) !! Ids(after)
    ensures var immediate := SkipAll(after, Refusals(before, tools));
            forall c :: c in before + after ==>
              c in Runnable(before, tools) || (c.id in immediate && immediate[c.id].error.Some?)
  {
    BeforeGate(before, tools);
    SkipSound(after, Refusals(before, tools));
    forall c | c in before
      ensures c.id !in Ids(after)
    {
      assert c.id in Ids(before);
    }
  }

  // ---- What the model is told after a turn ------------------------------------------------------

  // The call can be run, but only once somebody has decided.
  predicate NeedsDecision(c: ToolCall, tools: map<string, Tool>) {
    && !(c.error.Some? && c.error.value != "") && c.name in tools
    && var t := tools[c.name]; t.handoff || t.confirm || t.input
  }

  // Call g is the first one of these that needs a decision, or there is none.
  predicate FirstHeld(calls: seq<ToolCall>, tools: map<string, Tool>, g: nat) {
    && g <= |calls| && (forall i :: 0 <= i < g ==> !NeedsDecision(calls[i], tools))
    && (g < |calls| ==> NeedsDecision(calls[g], tools))
  }

  // What the answer to a call says: that it came after one that waits, its own error, that there is no
  // such tool, or what the tool gave for this very call.
  predicate CallTold(m: Message, c: ToolCall, tools: map<string, Tool>, run: (Tool, ToolCall) -> ToolResult,
                     late: bool)
  {
    if late then TellsError(m, c.id, "Skipped: another tool requires confirmation first")
    else if c.error.Some? && c.error.value != "" then TellsError(m, c.id, c.error.value)
    else if c.name !in tools then TellsError(m, c.id, "Tool not found: " + c.name)
    else Tells(m, c.id, run(tools[c.name], c))
  }

  // The messages that a turn adds: the model's own with all its calls, and one answer in order to each of
  // the first n but the one that waits.
  predicate TurnTold(added: seq<Message>, text: string, calls: seq<ToolCall>, tools: map<string, Tool>,
                     run: (Tool, ToolCall) -> ToolResult, n: nat, g: nat)
    requires g <= n <= |calls|
  {
    && |added| == (if g < n then n else n + 1)
    && added[0] == Message(Assistant, text, calls, None, false)
    && forall i :: 0 <= i < n && i != g ==>
         CallTold(added[if i < g then i + 1 else i], calls[i], tools, run, i > g)
  }

  // What a held-back call waits for.
  predicate HeldFor(p: Pending, c: ToolCall, tools: map<string, Tool>)
    requires c.name in tools
  {
    var t := tools[c.name];
    && p.call == c
    && p.kind == (if t.handoff then Handoff else if t.confirm then Confirmation else UserInput)
    && p.inputKey == (if t.inputKey.Some? && t.inputKey.value != "" then t.inputKey else None)
  }

  lemma {:induction false} GateMeans(c: ToolCall, tools: map<string, Tool>)
    ensures GateOf(c, tools).Some? <==> NeedsDecision(c, tools)
    ensures NeedsDecision(c, tools) ==> HeldFor(MakePending(c, tools[c.name]), c, tools)
  {
  }

  lemma {:induction false} HeldIsGated(calls: seq<ToolCall>, tools: map<string, Tool>, g: nat)
    requires FirstHeld(calls, tools, g)
    ensures FirstGated(calls, tools) == g
  {
    var p := FirstGated(calls, tools);
    forall i | 0 <= i < |calls|
      ensures GateOf(calls[i], tools).Some? <==> NeedsDecision(calls[i], tools)
    {
      GateMeans(calls[i], tools);
    }
  }

  // What the answers before the held-back call say.
  lemma {:induction false} EarlyTold(plan: ToolPlan, before: seq<ToolCall>, after: seq<ToolCall>,
                                     tools: map<string, Tool>, run: (Tool, ToolCall) -> ToolResult, m: Message,
                                     c: ToolCall)
    requires DistinctIds(before) && Ids(before) !! Ids(after) && c in before && GateOf(c, tools).None?
    requires plan.executable == Runnable(before, tools)
    requires plan.immediate == SkipAll(after, Refusals(before, tools))
    requires c in plan.executable ==> c.name in tools && Tells(m, c.id, run(tools[c.name], c))
    requires c !in plan.executable && c.id in plan.immediate ==> Tells(m, c.id, plan.immediate[c.id])
    ensures CallTold(m, c, tools, run, false)
  {
    RunnableSound(before, tools);
    RefusalsSound(before, tools);
    SkipSound(after, Refusals(before, tools));
    assert c.id in Ids(before);
  }

  lemma {:induction false} LateTold(plan: ToolPlan, before: seq<ToolCall>, after: seq<ToolCall>,
                                    tools: map<string, Tool>, run: (Tool, ToolCall) -> ToolResult, m: Message,
                                    c: ToolCall)
    requires Ids(before) !! Ids(after) && c in after
    requires plan.executable == Runnable(before, tools)
    requires plan.immediate == SkipAll(after, Refusals(before, tools))
    requires c !in plan.executable && c.id in plan.immediate ==> Tells(m, c.id, plan.immediate[c.id])
    ensures CallTold(m, c, tools, run, true)
  {
    RunnableSound(before, tools);
    SkipSound(after, Refusals(before, tools));
    assert c.id in Ids(after);
    forall d | d in before
      ensures d.id != c.id
    {
      assert d.id in Ids(before);
    }
  }

  // The plan, when the first n calls are admitted and call g is the first that needs a decision.
  lemma {:induction false} PlanMeans(calls: seq<ToolCall>, tools: map<string, Tool>, recorded: nat, max: nat, n: nat,
                                     g: nat)
    requires DistinctIds(calls)
    requires n == if recorded >= max then 0 else if |calls| <= max - recorded then |calls| else max - recorded
    requires FirstHeld(calls[..n], tools, g)
    ensures var plan := PlanOf(calls, tools, recorded, max);
            var before, after := calls[..g], if g < n then calls[g + 1..n] else [];
            && plan.ordered == before + after && plan.executable == Runnable(before, tools)
            && plan.immediate == SkipAll(after, Refusals(before, tools))
            && plan.exceeded == (n < |calls|)
            && (if g < n then plan.pending.Some? && HeldFor(plan.pending.value, calls[g], tools)
                else plan.pending.None?)
            && DistinctIds(before) && Ids(before) !! Ids(after) && DistinctIds(before + after)
  {
    var admitted := calls[..n];
    HeldIsGated(admitted, tools, g);
    forall i | 0 <= i < g
      ensures GateOf(calls[..g][i], tools).None?
    {
      assert calls[..g][i] == admitted[i];
    }
    assert DistinctIds(calls[..g]);
    if g < n {
      assert admitted[g] == calls[g] && admitted[g + 1..] == calls[g + 1..n] && admitted[..g] == calls[..g];
      GateMeans(calls[g], tools);
      SplitDistinct(admitted, g);
      PlanWithGate(calls, tools, recorded, max, g);
    } else {
      assert Ids([]) == {} && calls[..g] + [] == calls[..g];
      PlanWithoutGate(calls, tools, recorded, max, g);
      assert SkipAll([], Refusals(calls[..g], tools)) == Refusals(calls[..g], tools);
    }
  }

  // Where a planned call stands among the answers.
  lemma {:induction false} PlaceOf(calls: seq<ToolCall>, n: nat, g: nat, i: nat)
    requires g <= n <= |calls| && i < n && i != g
    ensures var after := if g < n then calls[g + 1..n] else [];
            var k := if i < g then i else i - 1;
            k < |calls[..g] + after| && (calls[..g] + after)[k] == calls[i]
            && (if i < g then calls[i] in calls[..g] else calls[i] in after)
  {
    if i < g {
      assert calls[..g][i] == calls[i];
    } else {
      assert calls[g + 1..n][i - g - 1] == calls[i];
    }
  }

  // What answer k says about call i.
  lemma {:induction false} OneTold(calls: seq<ToolCall>, tools: map<string, Tool>, run: (Tool, ToolCall) -> ToolResult,
                                   plan: ToolPlan, n: nat, g: nat, i: nat, m: Message)
    requires g <= n <= |calls| && i < n && i != g && FirstHeld(calls[..n], tools, g)
    requires var before, after := calls[..g], if g < n then calls[g + 1..n] else [];
             && plan.executable == Runnable(before, tools) && plan.immediate == SkipAll(after, Refusals(before, tools))
             && DistinctIds(before) && Ids(before) !! Ids(after)
    requires calls[i] in plan.executable ==>
               calls[i].name in tools && Tells(m, calls[i].id, run(tools[calls[i].name], calls[i]))
    requires calls[i] !in plan.executable && calls[i].id in plan.immediate ==>
               Tells(m, calls[i].id, plan.immediate[calls[i].id])
    ensures CallTold(m, calls[i], tools, run, i > g)
  {
    var before, after := calls[..g], if g < n then calls[g + 1..n] else [];
    PlaceOf(calls, n, g, i);
    if i < g {
      assert calls[..n][i] == calls[i];
      GateMeans(calls[i], tools);
      EarlyTold(plan, before, after, tools, run, m, calls[i]);
    } else {
      LateTold(plan, before, after, tools, run, m, calls[i]);
    }
  }

  /** What a turn with calls adds to the conversation, said of the calls themselves: the model's message,
      and for each admitted call but the one that waits, in order, what its own run gave, its error, that
      there is no such tool, or that another call waits. */
  lemma {:induction false} TurnTells(text: string, calls: seq<ToolCall>, tools: map<string, Tool>, recorded: nat,
                                     max: nat, run: (Tool, ToolCall) -> ToolResult, n: nat, g: nat)
    requires DistinctIds(calls)
    requires n == if recorded >= max then 0 else if |calls| <= max - recorded then |calls| else max - recorded
    requires FirstHeld(calls[..n], tools, g)
    requires forall c :: c in PlanOf(calls, tools, recorded, max).executable ==> c.name in tools
    ensures var plan := PlanOf(calls, tools, recorded, max);
            TurnTold([AssistantMessage(text, calls)] + Answered(plan.ordered, Results(plan, tools, run)), text, calls,
                     tools, run, n, g)
  {
    var plan := PlanOf(calls, tools, recorded, max);
    PlanMeans(calls, tools, recorded, max, n, g);
    AnswersTell(calls, tools, run, plan, n, g);
    MessageFirst(text, calls, tools, run, n, g, Answered(plan.ordered, Results(plan, tools, run)));
  }

  lemma {:induction false} MessageFirst(text: string, calls: seq<ToolCall>, tools: map<string, Tool>,
                                        run: (Tool, ToolCall) -> ToolResult, n: nat, g: nat, answers: seq<Message>)
    requires g <= n <= |calls| && |answers| == (if g < n then n - 1 else n)
    requires forall i :: 0 <= i < n && i != g ==>
               CallTold(answers[if i < g then i else i - 1], calls[i], tools, run, i > g)
    ensures TurnTold([AssistantMessage(text, calls)] + answers, text, calls, tools, run, n, g)
  {
    var added := [AssistantMessage(text, calls)] + answers;
    forall i | 0 <= i < n && i != g
      ensures CallTold(added[if i < g then i + 1 else i], calls[i], tools, run, i > g)
    {
      var k := if i < g then i else i - 1;
      assert added[k + 1] == answers[k];
      assert CallTold(answers[if i < g then i else i - 1], calls[i], tools, run, i > g);
    }
  }

  lemma {:induction false} AnswersTell(calls: seq<ToolCall>, tools: map<string, Tool>,
                                       run: (Tool, ToolCall) -> ToolResult, plan: ToolPlan, n: nat, g: nat)
    requires g <= n <= |calls| && FirstHeld(calls[..n], tools, g)
    requires forall c :: c in plan.executable ==> c.name in tools
    requires var before, after := calls[..g], if g < n then calls[g + 1..n] else [];
             && plan.executable == Runnable(before, tools) && plan.immediate == SkipAll(after, Refusals(before, tools))
             && DistinctIds(before) && Ids(before) !! Ids(after)
             && plan.ordered == before + after && DistinctIds(plan.ordered)
    ensures var answers := Answered(plan.ordered, Results(plan, tools, run));
            && |answers| == (if g < n then n - 1 else n)
            && forall i :: 0 <= i < n && i != g ==>
                 CallTold(answers[if i < g then i else i - 1], calls[i], tools, run, i > g)
  {
    RunnableSound(calls[..g], tools);
    PlannedTell(plan, tools, run);
    var answers := Answered(plan.ordered, Results(plan, tools, run));
    forall i | 0 <= i < n && i != g
      ensures CallTold(answers[if i < g then i else i - 1], calls[i], tools, run, i > g)
    {
      PlaceOf(calls, n, g, i);
      OneTold(calls, tools, run, plan, n, g, i, answers[if i < g then i else i - 1]);
    }
  }

  // ---- What a turn does to the conversation -----------------------------------------------------

  lemma {:induction false} LastDistinct(calls: seq<ToolCall>)
    requires calls != [] && DistinctIds(calls)
    ensures var pre, c := calls[..|calls| - 1], calls[|calls| - 1];
            DistinctIds(pre) && c.id !in Ids(pre) && Ids(calls) == Ids(pre) + {c.id}
  {
    var pre, c := calls[..|calls| - 1], calls[|calls| - 1];
    assert calls == pre + [c];
    forall d | d in pre
      ensures d.id != c.id
    {
      var k :| 0 <= k < |pre| && pre[k] == d;
      assert calls[k] == d;
    }
  }

  lemma {:induction false} ReadAnswer(l: Ledger, done: set<string>, id: string, text: string)
    requires l.ok && id in l.open && id !in done
    ensures Read(Ledger(l.declared, l.open - done, true), ToolMessage(id, text))
            == Ledger(l.declared, l.open - (done + {id}), true)
  {
    assert l.open - done - {id} == l.open - (done + {id});
  }

  lemma {:induction false} AnswersClose(l: Ledger, calls: seq<ToolCall>, results: map<string, ToolResult>)
    requires l.ok && DistinctIds(calls) && Ids(calls) <= l.open
    ensures ReadAll(l, Answered(calls, results)) == Ledger(l.declared, l.open - Ids(calls), true)
    decreases |calls|
  {
    if calls == [] {
      assert Ids(calls) == {};
    } else {
      var pre, c := calls[..|calls| - 1], calls[|calls| - 1];
      LastDistinct(calls);
      AnswersClose(l, pre, results);
      var text := ResultText(ResultFor(c, results));
      var answers := Answered(calls, results);
      assert answers[..|answers| - 1] == Answered(pre, results);
      assert answers[|answers| - 1] == ToolMessage(c.id, text);
      ReadAnswer(l, Ids(pre), c.id, text);
    }
  }

  /** After a turn that stays within the call budget, exactly the held-back call is open. */
  lemma {:induction false} TurnKeepsPairing(ms: seq<Message>, text: string, calls: seq<ToolCall>,
                                            tools: map<string, Tool>, recorded: nat, max: nat,
                                            results: map<string, ToolResult>)
    requires Paired(ms, {}) && DistinctIds(calls) && Ids(calls) !! ReadAll(EMPTY, ms).declared
    requires !PlanOf(calls, tools, recorded, max).exceeded
    ensures var plan := PlanOf(calls, tools, recorded, max);
            var after := ms + [AssistantMessage(text, calls)] + Answered(plan.ordered, results);
            && Paired(after, if plan.pending.Some? then {plan.pending.value.call.id} else {})
            && ReadAll(EMPTY, after).declared == ReadAll(EMPTY, ms).declared + Ids(calls)
  {
    var plan := PlanOf(calls, tools, recorded, max);
    var m := AssistantMessage(text, calls);
    var open := if plan.pending.Some? then {plan.pending.value.call.id} else {};
    PlanIsSafe(calls, tools, recorded, max);
    assert calls[..|calls|] == calls;
    LedgerIsPairing(ms, {});
    ReadAppend(EMPTY, ms, [m]);
    ReadOne(ReadAll(EMPTY, ms), m);
    var l := ReadAll(EMPTY, ms + [m]);
    OpenIds(calls, plan);
    AnswersClose(l, plan.ordered, results);
    ReadAppend(EMPTY, ms + [m], Answered(plan.ordered, results));
    LedgerIsPairing(ms + [m] + Answered(plan.ordered, results), open);
  }

  lemma {:induction false} OpenIds(calls: seq<ToolCall>, plan: ToolPlan)
    requires DistinctIds(calls)
    requires forall c :: c in calls <==> c in plan.ordered || (plan.pending.Some? && c == plan.pending.value.call)
    requires plan.pending.Some? ==> plan.pending.value.call !in plan.ordered
    ensures Ids(plan.ordered) <= Ids(calls)
    ensures Ids(calls) - Ids(plan.ordered) == if plan.pending.Some? then {plan.pending.value.call.id} else {}
  {
    if plan.pending.Some? {
      var held := plan.pending.value.call;
      forall c | c in plan.ordered
        ensures c.id != held.id
      {
        var i :| 0 <= i < |calls| && calls[i] == c;
        var j :| 0 <= j < |calls| && calls[j] == held;
        assert i != j;
      }
    }
  }
}
