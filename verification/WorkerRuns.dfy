/** Whole runs of a worker: pausing, storing, resuming, handing over, and sessions of several jobs
    (worker_runner.py, worker_messages.py, workforce.py, session.py). */
module WorkerRuns {
  import opened Common
  import opened Conversation
  import opened Compaction
  import opened WorkerTools
  import opened ToolOverrides
  import opened WorkerTurn
  import opened WorkerRunner
  import opened WorkerSafety

  // ---- A run on values --------------------------------------------------------------------------

  // How a decision lets a pending call run: with the input put under its key, or as it is.
  function ResumedCall(pending: Pending, decision: Decision): ToolCall {
    if pending.kind == UserInput then UpdateArguments(pending.call, ResumeArgumentKey(pending), AsArgument(decision))
    else pending.call
  }

  predicate RunsOnResume(found: Option<Tool>, pending: Pending, decision: Decision) {
    found.Some? && !(pending.kind == Confirmation && !Approved(decision))
  }

  // What a resume adds: one answer, that the tool is gone, that it was declined, or what the tool gave for
  // the call with the input; and an execution in the last case only.
  ghost predicate PendingTold(model: Model, before: Core, after: Core, found: Option<Tool>, pending: Pending,
                              decision: Decision)
  {
    && |after.messages| == |before.messages| + 1 && after.messages[..|before.messages|] == before.messages
    && var m, id := after.messages[|before.messages|], pending.call.id;
       if found.None? then
         TellsError(m, id, "Tool not found: " + pending.call.name) && after.executions == before.executions
       else if pending.kind == Confirmation && !Approved(decision) then
         TellsError(m, id, "Tool execution declined") && after.executions == before.executions
       else
         && |after.executions| == |before.executions| + 1
         && after.executions[..|before.executions|] == before.executions
         && var e := after.executions[|before.executions|];
            && e.tool == found.value && e.via == Resumed(pending, decision)
            && (if pending.kind == UserInput then HasInput(e.call, pending, decision) else e.call == pending.call)
            && Tells(m, id, model.run(e.tool, e.call))
  }

  // The pending call gets its answer, and a resumed run may be summarized anew.
  function PendingAnswered(model: Model, c: Core, found: Option<Tool>, pending: Pending, decision: Decision): Core {
    var runs := RunsOnResume(found, pending, decision);
    var call := if runs then ResumedCall(pending, decision) else pending.call;
    var result :=
      if runs then model.run(found.value, call)
      else if found.None? then Refused("Tool not found: " + pending.call.name)
      else Refused("Tool execution declined");
    Core(c.messages + [ToolMessage(pending.call.id, ResultText(result))],
         Replaced(c.toolCalls, call.(result := Some(result), error := result.error)),
         0,
         c.executions + if runs then [Execution(call, found.value, Resumed(pending, decision))] else [])
  }

  function ResumeOf(model: Model, config: Config, belt: Toolbelt, items: Option<seq<Item>>, stop: Stop,
                    decision: Decision): Stop
    requires stop.outcome.Waiting?
  {
    var pending := stop.outcome.pending;
    var found := ResumeTool(belt, items, pending.call.name);
    LoopOf(model, config, Allowed(belt, items), PendingAnswered(model, stop.core, found, pending, decision),
           stop.iteration, stop.run, stop.turn)
  }

  // A run, with the list of its job: where it stopped. And how a pause is answered: the decision, and
  // where the resume takes the run from.
  datatype JobRun = JobRun(stop: Stop, items: Option<seq<Item>>)

  datatype Resumption = Resumption(decision: Decision, way: Way)

  function ResumedRun(model: Model, config: Config, belt: Toolbelt, run: JobRun, how: Resumption): JobRun
    requires run.stop.outcome.Waiting?
  {
    var items := Seen(run.items, how.way);
    JobRun(ResumeOf(model, config, belt, items, run.stop, how.decision), items)
  }

  // A run goes on as long as it waits and there is a decision.
  function RunOf(model: Model, config: Config, belt: Toolbelt, run: JobRun, hows: seq<Resumption>): JobRun
    decreases |hows|
  {
    if hows == [] || !run.stop.outcome.Waiting? then run
    else RunOf(model, config, belt, ResumedRun(model, config, belt, run, hows[0]), hows[1..])
  }

  function StartOf(model: Model, config: Config, belt: Toolbelt, items: Option<seq<Item>>, initial: seq<Message>,
                   system: Option<string>, input: string, first: nat): JobRun
  {
    JobRun(LoopOf(model, config, Allowed(belt, items), Core(BuildMessages(initial, system, input), [], 0, []), 0, [],
                  first),
           items)
  }

  // ---- What a whole run keeps -------------------------------------------------------------------

  lemma {:induction false} AnswerKeeps(model: Model, ms: seq<Message>, id: string, text: string, turn: nat)
    requires Conversing(model, ms, {id}, turn)
    ensures Conversing(model, ms + [ToolMessage(id, text)], {}, turn)
  {
    var m := ToolMessage(id, text);
    LedgerIsPairing(ms, {id});
    ReadAppend(EMPTY, ms, [m]);
    ReadOne(ReadAll(EMPTY, ms), m);
    assert {id} - {id} == {};
    LedgerIsPairing(ms + [m], {});
  }

  lemma {:induction false} OneMoreRun(model: Model, es: seq<Execution>, e: Execution, turn: nat)
    requires OnceEach(model, es, turn) && NotRun(es, e.call.id) && model.turnOf(e.call.id) < turn
    ensures OnceEach(model, es + [e], turn) && (Safe(e) ==> SafeStill(es, es + [e]))
  {
  }

  lemma {:induction false} PendingIsEarlier(model: Model, ms: seq<Message>, id: string, turn: nat)
    requires Conversing(model, ms, {id}, turn)
    ensures model.turnOf(id) < turn
  {
    LedgerIsPairing(ms, {id});
    OpenDeclared(ms);
    assert id in ReadAll(EMPTY, ms).open;
  }

  // The tool that a resume finds has the pending call's name, and no gate or the one it waits behind.
  predicate BehindGate(found: Option<Tool>, pending: Pending) {
    found.Some? ==>
      && found.value.name == pending.call.name
      && (ActionType(found.value).None? || ActionType(found.value) == Some(pending.kind))
  }

  lemma {:induction false} ResumedIsSafe(found: Tool, pending: Pending, decision: Decision)
    requires BehindGate(Some(found), pending) && RunsOnResume(Some(found), pending, decision)
    ensures Safe(Execution(ResumedCall(pending, decision), found, Resumed(pending, decision)))
  {
  }

  /** Answering the pending call leaves nothing open and runs no tool a second time, whatever tool a resume
      finds; with a tool behind the same gate it runs only behind an approving decision or with its input. */
  lemma {:induction false} PendingAnsweredKeeps(model: Model, config: Config, tools: map<string, Tool>, stop: Stop,
          found: Option<Tool>, decision: Decision)
    requires Stopped(model, config, tools, stop) && stop.outcome.Waiting?
    ensures var c := PendingAnswered(model, stop.core, found, stop.outcome.pending, decision);
            && Running(model, config, c, stop.iteration, stop.turn)
            && stop.core.executions <= c.executions
            && (BehindGate(found, stop.outcome.pending) ==> SafeStill(stop.core.executions, c.executions))
  {
    var pending := stop.outcome.pending;
    var c := PendingAnswered(model, stop.core, found, pending, decision);
    PendingIsEarlier(model, stop.core.messages, pending.call.id, stop.turn);
    AnswerKeeps(model, stop.core.messages, pending.call.id, c.messages[|stop.core.messages|].content, stop.turn);
    if RunsOnResume(found, pending, decision) {
      if BehindGate(found, pending) {
        ResumedIsSafe(found.value, pending, decision);
      }
      OneMoreRun(model, stop.core.executions,
                 Execution(ResumedCall(pending, decision), found.value, Resumed(pending, decision)), stop.turn);
    } else {
      assert c.executions == stop.core.executions;
    }
  }

  // A resume from the list `seen` meets the gates that were planned from `items`: what it finds under the
  // name of a gated tool has the same gate, or none, or is gone.
  ghost predicate GateKept(belt: Toolbelt, items: Option<seq<Item>>, seen: Option<seq<Item>>) {
    forall n :: n in Allowed(belt, items) && ActionType(Allowed(belt, items)[n]).Some? ==>
      var found := ResumeTool(belt, seen, n);
      found.Some? && ActionType(found.value).Some? ==> ActionType(found.value) == ActionType(Allowed(belt, items)[n])
  }

  // Every resume of a run meets them.
  ghost predicate GatesKept(belt: Toolbelt, items: Option<seq<Item>>, hows: seq<Resumption>)
    decreases |hows|
  {
    hows != [] ==>
      var seen := Seen(items, hows[0].way);
      GateKept(belt, items, seen) && GatesKept(belt, seen, hows[1..])
  }

  lemma {:induction false} FoundIsNamed(belt: Toolbelt, items: Option<seq<Item>>, name: string)
    requires ValidBelt(belt)
    ensures var found := ResumeTool(belt, items, name); found.Some? ==> found.value.name == name
    decreases if items.Some? then |items.value| else 0
  {
    if items.Some? && items.value != [] && ItemName(items.value[0]) != name {
      FoundIsNamed(belt, Some(items.value[1..]), name);
    }
  }

  // A resume from any list at all.
  lemma {:induction false} ResumeStops(model: Model, config: Config, belt: Toolbelt, tools: map<string, Tool>,
                                       seen: Option<seq<Item>>, stop: Stop, decision: Decision)
    requires FreshModel(model) && ValidBelt(belt)
    requires Stopped(model, config, tools, stop) && stop.outcome.Waiting?
    ensures var next := ResumeOf(model, config, belt, seen, stop, decision);
            && Stopped(model, config, Allowed(belt, seen), next)
            && stop.run <= next.run
            && |next.run| - |stop.run| <= next.turn - stop.turn <= next.iteration - stop.iteration
            && stop.core.executions <= next.core.executions
            && (BehindGate(ResumeTool(belt, seen, stop.outcome.pending.call.name), stop.outcome.pending) ==>
                  SafeStill(stop.core.executions, next.core.executions))
  {
    var found := ResumeTool(belt, seen, stop.outcome.pending.call.name);
    PendingAnsweredKeeps(model, config, tools, stop, found, decision);
    LoopKeeps(model, config, Allowed(belt, seen),
              PendingAnswered(model, stop.core, found, stop.outcome.pending, decision), stop.iteration, stop.run,
              stop.turn);
  }

  lemma {:induction false} ResumeKeeps(model: Model, config: Config, belt: Toolbelt, run: JobRun, how: Resumption)
    requires FreshModel(model) && ValidBelt(belt)
    requires Stopped(model, config, Allowed(belt, run.items), run.stop) && run.stop.outcome.Waiting?
    ensures var next := ResumedRun(model, config, belt, run, how);
            && Stopped(model, config, Allowed(belt, next.items), next.stop)
            && run.stop.run <= next.stop.run
            && |next.stop.run| - |run.stop.run| <= next.stop.turn - run.stop.turn
               <= next.stop.iteration - run.stop.iteration
            && run.stop.core.executions <= next.stop.core.executions
            && (GateKept(belt, run.items, next.items) ==>
                  SafeStill(run.stop.core.executions, next.stop.core.executions))
  {
    FoundIsNamed(belt, Seen(run.items, how.way), run.stop.outcome.pending.call.name);
    ResumeStops(model, config, belt, Allowed(belt, run.items), Seen(run.items, how.way), run.stop, how.decision);
  }

  lemma {:induction false} RunKeeps(model: Model, config: Config, belt: Toolbelt, run: JobRun, hows: seq<Resumption>)
    requires FreshModel(model) && ValidBelt(belt)
    requires Stopped(model, config, Allowed(belt, run.items), run.stop)
    ensures var end := RunOf(model, config, belt, run, hows);
            && Stopped(model, config, Allowed(belt, end.items), end.stop)
            && run.stop.run <= end.stop.run
            && |end.stop.run| - |run.stop.run| <= end.stop.turn - run.stop.turn
               <= end.stop.iteration - run.stop.iteration
            && run.stop.core.executions <= end.stop.core.executions
            && (GatesKept(belt, run.items, hows) ==> SafeStill(run.stop.core.executions, end.stop.core.executions))
    decreases |hows|
  {
    if hows != [] && run.stop.outcome.Waiting? {
      ResumeKeeps(model, config, belt, run, hows[0]);
      RunKeeps(model, config, belt, ResumedRun(model, config, belt, run, hows[0]), hows[1..]);
    }
  }

  /** A run from its start through any number of pauses, with any list of tools and each resume from
      wherever the run was kept: calls and answers are paired (up to the one pending call of a paused run);
      turns, calls and summaries stay in their limits over the whole run; no call ran twice; every recorded
      turn began within the budget; and if every resume meets the gates that were planned, no gated tool
      ran but in a resume of its own pause, with approval or input. */
  lemma {:induction false} WholeRunIsSafe(model: Model, config: Config, belt: Toolbelt, items: Option<seq<Item>>,
                                          initial: seq<Message>, system: Option<string>, input: string,
                                          hows: seq<Resumption>, first: nat)
    requires FreshModel(model) && ValidBelt(belt)
    requires Conversing(model, initial, {}, first)
    ensures var end := RunOf(model, config, belt,
                             StartOf(model, config, belt, items, initial, system, input, first), hows);
            && Stopped(model, config, Allowed(belt, end.items), end.stop)
            && |end.stop.run| <= end.stop.turn - first <= end.stop.iteration <= config.maxIterations
            && (GatesKept(belt, items, hows) ==> AllSafe(end.stop.core.executions))
  {
    StartKeeps(model, config, belt, items, initial, system, input, first);
    RunKeeps(model, config, belt, StartOf(model, config, belt, items, initial, system, input, first), hows);
  }

  lemma {:induction false} StartKeeps(model: Model, config: Config, belt: Toolbelt, items: Option<seq<Item>>,
                                      initial: seq<Message>, system: Option<string>, input: string, first: nat)
    requires FreshModel(model) && Conversing(model, initial, {}, first)
    ensures var start := StartOf(model, config, belt, items, initial, system, input, first).stop;
            && Stopped(model, config, Allowed(belt, items), start) && AllSafe(start.core.executions)
            && |start.run| <= start.turn - first <= start.iteration
  {
    BuildKeeps(model, initial, system, input, first);
    LoopKeeps(model, config, Allowed(belt, items), Core(BuildMessages(initial, system, input), [], 0, []), 0, [],
              first);
  }

  // ---- Which lists keep the gates ---------------------------------------------------------------

  // Whatever the model, the messages and the decision: one pause and its resume run no tool past its gate.
  ghost predicate RunsSafely(config: Config, belt: Toolbelt, items: Option<seq<Item>>, way: Way) {
    forall model, initial, system, input, first, decision ::
      FreshModel(model) && Conversing(model, initial, {}, first) ==>
        AllSafe(RunOf(model, config, belt, StartOf(model, config, belt, items, initial, system, input, first),
                      [Resumption(decision, way)]).stop.core.executions)
  }

  // A model that calls one tool, once.
  function CallsOnce(name: string): Model {
    Model((ms, t) => if t == 0 then Calls("", [ToolCall("c", name, map[], None, None)], None) else Final("", None),
          (ms, t) => None, (tool, call) => ToolResult(None, None), id => 0)
  }

  predicate Starts(config: Config) {
    config.maxIterations >= 1 && config.maxToolCalls >= 1 && (config.budget.Some? ==> config.budget.value >= 0.0)
  }

  lemma {:induction false} OneCallHeld(call: ToolCall, tools: map<string, Tool>, max: nat)
    requires max >= 1 && GateOf(call, tools).Some?
    ensures PlanOf([call], tools, 0, max)
            == ToolPlan([], [], map[], Some(MakePending(call, tools[call.name])), false)
  {
    var admitted := [call][..1];
    assert admitted == [call] && admitted[..0] == [] && admitted[1..] == [];
    assert FirstGated(admitted, tools) == 0;
    assert SkipAll([], map[]) == map[];
  }

  // The turn in which a single gated call is held back.
  lemma {:induction false} TurnHolds(model: Model, config: Config, tools: map<string, Tool>, c: Core, call: ToolCall)
    requires c.toolCalls == [] && c.executions == [] && config.maxToolCalls >= 1 && GateOf(call, tools).Some?
    ensures var (stop, after) := CallsReplied(model, config, tools, c, "", [call]);
            stop == Some(Waiting(MakePending(call, tools[call.name]))) && after.executions == []
  {
    OneCallHeld(call, tools, config.maxToolCalls);
    ExecutableHaveTools([call], tools, 0, config.maxToolCalls);
    assert PlannedRuns([], tools) == [];
  }

  lemma {:induction false} CallsOncePauses(config: Config, belt: Toolbelt, items: Option<seq<Item>>, name: string)
    requires Starts(config) && name in Allowed(belt, items) && ActionType(Allowed(belt, items)[name]).Some?
    ensures FreshModel(CallsOnce(name)) && Conversing(CallsOnce(name), [], {}, 0)
    ensures var stop := StartOf(CallsOnce(name), config, belt, items, [], None, "", 0).stop;
            && stop.outcome == Waiting(MakePending(ToolCall("c", name, map[], None, None), Allowed(belt, items)[name]))
            && stop.core.executions == []
  {
    var model, tools, call := CallsOnce(name), Allowed(belt, items), ToolCall("c", name, map[], None, None);
    LedgerIsPairing([], {});
    var c := Core(BuildMessages([], None, ""), [], 0, []);
    var short := c.(messages := Shortened(model, config, c.messages, 0));
    TurnHolds(model, config, tools, short, call);
    assert model.respond(short.messages, 0) == Calls("", [call], None);
    assert TurnOf(model, config, tools, c, 0) == CallsReplied(model, config, tools, short, "", [call]);
    LoopStep(model, config, tools, c, 0, [], 0);
  }

  // One resume is all there is.
  lemma {:induction false} RunOnce(model: Model, config: Config, belt: Toolbelt, run: JobRun, how: Resumption)
    requires run.stop.outcome.Waiting?
    ensures RunOf(model, config, belt, run, [how]) == ResumedRun(model, config, belt, run, how)
  {
    assert RunOf(model, config, belt, ResumedRun(model, config, belt, run, how), [])
           == ResumedRun(model, config, belt, run, how);
    assert [how][1..] == [];
  }

  // What an approving decision runs is run for good.
  lemma {:induction false} ApprovedRuns(model: Model, config: Config, belt: Toolbelt, run: JobRun, way: Way)
    requires FreshModel(model) && Stopped(model, config, Allowed(belt, run.items), run.stop)
    requires run.stop.outcome.Waiting? && run.stop.core.executions == []
    requires ResumeTool(belt, Seen(run.items, way), run.stop.outcome.pending.call.name).Some?
    ensures var pending := run.stop.outcome.pending;
            var found := ResumeTool(belt, Seen(run.items, way), pending.call.name).value;
            Execution(ResumedCall(pending, Yes), found, Resumed(pending, Yes))
            in ResumedRun(model, config, belt, run, Resumption(Yes, way)).stop.core.executions
  {
    var stop, seen := run.stop, Seen(run.items, way);
    var pending, found := stop.outcome.pending, ResumeTool(belt, seen, stop.outcome.pending.call.name);
    var c := PendingAnswered(model, stop.core, found, pending, Yes);
    PendingAnsweredKeeps(model, config, Allowed(belt, run.items), stop, found, Yes);
    LoopKeeps(model, config, Allowed(belt, seen), c, stop.iteration, stop.run, stop.turn);
    assert c.executions[0] == Execution(ResumedCall(pending, Yes), found.value, Resumed(pending, Yes));
  }

  lemma {:induction false} NotSafe(pending: Pending, found: Tool)
    requires ActionType(found).Some? && ActionType(found) != Some(pending.kind)
    ensures !Safe(Execution(ResumedCall(pending, Yes), found, Resumed(pending, Yes)))
  {
  }

  // If the resume finds another gate, an approving decision takes the call past it.
  lemma {:induction false} PastTheGate(model: Model, config: Config, belt: Toolbelt, run: JobRun, way: Way)
    requires FreshModel(model) && Stopped(model, config, Allowed(belt, run.items), run.stop)
    requires run.stop.outcome.Waiting? && run.stop.core.executions == []
    requires var found := ResumeTool(belt, Seen(run.items, way), run.stop.outcome.pending.call.name);
             && found.Some? && ActionType(found.value).Some?
             && ActionType(found.value) != Some(run.stop.outcome.pending.kind)
    ensures !AllSafe(RunOf(model, config, belt, run, [Resumption(Yes, way)]).stop.core.executions)
  {
    var pending := run.stop.outcome.pending;
    ApprovedRuns(model, config, belt, run, way);
    RunOnce(model, config, belt, run, Resumption(Yes, way));
    NotSafe(pending, ResumeTool(belt, Seen(run.items, way), pending.call.name).value);
  }

  lemma {:induction false} GateLost(config: Config, belt: Toolbelt, items: Option<seq<Item>>, way: Way, name: string)
    requires Starts(config) && ValidBelt(belt) && name in Allowed(belt, items)
    requires ActionType(Allowed(belt, items)[name]).Some?
    requires var found := ResumeTool(belt, Seen(items, way), name);
             && found.Some? && ActionType(found.value).Some?
             && ActionType(found.value) != ActionType(Allowed(belt, items)[name])
    ensures FreshModel(CallsOnce(name)) && Conversing(CallsOnce(name), [], {}, 0)
    ensures !AllSafe(RunOf(CallsOnce(name), config, belt,
                           StartOf(CallsOnce(name), config, belt, items, [], None, "", 0),
                           [Resumption(Yes, way)]).stop.core.executions)
  {
    CallsOncePauses(config, belt, items, name);
    StartKeeps(CallsOnce(name), config, belt, items, [], None, "", 0);
    PastTheGate(CallsOnce(name), config, belt, StartOf(CallsOnce(name), config, belt, items, [], None, "", 0), way);
  }

  /** A pause and its resume keep every gate, whatever the model does and whatever is decided, if and only
      if what the resume finds under the name of each gated tool has the same gate, or none, or is gone. */
  lemma {:induction false} RunsSafelyIff(config: Config, belt: Toolbelt, items: Option<seq<Item>>, way: Way)
    requires Starts(config) && ValidBelt(belt)
    ensures RunsSafely(config, belt, items, way) <==> GateKept(belt, items, Seen(items, way))
  {
    if GateKept(belt, items, Seen(items, way)) {
      forall model, initial, system, input, first, decision | FreshModel(model) && Conversing(model, initial, {}, first)
        ensures AllSafe(RunOf(model, config, belt, StartOf(model, config, belt, items, initial, system, input, first),
                              [Resumption(decision, way)]).stop.core.executions)
      {
        var hows := [Resumption(decision, way)];
        assert hows[1..] == [];
        assert GatesKept(belt, Seen(items, way), []);
        WholeRunIsSafe(model, config, belt, items, initial, system, input, hows, first);
      }
    } else {
      var name :| name in Allowed(belt, items) && ActionType(Allowed(belt, items)[name]).Some?
                  && var found := ResumeTool(belt, Seen(items, way), name);
                     && found.Some? && ActionType(found.value).Some?
                     && ActionType(found.value) != ActionType(Allowed(belt, items)[name]);
      GateLost(config, belt, items, way, name);
    }
  }

  // The toolbelt has no tool of the name of a listed one, or one without a gate or with the same gate.
  predicate SameGates(belt: Toolbelt, items: Option<seq<Item>>) {
    items.Some? ==> forall item :: item in items.value && item.ToolItem? ==>
      var name := item.tool.name;
      name in belt && ActionType(item.tool).Some? && ActionType(belt[name]).Some? ==>
        ActionType(belt[name]) == ActionType(item.tool)
  }

  lemma {:induction false} DistinctLookup(belt: Toolbelt, items: seq<Item>, k: nat)
    requires ValidBelt(belt) && DistinctNames(items) && k < |items|
    ensures Lookup(AllowedItems(belt, items), ItemName(items[k])) == ResolveItem(belt, items[k])
  {
    PlanningTakesLast(belt, items, ItemName(items[k]));
    if ResolveItem(belt, items[k]).Some? {
      assert LastResolving(belt, items, ItemName(items[k]), k);
    }
  }

  // With distinct names a resume finds what was planned, if its list is the same.
  lemma {:induction false} SameListKeepsGates(belt: Toolbelt, items: Option<seq<Item>>)
    requires ValidBelt(belt) && (items.Some? ==> DistinctNames(items.value))
    ensures GateKept(belt, items, items)
  {
    if items.Some? {
      forall n
        ensures Lookup(Allowed(belt, items), n) == ResumeTool(belt, items, n)
      {
        DistinctNamesAgree(belt, items.value, n);
      }
    }
  }

  /** With distinct names in the list, a resume from what was written meets the gates that were planned if
      and only if the toolbelt's tools of the same names have the same gates, as far as they have any. */
  lemma {:induction false} WrittenGatesIff(belt: Toolbelt, items: Option<seq<Item>>)
    requires ValidBelt(belt) && (items.Some? ==> DistinctNames(items.value))
    ensures GateKept(belt, items, Written(items)) <==> SameGates(belt, items)
  {
    if items.None? {
      SameListKeepsGates(belt, items);
    } else {
      var list := items.value;
      if SameGates(belt, items) {
        forall n | n in Allowed(belt, items) && ActionType(Allowed(belt, items)[n]).Some?
          ensures var found := ResumeTool(belt, Written(items), n);
                  found.Some? && ActionType(found.value).Some? ==>
                    ActionType(found.value) == ActionType(Allowed(belt, items)[n])
        {
          NamesResolve(belt, list, n);
          if Named(list, n) && n in belt {
            var k: nat :| k < |list| && ItemName(list[k]) == n;
            DistinctLookup(belt, list, k);
            assert list[k] in list;
          }
        }
      } else {
        var k: nat :| k < |list| && list[k].ToolItem? && list[k].tool.name in belt
                      && ActionType(list[k].tool).Some? && ActionType(belt[list[k].tool.name]).Some?
                      && ActionType(belt[list[k].tool.name]) != ActionType(list[k].tool);
        DistinctLookup(belt, list, k);
        NamesResolve(belt, list, ItemName(list[k]));
        assert Lookup(Allowed(belt, items), ItemName(list[k])) == Some(list[k].tool);
      }
    }
  }

  // A list of names keeps meeting its gates.
  lemma {:induction false} GatesOfNames(belt: Toolbelt, items: seq<Item>, hows: seq<Resumption>)
    requires ValidBelt(belt) && DistinctNames(items)
    ensures GatesKept(belt, Some(Names(items)), hows)
    decreases |hows|
  {
    if hows != [] {
      NamesStay(items, hows[0].way);
      SameListKeepsGates(belt, Some(Names(items)));
      GatesOfNames(belt, items, hows[1..]);
    }
  }

  /** With distinct names in the list every resume meets the gates that were planned, if the run never is
      resumed from what was written, or the toolbelt has the same gates. */
  lemma {:induction false} DistinctNamesKeepGates(belt: Toolbelt, items: Option<seq<Item>>, hows: seq<Resumption>)
    requires ValidBelt(belt) && (items.Some? ==> DistinctNames(items.value))
    requires SameGates(belt, items) || forall how :: how in hows ==> how.way != AsWritten
    ensures GatesKept(belt, items, hows)
    decreases |hows|
  {
    if hows != [] {
      assert hows[0] in hows;
      if hows[0].way == AsWritten {
        WrittenGatesIff(belt, items);
        if items.Some? {
          GatesOfNames(belt, items.value, hows[1..]);
        } else {
          DistinctNamesKeepGates(belt, items, hows[1..]);
        }
      } else {
        DeskPutsToolsBack(items, hows[0].way);
        SameListKeepsGates(belt, items);
        DistinctNamesKeepGates(belt, items, hows[1..]);
      }
    }
  }

  /** A listed tool that needs confirmation, over one of the same name in the toolbelt that needs input:
      after the run was written, approval runs the toolbelt's tool, which has got no input. */
  lemma {:induction false} ApprovedWithoutInput(config: Config, name: string)
    requires Starts(config)
    ensures var listed := Tool(name, false, true, false, None);
            var belt := map[name := Tool(name, false, false, true, None)];
            var items := Some([ToolItem(listed)]);
            && ValidBelt(belt) && DistinctNames(items.value) && !RunsSafely(config, belt, items, AsWritten)
            && forall way :: way != AsWritten ==> RunsSafely(config, belt, items, way)
  {
    var listed := Tool(name, false, true, false, None);
    var belt := map[name := Tool(name, false, false, true, None)];
    var items := Some([ToolItem(listed)]);
    assert items.value[0] == ToolItem(listed) && ToolItem(listed) in items.value;
    assert !SameGates(belt, items);
    WrittenGatesIff(belt, items);
    RunsSafelyIff(config, belt, items, AsWritten);
    SameListKeepsGates(belt, items);
    forall way | way != AsWritten
      ensures RunsSafely(config, belt, items, way)
    {
      DeskPutsToolsBack(items, way);
      RunsSafelyIff(config, belt, items, way);
    }
  }

  /** A listed tool that the toolbelt does not have: a resume from what was written answers its pending call
      with an error, whatever was decided, and runs nothing. */
  lemma {:induction false} LostToolIsRefused(model: Model, belt: Toolbelt, tool: Tool, c: Core, pending: Pending,
                                             decision: Decision)
    requires ValidBelt(belt) && tool.name !in belt && pending.call.name == tool.name
    ensures var found := ResumeTool(belt, Seen(Some([ToolItem(tool)]), AsWritten), tool.name);
            var after := PendingAnswered(model, c, found, pending, decision);
            && after.messages
               == c.messages + [ToolMessage(pending.call.id, ResultText(Refused("Tool not found: " + tool.name)))]
            && after.executions == c.executions
  {
    InstanceIsLost(belt, tool);
    assert c.executions + [] == c.executions;
  }

  // ---- When it does not matter where a run is kept ----------------------------------------------

  // The two lists stand for the same tools.
  ghost predicate SameToolset(belt: Toolbelt, items: Option<seq<Item>>, others: Option<seq<Item>>) {
    && Allowed(belt, items) == Allowed(belt, others)
    && forall n :: ResumeTool(belt, items, n) == ResumeTool(belt, others, n)
  }

  lemma {:induction false} SameToolsSeen(belt: Toolbelt, items: Option<seq<Item>>, seen: Option<seq<Item>>)
    requires ValidBelt(belt) && (items.Some? ==> DistinctNames(items.value)) && AllOwn(belt, items)
    requires ListOrNames(items, seen)
    ensures SameToolset(belt, items, seen)
  {
    if seen != items {
      SameTools(belt, items, AsWritten);
    }
  }

  /** If names are distinct and all listed tools are the toolbelt's own, a run does not depend on where it
      was kept and what was lost there, at any of its pauses. */
  lemma {:induction false} WhereKeptDoesNotMatter(model: Model, config: Config, belt: Toolbelt,
          items: Option<seq<Item>>, run: JobRun, other: JobRun, hows: seq<Resumption>, others: seq<Resumption>)
    requires ValidBelt(belt) && (items.Some? ==> DistinctNames(items.value)) && AllOwn(belt, items)
    requires run.stop == other.stop && ListOrNames(items, run.items) && ListOrNames(items, other.items)
    requires |hows| == |others| && forall k :: 0 <= k < |hows| ==> hows[k].decision == others[k].decision
    ensures RunOf(model, config, belt, run, hows).stop == RunOf(model, config, belt, other, others).stop
    decreases |hows|
  {
    if hows != [] && run.stop.outcome.Waiting? {
      StaysListOrNames(items, run.items, hows[0].way);
      StaysListOrNames(items, other.items, others[0].way);
      SameToolsSeen(belt, items, Seen(run.items, hows[0].way));
      SameToolsSeen(belt, items, Seen(other.items, others[0].way));
      WhereKeptDoesNotMatter(model, config, belt, items, ResumedRun(model, config, belt, run, hows[0]),
                             ResumedRun(model, config, belt, other, others[0]), hows[1..], others[1..]);
    }
  }

  // ---- Pausing and resuming in place ------------------------------------------------------------

  // What a stored run keeps, with the histories that only statements look at.
  datatype StoredRun = StoredRun(
    items: Option<seq<Item>>, messages: seq<Message>, toolCalls: seq<ToolCall>, iteration: nat,
    pending: Option<Pending>, spent: Option<real>, executions: seq<Execution>, ownTurns: seq<real>)

  function StoredCore(stored: StoredRun): Core {
    Core(stored.messages, stored.toolCalls, 0, stored.executions)
  }

  /** `pause`: all of the loop's state but the number of summaries survives, and the list of the job. */
  method Pause(state: LoopState, items: Option<seq<Item>>, pending: Pending) returns (stored: StoredRun)
    ensures StoredCore(stored) == CoreOf(state).(summaries := 0) && stored.iteration == state.iteration
    ensures stored.pending == Some(pending) && stored.items == items
    ensures stored.spent == state.spent && stored.ownTurns == state.ownTurns
  {
    stored := StoredRun(items, state.messages, state.toolCalls, state.iteration, Some(pending), state.spent,
                        state.executions, state.ownTurns);
  }

  lemma {:induction false} PendingTells(model: Model, c: Core, found: Option<Tool>, pending: Pending,
                                        decision: Decision)
    ensures PendingTold(model, c, PendingAnswered(model, c, found, pending, decision), found, pending, decision)
  {
    var after := PendingAnswered(model, c, found, pending, decision);
    if RunsOnResume(found, pending, decision) {
      var call := ResumedCall(pending, decision);
      AnswerTells(pending.call.id, model.run(found.value, call));
      assert after.executions[|c.executions|].call == call;
    } else {
      assert after.executions == c.executions + [] == c.executions;
    }
  }

  /** The first part of `aresume`; the call is among the recorded ones, so the source does not raise. */
  method AnswerPending(model: Model, state: LoopState, found: Option<Tool>, pending: Pending, decision: Decision)
    requires state.contextSummaries == 0 && RecordedCall(state.toolCalls, pending.call.id)
    modifies state`messages, state`toolCalls, state`executions
    ensures CoreOf(state) == PendingAnswered(model, old(CoreOf(state)), found, pending, decision)
    ensures PendingTold(model, old(CoreOf(state)), CoreOf(state), found, pending, decision)
  {
    PendingTells(model, CoreOf(state), found, pending, decision);
    var call, result := pending.call, Refused("");
    if found.None? {
      result := Refused("Tool not found: " + pending.call.name);
    } else if pending.kind == Confirmation && !Approved(decision) {
      result := Refused("Tool execution declined");
    } else {
      if pending.kind == UserInput {
        call := UpdateArguments(call, ResumeArgumentKey(pending), AsArgument(decision));
      }
      result := model.run(found.value, call);
      state.executions := state.executions + [Execution(call, found.value, Resumed(pending, decision))];
    }
    state.messages := state.messages + [ToolMessage(pending.call.id, ResultText(result))];
    var replaced := state.ReplaceToolCall(call.(result := Some(result), error := result.error));
    assert replaced;
  }

  /** `aresume`: the totals of the run are there already, or come back out of the stored state. */
  method ResumeWorker(model: Model, config: Config, belt: Toolbelt, stored: StoredRun, decision: Decision,
                      totals: RunTotals, first: nat)
    returns (state: LoopState, outcome: Outcome, turn: nat, ghost costs: seq<real>)
    requires stored.pending.Some? ==> RecordedCall(stored.toolCalls, stored.pending.value.call.id)
    requires stored.spent == Tally(stored.ownTurns)
    requires if totals.cost.Some? then totals.cost == Tally(totals.turns) else stored.spent == Tally(totals.turns)
    modifies totals
    ensures fresh(state) && Accounted(state, totals)
    ensures totals.turns == old(totals.turns) + costs && state.ownTurns == stored.ownTurns + costs
    ensures var stop := Stop(outcome, CoreOf(state), state.iteration, totals.turns, turn);
            if stored.pending.None? then
              stop == Stop(FailedRun("No pending action"), StoredCore(stored), stored.iteration, old(totals.turns),
                           first)
            else
              stop == ResumeOf(model, config, belt, stored.items,
                               Stop(Waiting(stored.pending.value), StoredCore(stored), stored.iteration,
                                    old(totals.turns), first),
                               decision)
  {
    totals.Restore(stored.spent);
    state := new LoopState(stored.messages, stored.toolCalls, stored.iteration, stored.spent, stored.executions,
                           stored.ownTurns);
    if stored.pending.None? {
      return state, FailedRun("No pending action"), first, [];
    }
    var pending := stored.pending.value;
    AnswerPending(model, state, ResumeTool(belt, stored.items, pending.call.name), pending, decision);
    outcome, turn, costs := RunLoop(model, config, Allowed(belt, stored.items), state, totals, first);
  }

  // The number of summaries, which a pause does not keep, is nothing that a resume looks at.
  lemma {:induction false} SummariesForgotten(model: Model, config: Config, belt: Toolbelt,
          items: Option<seq<Item>>, stop: Stop, decision: Decision)
    requires stop.outcome.Waiting?
    ensures ResumeOf(model, config, belt, items, stop.(core := stop.core.(summaries := 0)), decision)
            == ResumeOf(model, config, belt, items, stop, decision)
  {
  }

  // What the desk remembers of a run fits the list of its job.
  ghost predicate Remembers(desk: Desk, id: string, items: Option<seq<Item>>)
    reads desk
  {
    items.Some? && ToolsIn(items.value) == [] ==> id !in desk.runtimeTools
  }

  /** A paused run is kept and taken up again: from memory or the database by the desk that paused it, or by
      whoever has nothing but what was written; with the totals at hand or out of the stored state. It goes
      on as the paused run would have, with the tools of the list that this resume gets to see. */
  method StoreAndResume(model: Model, config: Config, belt: Toolbelt, run: JobRun, id: string, state: LoopState,
                        totals: RunTotals, desk: Desk, how: Resumption, reload: bool)
    returns (next: JobRun, state': LoopState, totals': RunTotals, desk': Desk)
    requires run.stop.outcome.Waiting? && RecordedCall(run.stop.core.toolCalls, run.stop.outcome.pending.call.id)
    requires run.stop == Stop(run.stop.outcome, CoreOf(state), state.iteration, totals.turns, run.stop.turn)
    requires Accounted(state, totals) && state.ownTurns == totals.turns && Remembers(desk, id, run.items)
    modifies totals, desk
    ensures next == ResumedRun(model, config, belt, run, how)
    ensures next.stop == Stop(next.stop.outcome, CoreOf(state'), state'.iteration, totals'.turns, next.stop.turn)
    ensures Accounted(state', totals') && state'.ownTurns == totals'.turns && Remembers(desk', id, next.items)
    ensures fresh(state') && (totals' == totals || fresh(totals')) && (desk' == desk || fresh(desk'))
  {
    var stored := Pause(state, run.items, run.stop.outcome.pending);
    var items;
    items, desk' := KeepList(run.items, id, desk, how.way);
    stored := stored.(items := items);
    SummariesForgotten(model, config, belt, items, run.stop, how.decision);
    totals' := totals;
    if reload {
      totals' := new RunTotals(totals.turns);
    }
    var outcome, turn;
    ghost var costs;
    state', outcome, turn, costs := ResumeWorker(model, config, belt, stored, how.decision, totals', run.stop.turn);
    next := JobRun(Stop(outcome, CoreOf(state'), state'.iteration, totals'.turns, turn), items);
  }

  // The list that a resume gets to see.
  method TakeList(items: Option<seq<Item>>, id: string, desk: Desk, way: Way) returns (seen: Option<seq<Item>>)
    requires items.Some? ==>
               if ToolsIn(items.value) == [] then id !in desk.runtimeTools
               else id in desk.runtimeTools && desk.runtimeTools[id] == ToolsIn(items.value)
    ensures seen == Seen(items, way)
  {
    match way
    case InMemory => seen := desk.Restore(id, items, items);
    case FromDatabase => seen := desk.Restore(id, Written(items), items);
    case AsWritten => seen := Written(items);
  }

  // The desk that paused the run remembers its tools; a new one remembers nothing.
  method KeepList(items: Option<seq<Item>>, id: string, desk: Desk, way: Way)
    returns (seen: Option<seq<Item>>, desk': Desk)
    requires Remembers(desk, id, items)
    modifies desk
    ensures seen == Seen(items, way) && Remembers(desk', id, seen)
    ensures desk' == desk || fresh(desk')
  {
    desk.Remember(id, items);
    seen := TakeList(items, id, desk, way);
    desk' := desk;
    if way == AsWritten {
      desk' := new Desk();
    }
    StillRemembers(items, way);
  }

  // A list without tools stays one.
  lemma {:induction false} StillRemembers(items: Option<seq<Item>>, way: Way)
    ensures items.Some? && Seen(items, way).Some? && ToolsIn(Seen(items, way).value) == [] && way != AsWritten ==>
              ToolsIn(items.value) == []
  {
    if items.Some? && way != AsWritten && ToolsIn(items.value) != [] {
      RuntimeOfTools(items.value);
      var tools := ToolsIn(items.value);
      assert tools[|tools| - 1].name in RuntimeTools(items.value);
      NoneAppended(items.value, items.value);
      NoneAppended(items.value, Names(items.value));
      SomeToolBack(items.value, RuntimeTools(items.value));
      SomeToolBack(Names(items.value), RuntimeTools(items.value));
    }
  }

  /** A run with its pauses: each resume takes it from wherever it was kept, and before some of them
      (`reloads` holds how many resumes are then left) the totals come out of the stored state, on which
      the run does not depend. */
  method RunJob(model: Model, config: Config, belt: Toolbelt, items: Option<seq<Item>>, initial: seq<Message>,
                system: Option<string>, input: string, id: string, hows: seq<Resumption>, reloads: set<nat>,
                first: nat)
    returns (run: JobRun, state: LoopState, totals: RunTotals)
    requires FreshModel(model) && ValidBelt(belt) && Conversing(model, initial, {}, first)
    ensures run == RunOf(model, config, belt, StartOf(model, config, belt, items, initial, system, input, first), hows)
    ensures run.stop.core == CoreOf(state) && run.stop.run == totals.turns && totals.cost == Tally(totals.turns)
  {
    StartKeeps(model, config, belt, items, initial, system, input, first);
    state := new LoopState(BuildMessages(initial, system, input), [], 0, None, [], []);
    totals := new RunTotals([]);
    var desk := new Desk();
    var outcome, turn;
    ghost var costs;
    outcome, turn, costs := RunLoop(model, config, Allowed(belt, items), state, totals, first);
    run := JobRun(Stop(outcome, CoreOf(state), state.iteration, totals.turns, turn), items);
    run, state, totals := AnswerPauses(model, config, belt, run, id, state, totals, desk, hows, reloads);
  }

  // Every pause of a run gets its decision, as long as there are any.
  method AnswerPauses(model: Model, config: Config, belt: Toolbelt, run: JobRun, id: string, state: LoopState,
                      totals: RunTotals, desk: Desk, hows: seq<Resumption>, reloads: set<nat>)
    returns (end: JobRun, state': LoopState, totals': RunTotals)
    requires FreshModel(model) && ValidBelt(belt)
    requires Stopped(model, config, Allowed(belt, run.items), run.stop)
    requires run.stop == Stop(run.stop.outcome, CoreOf(state), state.iteration, totals.turns, run.stop.turn)
    requires Accounted(state, totals) && state.ownTurns == totals.turns && Remembers(desk, id, run.items)
    modifies totals, desk
    ensures end == RunOf(model, config, belt, run, hows)
    ensures end.stop.core == CoreOf(state') && end.stop.run == totals'.turns && totals'.cost == Tally(totals'.turns)
    decreases |hows|
  {
    if hows == [] || !run.stop.outcome.Waiting? {
      return run, state, totals;
    }
    ResumeKeeps(model, config, belt, run, hows[0]);
    var next, desk';
    next, state', totals', desk' :=
      StoreAndResume(model, config, belt, run, id, state, totals, desk, hows[0], |hows| in reloads);
    end, state', totals' := AnswerPauses(model, config, belt, next, id, state', totals', desk', hows[1..], reloads);
  }

  // ---- Handing over -----------------------------------------------------------------------------

  // `_handoff_messages`
  function HandoffMessages(ms: seq<Message>, target: string, id: string): seq<Message> {
    Filter(ms, NotSystem) + [ToolMessage(id, "Transferred to " + target + ".")]
  }

  lemma {:induction false} FilterConverses(model: Model, ms: seq<Message>, open: set<string>, turn: nat,
                                           keep: Message -> bool)
    requires Conversing(model, ms, open, turn)
    requires forall m :: m in ms && !keep(m) ==> Neutral(m)
    ensures Conversing(model, Filter(ms, keep), open, turn)
  {
    LedgerIsPairing(ms, open);
    ReadFiltered(EMPTY, ms, keep);
    LedgerIsPairing(Filter(ms, keep), open);
  }

  /** What a worker that was handed a conversation starts from is fully paired again. */
  lemma {:induction false} HandoffKeepsPairing(model: Model, ms: seq<Message>, target: string, id: string,
          turn: nat)
    requires Conversing(model, ms, {id}, turn)
    ensures Conversing(model, HandoffMessages(ms, target, id), {}, turn)
    ensures forall m :: m in HandoffMessages(ms, target, id) ==> m.role != System
  {
    FilterConverses(model, ms, {id}, turn, NotSystem);
    AnswerKeeps(model, Filter(ms, NotSystem), id, "Transferred to " + target + ".", turn);
  }

  // ---- Sessions ---------------------------------------------------------------------------------

  // `_extract_conversation_messages`: which messages a session keeps.
  predicate KeptBySession(m: Message) {
    (m.role == System && m.summary) || m.role == User || m.role == Assistant
    || (m.role == ToolRole && m.toolCallId.Some? && m.toolCallId.value != "")
  }

  lemma {:induction false} DroppedIsNeutral(model: Model, ms: seq<Message>, open: set<string>, turn: nat,
                                            m: Message)
    requires Conversing(model, ms, open, turn) && m in ms && !KeptBySession(m)
    ensures Neutral(m)
  {
    if m.role == ToolRole && m.toolCallId == Some("") {
      var j :| 0 <= j < |ms| && ms[j] == m;
      assert Answers(ms[j], "");
      var i :| 0 <= i < j && Declares(ms[i], "");
      DeclaredNonEmpty(ms, "");
    }
  }

  // What a session holds after a job: only a completed run replaces it.
  function Persisted(stored: seq<Message>, outcome: Outcome, reported: seq<Message>): seq<Message> {
    if outcome.Done? then Filter(reported, KeptBySession) else stored
  }

  // A job is started, or a paused run of the session is resumed, be it of the last job or of an earlier one.
  datatype SessionAct =
    | Ask(items: Option<seq<Item>>, system: Option<string>, input: string)
    | Reply(run: nat, how: Resumption)

  // What is stored, the runs of the session as they stopped last, and the next turn.
  datatype SessionState = SessionState(stored: seq<Message>, runs: seq<JobRun>, turn: nat)

  const NEW_SESSION := SessionState([], [], 0)

  // A turn is later than all turns before, those of other runs too.
  function At(run: JobRun, turn: nat): JobRun {
    run.(stop := run.stop.(turn := turn))
  }

  // `run` and `resume`, each with `_persist_report`; what does not wait cannot be resumed.
  function Acted(model: Model, config: Config, belt: Toolbelt, s: SessionState, act: SessionAct): SessionState {
    match act
    case Ask(items, system, input) =>
      var run := StartOf(model, config, belt, items, s.stored, system, input, s.turn);
      SessionState(Persisted(s.stored, run.stop.outcome, run.stop.core.messages), s.runs + [run], run.stop.turn)
    case Reply(k, how) =>
      if k >= |s.runs| || !s.runs[k].stop.outcome.Waiting? then s
      else
        var run := ResumedRun(model, config, belt, At(s.runs[k], s.turn), how);
        SessionState(Persisted(s.stored, run.stop.outcome, run.stop.core.messages), s.runs[k := run], run.stop.turn)
  }

  function SessionOf(model: Model, config: Config, belt: Toolbelt, acts: seq<SessionAct>): SessionState
    decreases |acts|
  {
    if acts == [] then NEW_SESSION
    else Acted(model, config, belt, SessionOf(model, config, belt, acts[..|acts| - 1]), acts[|acts| - 1])
  }

  // Every call in the stored conversation has its answer, and every run of the session stopped well.
  ghost predicate InOrder(model: Model, config: Config, belt: Toolbelt, s: SessionState) {
    && Conversing(model, s.stored, {}, s.turn)
    && forall k :: 0 <= k < |s.runs| ==>
         s.runs[k].stop.turn <= s.turn && Stopped(model, config, Allowed(belt, s.runs[k].items), s.runs[k].stop)
  }

  lemma {:induction false} StoppedLater(model: Model, config: Config, tools: map<string, Tool>, stop: Stop, turn: nat)
    requires Stopped(model, config, tools, stop) && stop.turn <= turn
    ensures Stopped(model, config, tools, stop.(turn := turn))
  {
  }

  lemma {:induction false} PersistedKeeps(model: Model, config: Config, tools: map<string, Tool>,
                                          stored: seq<Message>, stop: Stop, turn: nat)
    requires Stopped(model, config, tools, stop) && Conversing(model, stored, {}, turn) && turn <= stop.turn
    ensures Conversing(model, Persisted(stored, stop.outcome, stop.core.messages), {}, stop.turn)
  {
    Later(model, stored, turn, stop.turn);
    if stop.outcome.Done? {
      ExtractKeeps(model, stop.core.messages, stop.turn);
    }
  }

  lemma {:induction false} ActKeepsOrder(model: Model, config: Config, belt: Toolbelt, s: SessionState,
                                         act: SessionAct)
    requires FreshModel(model) && ValidBelt(belt) && InOrder(model, config, belt, s)
    ensures InOrder(model, config, belt, Acted(model, config, belt, s, act))
    ensures s.turn <= Acted(model, config, belt, s, act).turn
  {
    match act
    case Ask(items, system, input) =>
      StartKeeps(model, config, belt, items, s.stored, system, input, s.turn);
      var run := StartOf(model, config, belt, items, s.stored, system, input, s.turn);
      PersistedKeeps(model, config, Allowed(belt, items), s.stored, run.stop, s.turn);
    case Reply(k, how) =>
      if k < |s.runs| && s.runs[k].stop.outcome.Waiting? {
        var waiting := At(s.runs[k], s.turn);
        StoppedLater(model, config, Allowed(belt, waiting.items), s.runs[k].stop, s.turn);
        ResumeKeeps(model, config, belt, waiting, how);
        var run := ResumedRun(model, config, belt, waiting, how);
        PersistedKeeps(model, config, Allowed(belt, run.items), s.stored, run.stop, s.turn);
      }
  }

  /** After any number of jobs and resumes in any order, also of runs that were paused before later jobs
      replaced the messages: every call in a session's stored conversation has its answer, and every run of
      the session is paired up to its one pending call and within its limits. */
  lemma {:induction false} SessionStaysPaired(model: Model, config: Config, belt: Toolbelt, acts: seq<SessionAct>)
    requires FreshModel(model) && ValidBelt(belt)
    ensures InOrder(model, config, belt, SessionOf(model, config, belt, acts))
    decreases |acts|
  {
    if acts == [] {
      LedgerIsPairing([], {});
    } else {
      var n := |acts| - 1;
      SessionStaysPaired(model, config, belt, acts[..n]);
      ActKeepsOrder(model, config, belt, SessionOf(model, config, belt, acts[..n]), acts[n]);
    }
  }

  // A resume from what was kept of a run.
  method ResumeKept(model: Model, config: Config, belt: Toolbelt, run: JobRun, how: Resumption)
    returns (next: JobRun)
    requires run.stop.outcome.Waiting? && RecordedCall(run.stop.core.toolCalls, run.stop.outcome.pending.call.id)
    ensures next == ResumedRun(model, config, belt, run, how)
  {
    var stop, items := run.stop, Seen(run.items, how.way);
    SummariesForgotten(model, config, belt, items, stop, how.decision);
    var stored := StoredRun(items, stop.core.messages, stop.core.toolCalls, stop.iteration,
                            Some(stop.outcome.pending), Tally(stop.run), stop.core.executions, stop.run);
    var totals := new RunTotals(stop.run);
    var state, outcome, turn;
    ghost var costs;
    state, outcome, turn, costs := ResumeWorker(model, config, belt, stored, how.decision, totals, stop.turn);
    next := JobRun(Stop(outcome, CoreOf(state), state.iteration, totals.turns, turn), items);
  }

  class WorkerSession {
    var messages: seq<Message>
    // what the desk keeps of the session's runs
    var runs: seq<JobRun>

    constructor ()
      ensures State(0) == NEW_SESSION
    {
      messages, runs := [], [];
    }

    function State(turn: nat): SessionState
      reads this
    {
      SessionState(messages, runs, turn)
    }

    /** `_persist_report`: only a completed run replaces what is stored. */
    method PersistReport(outcome: Outcome, reported: seq<Message>)
      modifies this`messages
      ensures messages == Persisted(old(messages), outcome, reported)
    {
      if outcome.Done? {
        messages := Filter(reported, KeptBySession);
      }
    }

    /** `run`: a job that is built from the stored messages, and stored if it completes. */
    method RunTurn(model: Model, config: Config, belt: Toolbelt, items: Option<seq<Item>>, system: Option<string>,
                   input: string, first: nat)
      returns (turn: nat)
      requires FreshModel(model) && ValidBelt(belt) && InOrder(model, config, belt, State(first))
      modifies this
      ensures State(turn) == Acted(model, config, belt, old(State(first)), Ask(items, system, input))
      ensures InOrder(model, config, belt, State(turn))
    {
      ActKeepsOrder(model, config, belt, State(first), Ask(items, system, input));
      var state := new LoopState(BuildMessages(messages, system, input), [], 0, None, [], []);
      var totals := new RunTotals([]);
      var outcome;
      ghost var costs;
      outcome, turn, costs := RunLoop(model, config, Allowed(belt, items), state, totals, first);
      runs := runs + [JobRun(Stop(outcome, CoreOf(state), state.iteration, totals.turns, turn), items)];
      PersistReport(outcome, state.messages);
    }

    /** `resume`: any paused run of the session goes on, whatever was stored since it paused. */
    method Resume(model: Model, config: Config, belt: Toolbelt, k: nat, how: Resumption, first: nat)
      returns (turn: nat)
      requires FreshModel(model) && ValidBelt(belt) && InOrder(model, config, belt, State(first))
      modifies this
      ensures State(turn) == Acted(model, config, belt, old(State(first)), Reply(k, how))
      ensures InOrder(model, config, belt, State(turn))
    {
      ActKeepsOrder(model, config, belt, State(first), Reply(k, how));
      if k >= |runs| || !runs[k].stop.outcome.Waiting? {
        return first;
      }
      var run := ResumeKept(model, config, belt, At(runs[k], first), how);
      turn := run.stop.turn;
      runs := runs[k := run];
      PersistReport(run.stop.outcome, run.stop.core.messages);
    }
  }

  lemma {:induction false} Later(model: Model, ms: seq<Message>, turn: nat, later: nat)
    requires Conversing(model, ms, {}, turn) && turn <= later
    ensures Conversing(model, ms, {}, later)
  {
  }

  /** What a session keeps of a completed run is fully paired. */
  lemma {:induction false} ExtractKeeps(model: Model, ms: seq<Message>, turn: nat)
    requires Conversing(model, ms, {}, turn)
    ensures Conversing(model, Filter(ms, KeptBySession), {}, turn)
  {
    forall m | m in ms && !KeptBySession(m)
      ensures Neutral(m)
    {
      DroppedIsNeutral(model, ms, {}, turn, m);
    }
    FilterConverses(model, ms, {}, turn, KeptBySession);
  }
}
