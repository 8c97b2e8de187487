/** Swarm mode of a workforce: workers hand a job to one another, with pauses (workforce.py). */
module SwarmMode {
  import opened Common
  import opened Conversation
  import opened Compaction
  import opened WorkerTools
  import opened ToolOverrides
  import opened WorkerRunner
  import opened WorkerSafety
  import opened WorkerRuns
  import opened Reports

  datatype SwarmJob = SwarmJob(initial: seq<Message>, input: string, items: Option<seq<Item>>)

  // The registered workers with their toolbelts, the agents a handoff tool lists, and what running a
  // worker comes back with.
  datatype Swarm = Swarm(
    first: string,
    belts: map<string, Toolbelt>,
    listed: Tool -> Option<set<string>>,
    start: (string, SwarmJob) -> Step,
    resume: (string, WorkerState, Decision) -> Step)

  // `_swarm_handoff_budget`
  function Budget(maxIterations: nat, maxToolCalls: nat): (b: nat)
    ensures b >= 1
  {
    var smaller := if maxIterations <= maxToolCalls then maxIterations else maxToolCalls;
    if smaller >= 1 then smaller else 1
  }

  // The last item of that name that stands for a tool.
  function LastOf(belt: Toolbelt, items: seq<Item>, name: string): Option<Tool>
    decreases |items|
  {
    if items == [] then None
    else
      var item := items[|items| - 1];
      if ItemName(item) == name && ResolveItem(belt, item).Some? then ResolveItem(belt, item)
      else LastOf(belt, items[..|items| - 1], name)
  }

  // `_handoff_tool`
  function HandoffTool(belt: Toolbelt, items: Option<seq<Item>>, name: string): Option<Tool> {
    if items.Some? then LastOf(belt, items.value, name)
    else if name in belt then Some(belt[name]) else None
  }

  /** The tool whose list of agents is looked at is the one that planning used. */
  lemma {:induction false} HandoffToolIsPlanned(belt: Toolbelt, items: Option<seq<Item>>, name: string)
    requires ValidBelt(belt)
    ensures HandoffTool(belt, items, name) == Lookup(Allowed(belt, items), name)
    decreases if items.Some? then |items.value| else 0
  {
    if items.Some? && items.value != [] {
      HandoffToolIsPlanned(belt, Some(items.value[..|items.value| - 1]), name);
    }
  }

  // `_handoff_allowed_agents`: None allows every worker.
  function AllowedAgents(sw: Swarm, worker: string, job: SwarmJob, toolName: string): Option<set<string>>
    requires worker in sw.belts
  {
    var tool := HandoffTool(sw.belts[worker], job.items, toolName);
    if tool.None? || !tool.value.handoff then None
    else
      var listed := sw.listed(tool.value);
      if listed.None? then None else Some(listed.value - {""})
  }

  /** After a resume by the desk that paused the run, the workforce looks at the tool in the job, while the
      worker planned with what the names stand for: it is the same one if and only if the last item of that
      name that stands for a tool is a name, or the toolbelt's own tool. */
  lemma {:induction false} ResumedHandoffToolIff(belt: Toolbelt, items: seq<Item>, name: string, way: Way)
    requires ValidBelt(belt) && DistinctNames(items)
    ensures HandoffTool(belt, Seen(Some(items), way), name) == Lookup(Allowed(belt, Some(Names(items))), name)
            <==> way == AsWritten || OwnLast(belt, items, name)
  {
    HandoffToolIsPlanned(belt, Seen(Some(items), way), name);
    if way != AsWritten {
      DeskPutsToolsBack(Some(items), way);
      NamesPlanIff(belt, items, name);
    }
  }

  datatype Transition = NoHandoff | Bad(error: string) | To(worker: string, job: SwarmJob)

  function Argument(call: ToolCall, name: string): string {
    if name in call.arguments then call.arguments[name] else ""
  }

  // `_handoff_transition`
  function TransitionOf(sw: Swarm, report: Report, job: SwarmJob, worker: string): Transition
    requires worker in sw.belts
  {
    if report.pending.None? || report.pending.value.kind != Handoff then NoHandoff
    else
      var call := report.pending.value.call;
      var target := Argument(call, "agent_name");
      var allowed := AllowedAgents(sw, worker, job, call.name);
      if target == "" then Bad("Handoff target is missing or invalid.")
      else if allowed.Some? && target !in allowed.value then
        Bad("Handoff target '" + target + "' is not allowed for worker '" + worker + "'.")
      else if target !in sw.belts then Bad("Handoff target '" + target + "' is not in the workforce.")
      else
        var context := Argument(call, "context");
        var input := if context != "" then context else job.input;
        To(target, SwarmJob(HandoffMessages(report.messages, target, call.id), input, job.items))
  }

  function FailedHandoff(report: Report, message: string): Report {
    report.(status := Failed, pending := None, errors := report.errors + [message])
  }

  // What `merge_swarm_reports` keeps here: status, calls and errors.
  datatype Merged = Merged(status: Status, toolCalls: seq<ToolCall>, errors: seq<string>)

  function Merge(history: seq<Report>, last: Report): Merged {
    Merged(last.status, CallsOf(history) + last.toolCalls, ErrorsOf(history) + last.errors)
  }

  // ---- The run, with a record of the visits -----------------------------------------------------

  // Who handed over, for which job, and with which call.
  datatype Hop = Hop(from: string, job: SwarmJob, call: ToolCall)

  // A worker's stay: the job it was started on, that job as the last resume got to see it, how the stay was
  // entered, and what its start and its resumes came back with.
  datatype Visit = Visit(worker: string, entry: SwarmJob, job: SwarmJob, hop: Option<Hop>, steps: seq<Step>)

  // `payload` of a paused workforce state in stage "swarm".
  datatype StoredSwarm = StoredSwarm(state: WorkerState, job: SwarmJob, current: string, count: nat,
                                     history: seq<Report>)

  datatype Outcome =
    | Ended(merged: Merged, visits: seq<Visit>)
    | Waiting(report: Report, stored: StoredSwarm, visits: seq<Visit>)
    | Refused(error: string, visits: seq<Visit>)

  // A worker that paused may hand over.
  function HandsOver(sw: Swarm, step: Step, job: SwarmJob, worker: string): Transition
    requires worker in sw.belts
  {
    if step.Paused? && step.report.status == PausedRun then TransitionOf(sw, step.report, job, worker) else NoHandoff
  }

  function Go(sw: Swarm, budget: nat, current: string, job: SwarmJob, count: nat, history: seq<Report>,
              visits: seq<Visit>, step: Step): Outcome
    requires current in sw.belts
    decreases if count <= budget then budget + 1 - count else 0
  {
    if step.Finished? then Ended(Merge(history, step.report), visits)
    else
      match HandsOver(sw, step, job, current)
      case NoHandoff =>
        Outcome.Waiting(step.report, StoredSwarm(WrittenState(step.state), job, current, count, history), visits)
      case Bad(error) => Ended(Merge(history, FailedHandoff(step.report, error)), visits)
      case To(next, nextJob) =>
        var history' := history + [step.report.(pending := None)];
        if count + 1 > budget then
          Ended(Merge(history', FailedHandoff(step.report, "Max handoff transitions exceeded.")), visits)
        else
          var first := sw.start(next, nextJob);
          var visit := Visit(next, nextJob, nextJob, Some(Hop(current, job, step.report.pending.value.call)), [first]);
          Go(sw, budget, next, nextJob, count + 1, history', visits + [visit], first)
  }

  function StartSwarm(sw: Swarm, budget: nat, job: SwarmJob): Outcome
    requires sw.first in sw.belts
  {
    var step := sw.start(sw.first, job);
    Go(sw, budget, sw.first, job, 0, [], [Visit(sw.first, job, job, None, [step])], step)
  }

  // The last visit goes on, with the job as the resume gets to see it.
  function Extended(visits: seq<Visit>, job: SwarmJob, step: Step): seq<Visit> {
    if visits == [] then visits
    else
      var last := visits[|visits| - 1];
      visits[..|visits| - 1] + [last.(job := job, steps := last.steps + [step])]
  }

  // The desk puts tools back into the job of the swarm, not into the state of the worker that waits.
  function SeenJob(job: SwarmJob, way: Way): SwarmJob {
    job.(items := Seen(job.items, way))
  }

  // `_aresume_swarm_stage`
  function ResumeSwarm(sw: Swarm, budget: nat, stored: StoredSwarm, visits: seq<Visit>, how: Resumption)
    : Outcome {
    if stored.current !in sw.belts then
      Refused("Swarm current worker '" + stored.current + "' is not registered.", visits)
    else
      var job := SeenJob(stored.job, how.way);
      var step := sw.resume(stored.current, stored.state, how.decision);
      Go(sw, budget, stored.current, job, stored.count, stored.history, Extended(visits, job, step), step)
  }

  function Drive(sw: Swarm, budget: nat, outcome: Outcome, hows: seq<Resumption>): Outcome
    decreases |hows|
  {
    if hows == [] || !outcome.Waiting? then outcome
    else Drive(sw, budget, ResumeSwarm(sw, budget, outcome.stored, outcome.visits, hows[0]), hows[1..])
  }

  // ---- What every run keeps ---------------------------------------------------------------------

  // What a visit ends with.
  function LastStep(v: Visit): Step
    requires v.steps != []
  {
    v.steps[|v.steps| - 1]
  }

  function LastReport(v: Visit): Report
    requires v.steps != []
  {
    LastStep(v).report
  }

  // The worker is registered, and the tool that handed over to it lists it.
  predicate Permitted(sw: Swarm, v: Visit) {
    && v.worker in sw.belts && SameTask(v)
    && (v.hop.Some? ==>
          && v.hop.value.from in sw.belts
          && Argument(v.hop.value.call, "agent_name") == v.worker
          && var allowed := AllowedAgents(sw, v.hop.value.from, v.hop.value.job, v.hop.value.call.name);
             allowed.Some? ==> v.worker in allowed.value)
  }

  // The second visit was entered by the handoff with which the first one ended: the worker it names goes
  // on with the whole conversation but its system messages and with an answer to that call, on what the
  // call says or else the input there was, with the same list of tools.
  predicate Follows(v: Visit, w: Visit) {
    && v.steps != [] && w.hop.Some? && w.hop.value.from == v.worker && w.hop.value.job == v.job
    && LastReport(v).pending.Some? && LastReport(v).pending.value.call == w.hop.value.call
    && LastReport(v).pending.value.kind == Handoff
    && var call := w.hop.value.call;
       var context := if "context" in call.arguments then call.arguments["context"] else "";
       && "agent_name" in call.arguments && call.arguments["agent_name"] == w.worker && w.worker != ""
       && w.entry.initial
          == Filter(LastReport(v).messages, NotSystem)
             + [Message(ToolRole, "Transferred to " + w.worker + ".", [], Some(call.id), false)]
       && w.entry.input == (if context != "" then context else v.job.input)
       && w.entry.items == v.job.items
  }

  // What a resume gets to see of a job differs in the list of tools only.
  predicate SameTask(v: Visit) {
    v.job.initial == v.entry.initial && v.job.input == v.entry.input
  }

  // The history has one report for every visit but the current one.
  predicate Recorded(history: seq<Report>, visits: seq<Visit>) {
    && |visits| == |history| + 1
    && (forall k :: 0 <= k < |visits| ==> visits[k].steps != [])
    && forall k :: 0 <= k < |history| ==> history[k] == LastReport(visits[k]).(pending := None)
  }

  ghost predicate Tracked(sw: Swarm, budget: nat, current: string, job: SwarmJob, count: nat,
                          history: seq<Report>, visits: seq<Visit>) {
    && count == |history| <= budget && Recorded(history, visits)
    && visits[|visits| - 1].worker == current && visits[|visits| - 1].job == job
    && (forall k :: 0 <= k < |visits| ==> Permitted(sw, visits[k]))
    && forall k :: 0 < k < |visits| ==> Follows(visits[k - 1], visits[k])
  }

  function VisitCalls(visits: seq<Visit>): seq<ToolCall>
    requires forall k :: 0 <= k < |visits| ==> visits[k].steps != []
    decreases |visits|
  {
    if visits == [] then [] else VisitCalls(visits[..|visits| - 1]) + LastReport(visits[|visits| - 1]).toolCalls
  }

  function VisitErrors(visits: seq<Visit>): seq<string>
    requires forall k :: 0 <= k < |visits| ==> visits[k].steps != []
    decreases |visits|
  {
    if visits == [] then [] else VisitErrors(visits[..|visits| - 1]) + LastReport(visits[|visits| - 1]).errors
  }

  // How a run has ended: as its last worker did, or failed because of a handoff that could not be made, for
  // the reason given or for lack of budget.
  predicate EndedFor(sw: Swarm, budget: nat, merged: Merged, visits: seq<Visit>)
    requires visits != [] && visits[|visits| - 1].worker in sw.belts
    requires forall k :: 0 <= k < |visits| ==> visits[k].steps != []
  {
    var last := visits[|visits| - 1];
    match HandsOver(sw, LastStep(last), last.job, last.worker)
    case NoHandoff =>
      LastStep(last).Finished? && merged.status == LastReport(last).status && merged.errors == VisitErrors(visits)
    case Bad(error) => merged.status == Failed && merged.errors == VisitErrors(visits) + [error]
    case To(_, _) =>
      && |visits| == budget + 1 && merged.status == Failed
      && merged.errors
         == VisitErrors(visits) + LastReport(last).errors + ["Max handoff transitions exceeded."]
  }

  // The worker that the budget still admitted handed over once more.
  predicate OverBudget(sw: Swarm, budget: nat, visits: seq<Visit>)
    requires visits != [] && visits[|visits| - 1].steps != [] && visits[|visits| - 1].worker in sw.belts
  {
    var last := visits[|visits| - 1];
    |visits| == budget + 1 && HandsOver(sw, LastStep(last), last.job, last.worker).To?
  }

  // What holds of every outcome, whether the run ended, waits, or cannot go on.
  ghost predicate Orderly(sw: Swarm, budget: nat, outcome: Outcome) {
    && 1 <= |outcome.visits| <= budget + 1
    && (forall k :: 0 <= k < |outcome.visits| ==> outcome.visits[k].steps != [] && Permitted(sw, outcome.visits[k]))
    && (forall k :: 0 < k < |outcome.visits| ==> Follows(outcome.visits[k - 1], outcome.visits[k]))
    && (outcome.Waiting? ==>
          Tracked(sw, budget, outcome.stored.current, outcome.stored.job, outcome.stored.count, outcome.stored.history,
                  outcome.visits))
    && (outcome.Ended? ==>
          outcome.merged.toolCalls
          == VisitCalls(outcome.visits)
             + if OverBudget(sw, budget, outcome.visits) then LastCalls(outcome.visits) else [])
    && (outcome.Ended? ==> EndedFor(sw, budget, outcome.merged, outcome.visits))
    && (outcome.Waiting? ==>
          var last := outcome.visits[|outcome.visits| - 1];
          && LastStep(last).Paused? && HandsOver(sw, LastStep(last), last.job, last.worker).NoHandoff?
          && outcome.report == LastReport(last) && outcome.stored.state == WrittenState(LastStep(last).state))
  }

  function LastCalls(visits: seq<Visit>): seq<ToolCall>
    requires visits != [] && visits[|visits| - 1].steps != []
  {
    LastReport(visits[|visits| - 1]).toolCalls
  }

  lemma {:induction false} CallsOfVisits(history: seq<Report>, visits: seq<Visit>)
    requires |visits| == |history| && forall k :: 0 <= k < |visits| ==> visits[k].steps != []
    requires forall k :: 0 <= k < |history| ==> history[k] == LastReport(visits[k]).(pending := None)
    ensures CallsOf(history) == VisitCalls(visits) && ErrorsOf(history) == VisitErrors(visits)
    decreases |history|
  {
    if history != [] {
      CallsOfVisits(history[..|history| - 1], visits[..|visits| - 1]);
    }
  }

  lemma {:induction false} MergedCalls(history: seq<Report>, visits: seq<Visit>, report: Report)
    requires Recorded(history, visits) && LastReport(visits[|visits| - 1]).toolCalls == report.toolCalls
    ensures Merge(history, report).toolCalls == VisitCalls(visits)
    ensures Merge(history + [report.(pending := None)], report).toolCalls == VisitCalls(visits) + report.toolCalls
  {
    CallsOfVisits(history, visits[..|visits| - 1]);
    assert (history + [report.(pending := None)])[..|history|] == history;
  }

  lemma {:induction false} MergedErrors(history: seq<Report>, visits: seq<Visit>, report: Report, more: seq<string>)
    requires Recorded(history, visits) && LastReport(visits[|visits| - 1]).errors + more == report.errors
    ensures Merge(history, report).errors == VisitErrors(visits) + more
    ensures var last := LastReport(visits[|visits| - 1]);
            Merge(history + [last.(pending := None)], report).errors == VisitErrors(visits) + last.errors + more
  {
    var last := LastReport(visits[|visits| - 1]);
    CallsOfVisits(history, visits[..|visits| - 1]);
    assert (history + [last.(pending := None)])[..|history|] == history;
  }

  lemma {:induction false} NextVisit(sw: Swarm, budget: nat, current: string, job: SwarmJob, count: nat,
                                     history: seq<Report>, visits: seq<Visit>, step: Step, first: Step)
    requires Tracked(sw, budget, current, job, count, history, visits) && current in sw.belts && count < budget
    requires LastStep(visits[|visits| - 1]) == step && HandsOver(sw, step, job, current).To?
    ensures var To(next, nextJob) := HandsOver(sw, step, job, current);
            var hop := Hop(current, job, step.report.pending.value.call);
            var visit := Visit(next, nextJob, nextJob, Some(hop), [first]);
            Tracked(sw, budget, next, nextJob, count + 1, history + [step.report.(pending := None)], visits + [visit])
  {
  }

  // Ending with a report that has the calls of the last step.
  lemma {:induction false} EndIsOrderly(sw: Swarm, budget: nat, current: string, job: SwarmJob, count: nat,
                                        history: seq<Report>, visits: seq<Visit>, step: Step, report: Report)
    requires Tracked(sw, budget, current, job, count, history, visits)
    requires LastStep(visits[|visits| - 1]) == step && current in sw.belts
    requires match HandsOver(sw, step, job, current)
             case NoHandoff => step.Finished? && report == step.report
             case Bad(error) => report == FailedHandoff(step.report, error)
             case To(_, _) =>
               count == budget && report == FailedHandoff(step.report, "Max handoff transitions exceeded.")
    ensures !HandsOver(sw, step, job, current).To? ==> Orderly(sw, budget, Ended(Merge(history, report), visits))
    ensures HandsOver(sw, step, job, current).To? ==>
              Orderly(sw, budget, Ended(Merge(history + [step.report.(pending := None)], report), visits))
  {
    EndCounts(sw, budget, current, job, count, history, visits, step, report);
    EndTells(sw, budget, current, job, count, history, visits, step, report);
  }

  lemma {:induction false} EndCounts(sw: Swarm, budget: nat, current: string, job: SwarmJob, count: nat,
                                     history: seq<Report>, visits: seq<Visit>, step: Step, report: Report)
    requires Tracked(sw, budget, current, job, count, history, visits)
    requires LastStep(visits[|visits| - 1]) == step && current in sw.belts && report.toolCalls == step.report.toolCalls
    requires HandsOver(sw, step, job, current).To? ==> count == budget
    ensures var over := HandsOver(sw, step, job, current).To?;
            && OverBudget(sw, budget, visits) == over
            && Merge(if over then history + [step.report.(pending := None)] else history, report).toolCalls
               == VisitCalls(visits) + if over then LastCalls(visits) else []
  {
    MergedCalls(history, visits, report);
    assert step.report.(pending := None).toolCalls == report.(pending := None).toolCalls;
  }

  lemma {:induction false} EndTells(sw: Swarm, budget: nat, current: string, job: SwarmJob, count: nat,
                                    history: seq<Report>, visits: seq<Visit>, step: Step, report: Report)
    requires Tracked(sw, budget, current, job, count, history, visits)
    requires LastStep(visits[|visits| - 1]) == step && current in sw.belts
    requires match HandsOver(sw, step, job, current)
             case NoHandoff => step.Finished? && report == step.report
             case Bad(error) => report == FailedHandoff(step.report, error)
             case To(_, _) =>
               count == budget && report == FailedHandoff(step.report, "Max handoff transitions exceeded.")
    ensures EndedFor(sw, budget,
                     Merge(if HandsOver(sw, step, job, current).To? then history + [step.report.(pending := None)]
                           else history, report), visits)
  {
    match HandsOver(sw, step, job, current)
    case NoHandoff => MergedErrors(history, visits, report, []);
    case Bad(error) => MergedErrors(history, visits, report, [error]);
    case To(_, _) => MergedErrors(history, visits, report, ["Max handoff transitions exceeded."]);
  }

  lemma {:induction false} GoIsOrderly(sw: Swarm, budget: nat, current: string, job: SwarmJob, count: nat,
                                       history: seq<Report>, visits: seq<Visit>, step: Step)
    requires current in sw.belts && Tracked(sw, budget, current, job, count, history, visits)
    requires LastStep(visits[|visits| - 1]) == step
    ensures Orderly(sw, budget, Go(sw, budget, current, job, count, history, visits, step))
    decreases if count <= budget then budget + 1 - count else 0
  {
    if step.Finished? {
      EndIsOrderly(sw, budget, current, job, count, history, visits, step, step.report);
    } else {
      match HandsOver(sw, step, job, current)
      case NoHandoff =>
      case Bad(error) =>
        EndIsOrderly(sw, budget, current, job, count, history, visits, step, FailedHandoff(step.report, error));
      case To(next, nextJob) =>
        if count + 1 > budget {
          EndIsOrderly(sw, budget, current, job, count, history, visits, step,
                       FailedHandoff(step.report, "Max handoff transitions exceeded."));
        } else {
          var first := sw.start(next, nextJob);
          var visit := Visit(next, nextJob, nextJob, Some(Hop(current, job, step.report.pending.value.call)), [first]);
          NextVisit(sw, budget, current, job, count, history, visits, step, first);
          GoIsOrderly(sw, budget, next, nextJob, count + 1, history + [step.report.(pending := None)],
                      visits + [visit], first);
        }
    }
  }

  lemma {:induction false} ExtendedTracked(sw: Swarm, budget: nat, current: string, job: SwarmJob, count: nat,
                                           history: seq<Report>, visits: seq<Visit>, seen: SwarmJob, step: Step)
    requires Tracked(sw, budget, current, job, count, history, visits)
    requires seen.initial == job.initial && seen.input == job.input
    ensures Tracked(sw, budget, current, seen, count, history, Extended(visits, seen, step))
    ensures LastStep(Extended(visits, seen, step)[|visits| - 1]) == step
  {
    var longer := Extended(visits, seen, step);
    assert forall k :: 0 <= k < |visits| - 1 ==> longer[k] == visits[k];
    var last := visits[|visits| - 1];
    assert longer[|visits| - 1] == last.(job := seen, steps := last.steps + [step]);
  }

  lemma {:induction false} DriveIsOrderly(sw: Swarm, budget: nat, outcome: Outcome, hows: seq<Resumption>)
    requires Orderly(sw, budget, outcome)
    ensures Orderly(sw, budget, Drive(sw, budget, outcome, hows))
    decreases |hows|
  {
    if hows != [] && outcome.Waiting? {
      var stored := outcome.stored;
      assert Permitted(sw, outcome.visits[|outcome.visits| - 1]);
      var job := SeenJob(stored.job, hows[0].way);
      var step := sw.resume(stored.current, stored.state, hows[0].decision);
      ExtendedTracked(sw, budget, stored.current, stored.job, stored.count, stored.history, outcome.visits, job, step);
      GoIsOrderly(sw, budget, stored.current, job, stored.count, stored.history, Extended(outcome.visits, job, step),
                  step);
      DriveIsOrderly(sw, budget, ResumeSwarm(sw, budget, stored, outcome.visits, hows[0]), hows[1..]);
    }
  }

  // The first visit stays the first.
  predicate Begins(visits: seq<Visit>, worker: string, job: SwarmJob) {
    visits != [] && visits[0].worker == worker && visits[0].entry == job
  }

  lemma {:induction false} GoBegins(sw: Swarm, budget: nat, current: string, job: SwarmJob, count: nat,
                                    history: seq<Report>, visits: seq<Visit>, step: Step, worker: string,
                                    first: SwarmJob)
    requires current in sw.belts && Begins(visits, worker, first)
    ensures Begins(Go(sw, budget, current, job, count, history, visits, step).visits, worker, first)
    decreases if count <= budget then budget + 1 - count else 0
  {
    var handoff := HandsOver(sw, step, job, current);
    if step.Paused? && handoff.To? && count + 1 <= budget {
      var next := sw.start(handoff.worker, handoff.job);
      var visit := Visit(handoff.worker, handoff.job, handoff.job,
                         Some(Hop(current, job, step.report.pending.value.call)), [next]);
      GoBegins(sw, budget, handoff.worker, handoff.job, count + 1, history + [step.report.(pending := None)],
               visits + [visit], next, worker, first);
    }
  }

  lemma {:induction false} DriveBegins(sw: Swarm, budget: nat, outcome: Outcome, hows: seq<Resumption>,
                                       worker: string, first: SwarmJob)
    requires Begins(outcome.visits, worker, first)
    ensures Begins(Drive(sw, budget, outcome, hows).visits, worker, first)
    decreases |hows|
  {
    if hows != [] && outcome.Waiting? {
      var stored := outcome.stored;
      if stored.current in sw.belts {
        var job := SeenJob(stored.job, hows[0].way);
        var step := sw.resume(stored.current, stored.state, hows[0].decision);
        GoBegins(sw, budget, stored.current, job, stored.count, stored.history,
                 Extended(outcome.visits, job, step), step,
                 worker, first);
      }
      DriveBegins(sw, budget, ResumeSwarm(sw, budget, stored, outcome.visits, hows[0]), hows[1..], worker, first);
    }
  }

  /** When a report hands over, and to whom: it waits at a handoff call that names a worker that is
      registered and, if the tool lists agents, listed; otherwise the error says what was wrong. */
  lemma {:induction false} HandsOverIff(sw: Swarm, report: Report, job: SwarmJob, worker: string)
    requires worker in sw.belts && ValidBelt(sw.belts[worker])
    requires report.pending.Some? && report.pending.value.kind == Handoff
    ensures var call := report.pending.value.call;
            var named := if "agent_name" in call.arguments then call.arguments["agent_name"] else "";
            var tool := Lookup(Allowed(sw.belts[worker], job.items), call.name);
            var unlisted := tool.Some? && tool.value.handoff && sw.listed(tool.value).Some?
                            && named !in sw.listed(tool.value).value;
            match TransitionOf(sw, report, job, worker)
            case NoHandoff => false
            case To(next, _) => next == named && named != "" && !unlisted && named in sw.belts
            case Bad(error) =>
              if named == "" then error == "Handoff target is missing or invalid."
              else if unlisted then
                error == "Handoff target '" + named + "' is not allowed for worker '" + worker + "'."
              else named !in sw.belts && error == "Handoff target '" + named + "' is not in the workforce."
  {
    HandoffToolIsPlanned(sw.belts[worker], job.items, report.pending.value.call.name);
  }

  /** A whole swarm run, through any number of pauses: at most the handoff budget plus one workers
      are started; every one of them is registered, listed by the tool that handed over to it, and
      entered by the handoff that ended the visit before; and the calls of the final report are
      those of the visits in order, with the last visit's twice when the budget was exceeded. */
  lemma {:induction false} SwarmIsOrderly(sw: Swarm, maxIterations: nat, maxToolCalls: nat, job: SwarmJob,
                                          hows: seq<Resumption>)
    requires sw.first in sw.belts
    ensures var budget := Budget(maxIterations, maxToolCalls);
            var outcome := Drive(sw, budget, StartSwarm(sw, budget, job), hows);
            && Orderly(sw, budget, outcome)
            && outcome.visits[0].worker == sw.first && outcome.visits[0].entry == job
            && (|outcome.visits| <= 2 ||
                (|outcome.visits| - 1 <= maxIterations && |outcome.visits| - 1 <= maxToolCalls))
            && (outcome.Ended? && OverBudget(sw, budget, outcome.visits) ==>
                  |outcome.visits| - 1 >= 1
                  && (|outcome.visits| - 1 >= maxIterations || |outcome.visits| - 1 >= maxToolCalls))
  {
    var budget := Budget(maxIterations, maxToolCalls);
    var step := sw.start(sw.first, job);
    var visits := [Visit(sw.first, job, job, None, [step])];
    GoBegins(sw, budget, sw.first, job, 0, [], visits, step, sw.first, job);
    DriveBegins(sw, budget, StartSwarm(sw, budget, job), hows, sw.first, job);
    assert Tracked(sw, budget, sw.first, job, 0, [], visits);
    GoIsOrderly(sw, budget, sw.first, job, 0, [], visits, step);
    DriveIsOrderly(sw, budget, StartSwarm(sw, budget, job), hows);
  }

  /** Whoever is handed to goes on with the conversation of whoever handed over: over a whole run, the job of
      every visit but the first starts with exactly the messages of the report before it that are not system
      messages, in order, and an answer to the handoff call; its input is what the call says, if that is not
      empty, and else the input there was; and it has the tools that the job before it had. */
  lemma {:induction false} ConversationIsHandedOn(sw: Swarm, maxIterations: nat, maxToolCalls: nat, job: SwarmJob,
                                                  hows: seq<Resumption>, k: nat)
    returns (at: seq<nat>)
    requires sw.first in sw.belts
    requires var budget := Budget(maxIterations, maxToolCalls);
             0 < k < |Drive(sw, budget, StartSwarm(sw, budget, job), hows).visits|
    ensures var budget := Budget(maxIterations, maxToolCalls);
            var visits := Drive(sw, budget, StartSwarm(sw, budget, job), hows).visits;
            var (before, next) := (visits[k - 1], visits[k]);
            && before.steps != [] && LastReport(before).pending.Some? && next.job.initial != []
            && var call := LastReport(before).pending.value.call;
               var context := if "context" in call.arguments then call.arguments["context"] else "";
               var handed := next.job.initial[..|next.job.initial| - 1];
               && PickedAt(LastReport(before).messages, handed, (m: Message) => m.role != System, at)
               && next.job.initial[|handed|]
                  == Message(ToolRole, "Transferred to " + next.worker + ".", [], Some(call.id), false)
               && next.job.input == (if context != "" then context else before.job.input)
               && next.entry.items == before.job.items
  {
    var budget := Budget(maxIterations, maxToolCalls);
    var outcome := Drive(sw, budget, StartSwarm(sw, budget, job), hows);
    SwarmIsOrderly(sw, maxIterations, maxToolCalls, job, hows);
    at := HandedOn(sw, outcome.visits[k - 1], outcome.visits[k]);
  }

  lemma {:induction false} HandedOn(sw: Swarm, before: Visit, next: Visit) returns (at: seq<nat>)
    requires Follows(before, next) && Permitted(sw, next)
    ensures next.job.initial != []
    ensures var handed := next.job.initial[..|next.job.initial| - 1];
            PickedAt(LastReport(before).messages, handed, (m: Message) => m.role != System, at)
  {
    at := FilterPicks(LastReport(before).messages, NotSystem);
    assert next.job.initial[..|next.job.initial| - 1] == Filter(LastReport(before).messages, NotSystem);
  }

  // ---- The list of tools ------------------------------------------------------------------------

  ghost predicate WorkOn(allowed: Option<seq<Item>> -> bool, visits: seq<Visit>) {
    visits != [] && forall v :: v in visits ==> allowed(v.entry.items) && allowed(v.job.items)
  }

  lemma {:induction false} GoWorksOn(sw: Swarm, allowed: Option<seq<Item>> -> bool, budget: nat, current: string,
                                     job: SwarmJob, count: nat, history: seq<Report>, visits: seq<Visit>, step: Step)
    requires current in sw.belts && WorkOn(allowed, visits) && allowed(job.items)
    ensures var outcome := Go(sw, budget, current, job, count, history, visits, step);
            WorkOn(allowed, outcome.visits) && (outcome.Waiting? ==> allowed(outcome.stored.job.items))
    decreases if count <= budget then budget + 1 - count else 0
  {
    var handoff := HandsOver(sw, step, job, current);
    if handoff.To? && count + 1 <= budget {
      var next, first := handoff.worker, sw.start(handoff.worker, handoff.job);
      var hop := Hop(current, job, step.report.pending.value.call);
      var visit := Visit(next, handoff.job, handoff.job, Some(hop), [first]);
      GoWorksOn(sw, allowed, budget, next, handoff.job, count + 1, history + [step.report.(pending := None)],
                visits + [visit], first);
    }
  }

  lemma {:induction false} DriveWorksOn(sw: Swarm, allowed: Option<seq<Item>> -> bool, budget: nat, outcome: Outcome,
                                        hows: seq<Resumption>)
    requires WorkOn(allowed, outcome.visits) && (outcome.Waiting? ==> allowed(outcome.stored.job.items))
    requires forall items, how :: how in hows && allowed(items) ==> allowed(Seen(items, how.way))
    ensures WorkOn(allowed, Drive(sw, budget, outcome, hows).visits)
    decreases |hows|
  {
    if hows != [] && outcome.Waiting? {
      var stored, visits := outcome.stored, outcome.visits;
      assert hows[0] in hows;
      if stored.current in sw.belts {
        var job := SeenJob(stored.job, hows[0].way);
        var step := sw.resume(stored.current, stored.state, hows[0].decision);
        assert visits[|visits| - 1] in visits;
        GoWorksOn(sw, allowed, budget, stored.current, job, stored.count, stored.history,
                  Extended(visits, job, step), step);
      }
      DriveWorksOn(sw, allowed, budget, ResumeSwarm(sw, budget, stored, visits, hows[0]), hows[1..]);
    }
  }

  /** With distinct names in the list, every worker of a swarm works with that list or with its names only;
      if the run is always resumed by the desk that paused it, with the very list. */
  lemma {:induction false} ListIsHandedOn(sw: Swarm, budget: nat, job: SwarmJob, hows: seq<Resumption>)
    requires sw.first in sw.belts && (job.items.Some? ==> DistinctNames(job.items.value))
    ensures var visits := Drive(sw, budget, StartSwarm(sw, budget, job), hows).visits;
            forall v :: v in visits ==>
              && ListOrNames(job.items, v.entry.items) && ListOrNames(job.items, v.job.items)
              && ((forall how :: how in hows ==> how.way != AsWritten) ==>
                    v.entry.items == job.items && v.job.items == job.items)
  {
    var byDesk := forall how :: how in hows ==> how.way != AsWritten;
    var allowed := (items: Option<seq<Item>>) => ListOrNames(job.items, items) && (byDesk ==> items == job.items);
    forall items, how | how in hows && allowed(items) ensures allowed(Seen(items, how.way)) {
      StaysListOrNames(job.items, items, how.way);
      if byDesk {
        DeskPutsToolsBack(job.items, how.way);
      }
    }
    var step := sw.start(sw.first, job);
    GoWorksOn(sw, allowed, budget, sw.first, job, 0, [], [Visit(sw.first, job, job, None, [step])], step);
    DriveWorksOn(sw, allowed, budget, StartSwarm(sw, budget, job), hows);
    forall v | v in Drive(sw, budget, StartSwarm(sw, budget, job), hows).visits
      ensures ListOrNames(job.items, v.entry.items) && ListOrNames(job.items, v.job.items)
      ensures byDesk ==> v.entry.items == job.items && v.job.items == job.items
    {
      assert allowed(v.entry.items) && allowed(v.job.items);
    }
  }

  // ---- What the members keep, the run keeps ----------------------------------------------------

  // A property of the steps of a worker and one of jobs that starting, resuming and handing over keep.
  ghost predicate Closed(sw: Swarm, ok: (string, Step) -> bool, fine: SwarmJob -> bool) {
    && (forall n, job :: n in sw.belts && fine(job) ==> ok(n, sw.start(n, job)))
    && (forall n, step: Step, decision :: ok(n, step) && step.Paused? ==>
          ok(n, sw.resume(n, WrittenState(step.state), decision)))
    && (forall job, way :: fine(job) ==> fine(SeenJob(job, way)))
    && forall n, step, job :: n in sw.belts && ok(n, step) && fine(job) && HandsOver(sw, step, job, n).To? ==>
         fine(HandsOver(sw, step, job, n).job)
  }

  ghost predicate VisitsKeep(ok: (string, Step) -> bool, fine: SwarmJob -> bool, visits: seq<Visit>) {
    forall k :: 0 <= k < |visits| ==>
      visits[k].steps != [] && fine(visits[k].job) && ok(visits[k].worker, LastStep(visits[k]))
  }

  // The last visit is that of this worker, on this job, and has come as far as this step.
  ghost predicate Current(sw: Swarm, ok: (string, Step) -> bool, fine: SwarmJob -> bool, visits: seq<Visit>,
                          current: string, job: SwarmJob, step: Step) {
    && visits != [] && VisitsKeep(ok, fine, visits) && current in sw.belts && fine(job) && ok(current, step)
    && visits[|visits| - 1].worker == current && LastStep(visits[|visits| - 1]) == step
  }

  ghost predicate Keeps(sw: Swarm, ok: (string, Step) -> bool, fine: SwarmJob -> bool, outcome: Outcome) {
    && outcome.visits != [] && VisitsKeep(ok, fine, outcome.visits)
    && (outcome.Waiting? ==>
          var last := LastStep(outcome.visits[|outcome.visits| - 1]);
          && Current(sw, ok, fine, outcome.visits, outcome.stored.current, outcome.stored.job, last)
          && last.Paused? && last.report == outcome.report && WrittenState(last.state) == outcome.stored.state)
    && (outcome.Ended? && outcome.merged.status == Completed ==>
          var last := LastStep(outcome.visits[|outcome.visits| - 1]);
          last.Finished? && last.report.status == Completed)
  }

  lemma {:induction false} GoKeeps(sw: Swarm, ok: (string, Step) -> bool, fine: SwarmJob -> bool, budget: nat,
                                   current: string, job: SwarmJob, count: nat, history: seq<Report>,
                                   visits: seq<Visit>, step: Step)
    requires Closed(sw, ok, fine) && Current(sw, ok, fine, visits, current, job, step)
    ensures Keeps(sw, ok, fine, Go(sw, budget, current, job, count, history, visits, step))
    decreases if count <= budget then budget + 1 - count else 0
  {
    var handoff := HandsOver(sw, step, job, current);
    if handoff.To? && count + 1 <= budget {
      var next, first := handoff.worker, sw.start(handoff.worker, handoff.job);
      var hop := Hop(current, job, step.report.pending.value.call);
      var visit := Visit(next, handoff.job, handoff.job, Some(hop), [first]);
      assert ok(next, first) && LastStep(visit) == first;
      GoKeeps(sw, ok, fine, budget, next, handoff.job, count + 1, history + [step.report.(pending := None)],
              visits + [visit], first);
    }
  }

  lemma {:induction false} SwarmResumeKeeps(sw: Swarm, ok: (string, Step) -> bool, fine: SwarmJob -> bool,
                                            budget: nat, outcome: Outcome, how: Resumption)
    requires Closed(sw, ok, fine) && Keeps(sw, ok, fine, outcome) && outcome.Waiting?
    ensures Keeps(sw, ok, fine, ResumeSwarm(sw, budget, outcome.stored, outcome.visits, how))
  {
    var stored, visits := outcome.stored, outcome.visits;
    var last, job := visits[|visits| - 1], SeenJob(stored.job, how.way);
    var step := sw.resume(stored.current, WrittenState(LastStep(last).state), how.decision);
    var longer := Extended(visits, job, step);
    assert ok(stored.current, step) && fine(job);
    assert LastStep(last.(job := job, steps := last.steps + [step])) == step;
    forall k | 0 <= k < |longer|
      ensures longer[k].steps != [] && fine(longer[k].job) && ok(longer[k].worker, LastStep(longer[k]))
    {
      if k < |visits| - 1 {
        assert longer[k] == visits[k];
      }
    }
    GoKeeps(sw, ok, fine, budget, stored.current, job, stored.count, stored.history, longer, step);
  }

  lemma {:induction false} DriveKeeps(sw: Swarm, ok: (string, Step) -> bool, fine: SwarmJob -> bool, budget: nat,
                                      outcome: Outcome, hows: seq<Resumption>)
    requires Closed(sw, ok, fine) && Keeps(sw, ok, fine, outcome)
    ensures Keeps(sw, ok, fine, Drive(sw, budget, outcome, hows))
    decreases |hows|
  {
    if hows != [] && outcome.Waiting? {
      SwarmResumeKeeps(sw, ok, fine, budget, outcome, hows[0]);
      DriveKeeps(sw, ok, fine, budget, ResumeSwarm(sw, budget, outcome.stored, outcome.visits, hows[0]),
                 hows[1..]);
    }
  }

  /** Whatever starting, resuming and handing over keep holds of every visit of a run with any number of
      handoffs and pauses, and of the worker that waits. */
  lemma {:induction false} SwarmKeeps(sw: Swarm, ok: (string, Step) -> bool, fine: SwarmJob -> bool, budget: nat,
                                      job: SwarmJob, hows: seq<Resumption>)
    requires Closed(sw, ok, fine) && fine(job) && sw.first in sw.belts
    ensures Keeps(sw, ok, fine, Drive(sw, budget, StartSwarm(sw, budget, job), hows))
  {
    var step := sw.start(sw.first, job);
    GoKeeps(sw, ok, fine, budget, sw.first, job, 0, [], [Visit(sw.first, job, job, None, [step])], step);
    DriveKeeps(sw, ok, fine, budget, StartSwarm(sw, budget, job), hows);
  }

  /** The final calls are those of the visits, each once, if and only if the run did not hand over once
      more after as many handoffs as the budget admits, or the worker that did so made no calls. */
  lemma {:induction false} CallsCountedOnceIff(sw: Swarm, maxIterations: nat, maxToolCalls: nat, job: SwarmJob,
                                               hows: seq<Resumption>)
    requires sw.first in sw.belts
    requires Drive(sw, Budget(maxIterations, maxToolCalls),
                   StartSwarm(sw, Budget(maxIterations, maxToolCalls), job), hows).Ended?
    ensures var budget := Budget(maxIterations, maxToolCalls);
            var outcome := Drive(sw, budget, StartSwarm(sw, budget, job), hows);
            && Orderly(sw, budget, outcome)
            && (outcome.merged.toolCalls == VisitCalls(outcome.visits)
                <==> !OverBudget(sw, budget, outcome.visits) || LastCalls(outcome.visits) == [])
            && (outcome.merged.status == Completed ==> outcome.merged.toolCalls == VisitCalls(outcome.visits))
  {
    SwarmIsOrderly(sw, maxIterations, maxToolCalls, job, hows);
    var budget := Budget(maxIterations, maxToolCalls);
    var outcome := Drive(sw, budget, StartSwarm(sw, budget, job), hows);
    assert |VisitCalls(outcome.visits) + LastCalls(outcome.visits)|
           == |VisitCalls(outcome.visits)| + |LastCalls(outcome.visits)|;
  }

  // A worker that always hands over to "b", having made that one call.
  function Passing(): Step {
    var call := ToolCall("1", "transfer", map["agent_name" := "b"], None, None);
    var core := Core([], [call], 0, []);
    Paused(Report(PausedRun, "", [call], [], [], Some(Pending(Handoff, call, None))),
           WorkerState(Stop(WorkerRunner.Waiting(Pending(Handoff, call, None)), core, 1, [], 1), None))
  }

  /** With a budget of one handoff, two workers that each make one call and hand over: the failed report
      has three calls, that of the second worker twice. */
  lemma {:induction false} DoubledCalls(sw: Swarm, job: SwarmJob)
    requires sw.belts.Keys == {"a", "b"} && sw.first == "a" && job.items == None
    requires forall n :: n in sw.belts ==> sw.belts[n] == map[]
    requires forall w, j :: sw.start(w, j) == Passing()
    ensures var call := Passing().report.pending.value.call;
            var outcome := StartSwarm(sw, Budget(1, 5), job);
            && outcome.Ended? && outcome.merged.status == Failed && |outcome.visits| == 2
            && outcome.merged.toolCalls == [call, call, call]
  {
    var report := Passing().report;
    assert TransitionOf(sw, report, job, "a").To? && TransitionOf(sw, report, job, "a").worker == "b";
    var next := TransitionOf(sw, report, job, "a").job;
    assert next.items == None;
    assert TransitionOf(sw, report, next, "b").To?;
    var history := [report.(pending := None), report.(pending := None)];
    assert history[..1] == [report.(pending := None)] && history[..1][..0] == [];
    assert CallsOf(history) == CallsOf(history[..1]) + report.toolCalls;
    assert [] + [report.(pending := None)] == history[..1];
    assert history[..1] + [report.(pending := None)] == history;
    var first := [Visit("a", job, job, None, [Passing()])];
    var second := Visit("b", next, next, Some(Hop("a", job, report.pending.value.call)), [Passing()]);
    assert StartSwarm(sw, 1, job) == Go(sw, 1, "b", next, 1, history[..1], first + [second], Passing());
    assert HandsOver(sw, Passing(), next, "b").To?;
    var failed := FailedHandoff(report, "Max handoff transitions exceeded.");
    assert StartSwarm(sw, 1, job) == Ended(Merge(history, failed), first + [second]);
    assert CallsOf(history[..1]) == report.toolCalls;
    assert Merge(history, failed).toolCalls == report.toolCalls + report.toolCalls + report.toolCalls;
  }

  // ---- The loop in place ------------------------------------------------------------------------

  /** The loop shared by `_arun_swarm_mode` and `_aresume_swarm_stage`. */
  method SwarmLoop(sw: Swarm, budget: nat, worker: string, job: SwarmJob, handoffs: nat, past: seq<Report>,
                   seen: seq<Visit>, first: Step)
    returns (outcome: Outcome)
    requires worker in sw.belts
    ensures outcome == Go(sw, budget, worker, job, handoffs, past, seen, first)
  {
    var current, currentJob, count, history, visits, step := worker, job, handoffs, past, seen, first;
    while true
      invariant current in sw.belts
      invariant Go(sw, budget, worker, job, handoffs, past, seen, first)
                == Go(sw, budget, current, currentJob, count, history, visits, step)
      decreases if count <= budget then budget + 1 - count else 0
    {
      if step.Finished? {
        return Ended(Merge(history, step.report), visits);
      }
      var handoff := HandsOver(sw, step, currentJob, current);
      match handoff
      case NoHandoff =>
        return Outcome.Waiting(step.report,
                               StoredSwarm(WrittenState(step.state), currentJob, current, count, history), visits);
      case Bad(error) =>
        return Ended(Merge(history, FailedHandoff(step.report, error)), visits);
      case To(next, nextJob) =>
        history := history + [step.report.(pending := None)];
        count := count + 1;
        if count > budget {
          return Ended(Merge(history, FailedHandoff(step.report, "Max handoff transitions exceeded.")), visits);
        }
        var hop := Hop(current, currentJob, step.report.pending.value.call);
        current, currentJob := next, nextJob;
        step := sw.start(current, currentJob);
        visits := visits + [Visit(current, currentJob, currentJob, Some(hop), [step])];
    }
  }
}
