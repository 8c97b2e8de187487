/** What a run's messages say: the instructions it starts with stay, a turn's calls get their answers, and
    the loop ends for the reason it gives (worker_runner.py, worker_runner_helpers.py, worker_context.py). */
module WorkerTranscript {
  import opened Common
  import opened Conversation
  import opened Compaction
  import opened WorkerTools
  import opened ToolOverrides
  import opened WorkerTurn
  import opened WorkerRunner
  import opened WorkerSafety
  import opened WorkerRuns

  // ---- What a job starts with -------------------------------------------------------------------

  // The instructions are the first message, or the end of the system message that was first already; then
  // come the other messages, in order, and last the input.
  predicate StartsWithJob(built: seq<Message>, initial: seq<Message>, system: Option<string>, input: string) {
    var last := Message(User, input, [], None, false);
    if system.None? || system.value == "" then built == initial + [last]
    else if initial != [] && initial[0].role == System then
      && |built| == |initial| + 1 && built[1..] == initial[1..] + [last]
      && built[0].role == System && initial[0].content <= built[0].content
      && EndsWith(built[0].content, system.value) && |built[0].content| > |initial[0].content| + |system.value|
    else built == [Message(System, system.value, [], None, false)] + initial + [last]
  }

  /** `_build_messages`: instructions first, the conversation as it is, the input last. */
  lemma {:induction false} BuiltForJob(initial: seq<Message>, system: Option<string>, input: string)
    ensures StartsWithJob(BuildMessages(initial, system, input), initial, system, input)
  {
  }

  // ---- One turn ---------------------------------------------------------------------------------

  // How a turn with calls ends: over the limit, waiting for the call that needs a decision, or not at all.
  predicate TurnEnds(outcome: Option<Outcome>, calls: seq<ToolCall>, tools: map<string, Tool>, n: nat, g: nat)
    requires g <= n <= |calls|
  {
    if n < |calls| then outcome == Some(FailedRun("Max tool calls exceeded"))
    else if g < n then
      outcome.Some? && outcome.value.Waiting? && calls[g].name in tools
      && HeldFor(outcome.value.pending, calls[g], tools)
    else outcome.None?
  }

  /** A reply with calls, said of the calls themselves: the messages that are added and how the turn ends,
      when the limit admits n calls and call g is the first of them that needs a decision. */
  lemma {:induction false} CallsReplySays(model: Model, config: Config, tools: map<string, Tool>, c: Core,
                                          text: string, calls: seq<ToolCall>, n: nat, g: nat)
    requires DistinctIds(calls)
    requires var recorded, max := |c.toolCalls|, config.maxToolCalls;
             n == if recorded >= max then 0 else if |calls| <= max - recorded then |calls| else max - recorded
    requires FirstHeld(calls[..n], tools, g)
    ensures var (outcome, after) := CallsReplied(model, config, tools, c, text, calls);
            && |c.messages| <= |after.messages| && after.messages[..|c.messages|] == c.messages
            && TurnTold(after.messages[|c.messages|..], text, calls, tools, model.run, n, g)
            && TurnEnds(outcome, calls, tools, n, g)
  {
    PlanMeans(calls, tools, |c.toolCalls|, config.maxToolCalls, n, g);
    CallsAdd(model, tools, c, text, calls, config.maxToolCalls, n, g);
    if g < n {
      assert calls[..n][g] == calls[g];
    }
  }

  lemma {:induction false} CallsAdd(model: Model, tools: map<string, Tool>, c: Core, text: string,
                                    calls: seq<ToolCall>, max: nat, n: nat, g: nat)
    requires DistinctIds(calls)
    requires var recorded := |c.toolCalls|;
             n == if recorded >= max then 0 else if |calls| <= max - recorded then |calls| else max - recorded
    requires FirstHeld(calls[..n], tools, g)
    ensures var after := CallsTaken(model, tools, c, text, calls, max).1.messages;
            && |c.messages| <= |after| && after[..|c.messages|] == c.messages
            && TurnTold(after[|c.messages|..], text, calls, tools, model.run, n, g)
  {
    ExecutableHaveTools(calls, tools, |c.toolCalls|, max);
    TurnTells(text, calls, tools, |c.toolCalls|, max, model.run, n, g);
    var plan := PlanOf(calls, tools, |c.toolCalls|, max);
    var answers := Answered(plan.ordered, Results(plan, tools, model.run));
    Behind(c.messages, [AssistantMessage(text, calls)], answers);
  }

  lemma {:induction false} Behind(ms: seq<Message>, xs: seq<Message>, ys: seq<Message>)
    ensures ms + xs + ys == ms + (xs + ys) && (ms + xs + ys)[..|ms|] == ms && (ms + xs + ys)[|ms|..] == xs + ys
  {
  }

  // The first call that needs a decision, if there is one.
  lemma {:induction false} SomeFirst(calls: seq<ToolCall>, tools: map<string, Tool>) returns (g: nat)
    ensures FirstHeld(calls, tools, g)
  {
    g := 0;
    while g < |calls| && !NeedsDecision(calls[g], tools)
      invariant g <= |calls| && forall i :: 0 <= i < g ==> !NeedsDecision(calls[i], tools)
    {
      g := g + 1;
    }
  }

  // ---- Why a loop ends --------------------------------------------------------------------------

  // A reply that the model gave to these messages in this turn, and what follows from it.
  ghost predicate EndsTurn(model: Model, config: Config, tools: map<string, Tool>, ms: seq<Message>, turn: nat,
                           outcome: Outcome, after: seq<Message>) {
    var reply := model.respond(ms, turn);
    match outcome
    case Done(text) =>
      reply.Final? && reply.text == text && after == ms + [Message(Assistant, text, [], None, false)]
    case Waiting(p) =>
      reply.Calls? && p.call in reply.calls && p.call.name in tools && HeldFor(p, p.call, tools)
    case FailedRun(error) =>
      || (reply.Broken? && reply.error == error)
      || (reply.ContextLimit? && !config.respectContextWindow && error == "Context length exceeded.")
      || (reply.ContextLimit? && config.respectContextWindow
          && error == "Context length exceeded after summarization attempts.")
      || (reply.Calls? && error == "Max tool calls exceeded")
  }

  // The loop ends with what its last turn says, or because it may take no further turn.
  ghost predicate EndsFor(model: Model, config: Config, tools: map<string, Tool>, first: nat, stop: Stop,
                          ms: seq<Message>) {
    || (stop.turn > first
        && EndsTurn(model, config, tools, ms, stop.turn - 1, stop.outcome, stop.core.messages))
    || (stop.outcome == FailedRun("Max iterations exceeded") && stop.iteration >= config.maxIterations)
    || (stop.outcome == FailedRun("Cost budget exceeded") && config.budget.Some?
        && Sum(stop.run) > config.budget.value)
  }

  lemma {:induction false} ReplyEnds(model: Model, config: Config, tools: map<string, Tool>, c: Core, turn: nat)
    requires FreshModel(model)
    ensures var (stop, after) := Replied(model, config, tools, c, turn, model.respond(c.messages, turn));
            stop.Some? ==> EndsTurn(model, config, tools, c.messages, turn, stop.value, after.messages)
  {
    match model.respond(c.messages, turn)
    case ContextLimit(_) =>
    case Broken(_, _) =>
    case Final(_, _) =>
    case Calls(text, calls, _) =>
      assert FreshCalls(model, calls, turn);
      var recorded, max := |c.toolCalls|, config.maxToolCalls;
      var n := if recorded >= max then 0 else if |calls| <= max - recorded then |calls| else max - recorded;
      var g := SomeFirst(calls[..n], tools);
      CallsReplySays(model, config, tools, c, text, calls, n, g);
  }

  lemma {:induction false} TurnEndsFor(model: Model, config: Config, tools: map<string, Tool>, c: Core, turn: nat)
    requires FreshModel(model)
    ensures var next := TurnOf(model, config, tools, c, turn);
            next.0.Some? ==>
              EndsTurn(model, config, tools, Shortened(model, config, c.messages, turn), turn, next.0.value,
                       next.1.messages)
  {
    ReplyEnds(model, config, tools, c.(messages := Shortened(model, config, c.messages, turn)), turn);
  }

  // The last turn, or none.
  lemma {:induction false} LastTurnEnds(model: Model, config: Config, tools: map<string, Tool>, c: Core,
                                        iteration: nat, run: seq<real>, turn: nat)
    requires FreshModel(model)
    requires IsLast(model, config, tools, c, iteration, run, turn)
    ensures var stop := LoopOf(model, config, tools, c, iteration, run, turn);
            stop.turn >= turn && EndsFor(model, config, tools, turn, stop, Shortened(model, config, c.messages, turn))
  {
    if iteration < config.maxIterations && !OverBudget(config, run) {
      TurnEndsFor(model, config, tools, c, turn);
      LoopStep(model, config, tools, c, iteration, run, turn);
    }
  }

  // No turn follows: the loop ends with this one, or may not take it.
  predicate IsLast(model: Model, config: Config, tools: map<string, Tool>, c: Core, iteration: nat, run: seq<real>,
                   turn: nat) {
    iteration >= config.maxIterations || OverBudget(config, run) || TurnOf(model, config, tools, c, turn).0.Some?
  }

  // Where the loop stops.
  function StopOf(model: Model, config: Config, tools: map<string, Tool>, c: Core, iteration: nat, run: seq<real>,
                  turn: nat): Stop {
    LoopOf(model, config, tools, c, iteration, run, turn)
  }

  // This turn is the last one, or the loop stops there for another.
  lemma {:induction false} ToNextTurn(model: Model, config: Config, tools: map<string, Tool>, c: Core,
                                      iteration: nat, run: seq<real>, turn: nat)
    returns (more: bool, after: Core, spent: seq<real>)
    ensures if more then
              && iteration < config.maxIterations
              && StopOf(model, config, tools, c, iteration, run, turn)
                 == StopOf(model, config, tools, after, iteration + 1, spent, turn + 1)
            else IsLast(model, config, tools, c, iteration, run, turn)
  {
    more, after, spent := !IsLast(model, config, tools, c, iteration, run, turn), c, run;
    if more {
      LoopStep(model, config, tools, c, iteration, run, turn);
      after, spent := TurnOf(model, config, tools, c, turn).1, run + CostOf(model, config, c, turn);
    }
  }

  // The last turn of a loop, from which it stops where it does from its first.
  lemma {:induction false} ToLastTurn(model: Model, config: Config, tools: map<string, Tool>, c: Core,
                                      iteration: nat, run: seq<real>, turn: nat)
    returns (c': Core, iteration': nat, run': seq<real>, turn': nat)
    ensures StopOf(model, config, tools, c, iteration, run, turn)
            == StopOf(model, config, tools, c', iteration', run', turn')
    ensures turn <= turn' && IsLast(model, config, tools, c', iteration', run', turn')
    decreases config.maxIterations - iteration
  {
    var more, after, spent := ToNextTurn(model, config, tools, c, iteration, run, turn);
    if more {
      c', iteration', run', turn' := ToLastTurn(model, config, tools, after, iteration + 1, spent, turn + 1);
    } else {
      c', iteration', run', turn' := c, iteration, run, turn;
    }
  }

  /** A loop ends for the reason it gives: a text is that of the model's last message, which closes the
      conversation; a call it waits for is one of the last reply and behind its tool's own gate; and it fails
      with the error of its last turn, after the last iteration, or because more than the budget was spent. */
  lemma {:induction false} LoopEndsFor(model: Model, config: Config, tools: map<string, Tool>, c: Core,
                                       iteration: nat, run: seq<real>, turn: nat) returns (ms: seq<Message>)
    requires FreshModel(model)
    ensures var stop := LoopOf(model, config, tools, c, iteration, run, turn);
            stop.turn >= turn && EndsFor(model, config, tools, turn, stop, ms)
  {
    var c', iteration', run', turn' := ToLastTurn(model, config, tools, c, iteration, run, turn);
    ms := Shortened(model, config, c'.messages, turn');
    LastTurnEnds(model, config, tools, c', iteration', run', turn');
    EndsBefore(model, config, tools, turn, turn', ms, LoopOf(model, config, tools, c', iteration', run', turn'));
  }

  /** The same for a run with any number of pauses: it ends, or waits, for the reason it gives. */
  lemma {:induction false} RunEndsFor(model: Model, config: Config, belt: Toolbelt, run: JobRun, hows: seq<Resumption>,
                                      first: nat, asked: seq<Message>) returns (ms: seq<Message>)
    requires FreshModel(model) && first <= run.stop.turn
    requires EndsFor(model, config, Allowed(belt, run.items), first, run.stop, asked)
    ensures var end := RunOf(model, config, belt, run, hows);
            first <= end.stop.turn && EndsFor(model, config, Allowed(belt, end.items), first, end.stop, ms)
    decreases |hows|
  {
    ms := asked;
    if hows != [] && run.stop.outcome.Waiting? {
      var items, stop := Seen(run.items, hows[0].way), run.stop;
      var found := ResumeTool(belt, items, stop.outcome.pending.call.name);
      var c := PendingAnswered(model, stop.core, found, stop.outcome.pending, hows[0].decision);
      ms := LoopEndsFor(model, config, Allowed(belt, items), c, stop.iteration, stop.run, stop.turn);
      var next := ResumedRun(model, config, belt, run, hows[0]);
      EndsBefore(model, config, Allowed(belt, items), first, stop.turn, ms, next.stop);
      ms := RunEndsFor(model, config, belt, next, hows[1..], first, ms);
    }
  }

  lemma {:induction false} EndsBefore(model: Model, config: Config, tools: map<string, Tool>, first: nat, later: nat,
                                      ms: seq<Message>, stop: Stop)
    requires first <= later <= stop.turn && EndsFor(model, config, tools, later, stop, ms)
    ensures EndsFor(model, config, tools, first, stop, ms)
  {
  }

  // ---- The system messages stay -----------------------------------------------------------------

  lemma {:induction false} AddedKeepSystem(ms: seq<Message>, added: seq<Message>)
    requires forall m :: m in added ==> m.role != System
    ensures Filter(ms + added, IsSystem) == Filter(ms, IsSystem)
  {
    FilterAppend(ms, added, IsSystem);
    NoSystem(added);
  }

  lemma {:induction false} SummaryKeepsSystem(model: Model, ms: seq<Message>, turn: nat, preserveRecent: bool,
                                              limit: Option<nat>)
    ensures var summarized := Summarized(model, ms, turn, preserveRecent, limit);
            summarized.Some? ==> Filter(summarized.value, IsSystem) == Filter(ms, IsSystem)
  {
    var s := SummarySplit(ms, preserveRecent, limit);
    if s.head != [] && model.summarize(s.head, turn).Some? {
      var text := model.summarize(s.head, turn).value;
      CommittedMeans(ms, preserveRecent, limit, text);
      CompactedKeepsSystem(ms, Committed(s, text), |s.head|, text);
    }
  }

  lemma {:induction false} AnswersAreTools(calls: seq<ToolCall>, results: map<string, ToolResult>)
    ensures forall m :: m in Answered(calls, results) ==> m.role == ToolRole
    decreases |calls|
  {
    if calls != [] {
      AnswersAreTools(calls[..|calls| - 1], results);
    }
  }

  lemma {:induction false} TurnKeepsSystem(model: Model, config: Config, tools: map<string, Tool>, c: Core, turn: nat)
    ensures Filter(TurnOf(model, config, tools, c, turn).1.messages, IsSystem) == Filter(c.messages, IsSystem)
  {
    var short := c.(messages := Shortened(model, config, c.messages, turn));
    SummaryKeepsSystem(model, c.messages, turn, true, config.maxContextMessages);
    ReplyKeepsSystem(model, config, tools, short, turn, model.respond(short.messages, turn));
  }

  lemma {:induction false} ReplyKeepsSystem(model: Model, config: Config, tools: map<string, Tool>, c: Core, turn: nat,
                                            reply: Reply)
    ensures Filter(Replied(model, config, tools, c, turn, reply).1.messages, IsSystem) == Filter(c.messages, IsSystem)
  {
    match reply
    case ContextLimit(_) => SummaryKeepsSystem(model, c.messages, turn + 1, false, None);
    case Broken(_, _) =>
    case Final(text, _) => AddedKeepSystem(c.messages, [AssistantMessage(text, [])]);
    case Calls(text, calls, _) => CallsKeepSystem(model, config, tools, c, text, calls);
  }

  lemma {:induction false} CallsKeepSystem(model: Model, config: Config, tools: map<string, Tool>, c: Core,
                                           text: string, calls: seq<ToolCall>)
    ensures Filter(CallsReplied(model, config, tools, c, text, calls).1.messages, IsSystem)
            == Filter(c.messages, IsSystem)
  {
    var answers := CallsAddAnswers(model, config, tools, c, text, calls);
    AddedKeepSystem(c.messages, [AssistantMessage(text, calls)] + answers);
  }

  lemma {:induction false} CallsAddAnswers(model: Model, config: Config, tools: map<string, Tool>, c: Core,
                                           text: string, calls: seq<ToolCall>)
    returns (answers: seq<Message>)
    ensures CallsReplied(model, config, tools, c, text, calls).1.messages
            == c.messages + ([AssistantMessage(text, calls)] + answers)
    ensures forall m :: m in answers ==> m.role == ToolRole
  {
    ExecutableHaveTools(calls, tools, |c.toolCalls|, config.maxToolCalls);
    var plan := PlanOf(calls, tools, |c.toolCalls|, config.maxToolCalls);
    var results := Results(plan, tools, model.run);
    answers := Answered(plan.ordered, results);
    AnswersAreTools(plan.ordered, results);
    assert c.messages + [AssistantMessage(text, calls)] + answers
           == c.messages + ([AssistantMessage(text, calls)] + answers);
  }

  lemma {:induction false} LoopKeepsSystem(model: Model, config: Config, tools: map<string, Tool>, c: Core,
                                           iteration: nat, run: seq<real>, turn: nat)
    ensures Filter(StopOf(model, config, tools, c, iteration, run, turn).core.messages, IsSystem)
            == Filter(c.messages, IsSystem)
    decreases config.maxIterations - iteration
  {
    var later := TurnThenLater(model, config, tools, c, iteration, run, turn);
    if later.Some? {
      LoopKeepsSystem(model, config, tools, later.value.0, iteration + 1, later.value.1, turn + 1);
    }
  }

  // The loop ends with the same system messages, or goes on with them.
  lemma {:induction false} TurnThenLater(model: Model, config: Config, tools: map<string, Tool>, c: Core,
                                         iteration: nat, run: seq<real>, turn: nat)
    returns (later: Option<(Core, seq<real>)>)
    ensures var stop := StopOf(model, config, tools, c, iteration, run, turn);
            if later.None? then Filter(stop.core.messages, IsSystem) == Filter(c.messages, IsSystem)
            else
              && iteration < config.maxIterations
              && Filter(later.value.0.messages, IsSystem) == Filter(c.messages, IsSystem)
              && stop == StopOf(model, config, tools, later.value.0, iteration + 1, later.value.1, turn + 1)
  {
    later := None;
    if iteration < config.maxIterations && !OverBudget(config, run) {
      var next := TurnOf(model, config, tools, c, turn);
      TurnKeepsSystem(model, config, tools, c, turn);
      LoopStep(model, config, tools, c, iteration, run, turn);
      if next.0.None? {
        later := Some((next.1, run + CostOf(model, config, c, turn)));
      }
    }
  }

  lemma {:induction false} RunKeepsSystem(model: Model, config: Config, belt: Toolbelt, run: JobRun,
                                          hows: seq<Resumption>)
    ensures Filter(RunOf(model, config, belt, run, hows).stop.core.messages, IsSystem)
            == Filter(run.stop.core.messages, IsSystem)
    decreases |hows|
  {
    if hows != [] && run.stop.outcome.Waiting? {
      var items, stop := Seen(run.items, hows[0].way), run.stop;
      var found := ResumeTool(belt, items, stop.outcome.pending.call.name);
      var c := PendingAnswered(model, stop.core, found, stop.outcome.pending, hows[0].decision);
      assert c.messages == stop.core.messages + [c.messages[|stop.core.messages|]];
      AddedKeepSystem(stop.core.messages, [c.messages[|stop.core.messages|]]);
      LoopKeepsSystem(model, config, Allowed(belt, items), c, stop.iteration, stop.run, stop.turn);
      RunKeepsSystem(model, config, belt, ResumedRun(model, config, belt, run, hows[0]), hows[1..]);
    }
  }

  // The system messages of what a job starts with.
  lemma {:induction false} BuiltSystem(initial: seq<Message>, system: string, input: string)
    requires system != ""
    ensures var kept := Filter(BuildMessages(initial, Some(system), input), IsSystem);
            var others := if initial != [] && initial[0].role == System then initial[1..] else initial;
            kept != [] && EndsWith(kept[0].content, system) && kept[1..] == Filter(others, IsSystem)
  {
    var built := BuildMessages(initial, Some(system), input);
    BuiltForJob(initial, Some(system), input);
    var last := Message(User, input, [], None, false);
    var others := if initial != [] && initial[0].role == System then initial[1..] else initial;
    assert built == [built[0]] + others + [last] && built[0].role == System;
    AddedKeepSystem([built[0]] + others, [last]);
    SystemFirst(built[0], others);
  }

  lemma {:induction false} SystemFirst(first: Message, others: seq<Message>)
    requires first.role == System
    ensures Filter([first] + others, IsSystem) == [first] + Filter(others, IsSystem)
  {
    FilterAppend([first], others, IsSystem);
    FilterOne(first, IsSystem);
  }

  lemma {:induction false} StartKeepsSystem(model: Model, config: Config, belt: Toolbelt, items: Option<seq<Item>>,
          initial: seq<Message>, system: Option<string>, input: string, hows: seq<Resumption>, first: nat)
    ensures var run := RunOf(model, config, belt,
                             StartOf(model, config, belt, items, initial, system, input, first), hows);
            Filter(run.stop.core.messages, IsSystem) == Filter(BuildMessages(initial, system, input), IsSystem)
  {
    var built := BuildMessages(initial, system, input);
    LoopKeepsSystem(model, config, Allowed(belt, items), Core(built, [], 0, []), 0, [], first);
    RunKeepsSystem(model, config, belt, StartOf(model, config, belt, items, initial, system, input, first), hows);
  }

  /** However long a run goes on, with any compactions, pauses and resumes: its system messages are at every
      stop those it was started with, in order, and the first of them ends with the job's instructions. */
  lemma {:induction false} InstructionsStay(model: Model, config: Config, belt: Toolbelt, items: Option<seq<Item>>,
          initial: seq<Message>, system: string, input: string, hows: seq<Resumption>, first: nat)
    requires system != ""
    ensures var run := RunOf(model, config, belt,
                             StartOf(model, config, belt, items, initial, Some(system), input, first), hows);
            var kept := Filter(run.stop.core.messages, IsSystem);
            var others := if initial != [] && initial[0].role == System then initial[1..] else initial;
            kept != [] && EndsWith(kept[0].content, system) && kept[1..] == Filter(others, IsSystem)
  {
    BuiltSystem(initial, system, input);
    StartKeepsSystem(model, config, belt, items, initial, Some(system), input, hows, first);
  }

  // ---- What a session keeps ---------------------------------------------------------------------

  /** A completed run leaves its session exactly the messages of users and models, the answers to calls, and
      the summaries, all in order; any other run leaves it what it had. */
  lemma {:induction false} SessionKeeps(stored: seq<Message>, outcome: Outcome, reported: seq<Message>)
    returns (at: seq<nat>)
    ensures if outcome.Done? then
              PickedAt(reported, Persisted(stored, outcome, reported),
                       (m: Message) =>
                         m.role == User || m.role == Assistant || (m.role == System && m.summary)
                         || (m.role == ToolRole && m.toolCallId.Some? && m.toolCallId.value != ""),
                       at)
            else Persisted(stored, outcome, reported) == stored
  {
    at := FilterPicks(reported, KeptBySession);
  }

  /** What a worker is handed over: the messages of the report but its system messages, in order, and last
      an answer to the call that handed over. */
  lemma {:induction false} HandedOver(ms: seq<Message>, target: string, id: string) returns (at: seq<nat>)
    ensures var handed := HandoffMessages(ms, target, id);
            && handed != []
            && PickedAt(ms, handed[..|handed| - 1], (m: Message) => m.role != System, at)
            && handed[|handed| - 1] == Message(ToolRole, "Transferred to " + target + ".", [], Some(id), false)
  {
    at := FilterPicks(ms, NotSystem);
    var handed := HandoffMessages(ms, target, id);
    assert handed[..|handed| - 1] == Filter(ms, NotSystem);
  }
}
