/** Workers as in worker_runner.py as members of a workforce: what starting and resuming them comes
    back with, and when it makes no difference that a job is stored with the names of its tools. */
module Members {
  import opened Common
  import opened Conversation
  import opened WorkerTools
  import opened ToolOverrides
  import opened WorkerTurn
  import opened WorkerRunner
  import opened WorkerRuns
  import opened Reports
  import Collaboration

  datatype Member = Member(model: Model, belt: Toolbelt, system: Option<string>)

  // A worker's report, and the state it leaves if it waits.
  function StepOf(stop: Stop, items: Option<seq<Item>>): Step {
    var core := stop.core;
    match stop.outcome
    case Done(text) => Finished(Report(Completed, text, core.toolCalls, [], core.messages, None))
    case FailedRun(error) => Finished(Report(Failed, "", core.toolCalls, [error], core.messages, None))
    case Waiting(pending) =>
      Paused(Report(PausedRun, "", core.toolCalls, [], core.messages, Some(pending)), WorkerState(stop, items))
  }

  /** What a worker's stop looks like from outside: it waits or is finished as the run does or is, it is
      completed with the run's text, or failed with its error, and it has the run's calls and messages. */
  lemma {:induction false} StepTells(stop: Stop, items: Option<seq<Item>>)
    ensures var step := StepOf(stop, items);
            && step.report.toolCalls == stop.core.toolCalls && step.report.messages == stop.core.messages
            && match stop.outcome
               case Done(text) =>
                 step.Finished? && step.report.status == Completed && step.report.content == text
                 && step.report.errors == [] && step.report.pending.None?
               case FailedRun(error) =>
                 step.Finished? && step.report.status == Failed && step.report.errors == [error]
                 && step.report.pending.None?
               case Waiting(pending) =>
                 step.Paused? && step.report.status == PausedRun && step.report.pending == Some(pending)
                 && step.state == WorkerState(stop, items)
  {
  }

  // A job: its messages, its input, and the list of its tools.
  datatype Task = Task(initial: seq<Message>, input: string, items: Option<seq<Item>>)

  // `before` is what the run has cost until then, by whichever worker.
  function StartStep(config: Config, m: Member, task: Task, before: seq<real>, first: nat): Step {
    var core := Core(BuildMessages(task.initial, m.system, task.input), [], 0, []);
    StepOf(LoopOf(m.model, config, Allowed(m.belt, task.items), core, 0, before, first), task.items)
  }

  function ResumeStep(config: Config, m: Member, state: WorkerState, decision: Decision, before: seq<real>): Step
    requires state.stop.outcome.Waiting?
  {
    StepOf(ResumeOf(m.model, config, m.belt, state.items, state.stop.(run := before), decision), state.items)
  }

  // ---- Workers with tools of their own ----------------------------------------------------------

  // The workforce in which every worker has the whole budget for itself and starts at this turn.
  function TeamOf(config: Config, names: seq<string>, members: seq<Member>, initial: seq<Message>, input: string,
                  first: nat, reducer: Option<seq<Report> -> Report>): Collaboration.Team
    requires |members| == |names|
  {
    Collaboration.Team(
      names,
      (i: nat, items: Option<seq<Item>>) =>
        if i < |members| then StartStep(config, members[i], Task(initial, input, items), [], first) else Missing(),
      (i: nat, state: WorkerState, decision: Decision) =>
        if i < |members| && state.stop.outcome.Waiting? then
          ResumeStep(config, members[i], state, decision, state.stop.run)
        else Missing(),
      reducer)
  }

  function Missing(): Step {
    Finished(Report(Failed, "", [], [], [], None))
  }

  lemma {:induction false} SameStop(items: Option<seq<Item>>, stop: Stop, a: Option<seq<Item>>, b: Option<seq<Item>>)
    requires ListOrNames(items, a) && ListOrNames(items, b)
    ensures Collaboration.Carries(items, StepOf(stop, a))
    ensures Collaboration.SameStep(StepOf(stop, a), StepOf(stop, b))
  {
    Collaboration.WrittenTwice(items);
  }

  /** If names are distinct and all listed tools are in every worker's toolbelt, the workers of a team cannot
      tell the list from its names, so storing a run of the team does not show. */
  lemma {:induction false} OwnToolsSuffice(config: Config, names: seq<string>, members: seq<Member>,
          initial: seq<Message>, input: string, first: nat, reducer: Option<seq<Report> -> Report>,
          items: Option<seq<Item>>)
    requires |members| == |names| && (items.Some? ==> DistinctNames(items.value))
    requires forall m :: m in members ==> ValidBelt(m.belt) && AllOwn(m.belt, items)
    ensures Collaboration.NamesSuffice(TeamOf(config, names, members, initial, input, first, reducer), items)
  {
    var team := TeamOf(config, names, members, initial, input, first, reducer);
    forall i: nat, a, b | ListOrNames(items, a) && ListOrNames(items, b)
      ensures Collaboration.Carries(items, team.start(i, a))
      ensures Collaboration.SameStep(team.start(i, a), team.start(i, b))
    {
      if i < |members| {
        StartsAlike(config, members[i], Task(initial, input, a), first, items, b);
        assert team.start(i, a) == StartStep(config, members[i], Task(initial, input, a), [], first);
      } else {
        assert team.start(i, a) == Missing();
      }
    }
    forall i: nat, s: WorkerState, t: WorkerState, d |
      ListOrNames(items, s.items) && ListOrNames(items, t.items) && s.stop == t.stop
      ensures Collaboration.Carries(items, team.resume(i, s, d))
      ensures Collaboration.SameStep(team.resume(i, s, d), team.resume(i, t, d))
    {
      if i < |members| && s.stop.outcome.Waiting? {
        ResumesAlike(config, members[i], s, t, d, items);
        assert team.resume(i, s, d) == ResumeStep(config, members[i], s, d, s.stop.run);
      } else {
        assert team.resume(i, s, d) == Missing();
      }
    }
  }

  lemma {:induction false} StartsAlike(config: Config, m: Member, task: Task, first: nat, items: Option<seq<Item>>,
                                       other: Option<seq<Item>>)
    requires ValidBelt(m.belt) && AllOwn(m.belt, items) && (items.Some? ==> DistinctNames(items.value))
    requires ListOrNames(items, task.items) && ListOrNames(items, other)
    ensures var step := StartStep(config, m, task, [], first);
            && Collaboration.Carries(items, step)
            && Collaboration.SameStep(step, StartStep(config, m, task.(items := other), [], first))
  {
    SameToolsSeen(m.belt, items, task.items);
    SameToolsSeen(m.belt, items, other);
    var core := Core(BuildMessages(task.initial, m.system, task.input), [], 0, []);
    SameStop(items, LoopOf(m.model, config, Allowed(m.belt, items), core, 0, [], first), task.items, other);
  }

  lemma {:induction false} ResumesAlike(config: Config, m: Member, s: WorkerState, t: WorkerState,
                                        decision: Decision, items: Option<seq<Item>>)
    requires ValidBelt(m.belt) && AllOwn(m.belt, items) && (items.Some? ==> DistinctNames(items.value))
    requires ListOrNames(items, s.items) && ListOrNames(items, t.items)
    requires s.stop == t.stop && s.stop.outcome.Waiting?
    ensures var step := ResumeStep(config, m, s, decision, s.stop.run);
            && Collaboration.Carries(items, step)
            && Collaboration.SameStep(step, ResumeStep(config, m, t, decision, t.stop.run))
  {
    SameToolsSeen(m.belt, items, s.items);
    SameToolsSeen(m.belt, items, t.items);
    SameStop(items, ResumeOf(m.model, config, m.belt, s.items, s.stop.(run := s.stop.run), decision), s.items, t.items);
  }
}
