/** Swarms whose members are workers as in worker_runner.py: what they hand on over a whole run. */
module SwarmPairing {
  import opened Common
  import opened Conversation
  import opened Compaction
  import opened WorkerTools
  import opened ToolOverrides
  import opened WorkerTurn
  import opened WorkerRunner
  import opened WorkerSafety
  import opened WorkerRuns
  import opened Reports
  import opened SwarmMode
  import opened Members

  // Calls and answers are paired up to `open`, and every call has an id.
  ghost predicate Converses(ms: seq<Message>, open: set<string>) {
    Paired(ms, open) && NonEmptyIds(ms)
  }

  // ---- Workers as members of a swarm ------------------------------------------------------------

  function TaskOf(job: SwarmJob): Task {
    Task(job.initial, job.input, job.items)
  }

  // The worker's calls get ids that the conversation does not use yet.
  ghost predicate NewIds(model: Model, ms: seq<Message>, first: nat) {
    forall id :: id in ReadAll(EMPTY, ms).declared ==> model.turnOf(id) < first
  }

  // The step is that of this worker started on the job, whatever the run has cost before.
  ghost predicate StartsAs(config: Config, m: Member, job: SwarmJob, step: Step) {
    exists before: seq<real>, first: nat ::
      && step == StartStep(config, m, TaskOf(job), before, first)
      && WithinBudget(before, config.budget) && NewIds(m.model, job.initial, first)
  }

  ghost predicate ResumesAs(config: Config, m: Member, state: WorkerState, decision: Decision, step: Step)
    requires state.stop.outcome.Waiting?
  {
    exists before: seq<real> ::
      step == ResumeStep(config, m, state, decision, before) && WithinBudget(before, config.budget)
  }

  /** Every start and every resume of the swarm is that of a member. */
  ghost predicate RunsWorkers(config: Config, members: map<string, Member>, sw: Swarm) {
    && sw.first in sw.belts && sw.belts.Keys == members.Keys
    && (forall n :: n in members ==> FreshModel(members[n].model) && ValidBelt(members[n].belt))
    && (forall n, job :: n in members ==> StartsAs(config, members[n], job, sw.start(n, job)))
    && forall n, state: WorkerState, decision :: n in members && state.stop.outcome.Waiting? ==>
          ResumesAs(config, members[n], state, decision, sw.resume(n, state, decision))
  }

  // ---- What a worker passes on ------------------------------------------------------------------

  // A state that a member left behind while it waits.
  ghost predicate GoodState(config: Config, m: Member, state: WorkerState) {
    var stop := state.stop;
    && stop.outcome.Waiting?
    && Kept(m.model, config, Allowed(m.belt, state.items), stop.core, stop.iteration, stop.outcome, stop.turn)
  }

  // A step of a member: one call open while it waits, none once it completed.
  ghost predicate GoodStep(config: Config, m: Member, step: Step) {
    && (step.Paused? ==>
          && step.report.status == PausedRun && step.report.pending.Some?
          && Converses(step.report.messages, {step.report.pending.value.call.id})
          && GoodState(config, m, step.state))
    && (step.Finished? && step.report.status == Completed ==> Converses(step.report.messages, {}))
  }

  lemma {:induction false} StopIsGood(config: Config, m: Member, stop: Stop, items: Option<seq<Item>>)
    requires Stopped(m.model, config, Allowed(m.belt, items), stop)
    ensures GoodStep(config, m, StepOf(stop, items))
  {
  }

  ghost predicate GoodJob(job: SwarmJob) {
    Converses(job.initial, {})
  }

  lemma {:induction false} StartIsGood(config: Config, m: Member, job: SwarmJob, step: Step)
    requires StartsAs(config, m, job, step) && FreshModel(m.model) && GoodJob(job)
    ensures GoodStep(config, m, step)
  {
    var before: seq<real>, first: nat :|
      && step == StartStep(config, m, TaskOf(job), before, first)
      && WithinBudget(before, config.budget) && NewIds(m.model, job.initial, first);
    var core := Core(BuildMessages(job.initial, m.system, job.input), [], 0, []);
    BuildKeeps(m.model, job.initial, m.system, job.input, first);
    LoopKeeps(m.model, config, Allowed(m.belt, job.items), core, 0, before, first);
    StopIsGood(config, m, LoopOf(m.model, config, Allowed(m.belt, job.items), core, 0, before, first), job.items);
  }

  lemma {:induction false} WithCosts(config: Config, m: Member, state: WorkerState, before: seq<real>)
    requires GoodState(config, m, state) && WithinBudget(before, config.budget)
    ensures Stopped(m.model, config, Allowed(m.belt, state.items), state.stop.(run := before))
  {
  }

  // A worker is resumed from what was written of it.
  lemma {:induction false} ResumeIsGood(config: Config, m: Member, state: WorkerState, decision: Decision, step: Step)
    requires GoodState(config, m, state) && ResumesAs(config, m, WrittenState(state), decision, step)
    requires FreshModel(m.model) && ValidBelt(m.belt)
    ensures GoodStep(config, m, step)
  {
    var before: seq<real> :|
      step == ResumeStep(config, m, WrittenState(state), decision, before) && WithinBudget(before, config.budget);
    WithCosts(config, m, state, before);
    ResumeStops(m.model, config, m.belt, Allowed(m.belt, state.items), Written(state.items),
                state.stop.(run := before), decision);
    StopIsGood(config, m,
               ResumeOf(m.model, config, m.belt, Written(state.items), state.stop.(run := before), decision),
               Written(state.items));
  }

  /** The next worker starts from a conversation in which every call is answered. */
  lemma {:induction false} TransitionKeepsPairing(sw: Swarm, report: Report, job: SwarmJob, worker: string)
    requires worker in sw.belts && report.pending.Some?
    requires Converses(report.messages, {report.pending.value.call.id})
    requires TransitionOf(sw, report, job, worker).To?
    ensures GoodJob(TransitionOf(sw, report, job, worker).job)
  {
    var target := TransitionOf(sw, report, job, worker).worker;
    var id := report.pending.value.call.id;
    var model := Model((ms, t) => Final("", None), (ms, t) => None, (tool, call) => ToolResult(None, None), id => 0);
    HandoffKeepsPairing(model, report.messages, target, id, 1);
  }

  // ---- The whole run ----------------------------------------------------------------------------

  /** Every worker was started on a fully paired job; what waits, waits for the one open call of its report;
      and the report that completed the run has none open. */
  ghost predicate StaysPaired(outcome: SwarmMode.Outcome) {
    && (forall k :: 0 <= k < |outcome.visits| ==> Converses(outcome.visits[k].job.initial, {}))
    && (outcome.Waiting? ==>
          && outcome.report.pending.Some?
          && Converses(outcome.report.messages, {outcome.report.pending.value.call.id}))
    && (outcome.Ended? && outcome.merged.status == Completed ==>
          && outcome.visits != [] && outcome.visits[|outcome.visits| - 1].steps != []
          && var report := LastReport(outcome.visits[|outcome.visits| - 1]);
             report.status == Completed && Converses(report.messages, {}))
  }

  lemma {:induction false} HandsOnGood(config: Config, members: map<string, Member>, sw: Swarm, n: string,
                                       step: Step, job: SwarmJob)
    requires n in sw.belts && n in members && GoodStep(config, members[n], step) && GoodJob(job)
    requires HandsOver(sw, step, job, n).To?
    ensures GoodJob(HandsOver(sw, step, job, n).job)
  {
    TransitionKeepsPairing(sw, step.report, job, n);
  }

  // Starting, resuming and handing over keep what is good.
  lemma {:induction false} MembersAreClosed(config: Config, members: map<string, Member>, sw: Swarm)
    returns (ok: (string, Step) -> bool, fine: SwarmJob -> bool)
    requires RunsWorkers(config, members, sw)
    ensures Closed(sw, ok, fine)
    ensures forall n, step :: ok(n, step) <==> n in members && GoodStep(config, members[n], step)
    ensures forall job :: fine(job) <==> GoodJob(job)
  {
    ok := (n: string, step: Step) => n in members && GoodStep(config, members[n], step);
    fine := (job: SwarmJob) => GoodJob(job);
    forall n, job | n in sw.belts && fine(job)
      ensures ok(n, sw.start(n, job))
    {
      StartIsGood(config, members[n], job, sw.start(n, job));
    }
    forall n, step: Step, decision | ok(n, step) && step.Paused?
      ensures ok(n, sw.resume(n, WrittenState(step.state), decision))
    {
      ResumeIsGood(config, members[n], step.state, decision, sw.resume(n, WrittenState(step.state), decision));
    }
    forall n, step, job | n in sw.belts && ok(n, step) && fine(job) && HandsOver(sw, step, job, n).To?
      ensures fine(HandsOver(sw, step, job, n).job)
    {
      HandsOnGood(config, members, sw, n, step, job);
    }
  }

  /** A whole swarm of workers, through any number of handoffs, pauses and resumes, with any costs: every
      worker is started on a conversation in which each call has its answer; what waits, waits for the
      one open call of its report; and the report that completes the run has none open. */
  lemma {:induction false} SwarmStaysPaired(config: Config, members: map<string, Member>, sw: Swarm, job: SwarmJob,
                                            hows: seq<Resumption>)
    requires RunsWorkers(config, members, sw) && GoodJob(job)
    ensures var budget := Budget(config.maxIterations, config.maxToolCalls);
            StaysPaired(Drive(sw, budget, StartSwarm(sw, budget, job), hows))
  {
    var budget := Budget(config.maxIterations, config.maxToolCalls);
    var ok, fine := MembersAreClosed(config, members, sw);
    SwarmKeeps(sw, ok, fine, budget, job, hows);
    var outcome := Drive(sw, budget, StartSwarm(sw, budget, job), hows);
    KeptIsPaired(config, members, sw, ok, fine, outcome);
  }

  lemma {:induction false} KeptIsPaired(config: Config, members: map<string, Member>, sw: Swarm,
          ok: (string, Step) -> bool, fine: SwarmJob -> bool, outcome: SwarmMode.Outcome)
    requires Keeps(sw, ok, fine, outcome)
    requires forall n, step :: ok(n, step) ==> n in members && GoodStep(config, members[n], step)
    requires forall job :: fine(job) ==> GoodJob(job)
    ensures StaysPaired(outcome)
  {
    var last := outcome.visits[|outcome.visits| - 1];
    assert ok(last.worker, LastStep(last));
  }

  // ---- Such swarms exist ------------------------------------------------------------------------

  // A turn after those of all the ids.
  ghost function After(turnOf: string -> nat, ids: set<string>): (turn: nat)
    ensures forall id :: id in ids ==> turnOf(id) < turn
  {
    if ids == {} then 0
    else
      var id :| id in ids;
      var rest := After(turnOf, ids - {id});
      if turnOf(id) < rest then rest else turnOf(id) + 1
  }

  // The swarm of these workers in which every worker has the whole budget for itself.
  ghost function SwarmOf(config: Config, members: map<string, Member>, first: string,
                         listed: Tool -> Option<set<string>>): Swarm {
    Swarm(first, map n | n in members :: members[n].belt, listed,
          (n: string, job: SwarmJob) =>
            if n in members then
              StartStep(config, members[n], TaskOf(job), [],
                        After(members[n].model.turnOf, ReadAll(EMPTY, job.initial).declared))
            else Finished(Report(Failed, "", [], [], [], None)),
          (n: string, state: WorkerState, decision: Decision) =>
            if n in members && state.stop.outcome.Waiting? then ResumeStep(config, members[n], state, decision, [])
            else Finished(Report(Failed, "", [], [], [], None)))
  }

  lemma {:induction false} SwarmOfRunsWorkers(config: Config, members: map<string, Member>, first: string,
          listed: Tool -> Option<set<string>>)
    requires first in members
    requires forall n :: n in members ==> FreshModel(members[n].model) && ValidBelt(members[n].belt)
    ensures RunsWorkers(config, members, SwarmOf(config, members, first, listed))
  {
    var sw := SwarmOf(config, members, first, listed);
    forall n, job | n in members
      ensures StartsAs(config, members[n], job, sw.start(n, job))
    {
      var turn := After(members[n].model.turnOf, ReadAll(EMPTY, job.initial).declared);
      assert sw.start(n, job) == StartStep(config, members[n], TaskOf(job), [], turn);
      assert NewIds(members[n].model, job.initial, turn) && WithinBudget([], config.budget);
    }
    forall n, state: WorkerState, decision | n in members && state.stop.outcome.Waiting?
      ensures ResumesAs(config, members[n], state, decision, sw.resume(n, state, decision))
    {
      assert sw.resume(n, state, decision) == ResumeStep(config, members[n], state, decision, []);
      assert WithinBudget([], config.budget);
    }
  }
}
