/** Reports and steps of workers, as a workforce sees them (workforce.py, workforce_helpers.py). */
module Reports {
  import opened Common
  import opened Conversation
  import opened WorkerTools
  import opened ToolOverrides
  import WorkerRunner

  datatype Status = Completed | Failed | PausedRun

  datatype Report = Report(
    status: Status, content: string, toolCalls: seq<ToolCall>, errors: seq<string>, messages: seq<Message>,
    pending: Option<Pending>)

  // The state a paused worker leaves behind: where it stopped, and the tools of its job.
  datatype WorkerState = WorkerState(stop: WorkerRunner.Stop, items: Option<seq<Item>>)

  // `build_workforce_state`: a worker's state is written out at once, in the process that paused it too.
  function WrittenState(state: WorkerState): WorkerState {
    state.(items := Written(state.items))
  }

  // What starting or resuming a worker comes back with; a state is there exactly when it paused.
  datatype Step = Paused(report: Report, state: WorkerState) | Finished(report: Report)

  function CallsOf(reports: seq<Report>): seq<ToolCall>
    decreases |reports|
  {
    if reports == [] then [] else CallsOf(reports[..|reports| - 1]) + reports[|reports| - 1].toolCalls
  }

  function ErrorsOf(reports: seq<Report>): seq<string>
    decreases |reports|
  {
    if reports == [] then [] else ErrorsOf(reports[..|reports| - 1]) + reports[|reports| - 1].errors
  }

  function MessagesOf(reports: seq<Report>): seq<Message>
    decreases |reports|
  {
    if reports == [] then [] else MessagesOf(reports[..|reports| - 1]) + reports[|reports| - 1].messages
  }
}

/** Sequential collaboration: one worker after the other, with pauses (workforce.py). */
module Collaboration {
  import opened Common
  import opened WorkerTools
  import opened ToolOverrides
  import opened WorkerRunner
  import opened Reports

  // The workers; what starting one comes back with depends on the tools that the job lists.
  datatype Team = Team(
    names: seq<string>,
    start: (nat, Option<seq<Item>>) -> Step,
    resume: (nat, WorkerState, Decision) -> Step,
    reducer: Option<seq<Report> -> Report>)

  // `payload` of a paused workforce state in stage "collaborate".
  datatype StoredTeam = StoredTeam(
    worker: WorkerState, items: Option<seq<Item>>, completed: seq<Report>, pendingIndex: int)

  datatype Outcome = Ended(report: Report) | Stopped(report: Report, stored: StoredTeam)

  type Named = (string, Report)

  function ReportsOf(reports: seq<Named>): (r: seq<Report>)
    ensures |r| == |reports|
  {
    seq(|reports|, i requires 0 <= i < |reports| => reports[i].1)
  }

  function ContentOf(reports: seq<Named>): string
    decreases |reports|
  {
    if reports == [] then ""
    else
      var last := reports[|reports| - 1];
      var line := "[" + last.0 + "] " + last.1.content;
      if |reports| == 1 then line else ContentOf(reports[..|reports| - 1]) + "\n\n" + line
  }

  // `aggregate_reports`
  function Aggregate(reports: seq<Named>, status: Status): Report {
    var rs := ReportsOf(reports);
    Report(status, ContentOf(reports), CallsOf(rs), ErrorsOf(rs), MessagesOf(rs), None)
  }

  // `_reduce_reports` and `default_reducer`
  function Reduce(team: Team, reports: seq<Named>): Report {
    if team.reducer.Some? then team.reducer.value(ReportsOf(reports))
    else
      var failed := exists i :: 0 <= i < |reports| && reports[i].1.status == Failed;
      Aggregate(reports, if failed then Failed else Completed)
  }

  /** An aggregated report has what all the reports have, one after the other: their calls, errors and
      messages, and a paragraph for each that names its worker. */
  lemma {:induction false} AggregateSays(reports: seq<Named>, x: Named, status: Status)
    ensures Aggregate([], status) == Report(status, "", [], [], [], None)
    ensures var a, b := Aggregate(reports, status), Aggregate(reports + [x], status);
            && b.status == status && b.pending.None?
            && b.toolCalls == a.toolCalls + x.1.toolCalls && b.errors == a.errors + x.1.errors
            && b.messages == a.messages + x.1.messages
            && b.content == (if reports == [] then "" else a.content + "\n\n") + "[" + x.0 + "] " + x.1.content
  {
    var all := reports + [x];
    assert all[..|reports|] == reports;
    assert ReportsOf(all)[..|reports|] == ReportsOf(reports) && ReportsOf(all)[|reports|] == x.1;
    if reports == [] {
      assert all == [x];
      assert "" + "[" == "[";
    } else {
      var line := "[" + x.0 + "] " + x.1.content;
      assert Aggregate(all, status).content == (ContentOf(reports) + "\n\n") + line;
      assert (ContentOf(reports) + "\n\n") + line == (ContentOf(reports) + "\n\n") + "[" + x.0 + "] " + x.1.content;
    }
  }

  /** Without a reducer of its own a team reports the aggregate, failed if one of the reports is. */
  lemma {:induction false} ReduceSays(team: Team, reports: seq<Named>)
    ensures team.reducer.Some? ==> Reduce(team, reports) == team.reducer.value(ReportsOf(reports))
    ensures team.reducer.None? ==>
              || (Reduce(team, reports) == Aggregate(reports, Failed)
                  && exists x :: x in reports && x.1.status == Failed)
              || (Reduce(team, reports) == Aggregate(reports, Completed)
                  && forall x :: x in reports ==> x.1.status != Failed)
  {
    if i :| 0 <= i < |reports| && reports[i].1.status == Failed {
      assert reports[i] in reports;
    }
  }

  function Zip(names: seq<string>, reports: seq<Report>): (r: seq<Named>)
    ensures |r| == if |names| <= |reports| then |names| else |reports|
  {
    if names == [] || reports == [] then [] else [(names[0], reports[0])] + Zip(names[1..], reports[1..])
  }

  // ---- The two stages on values -----------------------------------------------------------------

  function RunFrom(team: Team, items: Option<seq<Item>>, i: nat, reports: seq<Named>): Outcome
    requires i <= |team.names|
    decreases |team.names| - i
  {
    if i == |team.names| then Ended(Reduce(team, reports))
    else
      match team.start(i, items)
      case Paused(report, state) =>
        Stopped(report, StoredTeam(WrittenState(state), Written(items), ReportsOf(reports), |reports|))
      case Finished(report) =>
        if report.status == Failed then Ended(Aggregate(reports + [(team.names[i], report)], Failed))
        else RunFrom(team, items, i + 1, reports + [(team.names[i], report)])
  }

  function InvalidIndex(): Report {
    Report(Failed, "", [], ["Invalid pending worker index"], [], None)
  }

  function ResumeStage(team: Team, stored: StoredTeam, decision: Decision): Outcome {
    if !(0 <= stored.pendingIndex < |team.names|) then Ended(InvalidIndex())
    else
      var i := stored.pendingIndex;
      match team.resume(i, stored.worker, decision)
      case Paused(report, state) =>
        Stopped(report, StoredTeam(WrittenState(state), Written(stored.items), stored.completed, i))
      case Finished(report) =>
        if report.status == Failed then
          Ended(Aggregate(Zip(team.names[..i + 1], stored.completed) + [(team.names[i], report)], Failed))
        else RunFrom(team, stored.items, i + 1, Zip(team.names[..i + 1], stored.completed + [report]))
  }

  // Pausing, storing and resuming as long as there are decisions.
  function Drive(team: Team, outcome: Outcome, decisions: seq<Decision>): Outcome
    decreases |decisions|
  {
    if decisions == [] || outcome.Ended? then outcome
    else Drive(team, ResumeStage(team, outcome.stored, decisions[0]), decisions[1..])
  }

  // ---- The same without interruption ------------------------------------------------------------

  // A worker whose pauses are all answered on the spot.
  function WorkOut(team: Team, i: nat, step: Step, decisions: seq<Decision>): (r: (Step, seq<Decision>))
    ensures |r.1| <= |decisions|
    decreases |decisions|
  {
    if step.Finished? || decisions == [] then (step, decisions)
    else WorkOut(team, i, team.resume(i, step.state, decisions[0]), decisions[1..])
  }

  // One worker after the other, each worked out; stopped only when the decisions have run out.
  function Uninterrupted(team: Team, items: Option<seq<Item>>, i: nat, reports: seq<Named>,
                         decisions: seq<Decision>): Outcome
    requires i <= |team.names|
    decreases |team.names| - i
  {
    if i == |team.names| then Ended(Reduce(team, reports))
    else
      var (step, rest) := WorkOut(team, i, team.start(i, items), decisions);
      match step
      case Paused(report, state) =>
        Stopped(report, StoredTeam(WrittenState(state), Written(items), ReportsOf(reports), |reports|))
      case Finished(report) =>
        if report.status == Failed then Ended(Aggregate(reports + [(team.names[i], report)], Failed))
        else Uninterrupted(team, items, i + 1, reports + [(team.names[i], report)], rest)
  }

  // Report k came from worker k.
  predicate InOrder(team: Team, reports: seq<Named>, i: nat) {
    i == |reports| <= |team.names| && forall k :: 0 <= k < i ==> reports[k].0 == team.names[k]
  }

  lemma {:induction false} ZipAt(names: seq<string>, reports: seq<Report>, k: nat)
    requires k < |Zip(names, reports)|
    ensures Zip(names, reports)[k] == (names[k], reports[k])
  {
    if k > 0 {
      ZipAt(names[1..], reports[1..], k - 1);
    }
  }

  // Pairing the stored reports with the workers again gives what was there.
  lemma {:induction false} ZipRestores(team: Team, reports: seq<Named>, i: nat, report: Report)
    requires InOrder(team, reports, i) && i < |team.names|
    ensures Zip(team.names[..i + 1], ReportsOf(reports)) == reports
    ensures Zip(team.names[..i + 1], ReportsOf(reports) + [report]) == reports + [(team.names[i], report)]
  {
    var names := team.names[..i + 1];
    forall k | 0 <= k < i
      ensures Zip(names, ReportsOf(reports))[k] == reports[k]
    {
      ZipAt(names, ReportsOf(reports), k);
    }
    forall k | 0 <= k < i + 1
      ensures Zip(names, ReportsOf(reports) + [report])[k] == (reports + [(team.names[i], report)])[k]
    {
      ZipAt(names, ReportsOf(reports) + [report], k);
    }
  }

  // ---- Lists that names stand for ---------------------------------------------------------------

  // The same but for the lists in their states, which are written as the same names.
  predicate SameStep(a: Step, b: Step) {
    if a.Paused? && b.Paused? then
      a.report == b.report && WrittenState(a.state) == WrittenState(b.state)
    else a == b
  }

  // Steps wait with the list or its names.
  predicate Carries(items: Option<seq<Item>>, step: Step) {
    step.Paused? ==> ListOrNames(items, step.state.items)
  }

  // No worker can tell the list from its names.
  ghost predicate NamesSuffice(team: Team, items: Option<seq<Item>>) {
    && (forall i: nat, a, b :: ListOrNames(items, a) && ListOrNames(items, b) ==>
          Carries(items, team.start(i, a)) && SameStep(team.start(i, a), team.start(i, b)))
    && forall i: nat, s: WorkerState, t: WorkerState, d ::
         ListOrNames(items, s.items) && ListOrNames(items, t.items) && s.stop == t.stop ==>
           Carries(items, team.resume(i, s, d)) && SameStep(team.resume(i, s, d), team.resume(i, t, d))
  }

  lemma {:induction false} WrittenTwice(items: Option<seq<Item>>)
    ensures Written(Written(items)) == Written(items)
  {
    if items.Some? {
      assert Names(Names(items.value)) == Names(items.value);
    }
  }

  // Starting the remaining workers with the names comes to the same.
  lemma {:induction false} RunAlike(team: Team, items: Option<seq<Item>>, i: nat, reports: seq<Named>)
    requires NamesSuffice(team, items) && i <= |team.names|
    ensures RunFrom(team, Written(items), i, reports) == RunFrom(team, items, i, reports)
    decreases |team.names| - i
  {
    if i < |team.names| {
      var step := team.start(i, items);
      assert ListOrNames(items, items) && ListOrNames(items, Written(items));
      assert SameStep(step, team.start(i, Written(items)));
      WrittenTwice(items);
      if step.Finished? && step.report.status != Failed {
        RunAlike(team, items, i + 1, reports + [(team.names[i], step.report)]);
      }
    }
  }

  // What follows when worker i has come as far as `step`.
  function AfterStep(team: Team, items: Option<seq<Item>>, i: nat, reports: seq<Named>, step: Step): Outcome
    requires i < |team.names|
  {
    match step
    case Paused(report, state) =>
      Stopped(report, StoredTeam(WrittenState(state), Written(items), ReportsOf(reports), |reports|))
    case Finished(report) =>
      if report.status == Failed then Ended(Aggregate(reports + [(team.names[i], report)], Failed))
      else RunFrom(team, items, i + 1, reports + [(team.names[i], report)])
  }

  lemma {:induction false} StageFollows(team: Team, items: Option<seq<Item>>, i: nat, reports: seq<Named>, step: Step,
                                        decision: Decision)
    requires InOrder(team, reports, i) && i < |team.names| && NamesSuffice(team, items) && step.Paused?
    ensures ResumeStage(team, AfterStep(team, items, i, reports, step).stored, decision)
            == AfterStep(team, items, i, reports, team.resume(i, WrittenState(step.state), decision))
  {
    var next := team.resume(i, WrittenState(step.state), decision);
    ZipRestores(team, reports, i, next.report);
    WrittenTwice(items);
    if next.Finished? {
      RunAlike(team, items, i + 1, reports + [(team.names[i], next.report)]);
    }
  }

  // `step` is where the stored run stands, `other` where the one that is answered on the spot does.
  lemma {:induction false} DriveFromStep(team: Team, items: Option<seq<Item>>, i: nat, reports: seq<Named>,
                                         step: Step, other: Step, decisions: seq<Decision>)
    requires InOrder(team, reports, i) && i < |team.names| && NamesSuffice(team, items)
    requires SameStep(step, other) && Carries(items, step) && Carries(items, other)
    ensures var (last, rest) := WorkOut(team, i, other, decisions);
            Drive(team, AfterStep(team, items, i, reports, step), decisions)
                == Drive(team, AfterStep(team, items, i, reports, last), rest)
    decreases |decisions|
  {
    if other.Paused? && decisions != [] {
      var written := WrittenState(step.state);
      var next, answered := team.resume(i, written, decisions[0]), team.resume(i, other.state, decisions[0]);
      WrittenTwice(items);
      assert ListOrNames(items, written.items) && written.stop == other.state.stop;
      assert SameStep(next, answered);
      StageFollows(team, items, i, reports, step, decisions[0]);
      DriveFromStep(team, items, i, reports, next, answered, decisions[1..]);
    }
  }

  lemma {:induction false} DriveFrom(team: Team, items: Option<seq<Item>>, i: nat, reports: seq<Named>,
                                     decisions: seq<Decision>)
    requires InOrder(team, reports, i) && NamesSuffice(team, items)
    ensures Drive(team, RunFrom(team, items, i, reports), decisions)
            == Uninterrupted(team, items, i, reports, decisions)
    decreases |team.names| - i
  {
    if i < |team.names| {
      var step := team.start(i, items);
      var (last, rest) := WorkOut(team, i, step, decisions);
      assert RunFrom(team, items, i, reports) == AfterStep(team, items, i, reports, step);
      assert SameStep(step, step) && Carries(items, step);
      DriveFromStep(team, items, i, reports, step, step, decisions);
      WorkedOut(team, i, step, decisions);
      if last.Finished? && last.report.status != Failed {
        DriveFrom(team, items, i + 1, reports + [(team.names[i], last.report)], rest);
      }
    }
  }

  lemma {:induction false} WorkedOut(team: Team, i: nat, step: Step, decisions: seq<Decision>)
    ensures var (last, rest) := WorkOut(team, i, step, decisions);
            last.Paused? ==> rest == []
    decreases |decisions|
  {
    if step.Paused? && decisions != [] {
      WorkedOut(team, i, team.resume(i, step.state, decisions[0]), decisions[1..]);
    }
  }

  /** Pausing, storing and resuming any number of times ends exactly as if every pause had been
      answered on the spot: the same report, reduced or failed, or the same pending worker. It takes a list
      of tools that the workers cannot tell from its names, because only names are stored. */
  lemma {:induction false} CollaborationIsTransparent(team: Team, items: Option<seq<Item>>,
                                                      decisions: seq<Decision>)
    requires NamesSuffice(team, items)
    ensures Drive(team, RunFrom(team, items, 0, []), decisions) == Uninterrupted(team, items, 0, [], decisions)
  {
    DriveFrom(team, items, 0, [], decisions);
  }

  // Two workers: the first pauses once, the second fails unless it gets a tool.
  ghost predicate NeedsTool(team: Team) {
    && team.names == ["a", "b"] && team.reducer == None
    && (forall items: Option<seq<Item>> :: team.start(0, items).Paused?)
    && (forall state, d :: team.resume(0, state, d) == Finished(Report(Completed, "", [], [], [], None)))
    && forall items: Option<seq<Item>> :: team.start(1, items)
         == Finished(Report(if items.Some? && items.value != [] && items.value[0].ToolItem? then Completed else Failed,
                            "", [], [], [], None))
  }

  /** With a tool in the list it shows that the run was stored: the workers that start after a resume get
      its name only. */
  lemma {:induction false} LostToolShows(team: Team, tool: Tool, decision: Decision)
    requires NeedsTool(team)
    ensures var items := Some([ToolItem(tool)]);
            var stored := Drive(team, RunFrom(team, items, 0, []), [decision]);
            var inPlace := Uninterrupted(team, items, 0, [], [decision]);
            stored.Ended? && stored.report.status == Failed && inPlace.Ended? && inPlace.report.status == Completed
  {
    var items := Some([ToolItem(tool)]);
    var done := Report(Completed, "", [], [], [], None);
    var first := team.start(0, items);
    var one := [("a", done)];
    var stopped := RunFrom(team, items, 0, []);
    assert team.names[..1] == ["a"] && [] + [done] == [done] && team.names[..1][1..] == [];
    assert Zip(team.names[..1], stopped.stored.completed + [done]) == one;
    assert stopped.stored.items.value[0] == NameItem(tool.name);
    assert ResumeStage(team, stopped.stored, decision) == RunFrom(team, stopped.stored.items, 1, one);
    assert Drive(team, stopped, [decision]) == Drive(team, ResumeStage(team, stopped.stored, decision), []);
    assert [decision][1..] == [];
    assert WorkOut(team, 0, first, [decision]) == WorkOut(team, 0, Finished(done), []) == (Finished(done), []);
    assert [] + one == one;
    var both := one + [("b", done)];
    assert Uninterrupted(team, items, 1, one, []) == Uninterrupted(team, items, 2, both, []);
    assert both[0].1.status == Completed && both[1].1.status == Completed;
    assert Uninterrupted(team, items, 0, [], [decision]) == Uninterrupted(team, items, 1, one, []);
  }

  predicate CountsReports(team: Team, outcome: Outcome) {
    outcome.Stopped? ==>
      && outcome.stored.pendingIndex == |outcome.stored.completed| < |team.names|
      && forall k :: 0 <= k < |outcome.stored.completed| ==> outcome.stored.completed[k].status != Failed
  }

  lemma {:induction false} RunCounts(team: Team, items: Option<seq<Item>>, i: nat, reports: seq<Named>)
    requires i == |reports| <= |team.names|
    requires forall k :: 0 <= k < i ==> reports[k].1.status != Failed
    ensures CountsReports(team, RunFrom(team, items, i, reports))
    decreases |team.names| - i
  {
    if i < |team.names| && team.start(i, items).Finished? && team.start(i, items).report.status != Failed {
      RunCounts(team, items, i + 1, reports + [(team.names[i], team.start(i, items).report)]);
    }
  }

  /** However often the run is stopped, the pending worker's index is the number of completed
      reports, and none of those has failed. */
  lemma {:induction false} PendingIndexCountsReports(team: Team, outcome: Outcome, decisions: seq<Decision>)
    requires CountsReports(team, outcome)
    ensures CountsReports(team, Drive(team, outcome, decisions))
    decreases |decisions|
  {
    if decisions != [] && outcome.Stopped? {
      var stored := outcome.stored;
      var i := stored.pendingIndex;
      var step := team.resume(i, stored.worker, decisions[0]);
      if step.Finished? && step.report.status != Failed {
        var named := Zip(team.names[..i + 1], stored.completed + [step.report]);
        forall k | 0 <= k < i + 1
          ensures named[k].1.status != Failed
        {
          ZipAt(team.names[..i + 1], stored.completed + [step.report], k);
        }
        RunCounts(team, stored.items, i + 1, named);
      }
      PendingIndexCountsReports(team, ResumeStage(team, stored, decisions[0]), decisions[1..]);
    }
  }

  // The report every worker ends with when all of them are worked out in turn, up to a failure.
  function Finals(team: Team, items: Option<seq<Item>>, i: nat, decisions: seq<Decision>): seq<Named>
    requires i <= |team.names|
    decreases |team.names| - i
  {
    if i == |team.names| then []
    else
      var (step, rest) := WorkOut(team, i, team.start(i, items), decisions);
      if step.Paused? then []
      else
        [(team.names[i], step.report)] + if step.report.status == Failed then [] else Finals(team, items, i + 1, rest)
  }

  // Only the last report may have failed.
  predicate FailsLast(reports: seq<Named>) {
    forall k :: 0 <= k < |reports| - 1 ==> reports[k].1.status != Failed
  }

  predicate LastFailed(reports: seq<Named>) {
    reports != [] && reports[|reports| - 1].1.status == Failed
  }

  lemma {:induction false} FirstThenRest(reports: seq<Named>, first: Named, later: seq<Named>)
    ensures (reports + [first]) + later == reports + ([first] + later)
    ensures LastFailed([first] + later) == if later == [] then first.1.status == Failed else LastFailed(later)
    ensures first.1.status != Failed && FailsLast(later) ==> FailsLast([first] + later)
  {
    assert forall k :: 1 <= k < |[first] + later| ==> ([first] + later)[k] == later[k - 1];
  }

  /** A run that ends without a failure reduces exactly one report of every worker, in their order;
      one with a failure aggregates the reports up to and including the failed one. */
  lemma {:induction false} EveryWorkerOnce(team: Team, items: Option<seq<Item>>, i: nat, reports: seq<Named>,
                                           decisions: seq<Decision>)
    requires InOrder(team, reports, i)
    ensures var finals := Finals(team, items, i, decisions);
            var outcome := Uninterrupted(team, items, i, reports, decisions);
            && InOrder(team, reports + finals, i + |finals|) && FailsLast(finals)
            && (outcome.Ended? ==>
                  if LastFailed(finals) then outcome.report == Aggregate(reports + finals, Failed)
                  else i + |finals| == |team.names| && outcome.report == Reduce(team, reports + finals))
    decreases |team.names| - i
  {
    if i == |team.names| {
      assert reports + [] == reports;
    } else {
      var (step, rest) := WorkOut(team, i, team.start(i, items), decisions);
      if step.Paused? {
        assert reports + [] == reports;
      } else {
        var first := (team.names[i], step.report);
        if step.report.status != Failed {
          EveryWorkerOnce(team, items, i + 1, reports + [first], rest);
          FirstThenRest(reports, first, Finals(team, items, i + 1, rest));
        } else {
          assert Finals(team, items, i, decisions) == [first];
        }
      }
    }
  }

  // ---- The two stages in place ------------------------------------------------------------------

  /** The loop of `_arun_collaborate_mode` from worker `first` on. */
  method RunWorkers(team: Team, items: Option<seq<Item>>, first: nat, before: seq<Named>) returns (outcome: Outcome)
    requires first <= |team.names|
    ensures outcome == RunFrom(team, items, first, before)
  {
    var reports := before;
    for i := first to |team.names|
      invariant RunFrom(team, items, first, before) == RunFrom(team, items, i, reports)
    {
      match team.start(i, items)
      case Paused(report, state) =>
        return Stopped(report, StoredTeam(WrittenState(state), Written(items), ReportsOf(reports), |reports|));
      case Finished(report) =>
        reports := reports + [(team.names[i], report)];
        if report.status == Failed {
          return Ended(Aggregate(reports, Failed));
        }
    }
    outcome := Ended(Reduce(team, reports));
  }

  /** `_aresume_collaborate_stage` */
  method ResumeCollaborate(team: Team, stored: StoredTeam, decision: Decision) returns (outcome: Outcome)
    ensures outcome == ResumeStage(team, stored, decision)
  {
    if stored.pendingIndex < 0 || stored.pendingIndex >= |team.names| {
      return Ended(InvalidIndex());
    }
    var i := stored.pendingIndex;
    match team.resume(i, stored.worker, decision)
    case Paused(report, state) =>
      outcome := Stopped(report, StoredTeam(WrittenState(state), Written(stored.items), stored.completed, i));
    case Finished(report) =>
      if report.status == Failed {
        return Ended(Aggregate(Zip(team.names[..i + 1], stored.completed) + [(team.names[i], report)], Failed));
      }
      outcome := RunWorkers(team, stored.items, i + 1, Zip(team.names[..i + 1], stored.completed + [report]));
  }
}
