/** How a flow ends, said of what its steps report (src/blackgeorge/workflow/flow.py), and where reports
    come from (src/blackgeorge/workflow/nodes.py). */
module WorkflowOutcome {
  import opened Common
  import opened WorkflowTree
  import opened WorkflowExec
  import opened WorkflowDirect
  import opened WorkflowLocality
  import opened WorkflowScope
  import opened WorkflowAgreement
  import opened WorkflowGraph
  import opened WorkflowFlow
  import opened WorkflowFit
  import opened WorkflowTransparency

  // ---- Completed, failed by a step, or failed because there was nothing to do --------------------

  predicate AllWell(reports: seq<Report>) {
    forall k :: 0 <= k < |reports| ==> reports[k].status != Failed
  }

  // The first report that has failed.
  predicate FirstFailed(reports: seq<Report>, r: Report) {
    exists k :: 0 <= k < |reports| && reports[k] == r && r.status == Failed && AllWell(reports[..k])
  }

  lemma {:induction false} FirstOfFailed(reports: seq<Report>)
    requires AnyFailed(reports)
    ensures FirstFailed(reports, FailedOnly(reports)[0])
  {
    if reports[0].status == Failed {
      assert reports[..0] == [];
    } else {
      var rest := reports[1..];
      var i :| 0 <= i < |reports| && reports[i].status == Failed;
      assert rest[i - 1] == reports[i];
      FirstOfFailed(rest);
      var r := FailedOnly(rest)[0];
      var k :| 0 <= k < |rest| && rest[k] == r && AllWell(rest[..k]);
      assert reports[..k + 1] == [reports[0]] + rest[..k];
      assert reports[k + 1] == r && AllWell(reports[..k + 1]);
    }
  }

  // What a flow ends with, given what its steps report when every pause is answered on the spot.
  ghost predicate EndsWith(f: FlowResult, d: Done) {
    && !f.FlowPaused?
    && (f.FlowCompleted? <==> d.reports != [] && AllWell(d.reports))
    && (f.FlowCompleted? ==> if d.world.forked then SameReports(f.reports, d.reports) else f.reports == d.reports)
    && (d.reports == [] ==> f.FlowFailed? && f.failure == NoStepsExecuted)
    && (!d.world.forked && !AllWell(d.reports) ==>
          f.FlowFailed? && f.failure.StepFailed? && FirstFailed(d.reports, f.failure.report))
  }

  lemma {:induction false} ReferenceEnds(env: Env, steps: seq<Node>)
    requires ValidAll(steps)
    ensures var d, direct := DirectSequence(env, steps, START), DirectFlow(env, steps);
            && EndsWith(direct, d) && direct.world == d.world
            && (direct.FlowCompleted? ==> direct.reports == d.reports)
            && (FailedEmpty(direct) <==> d.reports == [])
  {
    var d := DirectSequence(env, steps, START);
    assert [] + d.reports == d.reports;
    assert AnyFailed(d.reports) <==> !AllWell(d.reports);
    if AnyFailed(d.reports) {
      FirstOfFailed(d.reports);
    }
  }

  /** A flow, paused and resumed any number of times, completes if and only if its steps report something
      and nothing that has failed, and then with just these reports; it fails with the first failed report,
      and if nothing was executed at all, because of that. */
  lemma {:induction false} FlowEndsAsReported(env: Env, steps: seq<Node>) returns (n: nat)
    requires ValidAll(steps) && SuitsAll(env, steps) && UniqueIds(Graph(steps)) && Tame(env)
    ensures EndsWith(Drive(env, steps, Run(env, steps), n), DirectSequence(env, steps, START))
    ensures forall k: nat :: k < n ==> Drive(env, steps, Run(env, steps), k).FlowPaused?
  {
    ReferenceEnds(env, steps);
    n := ParallelKeepsSiblings(env, steps);
  }

  /** A flow whose only step is a condition that takes an empty branch fails: no step was executed. */
  lemma {:induction false} NothingToDoFails(env: Env)
    requires !env.ask(1, START.ctx, [])
    ensures var flow := [Condition(1, [Step(2)], [])];
            ValidAll(flow) && Run(env, flow).FlowFailed? && Run(env, flow).failure == NoStepsExecuted
  {
    var flow := [Condition(1, [Step(2)], [])];
    assert flow[1..] == [] && [Step(2)][1..] == [];
    assert Valid(flow[0]) && ValidAll(flow[1..]);
    var e := Execute(env, flow[0], START);
    assert e.results == [];
    assert StepResults(env, Graph(flow), [], e.world, [], 0, []) == GoOn([], e.world);
    assert Run(env, flow) == RunTop(env, flow, 1, e.world, []);
  }

  // ---- Where reports come from ------------------------------------------------------------------

  // The report is that of the runner that this start of a step was given, in some context.
  ghost predicate ReportedBy(env: Env, log: seq<Event>, r: Report) {
    && r.uid < |log| && log[r.uid].Started?
    && exists c: Context ::
         var s := env.run(log[r.uid].id, c, log[..r.uid]);
         r.body == s.body && r.status == (if s.succeeds then Completed else Failed)
  }

  ghost predicate AllReported(env: Env, d: Done) {
    forall r :: r in d.reports ==> ReportedBy(env, d.world.log, r)
  }

  lemma {:induction false} ReportedLater(env: Env, reports: seq<Report>, w1: World, w2: World, names: set<string>)
    requires AllReported(env, Done(reports, w1)) && Grows(w1, w2, names)
    ensures AllReported(env, Done(reports, w2))
  {
    forall r | r in reports
      ensures ReportedBy(env, w2.log, r)
    {
      assert ReportedBy(env, w1.log, r);
      assert w2.log[..|w1.log|][r.uid] == w1.log[r.uid];
      assert w2.log[..r.uid] == w1.log[..r.uid] by {
        assert w2.log[..|w1.log|][..r.uid] == w1.log[..r.uid];
      }
    }
  }

  lemma {:induction false} ReportedBoth(env: Env, first: Done, rest: Done, names: set<string>)
    requires AllReported(env, first) && AllReported(env, rest) && Grows(first.world, rest.world, names)
    ensures AllReported(env, Prepend(first.reports, rest))
  {
    ReportedLater(env, first.reports, first.world, rest.world, names);
  }

  lemma {:induction false} PublishedReported(env: Env, d: Done)
    requires AllReported(env, d)
    ensures AllReported(env, Published(d))
  {
    PublishGrows(d.world, d.reports);
  }

  /** Every report of a run is that of a runner it started: it has that runner's text, and it is completed
      or failed as that runner succeeded or not. */
  lemma {:induction false} ReportsAreOfRunners(env: Env, node: Node, w: World)
    requires Valid(node)
    ensures AllReported(env, Direct(env, node, w))
    decreases node
  {
    match node
    case Step(id) =>
      var d := Direct(env, node, w);
      assert d.world.log[|w.log|] == Started(id) && d.world.log[..|w.log|] == w.log;
      var s := env.run(id, w.ctx, w.log);
      assert d.reports[0].body == s.body;
    case Parallel(_, steps) =>
      BranchReports(env, steps, w.(forked := true));
      var all := DirectBranches(env, steps, w.(forked := true));
      FailedAmong(all.reports);
    case Condition(id, ifTrue, ifFalse) =>
      var w' := Call(env, id, Asked(id), w);
      if env.ask(id, w.ctx, w.log) {
        SequenceReports(env, ifTrue, w');
      } else {
        SequenceReports(env, ifFalse, w');
      }
    case Router(id, routes) =>
      var route := FindRoute(routes, env.select(id, w.ctx, w.log));
      if route.Some? {
        ValidRouteAt(routes, route.value);
        SequenceReports(env, routes[route.value].steps, Call(env, id, Asked(id), w));
      }
    case Loop(_, _, _, _) => IterationReports(env, node, 0, false, EnterLoop(node, w));
  }

  lemma {:induction false} FailedAmong(reports: seq<Report>)
    ensures forall r :: r in FailedOnly(reports) ==> r in reports
  {
    if reports != [] {
      FailedAmong(reports[1..]);
    }
  }

  lemma {:induction false} BranchReports(env: Env, steps: seq<Node>, w: World)
    requires ValidAll(steps)
    ensures AllReported(env, DirectBranches(env, steps, w))
    decreases steps
  {
    if steps != [] {
      var first := Direct(env, steps[0], w);
      ReportsAreOfRunners(env, steps[0], w);
      BranchReports(env, steps[1..], first.world);
      ReportedBoth(env, first, DirectBranches(env, steps[1..], first.world), WritesAll(steps[1..]));
    }
  }

  lemma {:induction false} SequenceReports(env: Env, steps: seq<Node>, w: World)
    requires ValidAll(steps)
    ensures AllReported(env, DirectSequence(env, steps, w))
    decreases steps
  {
    if steps != [] {
      var d := Direct(env, steps[0], w);
      ReportsAreOfRunners(env, steps[0], w);
      PublishedReported(env, d);
      var first := Published(d);
      if !AnyFailed(first.reports) {
        SequenceReports(env, steps[1..], first.world);
        ReportedBoth(env, first, DirectSequence(env, steps[1..], first.world), WritesAll(steps[1..]));
      }
    }
  }

  lemma {:induction false} IterationReports(env: Env, loop: Node, start: nat, started: bool, w: World)
    requires loop.Loop? && Valid(loop) && start <= |loop.steps|
    ensures AllReported(env, DirectIterations(env, loop, start, started, w))
    decreases loop, 1, IterationsLeft(loop, started, w), 0
  {
    if started || Count(w, loop.name) < loop.limit {
      ValidDrop(loop.steps, start);
      var w' := BeginIteration(loop, started, w);
      SequenceReports(env, loop.steps[start..], w');
      AfterReports(env, loop, DirectSequence(env, loop.steps[start..], w'));
    }
  }

  lemma {:induction false} AfterReports(env: Env, loop: Node, body: Done)
    requires loop.Loop? && Valid(loop) && AllReported(env, body)
    ensures AllReported(env, AfterIteration(env, loop, body))
    decreases loop, 1, IterationsLeft(loop, false, body.world), 1
  {
    if !AnyFailed(body.reports) {
      var w' := Call(env, loop.id, Asked(loop.id), body.world);
      ReportedLater(env, body.reports, body.world, w', {});
      if !env.ask(loop.id, body.world.ctx, body.world.log) {
        IterationReports(env, loop, 0, false, w');
        ReportedBoth(env, Done(body.reports, w'), DirectIterations(env, loop, 0, false, w'), Writes(loop));
      }
    }
  }
}
