/** The flow itself (src/blackgeorge/workflow/flow.py): it runs the top-level steps, stores what a
    pause leaves, and takes the stored data up again. */
module WorkflowFlow {
  import opened Common
  import opened WorkflowTree
  import opened WorkflowExec
  import opened WorkflowDirect
  import opened WorkflowGraph
  import opened WorkflowScope

  // The payload of the stored run state.
  datatype Stored = Stored(
    stepIndex: nat,
    outputs: seq<Report>,
    pending: RunState,
    artifacts: map<string, string>,
    loops: map<string, nat>,
    continuations: seq<SCont>)

  datatype Failure =
    | StepFailed(report: Report)
    | NoStepsExecuted
    | MissingRunnerState
    | NotPersisted(report: Report)
    | InvalidState

  // What has happened so far; it is not part of what is stored.
  datatype History = History(log: seq<Event>, answered: nat, forked: bool)

  datatype FlowResult =
    | FlowPaused(report: Report, stored: Stored, past: History)
    | FlowFailed(failure: Failure, world: World)
    | FlowCompleted(reports: seq<Report>, world: World)

  datatype Verdict = GoOn(all: seq<Report>, world: World) | Stop(result: FlowResult)

  function AnsweredBy(r: FlowResult): nat {
    match r
    case FlowPaused(_, _, past) => past.answered
    case FlowFailed(_, w) => w.answered
    case FlowCompleted(_, w) => w.answered
  }

  const START := World(Context([], map[], map[]), [], 0, false)

  function PastOf(w: World): History {
    History(w.log, w.answered, w.forked)
  }

  // ---- Writing reports and states ---------------------------------------------------------------

  function DumpReports(env: Env, rs: seq<Report>): Option<seq<Report>> {
    if rs == [] then Some([])
    else
      var first, rest := env.dump(rs[0]), DumpReports(env, rs[1..]);
      if first.None? || rest.None? then None else Some([first.value] + rest.value)
  }

  // The sibling outputs that continuations hold are written with the states of their runners.
  function DumpCont(env: Env, c: Cont): Option<Cont>
    decreases c
  {
    match c
    case SeqCont(_) => Some(c)
    case LoopCont(_, _, _) => Some(c)
    case OutCont(outputs) =>
      var rs := DumpResults(env, outputs);
      if rs.None? then None else Some(OutCont(rs.value))
  }

  function DumpConts(env: Env, cs: seq<Cont>): Option<seq<Cont>>
    decreases cs
  {
    if cs == [] then Some([])
    else
      var first, rest := DumpCont(env, cs[0]), DumpConts(env, cs[1..]);
      if first.None? || rest.None? then None else Some([first.value] + rest.value)
  }

  function DumpState(env: Env, state: Option<RunState>): Option<Option<RunState>> {
    if state.None? then Some(None)
    else
      var s := env.freeze(state.value);
      if s.None? then None else Some(s)
  }

  function DumpResults(env: Env, rs: seq<Result>): Option<seq<Result>>
    decreases rs
  {
    if rs == [] then Some([])
    else
      var report, state := env.dump(rs[0].report), DumpState(env, rs[0].state);
      var conts, rest := DumpConts(env, rs[0].conts), DumpResults(env, rs[1..]);
      if report.None? || state.None? || conts.None? || rest.None? then None
      else Some([Result(report.value, state.value, conts.value)] + rest.value)
  }

  // `_pause_flow`: continuations may have no path, and artifacts, reports and states no JSON form.
  function PauseFlow(env: Env, es: seq<Entry>, report: Report, pending: RunState, index: nat, all: seq<Report>,
                     w: World, conts: seq<Cont>): (r: FlowResult)
    ensures AnsweredBy(r) == w.answered
  {
    var outputs, state := DumpReports(env, all), env.freeze(pending);
    var artifacts, written := env.encode(w.ctx.artifacts), DumpConts(env, conts);
    if outputs.None? || state.None? || artifacts.None? || written.None? then FlowFailed(NotPersisted(report), w)
    else
      var stored := SerializeConts(es, written.value);
      if stored.None? then FlowFailed(NotPersisted(report), w)
      else
        FlowPaused(report, Stored(index, outputs.value, state.value, artifacts.value, w.ctx.loops, stored.value),
                   PastOf(w))
  }

  // What comes back as it was.
  lemma {:induction false} ReportsComeBack(env: Env, rs: seq<Report>)
    requires Faithful(env)
    ensures DumpReports(env, rs) == Some(rs)
  {
    if rs != [] {
      ReportsComeBack(env, rs[1..]);
      assert env.dump(rs[0]) == Some(rs[0]) && [rs[0]] + rs[1..] == rs;
    }
  }

  lemma {:induction false} ContComesBack(env: Env, c: Cont)
    requires Faithful(env)
    ensures DumpCont(env, c) == Some(c)
    decreases c
  {
    match c
    case SeqCont(_) =>
    case LoopCont(_, _, _) =>
    case OutCont(outputs) => ResultsComeBack(env, outputs);
  }

  lemma {:induction false} ContsComeBack(env: Env, cs: seq<Cont>)
    requires Faithful(env)
    ensures DumpConts(env, cs) == Some(cs)
    decreases cs
  {
    if cs != [] {
      ContComesBack(env, cs[0]);
      ContsComeBack(env, cs[1..]);
      assert [cs[0]] + cs[1..] == cs;
    }
  }

  lemma {:induction false} ResultsComeBack(env: Env, rs: seq<Result>)
    requires Faithful(env)
    ensures DumpResults(env, rs) == Some(rs)
    decreases rs
  {
    if rs != [] {
      assert env.dump(rs[0].report) == Some(rs[0].report);
      assert rs[0].state.Some? ==> env.freeze(rs[0].state.value) == Some(rs[0].state.value);
      ContsComeBack(env, rs[0].conts);
      ResultsComeBack(env, rs[1..]);
      assert [rs[0]] + rs[1..] == rs;
    }
  }

  // `_execute_step_results`: take results in order up to the first pause or failure.
  function StepResults(env: Env, es: seq<Entry>, results: seq<Result>, w: World, all: seq<Report>, index: nat,
                       remaining: seq<Cont>): (v: Verdict)
    ensures v.GoOn? ==> v.world == w.(ctx := w.ctx.(outputs := v.world.ctx.outputs))
    ensures v.Stop? ==> AnsweredBy(v.result) == w.answered
    decreases |results|
  {
    if results == [] then GoOn(all, w)
    else
      var r := results[0];
      if r.report.status == Paused then
        if r.state.None? then Stop(FlowFailed(MissingRunnerState, w))
        else Stop(PauseFlow(env, es, r.report, r.state.value, index, all, w, r.conts + Tail(results[1..]) + remaining))
      else if r.report.status == Failed then Stop(FlowFailed(StepFailed(r.report), w))
      else StepResults(env, es, results[1..], AddOutput(w, r.report), all + [r.report], index, remaining)
  }

  function Finalize(all: seq<Report>, w: World): FlowResult {
    if all == [] then FlowFailed(NoStepsExecuted, w) else FlowCompleted(all, w)
  }

  // `_run_steps` from position i on, then `_finalize_flow_run`.
  function RunTop(env: Env, steps: seq<Node>, i: nat, w: World, all: seq<Report>): (r: FlowResult)
    requires ValidAll(steps) && i <= |steps|
    ensures AnsweredBy(r) == w.answered
    decreases |steps| - i
  {
    if i == |steps| then Finalize(all, w)
    else
      ValidAllAt(steps, i);
      var e := Execute(env, steps[i], w);
      match StepResults(env, Graph(steps), e.results, e.world, all, i, [])
      case Stop(r) => r
      case GoOn(all', w') => RunTop(env, steps, i + 1, w', all')
  }

  function Run(env: Env, steps: seq<Node>): FlowResult
    requires ValidAll(steps)
  {
    RunTop(env, steps, 0, START, [])
  }

  // The continuation loop of `_resume`, then the remaining top-level steps.
  function RunConts(env: Env, steps: seq<Node>, conts: seq<Cont>, w: World, all: seq<Report>, index: nat)
    : (r: FlowResult)
    requires ValidAll(steps) && index < |steps|
    ensures AnsweredBy(r) == w.answered
    requires forall c :: c in conts ==> Callable(c)
    decreases |conts|
  {
    if conts == [] then RunTop(env, steps, index + 1, w, all)
    else
      var e := ExecuteCont(env, conts[0], w);
      match StepResults(env, Graph(steps), e.results, e.world, all, index, conts[1..])
      case Stop(r) => r
      case GoOn(all', w') => RunConts(env, steps, conts[1..], w', all', index)
  }

  // Answer the pending pause of a stored flow.
  function Resume(env: Env, steps: seq<Node>, stored: Stored, past: History): (r: FlowResult)
    requires ValidAll(steps)
    ensures AnsweredBy(r) == past.answered + 1
  {
    var w := World(Context(stored.outputs, stored.artifacts, stored.loops), past.log, past.answered + 1, past.forked);
    var conts := RestoreConts(Graph(steps), stored.continuations);
    if stored.stepIndex >= |steps| || conts.None? then FlowFailed(InvalidState, w)
    else
      var s := stored.pending;
      if s.left > 0 then
        PauseFlow(env, Graph(steps), PausedReport(s.uid, s.script), s.(left := s.left - 1), stored.stepIndex,
                  stored.outputs, w, conts.value)
      else
        var report := FinalReport(s.uid, s.script);
        if report.status == Failed then FlowFailed(StepFailed(report), w)
        else
          RestoredCallable(steps, stored.continuations);
          RunConts(env, steps, conts.value, AddOutput(w, report), stored.outputs + [report], stored.stepIndex)
  }

  // ---- Whatever is restored can be called -------------------------------------------------------

  lemma {:induction false} InsideValid(node: Node, n: Node)
    requires Valid(node) && n in Inside(node)
    ensures Valid(n)
    decreases node
  {
    if n != node {
      match node
      case Parallel(_, steps) => InsideAllValid(steps, n);
      case Condition(_, ifTrue, ifFalse) =>
        if n in InsideAll(ifTrue) {
          InsideAllValid(ifTrue, n);
        } else {
          InsideAllValid(ifFalse, n);
        }
      case Router(_, routes) => InsideRoutesValid(routes, n);
      case Loop(_, _, _, steps) => InsideAllValid(steps, n);
    }
  }

  lemma {:induction false} InsideAllValid(steps: seq<Node>, n: Node)
    requires ValidAll(steps) && n in InsideAll(steps)
    ensures Valid(n)
    decreases steps
  {
    if n in Inside(steps[0]) {
      InsideValid(steps[0], n);
    } else {
      InsideAllValid(steps[1..], n);
    }
  }

  lemma {:induction false} InsideRoutesValid(routes: seq<Route>, n: Node)
    requires ValidRoutes(routes) && n in InsideRoutes(routes)
    ensures Valid(n)
    decreases routes
  {
    if n in InsideAll(routes[0].steps) {
      InsideAllValid(routes[0].steps, n);
    } else {
      InsideRoutesValid(routes[1..], n);
    }
  }

  lemma {:induction false} ResolvedValid(steps: seq<Node>, path: Path)
    requires ValidAll(steps) && Resolve(Graph(steps), path).Some?
    ensures Valid(Resolve(Graph(steps), path).value)
  {
    var n := Resolve(Graph(steps), path).value;
    ResolveYields(Graph(steps), path);
    assert steps[0..] == steps;
    EntriesYield(steps, 0, [], n);
    InsideAllValid(steps, n);
  }

  lemma {:induction false} ResolveYields(es: seq<Entry>, path: Path)
    requires Resolve(es, path).Some?
    ensures Yielded(es, Resolve(es, path).value)
  {
    if es[0].path == path {
      assert es[0].node == Resolve(es, path).value;
    } else {
      ResolveYields(es[1..], path);
      var a :| 0 <= a < |es[1..]| && es[1..][a].node == Resolve(es, path).value;
      assert es[a + 1].node == Resolve(es, path).value;
    }
  }

  lemma {:induction false} RestoredStepsValid(steps: seq<Node>, paths: seq<Path>)
    requires ValidAll(steps) && RestoreSteps(Graph(steps), paths).Some?
    ensures ValidAll(RestoreSteps(Graph(steps), paths).value)
  {
    if paths != [] {
      ResolvedValid(steps, paths[0]);
      RestoredStepsValid(steps, paths[1..]);
      var r := RestoreSteps(Graph(steps), paths).value;
      assert r[1..] == RestoreSteps(Graph(steps), paths[1..]).value;
    }
  }

  lemma {:induction false} RestoredCallable(steps: seq<Node>, cs: seq<SCont>)
    requires ValidAll(steps) && RestoreConts(Graph(steps), cs).Some?
    ensures forall c :: c in RestoreConts(Graph(steps), cs).value ==> Callable(c)
  {
    if cs != [] {
      match cs[0] {
        case SSeq(paths) => RestoredStepsValid(steps, paths);
        case SLoop(path, _, _) => ResolvedValid(steps, path);
        case SOut(_) =>
      }
      RestoredCallable(steps, cs[1..]);
      var r := RestoreConts(Graph(steps), cs).value;
      assert r == [RestoreCont(Graph(steps), cs[0]).value] + RestoreConts(Graph(steps), cs[1..]).value;
    }
  }
}
