/** Inputs on which pausing and resuming shows: each of the conditions that the transparency theorems
    and the loop bound ask for is needed. */
module WorkflowFindings {
  import opened Common
  import opened WorkflowTree
  import opened WorkflowExec
  import opened WorkflowDirect
  import opened WorkflowAnswers
  import opened WorkflowScope
  import opened WorkflowGraph
  import opened WorkflowFlow
  import opened WorkflowTransparency

  // ---- Pauses that are not stored ---------------------------------------------------------------

  // A step instance used twice: the first pause before it cannot be stored.
  lemma {:induction false} ReusedStepNotStored(env: Env)
    requires forall c, l :: env.run(0, c, l).pauses == 1
    requires forall c, l :: env.ask(2, c, l)
    ensures var flow := [Condition(2, [Step(0), Step(1), Step(1)], [])];
            ValidAll(flow) && Run(env, flow).FlowFailed? && Run(env, flow).failure.NotPersisted?
  {
    var branch := [Step(0), Step(1), Step(1)];
    var flow := [Condition(2, branch, [])];
    assert flow[1..] == [];
    assert branch[1..] == [Step(1), Step(1)] && branch[1..][1..] == [Step(1)] && branch[1..][1..][1..] == [];
    var w1 := Call(env, 2, Asked(2), START);
    var e := Execute(env, flow[0], START);
    assert e == ExecuteSequence(env, branch, w1);
    var paused := Execute(env, Step(0), w1).results;
    assert paused[0].report.status == Paused;
    assert HasStatus(paused, Paused) && !HasStatus(paused, Failed);
    assert paused[1..] == [];
    assert e.results == DeferPaused(paused, [SeqCont([Step(1), Step(1)])]);
    assert e.results[0].conts == [SeqCont([Step(1), Step(1)])];
    assert e.results[1..] == [];
    var p := [Index(0)];
    var es := Graph(flow);
    var q := p + [Key("true")];
    var e0, e1, e2 := Entry(q + [Index(0)], Step(0)), Entry(q + [Index(1)], Step(1)), Entry(q + [Index(2)], Step(1));
    assert Entries([], 0, p + [Key("false")]) == [];
    assert Entries(branch, 3, q) == [];
    assert Entries(branch, 2, q) == [e2];
    assert Entries(branch, 1, q) == [e1, e2];
    assert Entries(branch, 0, q) == [e0, e1, e2];
    assert Entries(flow, 1, []) == [];
    assert Nested(flow[0], p) == [e0, e1, e2] + [];
    assert [] + [Index(0)] == p;
    assert es == [Entry(p, flow[0])] + Nested(flow[0], p) + Entries(flow, 1, []);
    assert es == [Entry(p, flow[0]), e0, e1, e2];
    assert es[1..] == [e0, e1, e2] && es[1..][1..] == [e1, e2] && es[1..][1..][1..] == [e2] && [e2][1..] == [];
    assert Occurrences([e2], 1) == [e2];
    assert Occurrences([e1, e2], 1) == [e1, e2];
    assert Occurrences(es, 1) == [e1, e2];
    assert PathFor(es, Step(1)).None?;
    var c := SeqCont([Step(1), Step(1)]);
    assert SerializeSteps(es, c.steps).None?;
    assert SerializeCont(es, c).None?;
    var conts := e.results[0].conts + Tail(e.results[1..]) + [];
    assert conts == [c];
    assert SerializeConts(es, conts).None?;
    assert e.results[0].state.Some?;
    assert StepResults(env, es, e.results, e.world, [], 0, []).Stop?;
  }

  // Artifacts without a JSON form: the first pause after they were set fails the run.
  lemma {:induction false} UnwritableNotStored(env: Env)
    requires env.run(0, START.ctx, []).pauses == 1
    requires env.encode(env.note(0, START.ctx, [])).None?
    ensures Run(env, [Step(0)]).FlowFailed? && Run(env, [Step(0)]).failure.NotPersisted?
  {
    var e := Execute(env, Step(0), START);
    assert e.results[0].report.status == Paused;
    assert e.results[1..] == [];
    var v := StepResults(env, Graph([Step(0)]), e.results, e.world, [], 0, []);
    assert v.Stop? && v.result.FlowFailed?;
  }

  // A report without a JSON form: the first pause after it was accepted fails the run.
  lemma {:induction false} UnwritableReportNotStored(env: Env)
    requires env.run(0, START.ctx, []) == Script(0, true, "x") && env.dump(Report(0, Completed, "x")).None?
    requires forall c, l :: env.run(1, c, l).pauses == 1
    ensures var flow := [Step(0), Step(1)];
            ValidAll(flow) && Run(env, flow).FlowFailed? && Run(env, flow).failure.NotPersisted?
  {
    var flow, x := [Step(0), Step(1)], Report(0, Completed, "x");
    assert flow[1..] == [Step(1)] && flow[1..][1..] == [];
    var e := Execute(env, Step(0), START);
    assert e.results == [Result(x, None, [])] && e.results[1..] == [];
    var w := AddOutput(e.world, x);
    assert [] + [x] == [x];
    assert StepResults(env, Graph(flow), e.results[1..], w, [x], 0, []) == GoOn([x], w);
    assert StepResults(env, Graph(flow), e.results, e.world, [], 0, []) == GoOn([x], w);
    assert Run(env, flow) == RunTop(env, flow, 1, w, [x]);
    var e' := Execute(env, Step(1), w);
    assert e'.results[0].report.status == Paused && e'.results[1..] == [];
    assert DumpReports(env, [x]).None?;
    var v := StepResults(env, Graph(flow), e'.results, e'.world, [x], 1, []);
    assert v.Stop? && v.result.FlowFailed?;
  }

  // A state without a JSON form, as after a tool that returned such an object, fails the run as well.
  lemma {:induction false} UnwritableStateNotStored(env: Env)
    requires env.run(0, START.ctx, []) == Script(1, true, "x") && env.freeze(RunState(0, Script(1, true, "x"), 0)).None?
    ensures Run(env, [Step(0)]).FlowFailed? && Run(env, [Step(0)]).failure.NotPersisted?
  {
    var e := Execute(env, Step(0), START);
    assert e.results[0].report.status == Paused;
    assert e.results[1..] == [];
    var v := StepResults(env, Graph([Step(0)]), e.results, e.world, [], 0, []);
    assert v.Stop? && v.result.FlowFailed?;
  }

  // ---- Artifacts that JSON changes --------------------------------------------------------------

  // A step that pauses once and sets artifacts, and a condition that looks at them.
  function Reader(): seq<Node> {
    [Step(0), Condition(1, [Step(2)], [])]
  }

  ghost predicate ReadsArtifacts(env: Env, before: map<string, string>, after: map<string, string>) {
    && before != after && env.encode(before) == Some(after) && Faithful(env)
    && (forall c: Context, l :: env.run(0, c, l) == Script(1, true, "x") && env.run(2, c, l) == Script(0, true, "y"))
    && (forall c: Context, l :: env.note(0, c, l) == before)
    && forall c: Context, l :: env.ask(1, c, l) <==> c.artifacts == before
  }

  lemma {:induction false} DirectOne(env: Env, step: Node, w: World)
    requires Valid(step)
    ensures ValidAll([step]) && DirectSequence(env, [step], w) == Published(Direct(env, step, w))
  {
    var first := Published(Direct(env, step, w));
    assert [step][1..] == [] && first.reports + [] == first.reports;
  }

  predicate AllCompletedIn(reports: seq<Report>) {
    reports != [] && forall i :: 0 <= i < |reports| ==> reports[i].status == Completed
  }

  // A flow of two steps in place, both of which complete.
  lemma {:induction false} TwoComplete(env: Env, flow: seq<Node>, first: Done, second: seq<Report>)
    requires ValidAll(flow) && |flow| == 2 && Valid(flow[0]) && Valid(flow[1])
    requires first == Published(Direct(env, flow[0], START)) && AllCompletedIn(first.reports)
    requires second == Direct(env, flow[1], first.world).reports && AllCompletedIn(second)
    ensures DirectFlow(env, flow).FlowCompleted? && DirectFlow(env, flow).reports == first.reports + second
  {
    assert flow[1..] == [flow[1]];
    DirectOne(env, flow[1], first.world);
    var d := DirectSequence(env, flow, START);
    assert d.reports == first.reports + second;
    assert [] + d.reports == d.reports;
  }

  lemma {:induction false} ReaderIsValid()
    ensures ValidAll(Reader()) && NoParallels(Reader()) && Reader()[1..] == [Reader()[1]]
  {
    var flow := Reader();
    assert flow[1..] == [flow[1]] && flow[1..][1..] == [] && [Step(2)][1..] == [];
    assert ValidAll([Step(2)]) && NoParallels([Step(2)]);
    assert ValidAll(flow[1..]) && NoParallels(flow[1..]);
  }

  lemma {:induction false} ReadInPlace(env: Env, before: map<string, string>, after: map<string, string>)
    requires ReadsArtifacts(env, before, after)
    ensures ValidAll(Reader()) && DirectFlow(env, Reader()).FlowCompleted? && |DirectFlow(env, Reader()).reports| == 2
  {
    var flow := Reader();
    ReaderIsValid();
    var d := Published(Direct(env, Step(0), START));
    PublishGrows(Direct(env, Step(0), START).world, d.reports);
    var w := Call(env, 1, Asked(1), d.world);
    assert env.ask(1, d.world.ctx, d.world.log);
    DirectOne(env, Step(2), w);
    assert Direct(env, flow[1], d.world).reports == [Report(2, Completed, "y")];
    assert d.reports == [Report(0, Completed, "x")];
    TwoComplete(env, flow, d, [Report(2, Completed, "y")]);
  }

  lemma {:induction false} ReadAfterwards(env: Env, before: map<string, string>, after: map<string, string>)
    requires ReadsArtifacts(env, before, after)
    ensures var resumed := Drive(env, Reader(), Run(env, Reader()), 1);
            resumed.FlowCompleted? && resumed.reports == [Report(0, Completed, "x")]
  {
    var flow, s := Reader(), Script(1, true, "x");
    var e := Execute(env, Step(0), START);
    assert e.results == [Result(PausedReport(0, s), Some(RunState(0, s, 0)), [])];
    var v := StepResults(env, Graph(flow), e.results, e.world, [], 0, []);
    var conts: seq<Cont> := [] + Tail(e.results[1..]) + [];
    assert conts == [];
    assert v.result == PauseFlow(env, Graph(flow), PausedReport(0, s), RunState(0, s, 0), 0, [], e.world, []);
    var paused := Run(env, flow);
    assert paused.FlowPaused? && paused.stored == Stored(0, [], RunState(0, s, 0), after, map[], []);
    var r := FinalReport(0, s);
    var w := World(Context([r], after, map[]), paused.past.log, 1, false);
    assert AddOutput(World(Context([], after, map[]), paused.past.log, 1, false), r) == w;
    assert Resume(env, flow, paused.stored, paused.past) == RunTop(env, flow, 1, w, [r]);
    assert Execute(env, flow[1], w).results == [];
    assert RunTop(env, flow, 1, w, [r]) == RunTop(env, flow, 2, Execute(env, flow[1], w).world, [r]);
    assert Drive(env, flow, paused, 1) == Drive(env, flow, RunTop(env, flow, 1, w, [r]), 0);
  }

  /** If artifacts come back from storage changed, as a tuple comes back as a list, a callback can tell:
      in place the second step starts, after a resume it does not. */
  lemma {:induction false} ChangedArtifactsShow(env: Env, before: map<string, string>, after: map<string, string>)
    requires ReadsArtifacts(env, before, after)
    ensures ValidAll(Reader()) && NoParallels(Reader())
    ensures var direct, resumed := DirectFlow(env, Reader()), Drive(env, Reader(), Run(env, Reader()), 1);
            && direct.FlowCompleted? && |direct.reports| == 2
            && resumed.FlowCompleted? && |resumed.reports| == 1
  {
    ReaderIsValid();
    ReadInPlace(env, before, after);
    ReadAfterwards(env, before, after);
  }

  // ---- Reports that JSON changes ----------------------------------------------------------------

  // A step that completes, and one that pauses once; the first report comes back as another one.
  ghost predicate ChangesReport(env: Env, other: Report) {
    && (forall c: Context, l :: env.run(0, c, l) == Script(0, true, "x") && env.run(1, c, l) == Script(1, true, "y"))
    && env.dump(Report(0, Completed, "x")) == Some(other) && other.uid != 1
    && (forall s: RunState :: env.freeze(s) == Some(s)) && forall a :: env.encode(a) == Some(a)
  }

  lemma {:induction false} PausesAfterReport(env: Env, other: Report)
    requires ChangesReport(env, other)
    ensures var flow := [Step(0), Step(1)];
            && ValidAll(flow) && Run(env, flow).FlowPaused?
            && var st := Run(env, flow).stored;
               st.stepIndex == 1 && st.outputs == [other] && st.pending == RunState(1, Script(1, true, "y"), 0)
               && st.continuations == []
  {
    var flow, x, s := [Step(0), Step(1)], Report(0, Completed, "x"), Script(1, true, "y");
    assert flow[1..] == [Step(1)] && flow[1..][1..] == [];
    var e := Execute(env, Step(0), START);
    assert e.results == [Result(x, None, [])] && e.results[1..] == [];
    var w := AddOutput(e.world, x);
    assert [] + [x] == [x];
    assert StepResults(env, Graph(flow), e.results[1..], w, [x], 0, []) == GoOn([x], w);
    assert StepResults(env, Graph(flow), e.results, e.world, [], 0, []) == GoOn([x], w);
    assert Run(env, flow) == RunTop(env, flow, 1, w, [x]);
    var e' := Execute(env, Step(1), w);
    assert e'.results == [Result(PausedReport(1, s), Some(RunState(1, s, 0)), [])] && e'.results[1..] == [];
    assert [x][1..] == [] && DumpReports(env, [x]) == Some([other] + []);
    var conts: seq<Cont> := [] + Tail(e'.results[1..]) + [];
    assert conts == [];
    var v := StepResults(env, Graph(flow), e'.results, e'.world, [x], 1, []);
    assert v.result == PauseFlow(env, Graph(flow), PausedReport(1, s), RunState(1, s, 0), 1, [x], e'.world, []);
  }

  /** If a report comes back from storage changed, as when a model comes back as a dict, the flow ends with
      the changed report once it was resumed, and with the report of the step in place. */
  lemma {:induction false} ChangedReportsShow(env: Env, other: Report)
    requires ChangesReport(env, other)
    ensures var flow := [Step(0), Step(1)];
            && ValidAll(flow)
            && var direct, resumed := DirectFlow(env, flow), Drive(env, flow, Run(env, flow), 1);
               && direct.FlowCompleted? && direct.reports == [Report(0, Completed, "x"), Report(1, Completed, "y")]
               && resumed.FlowCompleted? && resumed.reports == [other, Report(1, Completed, "y")]
  {
    var flow, x, y := [Step(0), Step(1)], Report(0, Completed, "x"), Report(1, Completed, "y");
    PausesAfterReport(env, other);
    var d := Published(Direct(env, Step(0), START));
    PublishGrows(Direct(env, Step(0), START).world, [x]);
    TwoComplete(env, flow, d, [y]);
    assert [x] + [y] == [x, y];
    var paused := Run(env, flow);
    var w := World(Context([other, y], paused.stored.artifacts, paused.stored.loops), paused.past.log, 1, false);
    assert paused.past.answered == 0;
    assert RestoreConts(Graph(flow), []) == Some([]);
    assert [other] + [y] == [other, y];
    ResumeAnswers(env, flow, paused.stored, paused.past);
    var resumed := Resume(env, flow, paused.stored, paused.past);
    assert resumed.FlowCompleted? && resumed.reports == [other, y];
    DriveOnce(env, flow, paused);
  }

  // ---- The order of outputs after a Parallel ----------------------------------------------------

  // A step that pauses once beside a nested step, and then a condition on the first output.
  function Racing(): seq<Node> {
    [Parallel(1, [Step(2), Condition(3, [Step(4)], [])]), Condition(5, [Step(6)], [])]
  }

  ghost predicate ReadsOrder(env: Env) {
    && (forall c: Context, l :: env.run(2, c, l) == Script(1, true, "x"))
    && (forall c: Context, l :: env.run(4, c, l) == Script(0, true, "a"))
    && (forall c: Context, l :: env.run(6, c, l) == Script(0, true, "s"))
    && (forall c: Context, l :: env.ask(3, c, l))
    && (forall c: Context, l :: env.ask(5, c, l) <==> c.outputs != [] && c.outputs[0].body == "a")
    && (forall a :: env.encode(a) == Some(a)) && Faithful(env)
  }

  lemma {:induction false} PublishOne(w: World, report: Report, rest: seq<Report>)
    requires report.status == Completed
    ensures Publish(w, [report] + rest) == Publish(AddOutput(w, report), rest)
  {
    assert ([report] + rest)[1..] == rest;
  }

  lemma {:induction false} BranchesInPlace(env: Env, w: World)
    requires ReadsOrder(env) && w == START.(forked := true)
    ensures var d := DirectBranches(env, Racing()[0].steps, w);
            && d.reports == [Report(0, Completed, "x"), Report(2, Completed, "a")]
            && d.world.ctx.outputs == [Report(2, Completed, "a")] && |d.world.log| == 3
  {
    var branches := Racing()[0].steps;
    assert branches[1..] == [Condition(3, [Step(4)], [])] && branches[1..][1..] == [];
    var w1 := Direct(env, Step(2), w).world;
    var w2 := Call(env, 3, Asked(3), w1);
    assert [Step(4)][1..] == [];
    var a := Direct(env, Step(4), w2);
    assert a.reports == [Report(2, Completed, "a")] && a.reports == a.reports + [];
    PublishOne(a.world, Report(2, Completed, "a"), []);
    assert Published(a).world == AddOutput(a.world, Report(2, Completed, "a"));
    var nested := DirectSequence(env, [Step(4)], w2);
    assert nested.reports == a.reports && nested.world == Published(a).world;
    assert Direct(env, branches[1..][0], w1) == nested;
    assert DirectBranches(env, branches[1..][1..], nested.world) == Done([], nested.world);
    var rest := DirectBranches(env, branches[1..], w1);
    assert rest.reports == nested.reports + [] && rest.world == nested.world;
  }

  // After the Parallel, the nested step's output comes first.
  lemma {:induction false} GatheredInPlace(env: Env)
    requires ReadsOrder(env)
    ensures ValidAll(Racing())
    ensures var d := Published(Direct(env, Racing()[0], START));
            var x, a := Report(0, Completed, "x"), Report(2, Completed, "a");
            d.reports == [x, a] && d.world.ctx.outputs == [a, x]
  {
    var flow := Racing();
    assert flow[1..] == [Condition(5, [Step(6)], [])] && flow[1..][1..] == [];
    var x, a := Report(0, Completed, "x"), Report(2, Completed, "a");
    BranchesInPlace(env, START.(forked := true));
    var d := Direct(env, flow[0], START);
    assert d.reports == [x, a] && [x, a] == [x] + ([a] + []);
    PublishOne(d.world, x, [a] + []);
    PublishOne(AddOutput(d.world, x), a, []);
    var w := AddOutput(d.world, x);
    assert w.ctx.outputs == [a, x] && w.ctx.outputs[0].uid == a.uid;
    assert AddOutput(w, a) == w;
  }

  // The condition on the first output, in place.
  lemma {:induction false} LastInPlace(env: Env, w: World)
    requires ReadsOrder(env) && w.ctx.outputs != [] && w.ctx.outputs[0].body == "a"
    ensures Valid(Racing()[1])
    ensures Direct(env, Racing()[1], w).reports == [Report(|w.log| + 1, Completed, "s")]
  {
    var w' := Call(env, 5, Asked(5), w);
    assert env.ask(5, w.ctx, w.log);
    DirectOne(env, Step(6), w');
    assert [Step(6)][1..] == [];
    assert Direct(env, Step(6), w').reports == [Report(|w'.log|, Completed, "s")];
  }

  lemma {:induction false} BranchesPaused(env: Env, w: World)
    requires ReadsOrder(env) && w == START.(forked := true)
    ensures var e := ExecuteBranches(env, Racing()[0].steps, w);
            var s := Script(1, true, "x");
            && e.results == [Result(PausedReport(0, s), Some(RunState(0, s, 0)), []),
                             Result(Report(2, Completed, "a"), None, [])]
            && e.world.ctx.loops == map[]
  {
    var branches := Racing()[0].steps;
    assert branches[1..] == [Condition(3, [Step(4)], [])] && branches[1..][1..] == [];
    var w1 := Execute(env, Step(2), w).world;
    var w2 := Call(env, 3, Asked(3), w1);
    assert [Step(4)][1..] == [];
    var a := Execute(env, Step(4), w2);
    assert a.results == [Result(Report(2, Completed, "a"), None, [])];
    PublishGrows(a.world, Reports(a.results));
    var nested := ExecuteSequence(env, [Step(4)], w2);
    assert nested.results == a.results + [];
    assert Execute(env, branches[1], w1) == nested;
    assert ExecuteBranches(env, branches[1..], w1).results == nested.results + [];
  }

  lemma {:induction false} OneDeferred(x: Result, a: Result)
    requires x.report.status == Paused && x.conts == [] && a.report.status == Completed
    ensures DeferAfterPause([x, a], []) == [x.(conts := [OutCont([a])])]
  {
    assert [x, a][1..] == [a] && Tail([a]) == [OutCont([a])];
    assert x.conts + Tail([a]) + [] == [OutCont([a])];
  }

  lemma {:induction false} ParallelPaused(env: Env)
    requires ReadsOrder(env)
    ensures ValidAll(Racing())
    ensures var e := Execute(env, Racing()[0], START);
            var s, a := Script(1, true, "x"), Result(Report(2, Completed, "a"), None, []);
            e.results == [Result(PausedReport(0, s), Some(RunState(0, s, 0)), [OutCont([a])])]
  {
    var flow, s := Racing(), Script(1, true, "x");
    assert flow[1..] == [flow[1]] && flow[1..][1..] == [];
    BranchesPaused(env, START.(forked := true));
    OneDeferred(Result(PausedReport(0, s), Some(RunState(0, s, 0)), []), Result(Report(2, Completed, "a"), None, []));
  }

  // A first step that leaves one pause, with an output behind it, pauses the flow.
  lemma {:induction false} FirstPauses(env: Env, flow: seq<Node>, script: Script, a: Result)
    requires ValidAll(flow) && flow != [] && Valid(flow[0]) && (forall m :: env.encode(m) == Some(m)) && a.conts == []
    requires Faithful(env)
    requires Execute(env, flow[0], START).results
             == [Result(PausedReport(0, script), Some(RunState(0, script, 0)), [OutCont([a])])]
    ensures Run(env, flow).FlowPaused?
    ensures var st := Run(env, flow).stored;
            && st.stepIndex == 0 && st.outputs == [] && st.pending == RunState(0, script, 0)
            && RestoreConts(Graph(flow), st.continuations) == Some([OutCont([a])])
  {
    var es := Graph(flow);
    var e := Execute(env, flow[0], START);
    var conts := e.results[0].conts + Tail(e.results[1..]) + [];
    assert e.results[1..] == [] && conts == [OutCont([a])];
    SiblingStored(es, a);
    var v := StepResults(env, es, e.results, e.world, [], 0, []);
    ContsComeBack(env, conts);
    assert v.result == PauseFlow(env, es, PausedReport(0, script), RunState(0, script, 0), 0, [], e.world, conts);
  }

  lemma {:induction false} SiblingStored(es: seq<Entry>, a: Result)
    requires a.conts == []
    ensures var stored := SerializeConts(es, [OutCont([a])]);
            stored.Some? && RestoreConts(es, stored.value) == Some([OutCont([a])])
  {
    var sr := SResult(a.report, a.state, []);
    assert [a][1..] == [] && [OutCont([a])][1..] == [] && [sr][1..] == [] && [SOut([sr])][1..] == [];
    assert SerializeConts(es, a.conts) == Some([]) && SerializeResults(es, [a][1..]) == Some([]);
    assert [sr] + [] == [sr] && [SOut([sr])] + [] == [SOut([sr])] && [a] + [] == [a];
    assert SerializeResults(es, [a]) == Some([sr]);
    assert SerializeConts(es, [OutCont([a])]) == Some([SOut([sr])]);
    assert RestoreConts(es, sr.conts) == Some([]) && RestoreResults(es, [sr][1..]) == Some([]);
    assert Result(sr.report, sr.state, []) == a;
    assert RestoreResults(es, [sr]) == Some([a]);
    assert RestoreCont(es, SOut([sr])) == Some(OutCont([a]));
    assert RestoreConts(es, [SOut([sr])][1..]) == Some([]);
    assert [OutCont([a])] + [] == [OutCont([a])];
    assert RestoreResults(es, [sr]) == Some([a]);
  }

  // The condition on the first output, once x is before a.
  lemma {:induction false} OtherOrder(env: Env, w: World, all: seq<Report>)
    requires ReadsOrder(env) && ValidAll(Racing())
    requires |w.ctx.outputs| == 2 && w.ctx.outputs[0].body == "x" && |all| == 2
    ensures var r := RunTop(env, Racing(), 1, w, all);
            r.FlowCompleted? && r.reports == all
  {
    var flow := Racing();
    assert !env.ask(5, w.ctx, w.log);
    var e := Execute(env, flow[1], w);
    assert e.results == [];
    assert RunTop(env, flow, 1, w, all) == RunTop(env, flow, 2, e.world, all);
  }

  lemma {:induction false} SiblingTaken(env: Env, w: World, all: seq<Report>, a: Report)
    requires ReadsOrder(env) && ValidAll(Racing()) && a.status == Completed
    ensures RunConts(env, Racing(), [OutCont([Result(a, None, [])])], w, all, 0)
            == RunTop(env, Racing(), 1, AddOutput(w, a), all + [a])
  {
    var flow, outputs := Racing(), [Result(a, None, [])];
    var conts := [OutCont(outputs)];
    assert outputs[1..] == [] && conts[1..] == [];
    assert StepResults(env, Graph(flow), outputs, w, all, 0, conts[1..]) == GoOn(all + [a], AddOutput(w, a));
    assert RunConts(env, flow, conts, w, all, 0) == RunConts(env, flow, conts[1..], AddOutput(w, a), all + [a], 0);
  }

  lemma {:induction false} RaceAnswered(env: Env, st: Stored, past: History)
    requires ReadsOrder(env) && ValidAll(Racing())
    requires st.stepIndex == 0 && st.outputs == [] && st.pending == RunState(0, Script(1, true, "x"), 0)
    requires RestoreConts(Graph(Racing()), st.continuations)
             == Some([OutCont([Result(Report(2, Completed, "a"), None, [])])])
    ensures var r := Resume(env, Racing(), st, past);
            r.FlowCompleted? && |r.reports| == 2
  {
    var x, a := Report(0, Completed, "x"), Report(2, Completed, "a");
    var w0 := World(Context([], st.artifacts, st.loops), past.log, past.answered + 1, past.forked);
    var w1 := AddOutput(w0, x);
    var w2 := AddOutput(w1, a);
    assert w1.ctx.outputs == [x] && w2.ctx.outputs == [x, a];
    ResumeAnswers(env, Racing(), st, past);
    SiblingTaken(env, w1, [x], a);
    OtherOrder(env, w2, [x] + [a]);
  }

  lemma {:induction false} DriveOnce(env: Env, steps: seq<Node>, r: FlowResult)
    requires ValidAll(steps) && r.FlowPaused?
    ensures Drive(env, steps, r, 1) == Resume(env, steps, r.stored, r.past)
  {
    assert Drive(env, steps, Resume(env, steps, r.stored, r.past), 0) == Resume(env, steps, r.stored, r.past);
  }

  lemma {:induction false} RaceInPlace(env: Env, flow: seq<Node>, d: Done)
    requires ReadsOrder(env) && ValidAll(flow) && |flow| == 2 && Valid(flow[0]) && flow[1] == Racing()[1]
    requires d == Published(Direct(env, flow[0], START))
    requires d.reports == [Report(0, Completed, "x"), Report(2, Completed, "a")]
    requires d.world.ctx.outputs == [Report(2, Completed, "a"), Report(0, Completed, "x")]
    ensures DirectFlow(env, flow).FlowCompleted? && |DirectFlow(env, flow).reports| == 3
  {
    LastInPlace(env, d.world);
    TwoComplete(env, flow, d, [Report(|d.world.log| + 1, Completed, "s")]);
  }

  lemma {:induction false} RaceResumed(env: Env, flow: seq<Node>)
    requires ReadsOrder(env) && flow == Racing()
    ensures ValidAll(flow)
    ensures var resumed := Drive(env, flow, Run(env, flow), 1);
            resumed.FlowCompleted? && |resumed.reports| == 2
  {
    ParallelPaused(env);
    FirstPauses(env, flow, Script(1, true, "x"), Result(Report(2, Completed, "a"), None, []));
    var paused := Run(env, flow);
    RaceAnswered(env, paused.stored, paused.past);
    DriveOnce(env, flow, paused);
  }

  /** After a Parallel a callback that looks at outputs can tell a resume: in place the nested step's
      report comes first, because its sequence publishes it at once; after a resume the reports are in
      the order in which they were accepted. So the same flow ends with three reports or with two. */
  lemma {:induction false} OrderShows(env: Env, flow: seq<Node>)
    requires ReadsOrder(env) && flow == Racing()
    ensures ValidAll(flow)
    ensures var direct, resumed := DirectFlow(env, flow), Drive(env, flow, Run(env, flow), 1);
            && direct.FlowCompleted? && |direct.reports| == 3
            && resumed.FlowCompleted? && |resumed.reports| == 2
  {
    GatheredInPlace(env);
    RaceInPlace(env, flow, Published(Direct(env, flow[0], START)));
    RaceResumed(env, flow);
  }
}
