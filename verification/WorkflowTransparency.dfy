/** Pausing, storing, restoring and resuming a flow gives what answering every pause on the spot
    would have given. */
module WorkflowTransparency {
  import opened Common
  import opened WorkflowTree
  import opened WorkflowExec
  import opened WorkflowDirect
  import opened WorkflowAnswers
  import opened WorkflowLocality
  import opened WorkflowScope
  import opened WorkflowAgreement
  import opened WorkflowGraph
  import opened WorkflowNumbers
  import opened WorkflowFlow
  import opened WorkflowFit

  // ---- The reference result of a flow -----------------------------------------------------------

  // The flow ends with the first failure, or with all reports.
  function EndOf(all: seq<Report>, d: Done): (r: FlowResult)
    ensures !r.FlowPaused?
  {
    if AnyFailed(d.reports) then FlowFailed(StepFailed(FailedOnly(d.reports)[0]), d.world)
    else Finalize(all + d.reports, d.world)
  }

  function DirectFlow(env: Env, steps: seq<Node>): FlowResult
    requires ValidAll(steps)
  {
    EndOf([], DirectSequence(env, steps, START))
  }

  // What remains after the current results: continuations, then the later top-level steps.
  function LaterSteps(env: Env, steps: seq<Node>, index: nat, w: World): Done
    requires ValidAll(steps) && index < |steps|
  {
    ValidDrop(steps, index + 1);
    DirectSequence(env, steps[index + 1..], w)
  }

  function Remaining(env: Env, steps: seq<Node>, index: nat, conts: seq<Cont>, w: World): Done
    requires ValidAll(steps) && index < |steps| && ValidConts(conts)
  {
    var d := DirectConts(env, conts, w);
    Then(d, LaterSteps(env, steps, index, d.world))
  }

  // ---- What stored data stands for --------------------------------------------------------------

  // Callbacks suit the flow, instances are used once, and artifacts come back from JSON as they were.
  ghost predicate Ready(env: Env, steps: seq<Node>) {
    ValidAll(steps) && SuitsAll(env, steps) && UniqueIds(Graph(steps)) && Tame(env)
  }

  // Continuations over the flow's executables that fit, together with the later top-level steps.
  ghost predicate ContsOk(env: Env, steps: seq<Node>, conts: seq<Cont>, index: nat, forked: bool)
    requires index < |steps|
  {
    && ValidConts(conts) && ContsWithin(conts, InsideAll(steps), forked)
    && FitConts(env, conts, steps[index + 1..], forked)
  }

  ghost predicate StoredOk(env: Env, steps: seq<Node>, r: FlowResult)
    requires r.FlowPaused?
  {
    var s := r.stored;
    var conts := RestoreConts(Graph(steps), s.continuations);
    && s.stepIndex < |steps|
    && r.report == PausedReport(s.pending.uid, s.pending.script)
    && conts.Some? && ContsOk(env, steps, conts.value, s.stepIndex, r.past.forked)
    && Plain(env, s.artifacts)
    && (!r.past.forked ==> Numbered(s.outputs + [FinalReport(s.pending.uid, s.pending.script)], 0, |r.past.log|))
  }

  // The world a stored run goes on in.
  function ResumedFrom(st: Stored, past: History): World {
    World(Context(st.outputs, st.artifacts, st.loops), past.log, past.answered, past.forked)
  }

  function StoredWorld(r: FlowResult): World
    requires r.FlowPaused?
  {
    ResumedFrom(r.stored, r.past)
  }

  // The reference result of answering one paused runner and doing everything after it.
  function PauseMeaning(env: Env, steps: seq<Node>, pending: RunState, conts: seq<Cont>, index: nat, w: World): Done
    requires ValidAll(steps) && index < |steps| && ValidConts(conts)
  {
    var one := AnswerOne(env, Result(PausedReport(pending.uid, pending.script), Some(pending), conts), w);
    Then(one, LaterSteps(env, steps, index, one.world))
  }

  ghost function MeaningOf(env: Env, steps: seq<Node>, r: FlowResult): FlowResult
    requires ValidAll(steps) && (r.FlowPaused? ==> StoredOk(env, steps, r))
  {
    if !r.FlowPaused? then r
    else
      var conts := RestoreConts(Graph(steps), r.stored.continuations).value;
      EndOf(r.stored.outputs, PauseMeaning(env, steps, r.stored.pending, conts, r.stored.stepIndex, StoredWorld(r)))
  }

  function FinalWorld(r: FlowResult): World
    requires !r.FlowPaused?
  {
    r.world
  }

  // The flow has failed because no step was executed at all.
  predicate FailedEmpty(r: FlowResult) {
    r.FlowFailed? && r.failure.NoStepsExecuted?
  }

  // The machine's result x against the reference result y, as for Matches.
  ghost predicate EndMatch(x: FlowResult, y: FlowResult)
    requires !x.FlowPaused? && !y.FlowPaused?
  {
    if !FinalWorld(y).forked then x == y
    else
      && (x.FlowCompleted? <==> y.FlowCompleted?) && (FailedEmpty(x) <==> FailedEmpty(y))
      && FinalWorld(x).answered <= FinalWorld(y).answered
      && multiset(FinalWorld(x).log) <= multiset(FinalWorld(y).log)
      && (y.FlowCompleted? ==> SameReports(x.reports, y.reports) && LikeWorld(x.world, y.world))
  }

  lemma {:induction false} EndTrans(x: FlowResult, y: FlowResult, z: FlowResult)
    requires !x.FlowPaused? && !y.FlowPaused? && !z.FlowPaused?
    requires EndMatch(x, y) && EndMatch(y, z)
    ensures EndMatch(x, z)
  {
  }

  lemma {:induction false} EndOfMatch(all: seq<Report>, x: Done, y: Done)
    requires Matches(x, y)
    ensures EndMatch(EndOf(all, x), EndOf(all, y))
  {
    if y.world.forked && !AnyFailed(y.reports) {
      SameConcat(all, all, x.reports, y.reports);
    }
  }

  // Reports taken before a successful part move from the part to the list.
  lemma {:induction false} EndOfTaken(all: seq<Report>, d: Done, k: Done)
    requires !AnyFailed(d.reports)
    ensures EndOf(all, Then(d, k)) == EndOf(all + d.reports, k)
  {
    AnyFailedSplit(d.reports, k.reports);
    assert all + (d.reports + k.reports) == (all + d.reports) + k.reports;
    NoneFailed(d.reports, k.reports);
  }

  lemma {:induction false} NoneFailed(xs: seq<Report>, ys: seq<Report>)
    requires !AnyFailed(xs)
    ensures FailedOnly(xs + ys) == FailedOnly(ys)
  {
    if xs == [] {
      assert xs + ys == ys;
    } else {
      assert (xs + ys)[1..] == xs[1..] + ys;
      assert xs[0].status != Failed;
      forall i | 0 <= i < |xs[1..]| ensures xs[1..][i].status != Failed {
        assert xs[1..][i] == xs[i + 1];
      }
      NoneFailed(xs[1..], ys);
    }
  }

  // ---- Storing a pause --------------------------------------------------------------------------

  lemma {:induction false} CongruentAnswer(env: Env, pending: RunState, conts: seq<Cont>, a: World, b: World)
    requires ValidConts(conts) && SameWorld(a, b)
    requires b.forked ==> Local(env) && EVERYTHING !in ContsTouches(env, conts)
    ensures var r := Result(PausedReport(pending.uid, pending.script), Some(pending), conts);
            Matches(AnswerOne(env, r, a), AnswerOne(env, r, b))
  {
    if b.forked {
      var r := Result(PausedReport(pending.uid, pending.script), Some(pending), conts);
      var names := ContsTouches(env, conts);
      LocalAnswer(env, r, names, a, b);
      ShiftMatches(names, a, AnswerOne(env, r, a), b, AnswerOne(env, r, b));
    }
  }

  lemma {:induction false} CongruentPause(env: Env, steps: seq<Node>, pending: RunState, conts: seq<Cont>,
                                          index: nat, a: World, b: World)
    requires ValidAll(steps) && index < |steps| && ContsOk(env, steps, conts, index, b.forked) && SameWorld(a, b)
    ensures Matches(PauseMeaning(env, steps, pending, conts, index, a),
                    PauseMeaning(env, steps, pending, conts, index, b))
  {
    if b.forked {
      var r := Result(PausedReport(pending.uid, pending.script), Some(pending), conts);
      var x, y := AnswerOne(env, r, a), AnswerOne(env, r, b);
      LooseContsTouches(env, conts, InsideAll(steps));
      CongruentAnswer(env, pending, conts, a, b);
      ValidDrop(steps, index + 1);
      if !AnyFailed(y.reports) {
        CongruentSequence(env, steps[index + 1..], x.world, y.world);
      }
      MatchThen(x, LaterSteps(env, steps, index, x.world), y, LaterSteps(env, steps, index, y.world));
    }
  }

  lemma {:induction false} SettledPause(env: Env, steps: seq<Node>, pending: RunState, conts: seq<Cont>, index: nat,
                                        w: World, forked: bool)
    requires ValidAll(steps) && index < |steps| && ContsOk(env, steps, conts, index, forked)
    ensures ContsOk(env, steps, SettleAll(conts), index, forked)
    ensures PauseMeaning(env, steps, pending, SettleAll(conts), index, w)
            == PauseMeaning(env, steps, pending, conts, index, w)
  {
    SettleAllMeaning(env, InsideAll(steps), conts, Answer(pending, w).world, forked);
    SettledFit(env, conts, steps[index + 1..], forked);
  }

  // Before a Parallel, stored data gives back the very world; after one, a world like it.
  lemma {:induction false} StoredWorldSame(env: Env, r: FlowResult, all: seq<Report>, w: World)
    requires r.FlowPaused? && r.past == PastOf(w) && r.stored.loops == w.ctx.loops && r.stored.outputs == all
    requires env.encode(w.ctx.artifacts) == Some(r.stored.artifacts) && Plain(env, w.ctx.artifacts)
    requires !w.forked ==> w.ctx.outputs == all
    ensures SameWorld(StoredWorld(r), w)
  {
    if w.forked {
      forall x: string
        ensures Count(StoredWorld(r), x) == Count(w, x)
      {
      }
    }
  }

  // A pause is stored, and what is stored means what the pause meant.
  lemma {:induction false} PauseMeans(env: Env, steps: seq<Node>, pending: RunState, index: nat, all: seq<Report>,
                                      w: World, conts: seq<Cont>)
    requires Ready(env, steps) && index < |steps| && ContsOk(env, steps, conts, index, w.forked)
    requires Plain(env, w.ctx.artifacts)
    requires !w.forked ==>
               w.ctx.outputs == all && Numbered(all + [FinalReport(pending.uid, pending.script)], 0, |w.log|)
    ensures var r := PauseFlow(env, Graph(steps), PausedReport(pending.uid, pending.script), pending, index, all, w,
                               conts);
            && r.FlowPaused? && StoredOk(env, steps, r) && r.past == PastOf(w)
            && EndMatch(MeaningOf(env, steps, r), EndOf(all, PauseMeaning(env, steps, pending, conts, index, w)))
  {
    var r := PauseFlow(env, Graph(steps), PausedReport(pending.uid, pending.script), pending, index, all, w, conts);
    ReportsComeBack(env, all);
    assert env.freeze(pending) == Some(pending);
    ContsComeBack(env, conts);
    ContsWithinTrue(conts, InsideAll(steps), w.forked);
    ContsRoundTrip(steps, conts);
    StoredWorldSame(env, r, all, w);
    SettledPause(env, steps, pending, conts, index, StoredWorld(r), w.forked);
    CongruentPause(env, steps, pending, conts, index, StoredWorld(r), w);
    EndOfMatch(all, PauseMeaning(env, steps, pending, conts, index, StoredWorld(r)),
               PauseMeaning(env, steps, pending, conts, index, w));
  }

  // ---- Taking results at the top level ----------------------------------------------------------

  // Before a Parallel, published outputs and accepted reports coincide.
  ghost predicate InStep(results: seq<Result>, w: World, all: seq<Report>) {
    !w.forked ==>
      && Normal(results)
      && Publish(w, Reports(results)).ctx.outputs == all + CompletedOf(Reports(results))
      && Numbered(all + Reports(results), 0, |w.log|)
  }

  // Results within the flow that fit, with `remaining` and the later top-level steps behind them;
  // `narrow` says that no Parallel is behind the results themselves.
  ghost predicate Pending(env: Env, steps: seq<Node>, results: seq<Result>, remaining: seq<Cont>, index: nat,
                          forked: bool, narrow: bool)
    requires index < |steps|
  {
    && ValidResults(results) && ResultsWithin(results, InsideAll(steps), forked)
    && ResultsFit(env, results, forked, narrow) && ContsOk(env, steps, remaining, index, forked)
    && (forked || narrow || (Local(env) && LooseConts(env, remaining) && LooseAll(env, steps[index + 1..])))
  }

  // The pause branch of `_execute_step_results`.
  lemma {:induction false} PausedResultMeans(env: Env, steps: seq<Node>, results: seq<Result>, w: World,
          all: seq<Report>, index: nat, remaining: seq<Cont>, narrow: bool)
    requires Ready(env, steps) && index < |steps|
    requires results != [] && results[0].report.status == Paused
    requires Pending(env, steps, results, remaining, index, w.forked, narrow) && InStep(results, w, all)
    requires Plain(env, w.ctx.artifacts)
    ensures var v := StepResults(env, Graph(steps), results, w, all, index, remaining);
            var a := AnswerAll(env, results, w);
            && v.Stop? && v.result.FlowPaused? && StoredOk(env, steps, v.result)
            && EndMatch(MeaningOf(env, steps, v.result),
                        EndOf(all, Then(a, Remaining(env, steps, index, remaining, a.world))))
  {
    var r := results[0];
    var pending := r.state.value;
    var taken := r.conts + Tail(results[1..]) + remaining;
    var a := AnswerAll(env, results, w);
    var dc := DirectConts(env, remaining, a.world);
    assert results == [r] + results[1..];
    DeferredPause(env, r, results[1..], remaining, w);
    OneResult(r.(conts := taken));
    AnswerAllOne(env, r.(conts := taken), w);
    TakenOk(env, steps, results, remaining, index, w.forked, narrow);
    if !w.forked {
      PausedAlone(results, w, all);
    }
    PauseMeans(env, steps, pending, index, all, w, taken);
    ThenAssoc(a, dc, LaterSteps(env, steps, index, dc.world));
    assert r.(conts := taken) == Result(PausedReport(pending.uid, pending.script), Some(pending), taken);
  }

  lemma {:induction false} PausedAlone(results: seq<Result>, w: World, all: seq<Report>)
    requires results != [] && results[0].report.status == Paused && CarriesState(results[0])
    requires !w.forked && InStep(results, w, all)
    ensures var pending := results[0].state.value;
            w.ctx.outputs == all && Numbered(all + [FinalReport(pending.uid, pending.script)], 0, |w.log|)
  {
    var r := results[0];
    var pending := r.state.value;
    NoneCompleted(w, Reports(results));
    assert Reports(results) == [r.report];
    assert CompletedOf([r.report]) == [] by { assert [r.report][1..] == []; }
    assert all + [] == all;
    LastRenamed(all, r.report, FinalReport(pending.uid, pending.script), |w.log|);
  }

  lemma {:induction false} LastRenamed(all: seq<Report>, x: Report, y: Report, hi: nat)
    requires Numbered(all + [x], 0, hi) && x.uid == y.uid
    ensures Numbered(all + [y], 0, hi)
  {
    var xs, ys := all + [x], all + [y];
    assert forall i :: 0 <= i < |xs| ==> ys[i].uid == xs[i].uid;
  }

  lemma {:induction false} TakenOk(env: Env, steps: seq<Node>, results: seq<Result>, remaining: seq<Cont>,
                                   index: nat, forked: bool, narrow: bool)
    requires index < |steps| && results != [] && results[0].report.status == Paused && (!forked ==> Normal(results))
    requires Pending(env, steps, results, remaining, index, forked, narrow)
    ensures ContsOk(env, steps, results[0].conts + Tail(results[1..]) + remaining, index, forked)
  {
    var r, S, rest := results[0], InsideAll(steps), Tail(results[1..]);
    TailValid(results[1..]);
    ValidContsConcat(r.conts, rest);
    ValidContsConcat(r.conts + rest, remaining);
    assert r in results;
    assert forall x :: x in results[1..] ==> x in results && ResultFits(env, x, forked, narrow);
    TailFits(env, results[1..], S, forked);
    ContsWithinConcat(r.conts, rest, S, forked);
    ContsWithinConcat(r.conts + rest, remaining, S, forked);
    if forked {
      LooseContsConcat(env, r.conts, rest);
      LooseContsConcat(env, r.conts + rest, remaining);
    } else {
      assert r.conts + rest == r.conts;
      SuitsAppend(env, r.conts, remaining, steps[index + 1..]);
    }
  }

  lemma {:induction false} TailFits(env: Env, later: seq<Result>, S: set<Node>, forked: bool)
    requires ResultsWithin(later, S, forked) && (forked || later == [])
    requires forked ==> forall r :: r in later ==> LooseConts(env, r.conts)
    ensures ContsWithin(Tail(later), S, forked) && (forked ==> LooseConts(env, Tail(later)))
  {
    if later != [] {
      OneContWithin(OutCont(later), S, true);
      LooseResultsAt(env, later);
      var tail := Tail(later);
      assert tail == [OutCont(later)] && tail[1..] == [];
      assert LooseCont(env, tail[0]) && LooseConts(env, tail[1..]);
    }
  }

  // Taking results either goes on with all of them, or stops with something that means the rest.
  ghost predicate TakenMeans(env: Env, steps: seq<Node>, v: Verdict, a: Done, reported: seq<Report>,
                             all: seq<Report>, index: nat, remaining: seq<Cont>)
    requires ValidAll(steps) && index < |steps| && ValidConts(remaining)
  {
    && (v.GoOn? ==> a == Done(reported, v.world) && !AnyFailed(a.reports) && v.all == all + reported)
    && (v.Stop? ==>
          && (v.result.FlowPaused? ==> StoredOk(env, steps, v.result))
          && EndMatch(MeaningOf(env, steps, v.result),
                      EndOf(all, Then(a, Remaining(env, steps, index, remaining, a.world)))))
  }

  /** Taking results one by one accepts all of them as the reference does, or stops with a failure or a
      stored pause that means everything still to be done. */
  lemma {:induction false} StepResultsMean(env: Env, steps: seq<Node>, results: seq<Result>, w: World,
                                           all: seq<Report>, index: nat, remaining: seq<Cont>, narrow: bool)
    requires Ready(env, steps) && index < |steps|
    requires Pending(env, steps, results, remaining, index, w.forked, narrow) && InStep(results, w, all)
    requires Plain(env, w.ctx.artifacts)
    ensures TakenMeans(env, steps, StepResults(env, Graph(steps), results, w, all, index, remaining),
                       AnswerAll(env, results, w), Reports(results), all, index, remaining)
    decreases |results|
  {
    if results == [] {
      assert all + [] == all;
    } else if results[0].report.status == Paused {
      PausedResultMeans(env, steps, results, w, all, index, remaining, narrow);
    } else if results[0].report.status == Failed {
      FailedResultMeans(env, steps, results, w, all, index, remaining);
    } else {
      var r := results[0].report;
      var w' := AddOutput(w, r);
      if !w.forked {
        InStepTail(results, w, all);
      }
      StepResultsMean(env, steps, results[1..], w', all + [r], index, remaining, narrow);
      HeadTaken(env, results, w);
      HeadMeans(env, steps, StepResults(env, Graph(steps), results[1..], w', all + [r], index, remaining),
                AnswerAll(env, results[1..], w'), Reports(results[1..]), r, w', all, index, remaining);
      assert Reports(results) == [r] + Reports(results[1..]);
    }
  }

  lemma {:induction false} FailedResultMeans(env: Env, steps: seq<Node>, results: seq<Result>, w: World,
          all: seq<Report>, index: nat, remaining: seq<Cont>)
    requires ValidAll(steps) && index < |steps| && ValidResults(results) && ValidConts(remaining)
    requires results != [] && results[0].report.status == Failed
    ensures TakenMeans(env, steps, StepResults(env, Graph(steps), results, w, all, index, remaining),
                       AnswerAll(env, results, w), Reports(results), all, index, remaining)
  {
    var r := results[0].report;
    NoneCompleted(w, [r]);
    assert AnswerOne(env, results[0], w) == Done([r], w);
    assert [r][0].status == Failed;
    assert FailedOnly([r]) == [r] by { assert [r][1..] == []; }
    EndMatchSame(EndOf(all, Done([r], w)));
  }

  lemma {:induction false} EndMatchSame(x: FlowResult)
    requires !x.FlowPaused?
    ensures EndMatch(x, x)
  {
  }

  // A completed report in front of results whose meaning is known.
  lemma {:induction false} HeadMeans(env: Env, steps: seq<Node>, v: Verdict, rest: Done,
                                     reported: seq<Report>, r: Report, w': World, all: seq<Report>, index: nat,
                                     remaining: seq<Cont>)
    requires ValidAll(steps) && index < |steps| && ValidConts(remaining) && r.status != Failed
    requires TakenMeans(env, steps, v, rest, reported, all + [r], index, remaining)
    ensures TakenMeans(env, steps, v, Then(Done([r], w'), rest), [r] + reported, all, index, remaining)
  {
    assert (all + [r]) + reported == all + ([r] + reported);
    assert !AnyFailed([r]);
    AnyFailedSplit([r], rest.reports);
    HeadThenRest(env, steps, r, w', rest, all, index, remaining);
  }

  lemma {:induction false} HeadTaken(env: Env, results: seq<Result>, w: World)
    requires ValidResults(results) && results != [] && results[0].report.status == Completed
    ensures var r := results[0].report;
            var rest := AnswerAll(env, results[1..], AddOutput(w, r));
            && AnswerAll(env, results, w) == Then(Done([r], AddOutput(w, r)), rest)
            && !AnyFailed([r])
            && (AnyFailed([r] + rest.reports) <==> AnyFailed(rest.reports))
  {
    var r := results[0].report;
    assert Publish(w, [r]) == AddOutput(w, r) by { assert [r][1..] == []; }
    assert AnswerOne(env, results[0], w) == Done([r], AddOutput(w, r));
    AnyFailedSplit([r], AnswerAll(env, results[1..], AddOutput(w, r)).reports);
  }

  lemma {:induction false} InStepTail(results: seq<Result>, w: World, all: seq<Report>)
    requires results != [] && results[0].report.status == Completed && !w.forked && InStep(results, w, all)
    ensures InStep(results[1..], AddOutput(w, results[0].report), all + [results[0].report])
  {
    var r, rest := results[0].report, Reports(results[1..]);
    assert Reports(results) == [r] + rest;
    assert (all + [r]) + CompletedOf(rest) == all + CompletedOf([r] + rest);
    assert (all + [r]) + rest == all + ([r] + rest);
  }

  lemma {:induction false} HeadThenRest(env: Env, steps: seq<Node>, r: Report, w': World, rest: Done,
                                        all: seq<Report>, index: nat, remaining: seq<Cont>)
    requires ValidAll(steps) && index < |steps| && ValidConts(remaining) && !AnyFailed([r])
    ensures var a := Then(Done([r], w'), rest);
            EndOf(all, Then(a, Remaining(env, steps, index, remaining, a.world)))
            == EndOf(all + [r], Then(rest, Remaining(env, steps, index, remaining, rest.world)))
  {
    var k := Remaining(env, steps, index, remaining, rest.world);
    ThenAssoc(Done([r], w'), rest, k);
    EndOfTaken(all, Done([r], w'), Then(rest, k));
  }

  // ---- Top-level steps --------------------------------------------------------------------------

  ghost predicate Means(env: Env, steps: seq<Node>, r: FlowResult, reference: FlowResult)
    requires ValidAll(steps) && !reference.FlowPaused?
  {
    && (r.FlowPaused? ==> StoredOk(env, steps, r))
    && EndMatch(MeaningOf(env, steps, r), reference)
  }

  // Artifacts can be stored, and before a Parallel the outputs are the reports accepted so far.
  ghost predicate Aligned(env: Env, w: World, all: seq<Report>) {
    Plain(env, w.ctx.artifacts) && (!w.forked ==> w.ctx.outputs == all && Tidy(w))
  }

  lemma {:induction false} ExecutedInStep(env: Env, w: World, e: Out, published: bool, all: seq<Report>)
    requires Aligned(env, w, all) && (w.forked ==> e.world.forked)
    requires !e.world.forked ==> Normal(e.results) && Appended(w, e, published)
    ensures InStep(e.results, e.world, all)
  {
    if !e.world.forked {
      PublishAppended(w, e, published);
      NumberedConcat(all, Reports(e.results), 0, |w.log|, |e.world.log|);
    }
  }

  lemma {:induction false} GoneOnAligned(env: Env, w: World, e: Out, published: bool, all: seq<Report>, w': World)
    requires Aligned(env, w, all) && (w.forked ==> e.world.forked) && Plain(env, e.world.ctx.artifacts)
    requires !e.world.forked ==> Normal(e.results) && Appended(w, e, published)
    requires ValidResults(e.results) && w' == e.world.(ctx := e.world.ctx.(outputs := w'.ctx.outputs))
    requires AnswerAll(env, e.results, e.world) == Done(Reports(e.results), w') && !AnyFailed(Reports(e.results))
    ensures Aligned(env, w', all + Reports(e.results))
  {
    if !e.world.forked {
      PublishAppended(w, e, published);
      NotStopped(env, e.results, e.world, w');
      PublishedTaken(env, e.results, e.world);
      AllCompleted(e.results);
    }
  }

  // An answered pause does not begin with the report of the pause.
  lemma {:induction false} AnsweredNotPaused(env: Env, r: Result, w: World)
    requires r.report.status == Paused && CarriesState(r) && ValidConts(r.conts)
    ensures AnswerOne(env, r, w).reports != [] && AnswerOne(env, r, w).reports[0] != r.report
  {
    assert Answer(r.state.value, w).reports[0].status != Paused;
  }

  // If all results are reported as they are and none failed, none was paused.
  lemma {:induction false} NotStopped(env: Env, results: seq<Result>, w: World, w': World)
    requires ValidResults(results) && Normal(results)
    requires AnswerAll(env, results, w) == Done(Reports(results), w') && !AnyFailed(Reports(results))
    ensures !ShouldStop(results)
    decreases |results|
  {
    if results != [] {
      HasStatusHead(results, Paused);
      HasStatusHead(results, Failed);
      var rs := Reports(results);
      assert rs[0].status != Failed;
      var first := AnswerOne(env, results[0], w);
      if results[0].report.status == Paused {
        AnsweredNotPaused(env, results[0], w);
        assert false;
      }
      assert !AnyFailed(first.reports) by {
        assert first.reports == [rs[0]];
      }
      var rest := AnswerAll(env, results[1..], first.world);
      assert rest.reports == rs[1..] == Reports(results[1..]);
      forall i | 0 <= i < |rs[1..]| ensures rs[1..][i].status != Failed {
        assert rs[1..][i] == rs[i + 1];
      }
      NotStopped(env, results[1..], first.world, w');
    }
  }

  lemma {:induction false} AllCompleted(results: seq<Result>)
    requires Normal(results) && !ShouldStop(results)
    ensures CompletedOf(Reports(results)) == Reports(results)
  {
    if results != [] {
      HasStatusHead(results, Paused);
      HasStatusHead(results, Failed);
      AllCompleted(results[1..]);
    }
  }

  lemma {:induction false} TopResults(env: Env, steps: seq<Node>, i: nat, w: World, all: seq<Report>)
    requires Ready(env, steps) && i < |steps| && Aligned(env, w, all) && Valid(steps[i])
    requires FitAll(env, steps[i..], w.forked)
    ensures var e := Execute(env, steps[i], w);
            && Pending(env, steps, e.results, [], i, e.world.forked, NoParallel(steps[i]))
            && (!e.world.forked ==> Normal(e.results) && Appended(w, e, !steps[i].Step?))
            && InStep(e.results, e.world, all)
            && Matches(AnswerAll(env, e.results, e.world), Published(Direct(env, steps[i], w)))
  {
    var e := Execute(env, steps[i], w);
    assert steps[i..][0] == steps[i] && steps[i..][1..] == steps[i + 1..];
    FitRest(env, steps[i..], w.forked, e.world.forked);
    InsideAt(steps, i);
    NodeAgrees(env, steps[i], w);
    ExecuteShape(env, steps[i], w);
    if !e.world.forked {
      ExecuteNumbers(env, steps[i], w);
    }
    ExecuteWithin(env, steps[i], w, e.world.forked);
    ResultsWider(e.results, Inside(steps[i]), InsideAll(steps), e.world.forked);
    ExecuteFits(env, steps[i], w);
    ExecutedInStep(env, w, e, !steps[i].Step?, all);
  }

  /** From any step on, the loop over top-level steps means the reference run of those steps. */
  lemma {:induction false} RunTopMeans(env: Env, steps: seq<Node>, i: nat, w: World, all: seq<Report>)
    requires Ready(env, steps) && i <= |steps| && Aligned(env, w, all) && FitAll(env, steps[i..], w.forked)
    ensures ValidAll(steps[i..])
    ensures Means(env, steps, RunTop(env, steps, i, w, all), EndOf(all, DirectSequence(env, steps[i..], w)))
    decreases |steps| - i
  {
    ValidDrop(steps, i);
    if i == |steps| {
      assert all + [] == all;
      assert RunTop(env, steps, i, w, all) == EndOf(all, DirectSequence(env, steps[i..], w));
      EndMatchSame(EndOf(all, DirectSequence(env, steps[i..], w)));
    } else {
      ValidAllAt(steps, i);
      TopResults(env, steps, i, w, all);
      var e := Execute(env, steps[i], w);
      StepResultsMean(env, steps, e.results, e.world, all, i, [], NoParallel(steps[i]));
      var v := StepResults(env, Graph(steps), e.results, e.world, all, i, []);
      if v.GoOn? {
        GoneOnAligned(env, w, e, !steps[i].Step?, all, v.world);
        RunTopMeans(env, steps, i + 1, v.world, v.all);
      }
      TopStep(env, steps, i, w, all);
    }
  }

  // One top-level step, given what the rest means.
  lemma {:induction false} TopStep(env: Env, steps: seq<Node>, i: nat, w: World, all: seq<Report>)
    requires ValidAll(steps) && i < |steps| && Valid(steps[i]) && FitAll(env, steps[i..], w.forked)
    requires ValidAll(steps[i..]) && ValidAll(steps[i + 1..])
    requires var e := Execute(env, steps[i], w);
             var v := StepResults(env, Graph(steps), e.results, e.world, all, i, []);
             && ValidResults(e.results)
             && Matches(AnswerAll(env, e.results, e.world), Published(Direct(env, steps[i], w)))
             && var a := AnswerAll(env, e.results, e.world);
             && (v.GoOn? ==> a == Done(Reports(e.results), v.world) && !AnyFailed(a.reports)
                             && v.all == all + Reports(e.results)
                             && Means(env, steps, RunTop(env, steps, i + 1, v.world, v.all),
                                      EndOf(v.all, DirectSequence(env, steps[i + 1..], v.world))))
             && (v.Stop? ==> Means(env, steps, v.result, EndOf(all, Then(a, Remaining(env, steps, i, [], a.world)))))
    ensures Means(env, steps, RunTop(env, steps, i, w, all), EndOf(all, DirectSequence(env, steps[i..], w)))
  {
    var e := Execute(env, steps[i], w);
    var v := StepResults(env, Graph(steps), e.results, e.world, all, i, []);
    var a := AnswerAll(env, e.results, e.world);
    var ka := LaterSteps(env, steps, i, a.world);
    var reference := EndOf(all, DirectSequence(env, steps[i..], w));
    var end := RunTop(env, steps, i, w, all);
    StepThenLater(env, steps, i, w, all);
    if v.GoOn? {
      assert end == RunTop(env, steps, i + 1, v.world, v.all);
      EndOfTaken(all, a, ka);
    } else {
      assert end == v.result;
      assert Remaining(env, steps, i, [], a.world) == ka by {
        assert [] + ka.reports == ka.reports;
      }
    }
    EndTrans(MeaningOf(env, steps, end), EndOf(all, Then(a, ka)), reference);
    assert Means(env, steps, end, reference);
  }

  // Answering what a step left and running the later steps ends as the reference does.
  lemma {:induction false} StepThenLater(env: Env, steps: seq<Node>, i: nat, w: World,
                                         all: seq<Report>)
    requires ValidAll(steps) && i < |steps| && Valid(steps[i]) && FitAll(env, steps[i..], w.forked)
    requires ValidAll(steps[i..]) && ValidAll(steps[i + 1..])
    requires var e := Execute(env, steps[i], w);
             && ValidResults(e.results)
             && Matches(AnswerAll(env, e.results, e.world), Published(Direct(env, steps[i], w)))
    ensures var e := Execute(env, steps[i], w);
            var a := AnswerAll(env, e.results, e.world);
            EndMatch(EndOf(all, Then(a, LaterSteps(env, steps, i, a.world))),
                     EndOf(all, DirectSequence(env, steps[i..], w)))
  {
    var e := Execute(env, steps[i], w);
    var a := AnswerAll(env, e.results, e.world);
    var d1 := Published(Direct(env, steps[i], w));
    var ka, kd := LaterSteps(env, steps, i, a.world), LaterSteps(env, steps, i, d1.world);
    SequenceUnfolds(env, steps, i, w);
    PublishGrows(Direct(env, steps[i], w).world, d1.reports);
    assert steps[i..][0] == steps[i] && steps[i..][1..] == steps[i + 1..];
    FitRest(env, steps[i..], w.forked, d1.world.forked);
    if !AnyFailed(d1.reports) {
      CongruentSequence(env, steps[i + 1..], a.world, d1.world);
    }
    MatchThen(a, ka, d1, kd);
    EndOfMatch(all, Then(a, ka), Then(d1, kd));
  }

  // ---- Continuations ----------------------------------------------------------------------------

  lemma {:induction false} StepsWithin(env: Env, graph: seq<Node>, steps: seq<Node>, w: World)
    requires ValidAll(steps) && forall s :: s in steps ==> s in InsideAll(graph)
    ensures var e := ExecuteSequence(env, steps, w);
            ResultsWithin(e.results, InsideAll(graph), e.world.forked)
  {
    var e := ExecuteSequence(env, steps, w);
    SequenceWithin(env, steps, w, e.world.forked);
    forall n | n in InsideAll(steps)
      ensures n in InsideAll(graph)
    {
      InsideTransitive(graph, steps, n);
    }
    ResultsWider(e.results, InsideAll(steps), InsideAll(graph), e.world.forked);
  }

  lemma {:induction false} InsideTransitive(graph: seq<Node>, steps: seq<Node>, n: Node)
    requires n in InsideAll(steps) && forall s :: s in steps ==> s in InsideAll(graph)
    ensures n in InsideAll(graph)
  {
    if n in Inside(steps[0]) {
      assert steps[0] in InsideAll(graph);
      InsideAllTwice(graph, steps[0], n);
    } else {
      InsideTransitive(graph, steps[1..], n);
    }
  }

  lemma {:induction false} InsideTwice(node: Node, m: Node, n: Node)
    requires m in Inside(node) && n in Inside(m)
    ensures n in Inside(node)
    decreases node
  {
    if m != node {
      match node
      case Parallel(_, steps) => InsideAllTwice(steps, m, n);
      case Condition(_, ifTrue, ifFalse) =>
        if m in InsideAll(ifTrue) {
          InsideAllTwice(ifTrue, m, n);
        } else {
          InsideAllTwice(ifFalse, m, n);
        }
      case Router(_, routes) => InsideRoutesTwice(routes, m, n);
      case Loop(_, _, _, steps) => InsideAllTwice(steps, m, n);
    }
  }

  lemma {:induction false} InsideAllTwice(steps: seq<Node>, m: Node, n: Node)
    requires m in InsideAll(steps) && n in Inside(m)
    ensures n in InsideAll(steps)
    decreases steps
  {
    if m in Inside(steps[0]) {
      InsideTwice(steps[0], m, n);
    } else {
      InsideAllTwice(steps[1..], m, n);
    }
  }

  lemma {:induction false} InsideRoutesTwice(routes: seq<Route>, m: Node, n: Node)
    requires m in InsideRoutes(routes) && n in Inside(m)
    ensures n in InsideRoutes(routes)
    decreases routes
  {
    if m in InsideAll(routes[0].steps) {
      InsideAllTwice(routes[0].steps, m, n);
    } else {
      InsideRoutesTwice(routes[1..], m, n);
    }
  }

  lemma {:induction false} LoopWithin(env: Env, graph: seq<Node>, loop: Node, start: nat, w: World)
    requires loop.Loop? && Valid(loop) && start <= |loop.steps| && loop in InsideAll(graph)
    ensures var e := RunIterations(env, loop, start, true, w);
            ResultsWithin(e.results, InsideAll(graph), e.world.forked)
  {
    var e := RunIterations(env, loop, start, true, w);
    IterationsWithin(env, loop, start, true, w, e.world.forked);
    forall n | n in Inside(loop)
      ensures n in InsideAll(graph)
    {
      InsideAllTwice(graph, loop, n);
    }
    ResultsWider(e.results, Inside(loop), InsideAll(graph), e.world.forked);
  }

  lemma {:induction false} MatchesSame(d: Done)
    ensures Matches(d, d)
  {
  }

  // Calling a continuation agrees with its meaning, and leaves what fits.
  lemma {:induction false} ContAgrees(env: Env, graph: seq<Node>, c: Cont, w: World)
    requires ValidCont(c) && ContWithin(c, InsideAll(graph), w.forked) && FitCont(env, c, w.forked)
    ensures var e := ExecuteCont(env, c, w);
            && ValidResults(e.results) && ResultsWithin(e.results, InsideAll(graph), e.world.forked)
            && ResultsFit(env, e.results, e.world.forked, NoParallelCont(c))
            && Matches(AnswerAll(env, e.results, e.world), DirectCont(env, c, w))
  {
    ContShape(env, c, w);
    ContFits(env, c, InsideAll(graph), w);
    match c
    case SeqCont(steps) =>
      SequenceAgrees(env, steps, w);
      StepsWithin(env, graph, steps, w);
    case LoopCont(loop, start, previous) =>
      IterationsAgree(env, loop, start, true, Renamed(loop, previous, w));
      LoopWithin(env, graph, loop, start, Renamed(loop, previous, w));
    case OutCont(outputs) => MatchesSame(AnswerAll(env, outputs, w));
  }

  lemma {:induction false} ContGrows(env: Env, c: Cont, w: World)
    requires ValidCont(c)
    ensures var e := ExecuteCont(env, c, w);
            && (w.forked ==> e.world.forked) && (NoParallelCont(c) ==> e.world.forked == w.forked)
            && StaysPlain(env, w, e.world)
    ensures var d := DirectCont(env, c, w);
            (w.forked ==> d.world.forked) && (NoParallelCont(c) ==> d.world.forked == w.forked)
  {
  }

  lemma {:induction false} ContResults(env: Env, graph: seq<Node>, c: Cont, w: World, all: seq<Report>)
    requires ValidCont(c) && ContWithin(c, InsideAll(graph), w.forked) && Aligned(env, w, all)
    ensures var e := ExecuteCont(env, c, w);
            && InStep(e.results, e.world, all)
            && (!e.world.forked ==> Normal(e.results) && Appended(w, e, true))
  {
    var e := ExecuteCont(env, c, w);
    ContGrows(env, c, w);
    ContShape(env, c, w);
    if !e.world.forked {
      ContNumbers(env, c, InsideAll(graph), w);
    }
    ExecutedInStep(env, w, e, true, all);
  }

  lemma {:induction false} ContsWithinOut(cs: seq<Cont>, S: set<Node>, out: bool, out': bool)
    requires ContsWithin(cs, S, out) && (out ==> out')
    ensures ContsWithin(cs, S, out')
  {
    if out' {
      ContsWithinTrue(cs, S, out);
    }
  }

  // The first continuation can be called, and what is behind it stays in order.
  lemma {:induction false} NextCont(env: Env, steps: seq<Node>, conts: seq<Cont>, w: World, all: seq<Report>,
                                    index: nat)
    requires Ready(env, steps) && index < |steps| && ContsOk(env, steps, conts, index, w.forked) && conts != []
    requires Aligned(env, w, all) && Callable(conts[0])
    ensures var e := ExecuteCont(env, conts[0], w);
            && Pending(env, steps, e.results, conts[1..], index, e.world.forked, NoParallelCont(conts[0]))
            && (w.forked ==> e.world.forked) && Plain(env, e.world.ctx.artifacts)
            && InStep(e.results, e.world, all)
            && (!e.world.forked ==> Normal(e.results) && Appended(w, e, true))
            && Matches(AnswerAll(env, e.results, e.world), DirectCont(env, conts[0], w))
    ensures ContsOk(env, steps, conts[1..], index, DirectCont(env, conts[0], w).world.forked)
  {
    var c, S, later := conts[0], InsideAll(steps), steps[index + 1..];
    var e, d := ExecuteCont(env, c, w), DirectCont(env, c, w);
    ContGrows(env, c, w);
    FitContsRest(env, conts, later, w.forked, e.world.forked, S);
    FitContsRest(env, conts, later, w.forked, d.world.forked, S);
    ContAgrees(env, steps, c, w);
    ContResults(env, steps, c, w, all);
    ContsWithinOut(conts[1..], S, w.forked, e.world.forked);
    ContsWithinOut(conts[1..], S, w.forked, d.world.forked);
  }

  /** Popping restored continuations and then running the later steps ends as their meaning does. */
  lemma {:induction false} RunContsMean(env: Env, steps: seq<Node>, conts: seq<Cont>, w: World, all: seq<Report>,
                                        index: nat)
    requires Ready(env, steps) && index < |steps| && ContsOk(env, steps, conts, index, w.forked)
    requires Aligned(env, w, all) && forall c :: c in conts ==> Callable(c)
    ensures Means(env, steps, RunConts(env, steps, conts, w, all, index),
                  EndOf(all, Remaining(env, steps, index, conts, w)))
    decreases |conts|
  {
    if conts == [] {
      RunTopMeans(env, steps, index + 1, w, all);
      var k := LaterSteps(env, steps, index, w);
      assert [] + k.reports == k.reports;
    } else {
      var e := ExecuteCont(env, conts[0], w);
      NextCont(env, steps, conts, w, all, index);
      StepResultsMean(env, steps, e.results, e.world, all, index, conts[1..], NoParallelCont(conts[0]));
      var v := StepResults(env, Graph(steps), e.results, e.world, all, index, conts[1..]);
      if v.GoOn? {
        GoneOnAligned(env, w, e, true, all, v.world);
        RunContsMean(env, steps, conts[1..], v.world, v.all, index);
      }
      ContStep(env, steps, conts, w, all, index);
    }
  }

  lemma {:induction false} CongruentRemaining(env: Env, steps: seq<Node>, index: nat, conts: seq<Cont>, a: World,
                                              b: World)
    requires ValidAll(steps) && index < |steps| && ContsOk(env, steps, conts, index, b.forked) && SameWorld(a, b)
    ensures Matches(Remaining(env, steps, index, conts, a), Remaining(env, steps, index, conts, b))
  {
    if b.forked {
      var x, y := DirectConts(env, conts, a), DirectConts(env, conts, b);
      LooseContsTouches(env, conts, InsideAll(steps));
      CongruentConts(env, conts, a, b);
      ValidDrop(steps, index + 1);
      if !AnyFailed(y.reports) {
        CongruentSequence(env, steps[index + 1..], x.world, y.world);
      }
      MatchThen(x, LaterSteps(env, steps, index, x.world), y, LaterSteps(env, steps, index, y.world));
    } else {
      MatchesSame(Remaining(env, steps, index, conts, b));
    }
  }

  // One continuation, given what the rest means.
  lemma {:induction false} ContStep(env: Env, steps: seq<Node>, conts: seq<Cont>, w: World,
                                    all: seq<Report>, index: nat)
    requires ValidAll(steps) && index < |steps| && ValidConts(conts) && conts != []
    requires ContsOk(env, steps, conts[1..], index, DirectCont(env, conts[0], w).world.forked)
    requires forall c :: c in conts ==> Callable(c)
    requires var e := ExecuteCont(env, conts[0], w);
             var v := StepResults(env, Graph(steps), e.results, e.world, all, index, conts[1..]);
             && ValidResults(e.results)
             && Matches(AnswerAll(env, e.results, e.world), DirectCont(env, conts[0], w))
             && var a := AnswerAll(env, e.results, e.world);
             && (v.GoOn? ==> a == Done(Reports(e.results), v.world) && !AnyFailed(a.reports)
                             && v.all == all + Reports(e.results)
                             && Means(env, steps, RunConts(env, steps, conts[1..], v.world, v.all, index),
                                      EndOf(v.all, Remaining(env, steps, index, conts[1..], v.world))))
             && (v.Stop? ==> Means(env, steps, v.result,
                                   EndOf(all, Then(a, Remaining(env, steps, index, conts[1..], a.world)))))
    ensures Means(env, steps, RunConts(env, steps, conts, w, all, index),
                  EndOf(all, Remaining(env, steps, index, conts, w)))
  {
    var e := ExecuteCont(env, conts[0], w);
    var v := StepResults(env, Graph(steps), e.results, e.world, all, index, conts[1..]);
    var a := AnswerAll(env, e.results, e.world);
    var d1 := DirectCont(env, conts[0], w);
    PublishedContIsCont(env, conts[0], w);
    var ka := Remaining(env, steps, index, conts[1..], a.world);
    var kd := Remaining(env, steps, index, conts[1..], d1.world);
    RemainingUnfolds(env, steps, index, conts, w);
    if !AnyFailed(d1.reports) {
      CongruentRemaining(env, steps, index, conts[1..], a.world, d1.world);
    }
    MatchThen(a, ka, d1, kd);
    EndOfMatch(all, Then(a, ka), Then(d1, kd));
    if v.GoOn? {
      EndOfTaken(all, a, ka);
      EndTrans(MeaningOf(env, steps, RunConts(env, steps, conts[1..], v.world, v.all, index)),
               EndOf(all, Then(a, ka)), EndOf(all, Then(d1, kd)));
    } else {
      EndTrans(MeaningOf(env, steps, v.result), EndOf(all, Then(a, ka)), EndOf(all, Then(d1, kd)));
    }
  }

  lemma {:induction false} RemainingUnfolds(env: Env, steps: seq<Node>, index: nat, conts: seq<Cont>, w: World)
    requires ValidAll(steps) && index < |steps| && ValidConts(conts) && conts != []
    ensures var d1 := DirectCont(env, conts[0], w);
            Remaining(env, steps, index, conts, w) == Then(d1, Remaining(env, steps, index, conts[1..], d1.world))
  {
    var d1 := DirectCont(env, conts[0], w);
    PublishedContIsCont(env, conts[0], w);
    var rest := DirectConts(env, conts[1..], d1.world);
    assert DirectConts(env, conts, w) == Then(d1, rest);
    ThenAssoc(d1, rest, LaterSteps(env, steps, index, rest.world));
  }

  // ---- Resuming ---------------------------------------------------------------------------------

  lemma {:induction false} ResumePausesAgain(env: Env, steps: seq<Node>, st: Stored, past: History)
    requires ValidAll(steps) && st.stepIndex < |steps| && st.pending.left > 0
    requires RestoreConts(Graph(steps), st.continuations).Some?
    ensures Resume(env, steps, st, past)
            == PauseFlow(env, Graph(steps), PausedReport(st.pending.uid, st.pending.script),
                         st.pending.(left := st.pending.left - 1), st.stepIndex, st.outputs,
                         World(Context(st.outputs, st.artifacts, st.loops), past.log, past.answered + 1, past.forked),
                         RestoreConts(Graph(steps), st.continuations).value)
  {
  }

  lemma {:induction false} PauseStoredAgain(env: Env, steps: seq<Node>, s: RunState, index: nat, all: seq<Report>,
                                            w: World, conts: seq<Cont>)
    requires Ready(env, steps) && index < |steps| && ContsOk(env, steps, conts, index, w.forked) && s.left > 0
    requires w.ctx.outputs == all && Plain(env, w.ctx.artifacts)
    requires !w.forked ==> Numbered(all + [FinalReport(s.uid, s.script)], 0, |w.log|)
    ensures Means(env, steps,
                  PauseFlow(env, Graph(steps), PausedReport(s.uid, s.script), s.(left := s.left - 1), index, all,
                            w.(answered := w.answered + 1), conts),
                  EndOf(all, PauseMeaning(env, steps, s, conts, index, w)))
  {
    PauseMeans(env, steps, s.(left := s.left - 1), index, all, w.(answered := w.answered + 1), conts);
    OneAnswerLess(env, steps, s, conts, index, w);
  }

  lemma {:induction false} OneAnswerLess(env: Env, steps: seq<Node>, s: RunState, conts: seq<Cont>, index: nat,
                                         w: World)
    requires ValidAll(steps) && index < |steps| && ValidConts(conts) && s.left > 0
    ensures PauseMeaning(env, steps, s.(left := s.left - 1), conts, index, w.(answered := w.answered + 1))
            == PauseMeaning(env, steps, s, conts, index, w)
  {
    assert Answer(s.(left := s.left - 1), w.(answered := w.answered + 1)) == Answer(s, w);
  }

  lemma {:induction false} ResumeAnswers(env: Env, steps: seq<Node>, st: Stored, past: History)
    requires ValidAll(steps) && st.stepIndex < |steps| && st.pending.left == 0
    requires RestoreConts(Graph(steps), st.continuations).Some?
    requires forall c :: c in RestoreConts(Graph(steps), st.continuations).value ==> Callable(c)
    ensures var report := FinalReport(st.pending.uid, st.pending.script);
            var w := World(Context(st.outputs, st.artifacts, st.loops), past.log, past.answered + 1, past.forked);
            Resume(env, steps, st, past)
            == if st.pending.script.succeeds then
                 RunConts(env, steps, RestoreConts(Graph(steps), st.continuations).value, AddOutput(w, report),
                          st.outputs + [report], st.stepIndex)
               else FlowFailed(StepFailed(report), w)
  {
  }

  lemma {:induction false} FailedAnswer(env: Env, steps: seq<Node>, s: RunState, index: nat, all: seq<Report>,
                                        w: World, conts: seq<Cont>)
    requires ValidAll(steps) && index < |steps| && ValidConts(conts) && s.left == 0 && !s.script.succeeds
    ensures EndOf(all, PauseMeaning(env, steps, s, conts, index, w))
            == FlowFailed(StepFailed(FinalReport(s.uid, s.script)), w.(answered := w.answered + 1))
  {
    var report := FinalReport(s.uid, s.script);
    var w' := w.(answered := w.answered + 1);
    NoneCompleted(w', [report]);
    assert [report][0].status == Failed;
    assert Answer(s, w) == Done([report], w');
    assert FailedOnly([report]) == [report] by { assert [report][1..] == []; }
  }

  lemma {:induction false} CompletedAnswer(env: Env, steps: seq<Node>, s: RunState, index: nat, all: seq<Report>,
                                           w: World, conts: seq<Cont>)
    requires Ready(env, steps) && index < |steps| && ContsOk(env, steps, conts, index, w.forked)
    requires s.left == 0 && s.script.succeeds && w.ctx.outputs == all && Plain(env, w.ctx.artifacts)
    requires !w.forked ==> s.uid < |w.log| && Numbered(all, 0, s.uid)
    requires forall c :: c in conts ==> Callable(c)
    ensures var report := FinalReport(s.uid, s.script);
            var w' := AddOutput(w.(answered := w.answered + 1), report);
            Means(env, steps, RunConts(env, steps, conts, w', all + [report], index),
                  EndOf(all, PauseMeaning(env, steps, s, conts, index, w)))
  {
    var report := FinalReport(s.uid, s.script);
    var w1 := w.(answered := w.answered + 1);
    var w' := AddOutput(w1, report);
    assert Publish(w1, [report]) == w' by { assert [report][1..] == []; }
    var answer := Answer(s, w);
    assert answer == Done([report], w') && [report][0].status == Completed;
    if !w.forked {
      AddNew(w1, report, report.uid);
    }
    RunContsMean(env, steps, conts, w', all + [report], index);
    var d := DirectConts(env, conts, w');
    ThenAssoc(answer, d, LaterSteps(env, steps, index, d.world));
    EndOfTaken(all, answer, Remaining(env, steps, index, conts, w'));
  }

  lemma {:induction false} LastOfNumbered(all: seq<Report>, r: Report, hi: nat)
    requires Numbered(all + [r], 0, hi)
    ensures Numbered(all, 0, r.uid) && r.uid < hi
  {
    var xs := all + [r];
    assert xs[|all|] == r;
    assert forall i :: 0 <= i < |all| ==> xs[i] == all[i];
  }

  // What StoredOk says, with the restored continuations at hand.
  ghost predicate Resumable(env: Env, steps: seq<Node>, st: Stored, past: History, conts: seq<Cont>) {
    && st.stepIndex < |steps| && RestoreConts(Graph(steps), st.continuations) == Some(conts)
    && ContsOk(env, steps, conts, st.stepIndex, past.forked) && Plain(env, st.artifacts)
    && (!past.forked ==> Numbered(st.outputs + [FinalReport(st.pending.uid, st.pending.script)], 0, |past.log|))
  }

  lemma {:induction false} PausedAgainMeans(env: Env, steps: seq<Node>, st: Stored, past: History, conts: seq<Cont>)
    requires Ready(env, steps) && Resumable(env, steps, st, past, conts) && st.pending.left > 0
    ensures Means(env, steps, Resume(env, steps, st, past),
                  EndOf(st.outputs, PauseMeaning(env, steps, st.pending, conts, st.stepIndex, ResumedFrom(st, past))))
  {
    ResumePausesAgain(env, steps, st, past);
    PauseStoredAgain(env, steps, st.pending, st.stepIndex, st.outputs, ResumedFrom(st, past), conts);
  }

  lemma {:induction false} FailedAnswerMeans(env: Env, steps: seq<Node>, st: Stored, past: History, conts: seq<Cont>)
    requires Ready(env, steps) && Resumable(env, steps, st, past, conts)
    requires st.pending.left == 0 && !st.pending.script.succeeds
    ensures Means(env, steps, Resume(env, steps, st, past),
                  EndOf(st.outputs, PauseMeaning(env, steps, st.pending, conts, st.stepIndex, ResumedFrom(st, past))))
  {
    var next := Resume(env, steps, st, past);
    RestoredCallable(steps, st.continuations);
    ResumeAnswers(env, steps, st, past);
    FailedAnswer(env, steps, st.pending, st.stepIndex, st.outputs, ResumedFrom(st, past), conts);
    EndMatchSame(next);
  }

  // A resume with the last answer runs the continuations from the world that the answer leaves.
  lemma {:induction false} ResumeRuns(env: Env, steps: seq<Node>, st: Stored, past: History, conts: seq<Cont>)
    requires ValidAll(steps) && st.stepIndex < |steps| && RestoreConts(Graph(steps), st.continuations) == Some(conts)
    requires st.pending.left == 0 && st.pending.script.succeeds
    ensures forall c :: c in conts ==> Callable(c)
    ensures var w, report := ResumedFrom(st, past), FinalReport(st.pending.uid, st.pending.script);
            Resume(env, steps, st, past)
            == RunConts(env, steps, conts, AddOutput(w.(answered := w.answered + 1), report),
                        st.outputs + [report], st.stepIndex)
  {
    RestoredCallable(steps, st.continuations);
    ResumeAnswers(env, steps, st, past);
  }

  lemma {:induction false} CompletedAnswerMeans(env: Env, steps: seq<Node>, st: Stored, past: History,
          conts: seq<Cont>)
    requires Ready(env, steps) && Resumable(env, steps, st, past, conts)
    requires st.pending.left == 0 && st.pending.script.succeeds
    ensures Means(env, steps, Resume(env, steps, st, past),
                  EndOf(st.outputs, PauseMeaning(env, steps, st.pending, conts, st.stepIndex, ResumedFrom(st, past))))
  {
    ResumeRuns(env, steps, st, past, conts);
    LastAnswerMeans(env, steps, st, past, conts);
  }

  lemma {:induction false} LastAnswerMeans(env: Env, steps: seq<Node>, st: Stored, past: History, conts: seq<Cont>)
    requires Ready(env, steps) && Resumable(env, steps, st, past, conts)
    requires st.pending.left == 0 && st.pending.script.succeeds && forall c :: c in conts ==> Callable(c)
    ensures var w, report := ResumedFrom(st, past), FinalReport(st.pending.uid, st.pending.script);
            Means(env, steps, RunConts(env, steps, conts, AddOutput(w.(answered := w.answered + 1), report),
                                       st.outputs + [report], st.stepIndex),
                  EndOf(st.outputs, PauseMeaning(env, steps, st.pending, conts, st.stepIndex, w)))
  {
    PendingIsLast(env, steps, st, past, conts);
    CompletedAnswer(env, steps, st.pending, st.stepIndex, st.outputs, ResumedFrom(st, past), conts);
  }

  lemma {:induction false} PendingIsLast(env: Env, steps: seq<Node>, st: Stored, past: History, conts: seq<Cont>)
    requires Resumable(env, steps, st, past, conts)
    ensures var w := ResumedFrom(st, past);
            && w.forked == past.forked && w.ctx.outputs == st.outputs && w.ctx.artifacts == st.artifacts
            && (!w.forked ==> st.pending.uid < |w.log| && Numbered(st.outputs, 0, st.pending.uid))
  {
    if !past.forked {
      LastOfNumbered(st.outputs, FinalReport(st.pending.uid, st.pending.script), |past.log|);
    }
  }

  /** Resuming changes nothing about what the run means; one more pause has been answered. */
  lemma {:induction false} ResumeMeans(env: Env, steps: seq<Node>, r: FlowResult)
    requires Ready(env, steps) && r.FlowPaused? && StoredOk(env, steps, r)
    ensures Means(env, steps, Resume(env, steps, r.stored, r.past), MeaningOf(env, steps, r))
  {
    var conts := RestoreConts(Graph(steps), r.stored.continuations).value;
    if r.stored.pending.left > 0 {
      PausedAgainMeans(env, steps, r.stored, r.past, conts);
    } else if r.stored.pending.script.succeeds {
      CompletedAnswerMeans(env, steps, r.stored, r.past, conts);
    } else {
      FailedAnswerMeans(env, steps, r.stored, r.past, conts);
    }
  }

  // ---- Whole runs -------------------------------------------------------------------------------

  // Keep answering: at most n resumes, as long as the flow is paused.
  function Drive(env: Env, steps: seq<Node>, r: FlowResult, n: nat): FlowResult
    requires ValidAll(steps)
    decreases n
  {
    if n == 0 || !r.FlowPaused? then r
    else Drive(env, steps, Resume(env, steps, r.stored, r.past), n - 1)
  }

  // A paused flow has at least one answer to come.
  lemma {:induction false} PausedNotDone(env: Env, steps: seq<Node>, r: FlowResult)
    requires Ready(env, steps) && r.FlowPaused? && StoredOk(env, steps, r)
    ensures r.past.answered < FinalWorld(MeaningOf(env, steps, r)).answered
  {
    var conts := RestoreConts(Graph(steps), r.stored.continuations).value;
    var s := r.stored.pending;
    var result := Result(PausedReport(s.uid, s.script), Some(s), conts);
    PublishGrows(StoredWorld(r).(answered := r.past.answered + s.left + 1), [FinalReport(s.uid, s.script)]);
    assert Answer(s, StoredWorld(r)).world.answered == r.past.answered + s.left + 1;
    var one := AnswerOne(env, result, StoredWorld(r));
    assert r.past.answered < one.world.answered;
    assert one.world.answered <= LaterSteps(env, steps, r.stored.stepIndex, one.world).world.answered by {
      ValidDrop(steps, r.stored.stepIndex + 1);
    }
  }

  // An invariant that every resume keeps and that bounds the answers is reached by an ended flow.
  lemma {:induction false} DriveEnds(env: Env, steps: seq<Node>, inv: FlowResult -> bool, r: FlowResult, bound: nat)
    returns (n: nat)
    requires ValidAll(steps) && inv(r) && AnsweredBy(r) <= bound
    requires forall x :: inv(x) && x.FlowPaused? ==>
               x.past.answered < bound && inv(Resume(env, steps, x.stored, x.past))
    ensures var f := Drive(env, steps, r, n);
            inv(f) && !f.FlowPaused? && AnsweredBy(f) == AnsweredBy(r) + n <= bound
    ensures forall k: nat :: k < n ==> Drive(env, steps, r, k).FlowPaused?
    decreases bound - AnsweredBy(r)
  {
    if !r.FlowPaused? {
      n := 0;
    } else {
      assert r.past.answered < bound;
      var r' := Resume(env, steps, r.stored, r.past);
      var m := DriveEnds(env, steps, inv, r', bound);
      n := m + 1;
      forall k: nat | k < n
        ensures Drive(env, steps, r, k).FlowPaused?
      {
        if k > 0 {
          assert Drive(env, steps, r, k) == Drive(env, steps, r', k - 1);
        }
      }
    }
  }

  // One resume brings the answer count one closer to the goal and keeps the meaning.
  lemma {:induction false} ResumeTowards(env: Env, steps: seq<Node>, r: FlowResult, goal: FlowResult)
    requires Ready(env, steps) && r.FlowPaused? && !goal.FlowPaused? && Means(env, steps, r, goal)
    ensures Means(env, steps, Resume(env, steps, r.stored, r.past), goal)
    ensures r.past.answered < FinalWorld(goal).answered
  {
    PausedNotDone(env, steps, r);
    ResumeMeans(env, steps, r);
    var r' := Resume(env, steps, r.stored, r.past);
    EndTrans(MeaningOf(env, steps, r'), MeaningOf(env, steps, r), goal);
  }

  lemma {:induction false} DriveMeans(env: Env, steps: seq<Node>, goal: FlowResult) returns (n: nat)
    requires Ready(env, steps) && !goal.FlowPaused? && Means(env, steps, Run(env, steps), goal)
    ensures var f := Drive(env, steps, Run(env, steps), n);
            !f.FlowPaused? && Means(env, steps, f, goal) && AnsweredBy(f) == n <= FinalWorld(goal).answered
    ensures forall k: nat :: k < n ==> Drive(env, steps, Run(env, steps), k).FlowPaused?
  {
    var inv := (x: FlowResult) => Means(env, steps, x, goal);
    forall x | inv(x) && x.FlowPaused?
      ensures x.past.answered < FinalWorld(goal).answered && inv(Resume(env, steps, x.stored, x.past))
    {
      ResumeTowards(env, steps, x, goal);
    }
    n := DriveEnds(env, steps, inv, Run(env, steps), FinalWorld(goal).answered);
  }

  lemma {:induction false} StartReady(env: Env, steps: seq<Node>)
    requires Ready(env, steps)
    ensures Means(env, steps, Run(env, steps), DirectFlow(env, steps))
  {
    assert steps[0..] == steps;
    RunTopMeans(env, steps, 0, START, []);
  }

  /** What every run of every flow keeps through any number of pauses, at any depth: it ends, after one
      resume for each of the pauses that were answered, and ends as the run in which every pause is
      answered on the spot. As long as that run executes no Parallel, nothing differs: reports, outputs,
      artifacts, loop counters, status, and the order of all starts and questions. After a Parallel only
      the order of the history may differ, and what callbacks write from it: nothing is started or asked
      more often; and if that run completes, reports have the same contents in the same order, every
      start and question happens exactly as often, the loop counters agree, and no pause is left out. */
  lemma {:induction false} ParallelKeepsSiblings(env: Env, steps: seq<Node>) returns (n: nat)
    requires ValidAll(steps) && SuitsAll(env, steps) && UniqueIds(Graph(steps)) && Tame(env)
    ensures var direct := DirectFlow(env, steps);
            var f := Drive(env, steps, Run(env, steps), n);
            && !direct.FlowPaused? && !f.FlowPaused?
            && (!direct.world.forked ==> f == direct && n == direct.world.answered)
            && (f.FlowCompleted? <==> direct.FlowCompleted?) && (FailedEmpty(f) <==> FailedEmpty(direct))
            && multiset(f.world.log) <= multiset(direct.world.log)
            && n <= direct.world.answered
            && (direct.FlowCompleted? ==>
                  && SameReports(f.reports, direct.reports)
                  && multiset(f.world.log) == multiset(direct.world.log)
                  && (forall x: string :: Count(f.world, x) == Count(direct.world, x))
                  && n == direct.world.answered)
    ensures forall k: nat :: k < n ==> Drive(env, steps, Run(env, steps), k).FlowPaused?
  {
    StartReady(env, steps);
    n := DriveMeans(env, steps, DirectFlow(env, steps));
  }

  /** Pause and resume is transparent: for every tree of Step, Condition, Router and Loop, every
      behaviour of its callbacks and runners (they may look at the context and at the whole
      history), and any number of pauses at any depth, resuming exactly as often as there are
      pauses ends with the reports, outputs, artifacts, loop counters, status and history of
      answering every pause in place, and every earlier resume ends paused. */
  lemma {:induction false} PauseAndResumeIsTransparent(env: Env, steps: seq<Node>)
    requires ValidAll(steps) && NoParallels(steps) && UniqueIds(Graph(steps)) && Tame(env)
    ensures var direct := DirectFlow(env, steps);
            && !direct.FlowPaused?
            && Drive(env, steps, Run(env, steps), FinalWorld(direct).answered) == direct
            && forall k: nat :: k < FinalWorld(direct).answered ==> Drive(env, steps, Run(env, steps), k).FlowPaused?
  {
    NoParallelsSuit(env, steps);
    var n := ParallelKeepsSiblings(env, steps);
  }
}
