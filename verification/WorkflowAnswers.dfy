/** Laws of the reference meaning: how results, continuations and published outputs compose. */
module WorkflowAnswers {
  import opened Common
  import opened WorkflowTree
  import opened WorkflowExec
  import opened WorkflowDirect

  // ---- Shape of result lists --------------------------------------------------------------------

  // Completed results, then nothing, one paused result, or failures only.
  predicate Normal(results: seq<Result>) {
    results == []
    || (results[0].report.status == Completed && Normal(results[1..]))
    || (results[0].report.status == Paused && |results| == 1)
    || forall i :: 0 <= i < |results| ==> results[i].report.status == Failed
  }

  lemma {:induction false} HasStatusSplit(xs: seq<Result>, ys: seq<Result>, s: Status)
    ensures HasStatus(xs + ys, s) <==> HasStatus(xs, s) || HasStatus(ys, s)
  {
    if HasStatus(xs, s) {
      var i :| 0 <= i < |xs| && xs[i].report.status == s;
      assert (xs + ys)[i].report.status == s;
    }
    if HasStatus(ys, s) {
      var i :| 0 <= i < |ys| && ys[i].report.status == s;
      assert (xs + ys)[|xs| + i].report.status == s;
    }
  }

  lemma {:induction false} HasStatusHead(results: seq<Result>, s: Status)
    requires results != []
    ensures HasStatus(results, s) <==> results[0].report.status == s || HasStatus(results[1..], s)
  {
    assert results == [results[0]] + results[1..];
    HasStatusSplit([results[0]], results[1..], s);
    assert HasStatus([results[0]], s) <==> [results[0]][0].report.status == s;
  }

  lemma {:induction false} NormalPausedNotFailed(results: seq<Result>)
    requires Normal(results) && HasStatus(results, Paused)
    ensures !HasStatus(results, Failed)
  {
    HasStatusHead(results, Paused);
    HasStatusHead(results, Failed);
    if results[0].report.status == Completed {
      NormalPausedNotFailed(results[1..]);
    }
  }

  lemma {:induction false} AnyFailedSplit(xs: seq<Report>, ys: seq<Report>)
    ensures AnyFailed(xs + ys) <==> AnyFailed(xs) || AnyFailed(ys)
  {
    if AnyFailed(xs) {
      var i :| 0 <= i < |xs| && xs[i].status == Failed;
      assert (xs + ys)[i].status == Failed;
    }
    if AnyFailed(ys) {
      var i :| 0 <= i < |ys| && ys[i].status == Failed;
      assert (xs + ys)[|xs| + i].status == Failed;
    }
  }

  lemma {:induction false} NormalAppend(xs: seq<Result>, ys: seq<Result>)
    requires Normal(xs) && Normal(ys) && !ShouldStop(xs)
    ensures Normal(xs + ys)
  {
    if xs == [] {
      assert xs + ys == ys;
    } else {
      HasStatusHead(xs, Paused);
      HasStatusHead(xs, Failed);
      assert (xs + ys)[1..] == xs[1..] + ys;
      NormalAppend(xs[1..], ys);
    }
  }

  lemma {:induction false} DeferNormal(results: seq<Result>, conts: seq<Cont>)
    ensures Normal(DeferAfterPause(results, conts))
  {
    if HasStatus(results, Failed) {
      FailuresFail(results);
    } else {
      DeferPausedNormal(results, conts);
    }
  }

  lemma {:induction false} FailuresFail(results: seq<Result>)
    ensures forall i :: 0 <= i < |FailuresOf(results)| ==> FailuresOf(results)[i].report.status == Failed
    ensures HasStatus(results, Failed) ==> FailuresOf(results) != []
  {
    if results != [] {
      HasStatusHead(results, Failed);
      FailuresFail(results[1..]);
    }
  }

  lemma {:induction false} DeferPausedNormal(results: seq<Result>, conts: seq<Cont>)
    requires !HasStatus(results, Failed)
    ensures Normal(DeferPaused(results, conts))
  {
    if results != [] {
      HasStatusHead(results, Failed);
      if results[0].report.status != Paused {
        DeferPausedNormal(results[1..], conts);
        assert DeferPaused(results, conts)[1..] == DeferPaused(results[1..], conts);
      }
    }
  }

  lemma {:induction false} ValidConcat(xs: seq<Result>, ys: seq<Result>)
    ensures ValidResults(xs + ys) <==> ValidResults(xs) && ValidResults(ys)
    ensures ResultsWrites(xs + ys) == ResultsWrites(xs) + ResultsWrites(ys)
  {
    if xs == [] {
      assert xs + ys == ys;
    } else {
      assert (xs + ys)[1..] == xs[1..] + ys;
      ValidConcat(xs[1..], ys);
    }
  }

  lemma {:induction false} ValidContsConcat(xs: seq<Cont>, ys: seq<Cont>)
    ensures ValidConts(xs + ys) <==> ValidConts(xs) && ValidConts(ys)
    ensures ContsWrites(xs + ys) == ContsWrites(xs) + ContsWrites(ys)
  {
    if xs == [] {
      assert xs + ys == ys;
    } else {
      assert (xs + ys)[1..] == xs[1..] + ys;
      ValidContsConcat(xs[1..], ys);
    }
  }

  lemma {:induction false} OneCont(c: Cont)
    ensures ValidConts([c]) <==> ValidCont(c)
    ensures ContsWrites([c]) == ContWrites(c)
  {
    assert [c][1..] == [];
  }

  lemma {:induction false} OneResult(r: Result)
    requires CarriesState(r)
    ensures ValidResults([r]) <==> ValidConts(r.conts)
    ensures ResultsWrites([r]) == ContsWrites(r.conts)
  {
    assert [r][1..] == [];
  }

  lemma {:induction false} TailValid(later: seq<Result>)
    requires ValidResults(later)
    ensures ValidConts(Tail(later))
  {
    OneCont(OutCont(later));
  }

  lemma {:induction false} FailuresValid(results: seq<Result>)
    requires ValidResults(results)
    ensures ValidResults(FailuresOf(results))
  {
    if results != [] {
      FailuresValid(results[1..]);
      if results[0].report.status == Failed {
        OneResult(results[0]);
        ValidConcat([results[0]], FailuresOf(results[1..]));
      } else {
        assert FailuresOf(results) == FailuresOf(results[1..]);
      }
    }
  }

  lemma {:induction false} DeferKeepsPause(results: seq<Result>, conts: seq<Cont>)
    requires HasStatus(results, Paused)
    ensures HasStatus(DeferPaused(results, conts), Paused)
  {
    HasStatusHead(results, Paused);
    var deferred := DeferPaused(results, conts);
    if results[0].report.status != Paused {
      DeferKeepsPause(results[1..], conts);
      HasStatusHead(deferred, Paused);
      assert deferred[1..] == DeferPaused(results[1..], conts);
    } else {
      assert deferred[0].report.status == Paused;
    }
  }

  lemma {:induction false} DeferPausedValid(results: seq<Result>, conts: seq<Cont>)
    requires ValidResults(results) && ValidConts(conts)
    ensures ValidResults(DeferPaused(results, conts))
  {
    if results != [] {
      if results[0].report.status != Paused {
        DeferPausedValid(results[1..], conts);
        OneResult(results[0]);
        ValidConcat([results[0]], DeferPaused(results[1..], conts));
      } else {
        TailValid(results[1..]);
        ValidContsConcat(results[0].conts, Tail(results[1..]));
        ValidContsConcat(results[0].conts + Tail(results[1..]), conts);
        OneResult(results[0].(conts := results[0].conts + Tail(results[1..]) + conts));
      }
    }
  }

  lemma {:induction false} DeferValid(results: seq<Result>, conts: seq<Cont>)
    requires ValidResults(results) && ValidConts(conts)
    ensures ValidResults(DeferAfterPause(results, conts))
  {
    FailuresValid(results);
    DeferPausedValid(results, conts);
  }

  // Every run leaves a valid result list in normal form.
  lemma {:induction false} ExecuteShape(env: Env, node: Node, w: World)
    requires Valid(node)
    ensures var r := Execute(env, node, w).results; Normal(r) && ValidResults(r)
    decreases node
  {
    match node
    case Step(id) =>
      OneResult(Execute(env, node, w).results[0]);
    case Parallel(_, steps) =>
      var groups := ExecuteBranches(env, steps, w.(forked := true)).results;
      BranchesShape(env, steps, w.(forked := true));
      DeferNormal(groups, []);
      DeferValid(groups, []);
    case Condition(id, ifTrue, ifFalse) =>
      var w' := Call(env, id, Asked(id), w);
      if env.ask(id, w.ctx, w.log) {
        SequenceShape(env, ifTrue, w');
      } else {
        SequenceShape(env, ifFalse, w');
      }
    case Router(id, routes) =>
      var route := FindRoute(routes, env.select(id, w.ctx, w.log));
      if route.Some? {
        ValidRouteAt(routes, route.value);
        SequenceShape(env, routes[route.value].steps, Call(env, id, Asked(id), w));
      }
    case Loop(_, _, _, _) =>
      IterationsShape(env, node, 0, false, EnterLoop(node, w));
  }

  lemma {:induction false} BranchesShape(env: Env, steps: seq<Node>, w: World)
    requires ValidAll(steps)
    ensures ValidResults(ExecuteBranches(env, steps, w).results)
    decreases steps
  {
    if steps != [] {
      var first := Execute(env, steps[0], w);
      ExecuteShape(env, steps[0], w);
      BranchesShape(env, steps[1..], first.world);
      ValidConcat(first.results, ExecuteBranches(env, steps[1..], first.world).results);
    }
  }

  lemma {:induction false} SequenceShape(env: Env, steps: seq<Node>, w: World)
    requires ValidAll(steps)
    ensures var r := ExecuteSequence(env, steps, w).results; Normal(r) && ValidResults(r)
    decreases steps
  {
    if steps != [] {
      var first := Execute(env, steps[0], w);
      var w' := Publish(first.world, Reports(first.results));
      ExecuteShape(env, steps[0], w);
      var conts := if steps[1..] == [] then [] else [SeqCont(steps[1..])];
      if HasStatus(first.results, Paused) {
        if steps[1..] != [] { OneCont(conts[0]); }
        DeferNormal(first.results, conts);
        DeferValid(first.results, conts);
      } else if !HasStatus(first.results, Failed) {
        SequenceShape(env, steps[1..], w');
        NormalAppend(first.results, ExecuteSequence(env, steps[1..], w').results);
        ValidConcat(first.results, ExecuteSequence(env, steps[1..], w').results);
      }
    }
  }

  lemma {:induction false} BodyShape(env: Env, loop: Node, index: nat, w: World)
    requires loop.Loop? && Valid(loop) && index <= |loop.steps|
    ensures var r := ExecuteBody(env, loop, index, w).results; Normal(r) && ValidResults(r)
    decreases loop, 0, |loop.steps| - index
  {
    if index < |loop.steps| {
      ValidAllAt(loop.steps, index);
      var first := Execute(env, loop.steps[index], w);
      var w' := Publish(first.world, Reports(first.results));
      ExecuteShape(env, loop.steps[index], w);
      var conts := [LoopCont(loop, index + 1, None)];
      if HasStatus(first.results, Paused) {
        OneCont(conts[0]);
        DeferNormal(first.results, conts);
        DeferValid(first.results, conts);
      } else if !HasStatus(first.results, Failed) {
        BodyShape(env, loop, index + 1, w');
        NormalAppend(first.results, ExecuteBody(env, loop, index + 1, w').results);
        ValidConcat(first.results, ExecuteBody(env, loop, index + 1, w').results);
      }
    }
  }

  lemma {:induction false} IterationsShape(env: Env, loop: Node, start: nat, started: bool, w: World)
    requires loop.Loop? && Valid(loop) && start <= |loop.steps|
    ensures var r := RunIterations(env, loop, start, started, w).results; Normal(r) && ValidResults(r)
    decreases loop, 1, IterationsLeft(loop, started, w), 0
  {
    if started || Count(w, loop.name) < loop.limit {
      BodyShape(env, loop, start, BeginIteration(loop, started, w));
      AfterBodyShape(env, loop, ExecuteBody(env, loop, start, BeginIteration(loop, started, w)));
    }
  }

  lemma {:induction false} AfterBodyShape(env: Env, loop: Node, body: Out)
    requires loop.Loop? && Valid(loop) && Normal(body.results) && ValidResults(body.results)
    ensures var r := AfterBody(env, loop, body).results; Normal(r) && ValidResults(r)
    decreases loop, 1, IterationsLeft(loop, false, body.world), 1
  {
    if !ShouldStop(body.results) && !env.ask(loop.id, body.world.ctx, body.world.log) {
      var w' := Call(env, loop.id, Asked(loop.id), body.world);
      IterationsShape(env, loop, 0, false, w');
      NormalAppend(body.results, RunIterations(env, loop, 0, false, w').results);
      ValidConcat(body.results, RunIterations(env, loop, 0, false, w').results);
    }
  }

  lemma {:induction false} ContShape(env: Env, c: Cont, w: World)
    requires ValidCont(c)
    ensures ValidResults(ExecuteCont(env, c, w).results)
    ensures !c.OutCont? ==> Normal(ExecuteCont(env, c, w).results)
  {
    match c
    case SeqCont(steps) => SequenceShape(env, steps, w);
    case LoopCont(loop, start, previous) => IterationsShape(env, loop, start, true, Renamed(loop, previous, w));
    case OutCont(_) =>
  }

  // ---- Published outputs ------------------------------------------------------------------------

  predicate Has(w: World, report: Report) {
    report.status == Completed ==> exists i :: 0 <= i < |w.ctx.outputs| && w.ctx.outputs[i].uid == report.uid
  }

  // Every completed report is among the outputs already.
  predicate HasAll(w: World, reports: seq<Report>) {
    forall j :: 0 <= j < |reports| ==> Has(w, reports[j])
  }

  lemma {:induction false} HasStays(w: World, w': World, names: set<string>, reports: seq<Report>)
    requires HasAll(w, reports) && Grows(w, w', names)
    ensures HasAll(w', reports)
  {
    forall j | 0 <= j < |reports|
      ensures Has(w', reports[j])
    {
      assert Has(w, reports[j]);
      if reports[j].status == Completed {
        var i :| 0 <= i < |w.ctx.outputs| && w.ctx.outputs[i].uid == reports[j].uid;
        assert w'.ctx.outputs[..|w.ctx.outputs|][i] == w'.ctx.outputs[i];
      }
    }
  }

  lemma {:induction false} PublishHas(w: World, reports: seq<Report>)
    ensures HasAll(Publish(w, reports), reports)
    decreases |reports|
  {
    if reports != [] {
      var w' := if reports[0].status == Completed then AddOutput(w, reports[0]) else w;
      if reports[0].status == Completed && w' != w {
        assert w'.ctx.outputs[|w.ctx.outputs|] == reports[0];
      }
      assert HasAll(w', [reports[0]]);
      PublishHas(w', reports[1..]);
      PublishGrows(w', reports[1..]);
      HasStays(w', Publish(w, reports), {}, [reports[0]]);
      forall j | 0 <= j < |reports|
        ensures Has(Publish(w, reports), reports[j])
      {
        if j > 0 {
          assert reports[j] == reports[1..][j - 1];
        } else {
          assert reports[0] == [reports[0]][0];
        }
      }
    }
  }

  lemma {:induction false} PublishAgain(w: World, reports: seq<Report>)
    requires HasAll(w, reports)
    ensures Publish(w, reports) == w
    decreases |reports|
  {
    if reports != [] {
      assert Has(w, reports[0]);
      forall j | 0 <= j < |reports[1..]|
        ensures Has(w, reports[1..][j])
      {
        assert reports[1..][j] == reports[j + 1];
      }
      PublishAgain(w, reports[1..]);
    }
  }

  lemma {:induction false} HasBoth(w: World, xs: seq<Report>, ys: seq<Report>)
    requires HasAll(w, xs) && HasAll(w, ys)
    ensures HasAll(w, xs + ys)
  {
  }

  lemma {:induction false} PublishSplit(w: World, xs: seq<Report>, ys: seq<Report>)
    ensures Publish(w, xs + ys) == Publish(Publish(w, xs), ys)
    decreases |xs|
  {
    if xs == [] {
      assert xs + ys == ys;
    } else {
      var w' := if xs[0].status == Completed then AddOutput(w, xs[0]) else w;
      assert (xs + ys)[1..] == xs[1..] + ys;
      PublishSplit(w', xs[1..], ys);
    }
  }

  // Sequences, loops and continuations have published their own reports when they return.
  lemma {:induction false} SequencePublishes(env: Env, steps: seq<Node>, w: World)
    requires ValidAll(steps)
    ensures var d := DirectSequence(env, steps, w); HasAll(d.world, d.reports)
    decreases steps
  {
    if steps != [] {
      var first := Published(Direct(env, steps[0], w));
      PublishHas(Direct(env, steps[0], w).world, first.reports);
      if !AnyFailed(first.reports) {
        var rest := DirectSequence(env, steps[1..], first.world);
        SequencePublishes(env, steps[1..], first.world);
        HasStays(first.world, rest.world, WritesAll(steps[1..]), first.reports);
        HasBoth(rest.world, first.reports, rest.reports);
      }
    }
  }

  lemma {:induction false} IterationsPublish(env: Env, loop: Node, start: nat, started: bool, w: World)
    requires loop.Loop? && Valid(loop) && start <= |loop.steps|
    ensures var d := DirectIterations(env, loop, start, started, w); HasAll(d.world, d.reports)
    decreases IterationsLeft(loop, started, w), 0
  {
    if started || Count(w, loop.name) < loop.limit {
      ValidDrop(loop.steps, start);
      SequencePublishes(env, loop.steps[start..], BeginIteration(loop, started, w));
      AfterIterationPublishes(env, loop, DirectSequence(env, loop.steps[start..], BeginIteration(loop, started, w)));
    }
  }

  lemma {:induction false} AfterIterationPublishes(env: Env, loop: Node, body: Done)
    requires loop.Loop? && Valid(loop) && HasAll(body.world, body.reports)
    ensures var d := AfterIteration(env, loop, body); HasAll(d.world, d.reports)
    decreases IterationsLeft(loop, false, body.world), 1
  {
    var w' := Call(env, loop.id, Asked(loop.id), body.world);
    HasStays(body.world, w', {}, body.reports);
    if !AnyFailed(body.reports) && !env.ask(loop.id, body.world.ctx, body.world.log) {
      var rest := DirectIterations(env, loop, 0, false, w');
      IterationsPublish(env, loop, 0, false, w');
      HasStays(w', rest.world, Writes(loop), body.reports);
      HasBoth(rest.world, body.reports, rest.reports);
    }
  }

  lemma {:induction false} ContsPublish(env: Env, cs: seq<Cont>, w: World)
    requires ValidConts(cs)
    ensures var d := DirectConts(env, cs, w); HasAll(d.world, d.reports)
    decreases cs
  {
    if cs != [] {
      var first := Published(DirectCont(env, cs[0], w));
      PublishHas(DirectCont(env, cs[0], w).world, first.reports);
      if !AnyFailed(first.reports) {
        var rest := DirectConts(env, cs[1..], first.world);
        ContsPublish(env, cs[1..], first.world);
        HasStays(first.world, rest.world, ContsWrites(cs[1..]), first.reports);
        HasBoth(rest.world, first.reports, rest.reports);
      }
    }
  }

  lemma {:induction false} AnswerOnePublishes(env: Env, result: Result, w: World)
    requires CarriesState(result)
    requires ValidConts(result.conts)
    ensures var d := AnswerOne(env, result, w); HasAll(d.world, d.reports)
  {
    if result.report.status != Paused {
      PublishHas(w, [result.report]);
    } else {
      var s := result.state.value;
      var answer := Answer(s, w);
      PublishHas(w.(answered := w.answered + s.left + 1), answer.reports);
      if !AnyFailed(answer.reports) {
        var rest := DirectConts(env, result.conts, answer.world);
        ContsPublish(env, result.conts, answer.world);
        HasStays(answer.world, rest.world, ContsWrites(result.conts), answer.reports);
        HasBoth(rest.world, answer.reports, rest.reports);
      }
    }
  }

  lemma {:induction false} AnswersPublish(env: Env, results: seq<Result>, w: World)
    requires ValidResults(results)
    ensures var d := AnswerAll(env, results, w); HasAll(d.world, d.reports)
    decreases |results|
  {
    if results != [] {
      var first := AnswerOne(env, results[0], w);
      AnswerOnePublishes(env, results[0], w);
      if !AnyFailed(first.reports) {
        var rest := AnswerAll(env, results[1..], first.world);
        AnswersPublish(env, results[1..], first.world);
        HasStays(first.world, rest.world, ResultsWrites(results[1..]), first.reports);
        HasBoth(rest.world, first.reports, rest.reports);
      }
    }
  }

  // Publishing the reports once more changes nothing.
  lemma {:induction false} PublishedContIsCont(env: Env, c: Cont, w: World)
    requires ValidCont(c)
    ensures Published(DirectCont(env, c, w)) == DirectCont(env, c, w)
  {
    var d := DirectCont(env, c, w);
    match c {
      case SeqCont(steps) => SequencePublishes(env, steps, w);
      case LoopCont(loop, start, previous) => IterationsPublish(env, loop, start, true, Renamed(loop, previous, w));
      case OutCont(outputs) => AnswersPublish(env, outputs, w);
    }
    PublishAgain(d.world, d.reports);
  }

  // ---- Composition ------------------------------------------------------------------------------

  // `k` is what happens after `d`; a failure in `d` means it never happens.
  function Then(d: Done, k: Done): Done {
    if AnyFailed(d.reports) then d else Prepend(d.reports, k)
  }

  lemma {:induction false} ThenAssoc(a: Done, b: Done, c: Done)
    ensures Then(a, Then(b, c)) == Then(Then(a, b), c)
  {
    AnyFailedSplit(a.reports, b.reports);
    assert a.reports + (b.reports + c.reports) == (a.reports + b.reports) + c.reports;
  }

  lemma {:induction false} AnswerAllSplit(env: Env, xs: seq<Result>, ys: seq<Result>, w: World)
    requires ValidResults(xs) && ValidResults(ys)
    ensures ValidResults(xs + ys)
    ensures var a := AnswerAll(env, xs, w);
            AnswerAll(env, xs + ys, w) == Then(a, AnswerAll(env, ys, a.world))
    decreases |xs|
  {
    ValidConcat(xs, ys);
    var a := AnswerAll(env, xs, w);
    if xs == [] {
      assert xs + ys == ys;
      var d := AnswerAll(env, ys, w);
      assert [] + d.reports == d.reports;
    } else {
      var first := AnswerOne(env, xs[0], w);
      assert (xs + ys)[1..] == xs[1..] + ys;
      if !AnyFailed(first.reports) {
        AnswerAllSplit(env, xs[1..], ys, first.world);
        var rest := AnswerAll(env, xs[1..], first.world);
        ThenAssoc(first, rest, AnswerAll(env, ys, rest.world));
      }
    }
  }

  lemma {:induction false} DirectContsSplit(env: Env, xs: seq<Cont>, ys: seq<Cont>, w: World)
    requires ValidConts(xs) && ValidConts(ys)
    ensures ValidConts(xs + ys)
    ensures var d := DirectConts(env, xs, w);
            DirectConts(env, xs + ys, w) == Then(d, DirectConts(env, ys, d.world))
    decreases |xs|
  {
    ValidContsConcat(xs, ys);
    if xs == [] {
      assert xs + ys == ys;
      var d := DirectConts(env, ys, w);
      assert [] + d.reports == d.reports;
    } else {
      var first := Published(DirectCont(env, xs[0], w));
      assert (xs + ys)[1..] == xs[1..] + ys;
      if !AnyFailed(first.reports) {
        DirectContsSplit(env, xs[1..], ys, first.world);
        var rest := DirectConts(env, xs[1..], first.world);
        ThenAssoc(first, rest, DirectConts(env, ys, rest.world));
      }
    }
  }

  lemma {:induction false} DirectContsOne(env: Env, c: Cont, w: World)
    requires ValidCont(c)
    ensures DirectConts(env, [c], w) == DirectCont(env, c, w)
  {
    PublishedContIsCont(env, c, w);
    var d := DirectCont(env, c, w);
    assert [c][1..] == [];
    assert d.reports + [] == d.reports;
  }

  // Publishing completed results before they are taken makes no difference.
  lemma {:induction false} PublishEarly(env: Env, results: seq<Result>, w: World)
    requires ValidResults(results) && Normal(results)
    ensures AnswerAll(env, results, Publish(w, Reports(results))) == AnswerAll(env, results, w)
    decreases |results|
  {
    if results != [] {
      var h := results[0].report;
      var p := Publish(w, Reports(results));
      assert Reports(results)[1..] == Reports(results[1..]);
      if h.status == Completed {
        var w' := AddOutput(w, h);
        assert Publish(w, [h]) == w' by { assert [h][1..] == []; }
        PublishEarly(env, results[1..], w');
        assert p == Publish(w', Reports(results[1..]));
        PublishHas(w, Reports(results));
        assert Has(p, Reports(results)[0]);
        assert HasAll(p, [h]);
        PublishAgain(p, [h]);
      } else {
        NoneCompleted(w, Reports(results));
      }
    }
  }

  lemma {:induction false} NoneCompleted(w: World, reports: seq<Report>)
    requires forall i :: 0 <= i < |reports| ==> reports[i].status != Completed
    ensures Publish(w, reports) == w
    decreases |reports|
  {
    if reports != [] {
      forall i | 0 <= i < |reports[1..]| ensures reports[1..][i].status != Completed {
        assert reports[1..][i] == reports[i + 1];
      }
      NoneCompleted(w, reports[1..]);
    }
  }

  // Deferring keeps the meaning: the later results and the continuations still happen, in order.
  lemma {:induction false} DeferredMeaning(env: Env, results: seq<Result>, conts: seq<Cont>, w: World)
    requires ValidResults(results) && ValidConts(conts) && !HasStatus(results, Failed)
    ensures ValidResults(DeferPaused(results, conts))
    ensures var a := AnswerAll(env, results, w);
            AnswerAll(env, DeferPaused(results, conts), w)
            == if HasStatus(results, Paused) then Then(a, DirectConts(env, conts, a.world)) else a
    decreases |results|
  {
    DeferPausedValid(results, conts);
    if results != [] {
      HasStatusHead(results, Failed);
      HasStatusHead(results, Paused);
      if results[0].report.status != Paused {
        var first := AnswerOne(env, results[0], w);
        DeferredMeaning(env, results[1..], conts, first.world);
        var deferred := DeferPaused(results, conts);
        assert deferred[0] == results[0] && deferred[1..] == DeferPaused(results[1..], conts);
        var rest := AnswerAll(env, results[1..], first.world);
        ThenAssoc(first, rest, DirectConts(env, conts, rest.world));
      } else {
        DeferredPause(env, results[0], results[1..], conts, w);
      }
    }
  }

  lemma {:induction false} TailMeaning(env: Env, later: seq<Result>, w: World)
    requires ValidResults(later)
    ensures ValidConts(Tail(later))
    ensures DirectConts(env, Tail(later), w) == AnswerAll(env, later, w)
  {
    if later != [] {
      OneCont(OutCont(later));
      DirectContsOne(env, OutCont(later), w);
    }
  }

  lemma {:induction false} ThreeConts(env: Env, own: seq<Cont>, later: seq<Result>, conts: seq<Cont>, w: World)
    requires ValidConts(own) && ValidResults(later) && ValidConts(conts)
    ensures ValidConts(own + Tail(later) + conts)
    ensures var d := DirectConts(env, own, w);
            var r := AnswerAll(env, later, d.world);
            DirectConts(env, own + Tail(later) + conts, w)
            == Then(d, Then(r, DirectConts(env, conts, r.world)))
  {
    var d := DirectConts(env, own, w);
    var r := AnswerAll(env, later, d.world);
    TailMeaning(env, later, d.world);
    DirectContsSplit(env, own, Tail(later), w);
    DirectContsSplit(env, own + Tail(later), conts, w);
    ThenAssoc(d, r, DirectConts(env, conts, r.world));
  }

  lemma {:induction false} AnswerAllOne(env: Env, result: Result, w: World)
    requires CarriesState(result)
    requires ValidConts(result.conts)
    ensures ValidResults([result]) && AnswerAll(env, [result], w) == AnswerOne(env, result, w)
  {
    assert [result][1..] == [];
    var one := AnswerOne(env, result, w);
    assert one.reports + [] == one.reports;
  }

  lemma {:induction false} DeferredPause(env: Env, result: Result, later: seq<Result>, conts: seq<Cont>, w: World)
    requires result.report.status == Paused && CarriesState(result) && ValidConts(result.conts)
    requires ValidResults(later) && ValidConts(conts)
    ensures var taken := result.(conts := result.conts + Tail(later) + conts);
            var a := AnswerAll(env, [result] + later, w);
            && ValidResults([taken])
            && AnswerAll(env, [taken], w) == Then(a, DirectConts(env, conts, a.world))
  {
    var taken := result.(conts := result.conts + Tail(later) + conts);
    var answer := Answer(result.state.value, w);
    var own := DirectConts(env, result.conts, answer.world);
    var rest := AnswerAll(env, later, own.world);
    ThreeConts(env, result.conts, later, conts, answer.world);
    AnswerAllOne(env, taken, w);
    AnswerAllOne(env, result, w);
    AnswerAllSplit(env, [result], later, w);
    if !AnyFailed(answer.reports) {
      var after := DirectConts(env, conts, rest.world);
      ThenAssoc(answer, own, Then(rest, after));
      ThenAssoc(Then(answer, own), rest, after);
    }
  }
}
