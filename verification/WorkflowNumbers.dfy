/** As long as no Parallel has been executed, the published outputs are exactly the completed reports
    in order, so a context can be rebuilt from the reports of the run. */
module WorkflowNumbers {
  import opened Common
  import opened WorkflowTree
  import opened WorkflowExec
  import opened WorkflowDirect
  import opened WorkflowAnswers
  import opened WorkflowScope

  function CompletedOf(reports: seq<Report>): seq<Report> {
    if reports == [] then []
    else (if reports[0].status == Completed then [reports[0]] else []) + CompletedOf(reports[1..])
  }

  lemma {:induction false} CompletedSplit(xs: seq<Report>, ys: seq<Report>)
    ensures CompletedOf(xs + ys) == CompletedOf(xs) + CompletedOf(ys)
  {
    if xs == [] {
      assert xs + ys == ys;
    } else {
      assert (xs + ys)[1..] == xs[1..] + ys;
      CompletedSplit(xs[1..], ys);
      var head := if xs[0].status == Completed then [xs[0]] else [];
      assert head + (CompletedOf(xs[1..]) + CompletedOf(ys)) == (head + CompletedOf(xs[1..])) + CompletedOf(ys);
    }
  }

  // Numbers increase and lie in [lo, hi).
  predicate Numbered(reports: seq<Report>, lo: nat, hi: nat) {
    && (forall i :: 0 <= i < |reports| ==> lo <= reports[i].uid < hi)
    && (forall i, j :: 0 <= i < j < |reports| ==> reports[i].uid < reports[j].uid)
  }

  lemma {:induction false} NumberedConcat(xs: seq<Report>, ys: seq<Report>, lo: nat, mid: nat, hi: nat)
    requires Numbered(xs, lo, mid) && Numbered(ys, mid, hi) && lo <= mid <= hi
    ensures Numbered(xs + ys, lo, hi)
  {
  }

  lemma {:induction false} NumberedTail(h: Report, rest: seq<Report>, lo: nat, hi: nat)
    requires Numbered([h] + rest, lo, hi)
    ensures lo <= h.uid < hi && Numbered(rest, h.uid + 1, hi)
  {
    var all := [h] + rest;
    assert all[0] == h;
    forall i | 0 <= i < |rest|
      ensures rest[i] == all[i + 1] && h.uid < rest[i].uid < hi
    {
    }
  }

  lemma {:induction false} AddNew(w: World, r: Report, lo: nat)
    requires Numbered(w.ctx.outputs, 0, lo) && lo <= r.uid
    ensures AddOutput(w, r).ctx.outputs == w.ctx.outputs + [r]
    ensures Numbered(AddOutput(w, r).ctx.outputs, 0, r.uid + 1)
  {
  }

  // Publishing new reports appends the completed ones.
  lemma {:induction false} PublishNew(w: World, reports: seq<Report>, lo: nat, hi: nat)
    requires Numbered(w.ctx.outputs, 0, lo) && Numbered(CompletedOf(reports), lo, hi)
    ensures Publish(w, reports).ctx.outputs == w.ctx.outputs + CompletedOf(reports)
    decreases |reports|, 0
  {
    if reports != [] {
      var h, rest := reports[0], CompletedOf(reports[1..]);
      if h.status == Completed {
        PublishNewHead(w, h, reports[1..], lo, hi);
      } else {
        assert CompletedOf(reports) == rest;
        PublishNew(w, reports[1..], lo, hi);
      }
    }
  }

  lemma {:induction false} PublishNewHead(w: World, h: Report, reports: seq<Report>, lo: nat, hi: nat)
    requires h.status == Completed
    requires Numbered(w.ctx.outputs, 0, lo) && Numbered([h] + CompletedOf(reports), lo, hi)
    ensures Publish(AddOutput(w, h), reports).ctx.outputs == w.ctx.outputs + ([h] + CompletedOf(reports))
    decreases |reports|, 1
  {
    NumberedTail(h, CompletedOf(reports), lo, hi);
    AddNew(w, h, lo);
    PublishNew(AddOutput(w, h), reports, h.uid + 1, hi);
    assert (w.ctx.outputs + [h]) + CompletedOf(reports) == w.ctx.outputs + ([h] + CompletedOf(reports));
  }

  lemma {:induction false} CompletedNumbered(reports: seq<Report>, lo: nat, hi: nat)
    requires Numbered(reports, lo, hi)
    ensures Numbered(CompletedOf(reports), lo, hi)
  {
    if reports != [] {
      var h, rest := reports[0], reports[1..];
      assert reports == [h] + rest;
      NumberedTail(h, rest, lo, hi);
      CompletedNumbered(rest, h.uid + 1, hi);
      assert Numbered([h], lo, h.uid + 1);
      NumberedConcat([h], CompletedOf(rest), lo, h.uid + 1, hi);
      NumberedConcat([], CompletedOf(rest), lo, h.uid + 1, hi);
      assert [] + CompletedOf(rest) == CompletedOf(rest);
    }
  }

  // The reports of a run from w are new; the completed ones are published, or none is yet.
  ghost predicate Appended(w: World, e: Out, published: bool) {
    var rs := Reports(e.results);
    && |w.log| <= |e.world.log|
    && Numbered(rs, |w.log|, |e.world.log|)
    && e.world.ctx.outputs == w.ctx.outputs + if published then CompletedOf(rs) else []
  }

  ghost predicate Tidy(w: World) {
    Numbered(w.ctx.outputs, 0, |w.log|)
  }

  // Publishing once more after a run completes the list, whether or not it was published already.
  lemma {:induction false} PublishAppended(w: World, e: Out, published: bool)
    requires Tidy(w) && Appended(w, e, published)
    ensures var p := Publish(e.world, Reports(e.results));
            p.ctx.outputs == w.ctx.outputs + CompletedOf(Reports(e.results)) && Tidy(p) && p.log == e.world.log
  {
    var rs := Reports(e.results);
    CompletedNumbered(rs, |w.log|, |e.world.log|);
    if published {
      PublishedAlready(e.world, rs, w.ctx.outputs);
    } else {
      PublishNew(e.world, rs, |w.log|, |e.world.log|);
    }
    PublishGrows(e.world, rs);
    NumberedConcat(w.ctx.outputs, CompletedOf(rs), 0, |w.log|, |e.world.log|);
  }

  lemma {:induction false} PublishedAlready(w: World, reports: seq<Report>, before: seq<Report>)
    requires w.ctx.outputs == before + CompletedOf(reports)
    ensures Publish(w, reports) == w
  {
    CompletedAll(reports);
    forall j | 0 <= j < |reports|
      ensures Has(w, reports[j])
    {
      if reports[j].status == Completed {
        var i :| 0 <= i < |CompletedOf(reports)| && CompletedOf(reports)[i] == reports[j];
        assert w.ctx.outputs[|before| + i].uid == reports[j].uid;
      }
    }
    PublishAgain(w, reports);
  }

  lemma {:induction false} CompletedAll(reports: seq<Report>)
    ensures forall j :: 0 <= j < |reports| && reports[j].status == Completed ==> reports[j] in CompletedOf(reports)
  {
    if reports != [] {
      CompletedAll(reports[1..]);
      forall j | 0 <= j < |reports| && reports[j].status == Completed
        ensures reports[j] in CompletedOf(reports)
      {
        if j > 0 {
          assert reports[j] == reports[1..][j - 1];
        }
      }
    }
  }

  // Deferring a pause at the end of a list changes no report.
  lemma {:induction false} DeferReports(results: seq<Result>, conts: seq<Cont>)
    requires Normal(results) && HasStatus(results, Paused)
    ensures Reports(DeferAfterPause(results, conts)) == Reports(results)
  {
    NormalPausedNotFailed(results);
    DeferPausedReports(results, conts);
  }

  lemma {:induction false} DeferPausedReports(results: seq<Result>, conts: seq<Cont>)
    requires Normal(results)
    ensures Reports(DeferPaused(results, conts)) == Reports(results)
  {
    if results != [] {
      if results[0].report.status == Failed {
        assert forall i :: 0 <= i < |results[1..]| ==> results[1..][i] == results[i + 1];
      }
      if results[0].report.status != Paused {
        DeferPausedReports(results[1..], conts);
      }
    }
  }

  /** Whatever a tree runs before a Parallel: the reports are new and in the order of their starts, and
      exactly the completed ones have been published, once each; a lone step leaves that to its caller. */
  lemma {:induction false} ExecuteNumbers(env: Env, node: Node, w: World)
    requires Valid(node) && Tidy(w) && !Execute(env, node, w).world.forked
    ensures Appended(w, Execute(env, node, w), !node.Step?)
    decreases node
  {
    match node
    case Step(id) =>
      var e := Execute(env, node, w);
      assert Reports(e.results) == [e.results[0].report];
    case Condition(id, ifTrue, ifFalse) =>
      var w' := Call(env, id, Asked(id), w);
      if env.ask(id, w.ctx, w.log) {
        SequenceNumbers(env, ifTrue, w');
      } else {
        SequenceNumbers(env, ifFalse, w');
      }
    case Router(id, routes) =>
      var route := FindRoute(routes, env.select(id, w.ctx, w.log));
      if route.Some? {
        ValidRouteAt(routes, route.value);
        SequenceNumbers(env, routes[route.value].steps, Call(env, id, Asked(id), w));
      }
    case Loop(_, _, _, _) =>
      IterationsNumber(env, node, 0, false, EnterLoop(node, w));
  }

  // A step of a sequence or a loop body: run, publish, and go on from there.
  lemma {:induction false} StepNumbers(w: World, e: Out, published: bool, rest: Out)
    requires Tidy(w) && Appended(w, e, published)
    requires Appended(Publish(e.world, Reports(e.results)), rest, true)
    ensures Appended(w, Out(e.results + rest.results, rest.world), true)
  {
    PublishAppended(w, e, published);
    var xs, ys := Reports(e.results), Reports(rest.results);
    assert Reports(e.results + rest.results) == xs + ys;
    OutputsConcat(w.ctx.outputs, xs, ys);
    NumberedConcat(xs, ys, |w.log|, |e.world.log|, |rest.world.log|);
  }

  lemma {:induction false} OutputsConcat(outputs: seq<Report>, xs: seq<Report>, ys: seq<Report>)
    ensures (outputs + CompletedOf(xs)) + CompletedOf(ys) == outputs + CompletedOf(xs + ys)
  {
    CompletedSplit(xs, ys);
    assert outputs + (CompletedOf(xs) + CompletedOf(ys)) == (outputs + CompletedOf(xs)) + CompletedOf(ys);
  }

  // What stops at a pause has published all its reports.
  lemma {:induction false} PausedAppended(w: World, e: Out, published: bool, conts: seq<Cont>)
    requires Tidy(w) && Appended(w, e, published) && Normal(e.results) && HasStatus(e.results, Paused)
    ensures Appended(w, Out(DeferAfterPause(e.results, conts), Publish(e.world, Reports(e.results))), true)
  {
    PublishAppended(w, e, published);
    DeferReports(e.results, conts);
  }

  lemma {:induction false} SequenceNumbers(env: Env, steps: seq<Node>, w: World)
    requires ValidAll(steps) && Tidy(w) && !ExecuteSequence(env, steps, w).world.forked
    ensures Appended(w, ExecuteSequence(env, steps, w), true)
    decreases steps
  {
    if steps != [] {
      var e1 := Execute(env, steps[0], w);
      var w' := Publish(e1.world, Reports(e1.results));
      PublishGrows(e1.world, Reports(e1.results));
      ExecuteNumbers(env, steps[0], w);
      ExecuteShape(env, steps[0], w);
      PublishAppended(w, e1, !steps[0].Step?);
      if HasStatus(e1.results, Paused) {
        PausedAppended(w, e1, !steps[0].Step?, if steps[1..] == [] then [] else [SeqCont(steps[1..])]);
      } else if !HasStatus(e1.results, Failed) {
        SequenceNumbers(env, steps[1..], w');
        StepNumbers(w, e1, !steps[0].Step?, ExecuteSequence(env, steps[1..], w'));
      }
    }
  }

  lemma {:induction false} BodyNumbers(env: Env, loop: Node, index: nat, w: World)
    requires loop.Loop? && Valid(loop) && index <= |loop.steps| && Tidy(w)
    requires !ExecuteBody(env, loop, index, w).world.forked
    ensures Appended(w, ExecuteBody(env, loop, index, w), true)
    decreases loop, 0, |loop.steps| - index
  {
    if index < |loop.steps| {
      ValidAllAt(loop.steps, index);
      var e1 := Execute(env, loop.steps[index], w);
      var w' := Publish(e1.world, Reports(e1.results));
      PublishGrows(e1.world, Reports(e1.results));
      ExecuteNumbers(env, loop.steps[index], w);
      ExecuteShape(env, loop.steps[index], w);
      PublishAppended(w, e1, !loop.steps[index].Step?);
      if HasStatus(e1.results, Paused) {
        PausedAppended(w, e1, !loop.steps[index].Step?, [LoopCont(loop, index + 1, None)]);
      } else if !HasStatus(e1.results, Failed) {
        BodyNumbers(env, loop, index + 1, w');
        StepNumbers(w, e1, !loop.steps[index].Step?, ExecuteBody(env, loop, index + 1, w'));
      }
    }
  }

  lemma {:induction false} IterationsNumber(env: Env, loop: Node, start: nat, started: bool, w: World)
    requires loop.Loop? && Valid(loop) && start <= |loop.steps| && Tidy(w)
    requires !RunIterations(env, loop, start, started, w).world.forked
    ensures Appended(w, RunIterations(env, loop, start, started, w), true)
    decreases loop, 1, IterationsLeft(loop, started, w), 0
  {
    if started || Count(w, loop.name) < loop.limit {
      var w' := BeginIteration(loop, started, w);
      assert Tidy(w');
      BodyNumbers(env, loop, start, w');
      AfterNumbers(env, loop, w', ExecuteBody(env, loop, start, w'));
    }
  }

  lemma {:induction false} AfterNumbers(env: Env, loop: Node, w: World, body: Out)
    requires loop.Loop? && Valid(loop) && Tidy(w) && Appended(w, body, true)
    requires !AfterBody(env, loop, body).world.forked
    ensures Appended(w, AfterBody(env, loop, body), true)
    decreases loop, 1, IterationsLeft(loop, false, body.world), 1
  {
    if !ShouldStop(body.results) {
      var w2 := Call(env, loop.id, Asked(loop.id), body.world);
      if !env.ask(loop.id, body.world.ctx, body.world.log) {
        CompletedNumbered(Reports(body.results), |w.log|, |body.world.log|);
        NumberedConcat(w.ctx.outputs, CompletedOf(Reports(body.results)), 0, |w.log|, |body.world.log|);
        IterationsNumber(env, loop, 0, false, w2);
        var asked := Out(body.results, w2);
        assert Appended(w, asked, true);
        PublishedAlready(w2, Reports(body.results), w.ctx.outputs);
        StepNumbers(w, asked, true, RunIterations(env, loop, 0, false, w2));
      }
    }
  }

  lemma {:induction false} ContNumbers(env: Env, c: Cont, S: set<Node>, w: World)
    requires ValidCont(c) && ContWithin(c, S, false) && Tidy(w) && !ExecuteCont(env, c, w).world.forked
    ensures Appended(w, ExecuteCont(env, c, w), true)
  {
    match c
    case SeqCont(steps) => SequenceNumbers(env, steps, w);
    case LoopCont(loop, start, previous) =>
      IterationsNumber(env, loop, start, true, Renamed(loop, previous, w));
  }
}
