/** The reference meaning of a tree: every pause is answered on the spot, so there are no
    paused results, no continuations and nothing to store. */
module WorkflowDirect {
  import opened Common
  import opened WorkflowTree
  import opened WorkflowExec

  datatype Done = Done(reports: seq<Report>, world: World)

  predicate AnyFailed(reports: seq<Report>) {
    exists i :: 0 <= i < |reports| && reports[i].status == Failed
  }

  function FailedOnly(reports: seq<Report>): (r: seq<Report>)
    ensures AnyFailed(reports) <==> r != []
    ensures forall i :: 0 <= i < |r| ==> r[i].status == Failed
  {
    if reports == [] then []
    else
      assert AnyFailed(reports) <==> reports[0].status == Failed || AnyFailed(reports[1..]) by {
        assert forall i :: 1 <= i < |reports| ==> reports[i] == reports[1..][i - 1];
      }
      (if reports[0].status == Failed then [reports[0]] else []) + FailedOnly(reports[1..])
  }

  // The same reports but for the identity of the objects.
  predicate SameReports(xs: seq<Report>, ys: seq<Report>) {
    && |xs| == |ys|
    && forall i :: 0 <= i < |xs| ==> xs[i].status == ys[i].status && xs[i].body == ys[i].body
  }

  lemma {:induction false} SameConcat(xs: seq<Report>, ys: seq<Report>, xs': seq<Report>, ys': seq<Report>)
    requires SameReports(xs, ys) && SameReports(xs', ys')
    ensures SameReports(xs + xs', ys + ys')
  {
  }

  lemma {:induction false} SameFailures(xs: seq<Report>, ys: seq<Report>)
    requires SameReports(xs, ys)
    ensures AnyFailed(xs) <==> AnyFailed(ys)
    ensures SameReports(FailedOnly(xs), FailedOnly(ys))
  {
    assert AnyFailed(xs) ==> AnyFailed(ys) by {
      if i :| 0 <= i < |xs| && xs[i].status == Failed {
        assert ys[i].status == Failed;
      }
    }
    if xs != [] {
      assert forall i :: 0 <= i < |xs[1..]| ==> xs[1..][i] == xs[i + 1] && ys[1..][i] == ys[i + 1];
      SameFailures(xs[1..], ys[1..]);
      SameConcat(if xs[0].status == Failed then [xs[0]] else [], if ys[0].status == Failed then [ys[0]] else [],
                 FailedOnly(xs[1..]), FailedOnly(ys[1..]));
    }
  }

  function Published(d: Done): Done {
    d.(world := Publish(d.world, d.reports))
  }

  function Prepend(reports: seq<Report>, d: Done): Done {
    Done(reports + d.reports, d.world)
  }

  function Direct(env: Env, node: Node, w: World): (r: Done)
    requires Valid(node)
    ensures Grows(w, r.world, Writes(node)) && (NoParallel(node) ==> r.world.forked == w.forked)
    decreases node
  {
    match node
    case Step(id) =>
      var s := env.run(id, w.ctx, w.log);
      var w' := Call(env, id, Started(id), w);
      Done([FinalReport(|w.log|, s)], w'.(answered := w.answered + s.pauses))
    case Parallel(_, steps) =>
      var all := DirectBranches(env, steps, w.(forked := true));
      if AnyFailed(all.reports) then all.(reports := FailedOnly(all.reports)) else all
    case Condition(id, ifTrue, ifFalse) =>
      var chosen := env.ask(id, w.ctx, w.log);
      var w' := Call(env, id, Asked(id), w);
      var r := if chosen then DirectSequence(env, ifTrue, w') else DirectSequence(env, ifFalse, w');
      GrowsWider(w', r.world, if chosen then WritesAll(ifTrue) else WritesAll(ifFalse), Writes(node));
      GrowsTrans(w, w', r.world, Writes(node));
      r
    case Router(id, routes) =>
      var route := FindRoute(routes, env.select(id, w.ctx, w.log));
      var w' := Call(env, id, Asked(id), w);
      if route.None? then Done([], w')
      else
        ValidRouteAt(routes, route.value);
        assert NoParallel(node) ==> NoParallels(routes[route.value].steps) by {
          if NoParallel(node) {
            NoParallelRouteAt(routes, route.value);
          }
        }
        var r := DirectSequence(env, routes[route.value].steps, w');
        GrowsWider(w', r.world, WritesAll(routes[route.value].steps), Writes(node));
        GrowsTrans(w, w', r.world, Writes(node));
        r
    case Loop(_, _, _, _) =>
      var w' := EnterLoop(node, w);
      var r := DirectIterations(env, node, 0, false, w');
      GrowsTrans(w, w', r.world, Writes(node));
      r
  }

  function DirectBranches(env: Env, steps: seq<Node>, w: World): (r: Done)
    requires ValidAll(steps)
    ensures Grows(w, r.world, WritesAll(steps)) && (NoParallels(steps) ==> r.world.forked == w.forked)
    decreases steps
  {
    if steps == [] then Done([], w)
    else
      var first := Direct(env, steps[0], w);
      var rest := DirectBranches(env, steps[1..], first.world);
      GrowsWider(w, first.world, Writes(steps[0]), WritesAll(steps));
      GrowsWider(first.world, rest.world, WritesAll(steps[1..]), WritesAll(steps));
      GrowsTrans(w, first.world, rest.world, WritesAll(steps));
      Prepend(first.reports, rest)
  }

  // One executable after another; the first failure ends the sequence.
  function DirectSequence(env: Env, steps: seq<Node>, w: World): (r: Done)
    requires ValidAll(steps)
    ensures Grows(w, r.world, WritesAll(steps)) && (NoParallels(steps) ==> r.world.forked == w.forked)
    decreases steps
  {
    if steps == [] then Done([], w)
    else
      var first := Published(Direct(env, steps[0], w));
      PublishGrows(Direct(env, steps[0], w).world, first.reports);
      GrowsTrans(w, Direct(env, steps[0], w).world, first.world, Writes(steps[0]));
      GrowsWider(w, first.world, Writes(steps[0]), WritesAll(steps));
      if AnyFailed(first.reports) then first
      else
        var rest := DirectSequence(env, steps[1..], first.world);
        GrowsWider(first.world, rest.world, WritesAll(steps[1..]), WritesAll(steps));
        GrowsTrans(w, first.world, rest.world, WritesAll(steps));
        Prepend(first.reports, rest)
  }

  // Run loop.steps[start..], then whole iterations until `stop`, a failure or the limit.
  function DirectIterations(env: Env, loop: Node, start: nat, started: bool, w: World): (r: Done)
    requires loop.Loop? && Valid(loop) && start <= |loop.steps|
    ensures Grows(w, r.world, Writes(loop)) && (NoParallel(loop) ==> r.world.forked == w.forked)
    decreases loop, 1, IterationsLeft(loop, started, w), 0
  {
    if !started && Count(w, loop.name) >= loop.limit then Done([], w)
    else
      var w' := BeginIteration(loop, started, w);
      ValidDrop(loop.steps, start);
      assert NoParallels(loop.steps) ==> NoParallels(loop.steps[start..]) by {
        if NoParallels(loop.steps) {
          NoParallelDrop(loop.steps, start);
        }
      }
      var body := DirectSequence(env, loop.steps[start..], w');
      GrowsWider(w', body.world, WritesAll(loop.steps[start..]), Writes(loop));
      GrowsTrans(w, w', body.world, Writes(loop));
      var r := AfterIteration(env, loop, body);
      GrowsTrans(w, body.world, r.world, Writes(loop));
      r
  }

  function AfterIteration(env: Env, loop: Node, body: Done): (r: Done)
    requires loop.Loop? && Valid(loop)
    ensures Grows(body.world, r.world, Writes(loop)) && (NoParallel(loop) ==> r.world.forked == body.world.forked)
    decreases loop, 1, IterationsLeft(loop, false, body.world), 1
  {
    if AnyFailed(body.reports) then body
    else
      var stop := env.ask(loop.id, body.world.ctx, body.world.log);
      var w' := Call(env, loop.id, Asked(loop.id), body.world);
      if stop then body.(world := w')
      else
        var rest := DirectIterations(env, loop, 0, false, w');
        GrowsTrans(body.world, w', rest.world, Writes(loop));
        Prepend(body.reports, rest)
  }

  // ---- What paused results and continuations stand for ------------------------------------------

  function ContWrites(c: Cont): set<string>
    decreases c
  {
    match c
    case SeqCont(steps) => WritesAll(steps)
    case LoopCont(loop, _, _) => Writes(loop)
    case OutCont(outputs) => ResultsWrites(outputs)
  }

  function ContsWrites(cs: seq<Cont>): set<string>
    decreases cs
  {
    if cs == [] then {} else ContWrites(cs[0]) + ContsWrites(cs[1..])
  }

  function ResultsWrites(rs: seq<Result>): set<string>
    decreases rs
  {
    if rs == [] then {} else ContsWrites(rs[0].conts) + ResultsWrites(rs[1..])
  }

  function DirectCont(env: Env, c: Cont, w: World): (r: Done)
    requires ValidCont(c)
    ensures Grows(w, r.world, ContWrites(c))
    decreases c
  {
    match c
    case SeqCont(steps) => DirectSequence(env, steps, w)
    case LoopCont(loop, start, previous) =>
      var r := DirectIterations(env, loop, start, true, Renamed(loop, previous, w));
      GrowsTrans(w, Renamed(loop, previous, w), r.world, Writes(loop));
      r
    case OutCont(outputs) => AnswerAll(env, outputs, w)
  }

  function DirectConts(env: Env, cs: seq<Cont>, w: World): (r: Done)
    requires ValidConts(cs)
    ensures Grows(w, r.world, ContsWrites(cs))
    decreases cs
  {
    if cs == [] then Done([], w)
    else
      var first := Published(DirectCont(env, cs[0], w));
      PublishGrows(DirectCont(env, cs[0], w).world, first.reports);
      GrowsTrans(w, DirectCont(env, cs[0], w).world, first.world, ContWrites(cs[0]));
      GrowsWider(w, first.world, ContWrites(cs[0]), ContsWrites(cs));
      if AnyFailed(first.reports) then first
      else
        var rest := DirectConts(env, cs[1..], first.world);
        GrowsWider(first.world, rest.world, ContsWrites(cs[1..]), ContsWrites(cs));
        GrowsTrans(w, first.world, rest.world, ContsWrites(cs));
        Prepend(first.reports, rest)
  }

  // Answering the pauses of one runner: its final report, and one answer per pause.
  function Answer(s: RunState, w: World): (r: Done)
    ensures Grows(w, r.world, {})
    ensures r.reports == [FinalReport(s.uid, s.script)] && r.world.forked == w.forked
  {
    var w' := w.(answered := w.answered + s.left + 1);
    PublishGrows(w', [FinalReport(s.uid, s.script)]);
    GrowsTrans(w, w', Publish(w', [FinalReport(s.uid, s.script)]), {});
    Published(Done([FinalReport(s.uid, s.script)], w'))
  }

  // Take results in order; a paused one is answered and its continuations run before the next.
  function AnswerAll(env: Env, results: seq<Result>, w: World): (r: Done)
    requires ValidResults(results)
    ensures Grows(w, r.world, ResultsWrites(results))
    decreases results
  {
    if results == [] then Done([], w)
    else
      var first := AnswerOne(env, results[0], w);
      GrowsWider(w, first.world, ContsWrites(results[0].conts), ResultsWrites(results));
      if AnyFailed(first.reports) then first
      else
        var rest := AnswerAll(env, results[1..], first.world);
        GrowsWider(first.world, rest.world, ResultsWrites(results[1..]), ResultsWrites(results));
        GrowsTrans(w, first.world, rest.world, ResultsWrites(results));
        Prepend(first.reports, rest)
  }

  function AnswerOne(env: Env, result: Result, w: World): (r: Done)
    requires CarriesState(result)
    requires ValidConts(result.conts)
    ensures Grows(w, r.world, ContsWrites(result.conts))
    decreases result
  {
    if result.report.status != Paused then
      PublishGrows(w, [result.report]);
      Published(Done([result.report], w))
    else
      var answer := Answer(result.state.value, w);
      if AnyFailed(answer.reports) then answer
      else
        var rest := DirectConts(env, result.conts, answer.world);
        GrowsTrans(w, answer.world, rest.world, ContsWrites(result.conts));
        Prepend(answer.reports, rest)
  }
}
