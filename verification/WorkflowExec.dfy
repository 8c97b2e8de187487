/** Running a tree the way src/blackgeorge/workflow/nodes.py does: a pause ends the run of the
    tree and leaves continuations behind. */
module WorkflowExec {
  import opened Common
  import opened WorkflowTree

  datatype Out = Out(results: seq<Result>, world: World)

  // w2 is w1 after more history and more outputs; only counters in `names` may differ.
  ghost predicate Grows(w1: World, w2: World, names: set<string>) {
    && w1.answered <= w2.answered && (w1.forked ==> w2.forked)
    && |w1.ctx.outputs| <= |w2.ctx.outputs| && w2.ctx.outputs[..|w1.ctx.outputs|] == w1.ctx.outputs
    && |w1.log| <= |w2.log| && w2.log[..|w1.log|] == w1.log
    && forall x :: x !in names ==> Count(w1, x) == Count(w2, x)
  }

  lemma {:induction false} PublishGrows(w: World, reports: seq<Report>)
    ensures var p := Publish(w, reports);
            p == w.(ctx := w.ctx.(outputs := p.ctx.outputs)) && Grows(w, p, {})
    decreases |reports|
  {
    if reports != [] {
      var w' := if reports[0].status == Completed then AddOutput(w, reports[0]) else w;
      PublishGrows(w', reports[1..]);
      GrowsTrans(w, w', Publish(w, reports), {});
    }
  }

  lemma {:induction false} GrowsTrans(w1: World, w2: World, w3: World, names: set<string>)
    requires Grows(w1, w2, names) && Grows(w2, w3, names)
    ensures Grows(w1, w3, names)
  {
    assert w3.log[..|w1.log|] == w3.log[..|w2.log|][..|w1.log|];
    assert w3.ctx.outputs[..|w1.ctx.outputs|] == w3.ctx.outputs[..|w2.ctx.outputs|][..|w1.ctx.outputs|];
  }

  lemma {:induction false} GrowsWider(w1: World, w2: World, names: set<string>, wider: set<string>)
    requires Grows(w1, w2, names) && names <= wider
    ensures Grows(w1, w2, wider)
  {
  }

  // Callbacks have left plain artifacts plain.
  ghost predicate StaysPlain(env: Env, w1: World, w2: World) {
    Tame(env) && Plain(env, w1.ctx.artifacts) ==> Plain(env, w2.ctx.artifacts)
  }

  // A loop that is executed starts counting anew.
  function EnterLoop(loop: Node, w: World): World
    requires loop.Loop?
  {
    SetCount(w, loop.name, 0).(log := w.log + [Entered(loop.id)])
  }

  function Execute(env: Env, node: Node, w: World): (r: Out)
    requires Valid(node)
    ensures Grows(w, r.world, Writes(node)) && r.world.answered == w.answered && StaysPlain(env, w, r.world)
    ensures NoParallel(node) ==> r.world.forked == w.forked
    decreases node
  {
    match node
    case Step(id) =>
      var s := env.run(id, w.ctx, w.log);
      var w' := Call(env, id, Started(id), w);
      if s.pauses == 0 then Out([Result(FinalReport(|w.log|, s), None, [])], w')
      else Out([Result(PausedReport(|w.log|, s), Some(RunState(|w.log|, s, s.pauses - 1)), [])], w')
    case Parallel(_, steps) =>
      var groups := ExecuteBranches(env, steps, w.(forked := true));
      Out(DeferAfterPause(groups.results, []), groups.world)
    case Condition(id, ifTrue, ifFalse) =>
      var chosen := env.ask(id, w.ctx, w.log);
      var w' := Call(env, id, Asked(id), w);
      var r := if chosen then ExecuteSequence(env, ifTrue, w') else ExecuteSequence(env, ifFalse, w');
      GrowsWider(w', r.world, if chosen then WritesAll(ifTrue) else WritesAll(ifFalse), Writes(node));
      GrowsTrans(w, w', r.world, Writes(node));
      r
    case Router(id, routes) =>
      var route := FindRoute(routes, env.select(id, w.ctx, w.log));
      var w' := Call(env, id, Asked(id), w);
      if route.None? then Out([], w')
      else
        ValidRouteAt(routes, route.value);
        assert NoParallel(node) ==> NoParallels(routes[route.value].steps) by {
          if NoParallel(node) {
            NoParallelRouteAt(routes, route.value);
          }
        }
        var r := ExecuteSequence(env, routes[route.value].steps, w');
        GrowsWider(w', r.world, WritesAll(routes[route.value].steps), Writes(node));
        GrowsTrans(w, w', r.world, Writes(node));
        r
    case Loop(_, _, _, _) =>
      var w' := EnterLoop(node, w);
      var r := RunIterations(env, node, 0, false, w');
      GrowsTrans(w, w', r.world, Writes(node));
      r
  }

  // The gathered groups, concatenated in branch order.
  function ExecuteBranches(env: Env, steps: seq<Node>, w: World): (r: Out)
    requires ValidAll(steps)
    ensures Grows(w, r.world, WritesAll(steps)) && r.world.answered == w.answered && StaysPlain(env, w, r.world)
    ensures NoParallels(steps) ==> r.world.forked == w.forked
    decreases steps
  {
    if steps == [] then Out([], w)
    else
      var first := Execute(env, steps[0], w);
      var rest := ExecuteBranches(env, steps[1..], first.world);
      GrowsWider(w, first.world, Writes(steps[0]), WritesAll(steps));
      GrowsWider(first.world, rest.world, WritesAll(steps[1..]), WritesAll(steps));
      GrowsTrans(w, first.world, rest.world, WritesAll(steps));
      Out(first.results + rest.results, rest.world)
  }

  function ExecuteSequence(env: Env, steps: seq<Node>, w: World): (r: Out)
    requires ValidAll(steps)
    ensures Grows(w, r.world, WritesAll(steps)) && r.world.answered == w.answered && StaysPlain(env, w, r.world)
    ensures NoParallels(steps) ==> r.world.forked == w.forked
    decreases steps
  {
    if steps == [] then Out([], w)
    else
      var first := Execute(env, steps[0], w);
      var w' := Publish(first.world, Reports(first.results));
      PublishGrows(first.world, Reports(first.results));
      GrowsTrans(w, first.world, w', Writes(steps[0]));
      GrowsWider(w, w', Writes(steps[0]), WritesAll(steps));
      if HasStatus(first.results, Paused) then
        Out(DeferAfterPause(first.results, if steps[1..] == [] then [] else [SeqCont(steps[1..])]), w')
      else if HasStatus(first.results, Failed) then
        Out(first.results, w')
      else
        var rest := ExecuteSequence(env, steps[1..], w');
        GrowsWider(w', rest.world, WritesAll(steps[1..]), WritesAll(steps));
        GrowsTrans(w, w', rest.world, WritesAll(steps));
        Out(first.results + rest.results, rest.world)
  }

  // One pass over loop.steps[index..].
  function ExecuteBody(env: Env, loop: Node, index: nat, w: World): (r: Out)
    requires loop.Loop? && Valid(loop) && index <= |loop.steps|
    ensures Grows(w, r.world, WritesAll(loop.steps)) && r.world.answered == w.answered && StaysPlain(env, w, r.world)
    ensures NoParallels(loop.steps) ==> r.world.forked == w.forked
    decreases loop, 0, |loop.steps| - index
  {
    if index == |loop.steps| then Out([], w)
    else
      ValidAllAt(loop.steps, index);
      assert NoParallels(loop.steps) ==> NoParallel(loop.steps[index]) by {
        if NoParallels(loop.steps) {
          NoParallelAt(loop.steps, index);
        }
      }
      var first := Execute(env, loop.steps[index], w);
      var w' := Publish(first.world, Reports(first.results));
      PublishGrows(first.world, Reports(first.results));
      GrowsTrans(w, first.world, w', Writes(loop.steps[index]));
      GrowsWider(w, w', Writes(loop.steps[index]), WritesAll(loop.steps));
      if HasStatus(first.results, Paused) then
        Out(DeferAfterPause(first.results, [LoopCont(loop, index + 1, None)]), w')
      else if HasStatus(first.results, Failed) then
        Out(first.results, w')
      else
        var rest := ExecuteBody(env, loop, index + 1, w');
        GrowsTrans(w, w', rest.world, WritesAll(loop.steps));
        Out(first.results + rest.results, rest.world)
  }

  function IterationsLeft(loop: Node, started: bool, w: World): nat
    requires loop.Loop?
  {
    (if started then 1 else 0) + if Count(w, loop.name) < loop.limit then loop.limit - Count(w, loop.name) else 0
  }

  // A new iteration raises the counter; a resumed one has been counted already.
  function BeginIteration(loop: Node, started: bool, w: World): World
    requires loop.Loop?
  {
    if started then w
    else SetCount(w, loop.name, Count(w, loop.name) + 1).(log := w.log + [Iterated(loop.id)])
  }

  function RunIterations(env: Env, loop: Node, start: nat, started: bool, w: World): (r: Out)
    requires loop.Loop? && Valid(loop) && start <= |loop.steps|
    ensures Grows(w, r.world, Writes(loop)) && r.world.answered == w.answered && StaysPlain(env, w, r.world)
    ensures NoParallel(loop) ==> r.world.forked == w.forked
    decreases loop, 1, IterationsLeft(loop, started, w), 0
  {
    if !started && Count(w, loop.name) >= loop.limit then Out([], w)
    else
      var w' := BeginIteration(loop, started, w);
      var body := ExecuteBody(env, loop, start, w');
      GrowsWider(w', body.world, WritesAll(loop.steps), Writes(loop));
      GrowsTrans(w, w', body.world, Writes(loop));
      var r := AfterBody(env, loop, body);
      GrowsTrans(w, body.world, r.world, Writes(loop));
      r
  }

  // After one pass over the body: leave, or ask `stop` and go on.
  function AfterBody(env: Env, loop: Node, body: Out): (r: Out)
    requires loop.Loop? && Valid(loop)
    ensures Grows(body.world, r.world, Writes(loop)) && r.world.answered == body.world.answered
    ensures StaysPlain(env, body.world, r.world) && (NoParallel(loop) ==> r.world.forked == body.world.forked)
    decreases loop, 1, IterationsLeft(loop, false, body.world), 1
  {
    if ShouldStop(body.results) then body
    else
      var stop := env.ask(loop.id, body.world.ctx, body.world.log);
      var w' := Call(env, loop.id, Asked(loop.id), body.world);
      if stop then Out(body.results, w')
      else
        var rest := RunIterations(env, loop, 0, false, w');
        GrowsTrans(body.world, w', rest.world, Writes(loop));
        Out(body.results + rest.results, rest.world)
  }

  // ---- Continuations, as `Flow._resume` calls them ----------------------------------------------

  predicate ValidCont(c: Cont)
    decreases c
  {
    match c
    case SeqCont(steps) => ValidAll(steps)
    case LoopCont(loop, start, _) => loop.Loop? && Valid(loop) && start <= |loop.steps|
    case OutCont(outputs) => ValidResults(outputs)
  }

  predicate ValidConts(cs: seq<Cont>)
    decreases cs
  {
    cs == [] || (ValidCont(cs[0]) && ValidConts(cs[1..]))
  }

  // A paused result carries the state of the runner that reported the pause; only such a result has
  // continuations.
  predicate CarriesState(r: Result) {
    if r.report.status == Paused then
      r.state.Some? && r.report == PausedReport(r.state.value.uid, r.state.value.script)
    else r.conts == []
  }

  predicate ValidResults(rs: seq<Result>)
    decreases rs
  {
    rs == [] ||
    (&& CarriesState(rs[0])
     && ValidConts(rs[0].conts)
     && ValidResults(rs[1..]))
  }

  // A loop renamed since the pause takes over the counter stored under its previous name.
  function Renamed(loop: Node, previous: Option<string>, w: World): World
    requires loop.Loop?
  {
    if previous.Some? && previous.value != loop.name
    then SetCount(w, loop.name, Count(w, previous.value))
    else w
  }

  // What a continuation needs to be called at all.
  predicate Callable(c: Cont) {
    match c
    case SeqCont(steps) => ValidAll(steps)
    case LoopCont(loop, start, _) => loop.Loop? && Valid(loop) && start <= |loop.steps|
    case OutCont(_) => true
  }

  function ExecuteCont(env: Env, c: Cont, w: World): Out
    requires Callable(c)
  {
    match c
    case SeqCont(steps) => ExecuteSequence(env, steps, w)
    case LoopCont(loop, start, previous) => RunIterations(env, loop, start, true, Renamed(loop, previous, w))
    case OutCont(outputs) => Out(outputs, w)
  }
}
