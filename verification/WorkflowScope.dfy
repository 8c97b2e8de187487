/** Continuations only mention executables of the tree that produced them. */
module WorkflowScope {
  import opened Common
  import opened WorkflowTree
  import opened WorkflowExec
  import opened WorkflowDirect
  import opened WorkflowAnswers
  import opened WorkflowLocality

  // A tree and all trees inside it.
  function Inside(node: Node): set<Node>
    decreases node
  {
    {node} +
    match node
    case Step(_) => {}
    case Parallel(_, steps) => InsideAll(steps)
    case Condition(_, ifTrue, ifFalse) => InsideAll(ifTrue) + InsideAll(ifFalse)
    case Router(_, routes) => InsideRoutes(routes)
    case Loop(_, _, _, steps) => InsideAll(steps)
  }

  function InsideAll(steps: seq<Node>): set<Node>
    decreases steps
  {
    if steps == [] then {} else Inside(steps[0]) + InsideAll(steps[1..])
  }

  function InsideRoutes(routes: seq<Route>): set<Node>
    decreases routes
  {
    if routes == [] then {} else InsideAll(routes[0].steps) + InsideRoutes(routes[1..])
  }

  lemma {:induction false} InsideAt(steps: seq<Node>, i: nat)
    requires i < |steps|
    ensures Inside(steps[i]) <= InsideAll(steps)
    ensures steps[i] in InsideAll(steps)
  {
    if i > 0 {
      InsideAt(steps[1..], i - 1);
    }
  }

  lemma {:induction false} InsideRouteAt(routes: seq<Route>, i: nat)
    requires i < |routes|
    ensures InsideAll(routes[i].steps) <= InsideRoutes(routes)
  {
    if i > 0 {
      InsideRouteAt(routes[1..], i - 1);
    }
  }

  // What a nested tree writes or touches, the enclosing tree writes or touches.
  lemma {:induction false} InsideNames(env: Env, node: Node, n: Node)
    requires n in Inside(node)
    ensures Writes(n) <= Writes(node) && Touches(env, n) <= Touches(env, node)
    decreases node
  {
    if n != node {
      match node
      case Step(_) =>
      case Parallel(_, steps) => InsideAllNames(env, steps, n);
      case Condition(_, ifTrue, ifFalse) =>
        if n in InsideAll(ifTrue) {
          InsideAllNames(env, ifTrue, n);
        } else {
          InsideAllNames(env, ifFalse, n);
        }
      case Router(_, routes) => InsideRoutesNames(env, routes, n);
      case Loop(_, _, _, steps) => InsideAllNames(env, steps, n);
    }
  }

  lemma {:induction false} InsideAllNames(env: Env, steps: seq<Node>, n: Node)
    requires n in InsideAll(steps)
    ensures Writes(n) <= WritesAll(steps) && Touches(env, n) <= TouchesAll(env, steps)
    decreases steps
  {
    if n in Inside(steps[0]) {
      InsideNames(env, steps[0], n);
    } else {
      InsideAllNames(env, steps[1..], n);
    }
  }

  lemma {:induction false} InsideRoutesNames(env: Env, routes: seq<Route>, n: Node)
    requires n in InsideRoutes(routes)
    ensures Writes(n) <= WritesRoutes(routes) && Touches(env, n) <= TouchesRoutes(env, routes)
    decreases routes
  {
    if n in InsideAll(routes[0].steps) {
      InsideAllNames(env, routes[0].steps, n);
    } else {
      InsideRoutesNames(env, routes[1..], n);
    }
  }

  // Continuations over executables in S whose loops kept their names; `out` says whether sibling
  // outputs may be among them.
  predicate ContWithin(c: Cont, S: set<Node>, out: bool)
    decreases c
  {
    match c
    case SeqCont(steps) => forall s :: s in steps ==> s in S
    case LoopCont(loop, _, previous) => loop.Loop? && loop in S && (previous.None? || previous.value == loop.name)
    case OutCont(outputs) => out && ResultsWithin(outputs, S, out)
  }

  predicate ContsWithin(cs: seq<Cont>, S: set<Node>, out: bool)
    decreases cs
  {
    cs == [] || (ContWithin(cs[0], S, out) && ContsWithin(cs[1..], S, out))
  }

  predicate ResultsWithin(rs: seq<Result>, S: set<Node>, out: bool)
    decreases rs
  {
    rs == [] || (ContsWithin(rs[0].conts, S, out) && ResultsWithin(rs[1..], S, out))
  }

  lemma {:induction false} ContWider(c: Cont, S: set<Node>, T: set<Node>, out: bool)
    requires ContWithin(c, S, out) && S <= T
    ensures ContWithin(c, T, out)
    decreases c
  {
    if c.OutCont? {
      ResultsWider(c.outputs, S, T, out);
    }
  }

  lemma {:induction false} ContsWider(cs: seq<Cont>, S: set<Node>, T: set<Node>, out: bool)
    requires ContsWithin(cs, S, out) && S <= T
    ensures ContsWithin(cs, T, out)
    decreases cs
  {
    if cs != [] {
      ContWider(cs[0], S, T, out);
      ContsWider(cs[1..], S, T, out);
    }
  }

  lemma {:induction false} ResultsWider(rs: seq<Result>, S: set<Node>, T: set<Node>, out: bool)
    requires ResultsWithin(rs, S, out) && S <= T
    ensures ResultsWithin(rs, T, out)
    decreases rs
  {
    if rs != [] {
      ContsWider(rs[0].conts, S, T, out);
      ResultsWider(rs[1..], S, T, out);
    }
  }

  lemma {:induction false} ResultsWithinConcat(xs: seq<Result>, ys: seq<Result>, S: set<Node>, out: bool)
    ensures ResultsWithin(xs + ys, S, out) <==> ResultsWithin(xs, S, out) && ResultsWithin(ys, S, out)
  {
    if xs == [] {
      assert xs + ys == ys;
    } else {
      assert (xs + ys)[1..] == xs[1..] + ys;
      ResultsWithinConcat(xs[1..], ys, S, out);
    }
  }

  lemma {:induction false} ContsWithinConcat(xs: seq<Cont>, ys: seq<Cont>, S: set<Node>, out: bool)
    ensures ContsWithin(xs + ys, S, out) <==> ContsWithin(xs, S, out) && ContsWithin(ys, S, out)
  {
    if xs == [] {
      assert xs + ys == ys;
    } else {
      assert (xs + ys)[1..] == xs[1..] + ys;
      ContsWithinConcat(xs[1..], ys, S, out);
    }
  }

  lemma {:induction false} OneContWithin(c: Cont, S: set<Node>, out: bool)
    ensures ContsWithin([c], S, out) <==> ContWithin(c, S, out)
  {
    assert [c][1..] == [];
  }

  lemma {:induction false} OneResultWithin(r: Result, S: set<Node>, out: bool)
    ensures ResultsWithin([r], S, out) <==> ContsWithin(r.conts, S, out)
  {
    assert [r][1..] == [];
  }

  lemma {:induction false} FailuresWithin(results: seq<Result>, S: set<Node>, out: bool)
    requires ResultsWithin(results, S, out)
    ensures ResultsWithin(FailuresOf(results), S, out)
  {
    if results != [] {
      FailuresWithin(results[1..], S, out);
      if results[0].report.status == Failed {
        OneResultWithin(results[0], S, out);
        ResultsWithinConcat([results[0]], FailuresOf(results[1..]), S, out);
      } else {
        assert FailuresOf(results) == FailuresOf(results[1..]);
      }
    }
  }

  lemma {:induction false} DeferPausedWithin(results: seq<Result>, conts: seq<Cont>, S: set<Node>, out: bool)
    requires ResultsWithin(results, S, out) && ContsWithin(conts, S, out)
    requires out || Normal(results)
    ensures ResultsWithin(DeferPaused(results, conts), S, out)
  {
    if results != [] {
      if results[0].report.status != Paused {
        if !out && results[0].report.status == Failed {
          assert forall i :: 0 <= i < |results[1..]| ==> results[1..][i] == results[i + 1];
        }
        DeferPausedWithin(results[1..], conts, S, out);
        OneResultWithin(results[0], S, out);
        ResultsWithinConcat([results[0]], DeferPaused(results[1..], conts), S, out);
      } else {
        OneContWithin(OutCont(results[1..]), S, out);
        ContsWithinConcat(results[0].conts, Tail(results[1..]), S, out);
        ContsWithinConcat(results[0].conts + Tail(results[1..]), conts, S, out);
        OneResultWithin(results[0].(conts := results[0].conts + Tail(results[1..]) + conts), S, out);
      }
    }
  }

  lemma {:induction false} DeferWithin(results: seq<Result>, conts: seq<Cont>, S: set<Node>, out: bool)
    requires ResultsWithin(results, S, out) && ContsWithin(conts, S, out)
    requires out || Normal(results)
    ensures ResultsWithin(DeferAfterPause(results, conts), S, out)
  {
    FailuresWithin(results, S, out);
    DeferPausedWithin(results, conts, S, out);
  }

  // Sibling outputs are deferred only once a Parallel has been executed.
  lemma {:induction false} ExecuteWithin(env: Env, node: Node, w: World, out: bool)
    requires Valid(node) && (Execute(env, node, w).world.forked ==> out)
    ensures ResultsWithin(Execute(env, node, w).results, Inside(node), out)
    decreases node
  {
    match node
    case Step(id) =>
      OneResultWithin(Execute(env, node, w).results[0], Inside(node), out);
    case Parallel(_, steps) =>
      BranchesWithin(env, steps, w.(forked := true));
      DeferWithin(ExecuteBranches(env, steps, w.(forked := true)).results, [], InsideAll(steps), out);
      ResultsWider(Execute(env, node, w).results, InsideAll(steps), Inside(node), out);
    case Condition(id, ifTrue, ifFalse) =>
      var w' := Call(env, id, Asked(id), w);
      if env.ask(id, w.ctx, w.log) {
        SequenceWithin(env, ifTrue, w', out);
        ResultsWider(Execute(env, node, w).results, InsideAll(ifTrue), Inside(node), out);
      } else {
        SequenceWithin(env, ifFalse, w', out);
        ResultsWider(Execute(env, node, w).results, InsideAll(ifFalse), Inside(node), out);
      }
    case Router(id, routes) =>
      var route := FindRoute(routes, env.select(id, w.ctx, w.log));
      if route.Some? {
        ValidRouteAt(routes, route.value);
        InsideRouteAt(routes, route.value);
        SequenceWithin(env, routes[route.value].steps, Call(env, id, Asked(id), w), out);
        ResultsWider(Execute(env, node, w).results, InsideAll(routes[route.value].steps), Inside(node), out);
      }
    case Loop(_, _, _, _) =>
      IterationsWithin(env, node, 0, false, EnterLoop(node, w), out);
  }

  lemma {:induction false} BranchesWithin(env: Env, steps: seq<Node>, w: World)
    requires ValidAll(steps)
    ensures ResultsWithin(ExecuteBranches(env, steps, w).results, InsideAll(steps), true)
    decreases steps
  {
    if steps != [] {
      var first := Execute(env, steps[0], w);
      var rest := ExecuteBranches(env, steps[1..], first.world);
      ExecuteWithin(env, steps[0], w, true);
      BranchesWithin(env, steps[1..], first.world);
      ResultsWider(first.results, Inside(steps[0]), InsideAll(steps), true);
      ResultsWider(rest.results, InsideAll(steps[1..]), InsideAll(steps), true);
      ResultsWithinConcat(first.results, rest.results, InsideAll(steps), true);
    }
  }

  lemma {:induction false} StepsInside(steps: seq<Node>)
    ensures forall s :: s in steps ==> s in InsideAll(steps)
  {
    forall s | s in steps
      ensures s in InsideAll(steps)
    {
      var i :| 0 <= i < |steps| && steps[i] == s;
      InsideAt(steps, i);
    }
  }

  lemma {:induction false} SequenceWithin(env: Env, steps: seq<Node>, w: World, out: bool)
    requires ValidAll(steps) && (ExecuteSequence(env, steps, w).world.forked ==> out)
    ensures ResultsWithin(ExecuteSequence(env, steps, w).results, InsideAll(steps), out)
    decreases steps
  {
    if steps != [] {
      var S := InsideAll(steps);
      var first := Execute(env, steps[0], w);
      var w' := Publish(first.world, Reports(first.results));
      PublishGrows(first.world, Reports(first.results));
      ExecuteWithin(env, steps[0], w, out);
      ResultsWider(first.results, Inside(steps[0]), S, out);
      var conts := if steps[1..] == [] then [] else [SeqCont(steps[1..])];
      ExecuteShape(env, steps[0], w);
      if HasStatus(first.results, Paused) {
        StepsInside(steps);
        OneContWithin(SeqCont(steps[1..]), S, out);
        DeferWithin(first.results, conts, S, out);
      } else if !HasStatus(first.results, Failed) {
        var rest := ExecuteSequence(env, steps[1..], w');
        SequenceWithin(env, steps[1..], w', out);
        ResultsWider(rest.results, InsideAll(steps[1..]), S, out);
        ResultsWithinConcat(first.results, rest.results, S, out);
      }
    }
  }

  lemma {:induction false} BodyWithin(env: Env, loop: Node, index: nat, w: World, out: bool)
    requires loop.Loop? && Valid(loop) && index <= |loop.steps|
    requires ExecuteBody(env, loop, index, w).world.forked ==> out
    ensures ResultsWithin(ExecuteBody(env, loop, index, w).results, Inside(loop), out)
    decreases loop, 0, |loop.steps| - index
  {
    if index < |loop.steps| {
      ValidAllAt(loop.steps, index);
      InsideAt(loop.steps, index);
      var S := Inside(loop);
      var first := Execute(env, loop.steps[index], w);
      var w' := Publish(first.world, Reports(first.results));
      PublishGrows(first.world, Reports(first.results));
      ExecuteWithin(env, loop.steps[index], w, out);
      ResultsWider(first.results, Inside(loop.steps[index]), S, out);
      ExecuteShape(env, loop.steps[index], w);
      var conts := [LoopCont(loop, index + 1, None)];
      if HasStatus(first.results, Paused) {
        OneContWithin(conts[0], S, out);
        DeferWithin(first.results, conts, S, out);
      } else if !HasStatus(first.results, Failed) {
        BodyWithin(env, loop, index + 1, w', out);
        ResultsWithinConcat(first.results, ExecuteBody(env, loop, index + 1, w').results, S, out);
      }
    }
  }

  lemma {:induction false} IterationsWithin(env: Env, loop: Node, start: nat, started: bool, w: World, out: bool)
    requires loop.Loop? && Valid(loop) && start <= |loop.steps|
    requires RunIterations(env, loop, start, started, w).world.forked ==> out
    ensures ResultsWithin(RunIterations(env, loop, start, started, w).results, Inside(loop), out)
    decreases loop, 1, IterationsLeft(loop, started, w), 0
  {
    if started || Count(w, loop.name) < loop.limit {
      BodyWithin(env, loop, start, BeginIteration(loop, started, w), out);
      AfterBodyWithin(env, loop, ExecuteBody(env, loop, start, BeginIteration(loop, started, w)), out);
    }
  }

  lemma {:induction false} AfterBodyWithin(env: Env, loop: Node, body: Out, out: bool)
    requires loop.Loop? && Valid(loop) && (AfterBody(env, loop, body).world.forked ==> out)
    requires ResultsWithin(body.results, Inside(loop), out)
    ensures ResultsWithin(AfterBody(env, loop, body).results, Inside(loop), out)
    decreases loop, 1, IterationsLeft(loop, false, body.world), 1
  {
    if !ShouldStop(body.results) && !env.ask(loop.id, body.world.ctx, body.world.log) {
      var w' := Call(env, loop.id, Asked(loop.id), body.world);
      IterationsWithin(env, loop, 0, false, w', out);
      ResultsWithinConcat(body.results, RunIterations(env, loop, 0, false, w').results, Inside(loop), out);
    }
  }

  // Hence continuations write and touch no more than the tree does.
  ghost predicate Bounded(env: Env, S: set<Node>, writes: set<string>, touches: set<string>) {
    forall n :: n in S ==> Writes(n) <= writes && Touches(env, n) <= touches
  }

  lemma {:induction false} StepsNames(env: Env, steps: seq<Node>, S: set<Node>, writes: set<string>,
                                      touches: set<string>)
    requires Bounded(env, S, writes, touches) && forall s :: s in steps ==> s in S
    ensures WritesAll(steps) <= writes && TouchesAll(env, steps) <= touches
  {
    if steps != [] {
      assert steps[0] in S;
      StepsNames(env, steps[1..], S, writes, touches);
    }
  }

  lemma {:induction false} ContNames(env: Env, c: Cont, S: set<Node>, writes: set<string>, touches: set<string>)
    requires Bounded(env, S, writes, touches) && ContWithin(c, S, true)
    ensures ContWrites(c) <= writes && ContTouches(env, c) <= touches
    decreases c
  {
    match c
    case SeqCont(steps) => StepsNames(env, steps, S, writes, touches);
    case LoopCont(loop, _, previous) => assert loop in S;
    case OutCont(outputs) => ResultsNames(env, outputs, S, writes, touches);
  }

  lemma {:induction false} ContsNames(env: Env, cs: seq<Cont>, S: set<Node>, writes: set<string>,
                                      touches: set<string>)
    requires Bounded(env, S, writes, touches) && ContsWithin(cs, S, true)
    ensures ContsWrites(cs) <= writes && ContsTouches(env, cs) <= touches
    decreases cs
  {
    if cs != [] {
      ContNames(env, cs[0], S, writes, touches);
      ContsNames(env, cs[1..], S, writes, touches);
    }
  }

  lemma {:induction false} ResultsNames(env: Env, rs: seq<Result>, S: set<Node>, writes: set<string>,
                                        touches: set<string>)
    requires Bounded(env, S, writes, touches) && ResultsWithin(rs, S, true)
    ensures ResultsWrites(rs) <= writes && ResultsTouches(env, rs) <= touches
    decreases rs
  {
    if rs != [] {
      ContsNames(env, rs[0].conts, S, writes, touches);
      ResultsNames(env, rs[1..], S, writes, touches);
    }
  }

  lemma {:induction false} ExecuteNames(env: Env, node: Node, w: World)
    requires Valid(node)
    ensures ResultsWrites(Execute(env, node, w).results) <= Writes(node)
    ensures ResultsTouches(env, Execute(env, node, w).results) <= Touches(env, node)
  {
    ExecuteWithin(env, node, w, true);
    forall n | n in Inside(node)
      ensures Writes(n) <= Writes(node) && Touches(env, n) <= Touches(env, node)
    {
      InsideNames(env, node, n);
    }
    ResultsNames(env, Execute(env, node, w).results, Inside(node), Writes(node), Touches(env, node));
  }

  lemma {:induction false} BranchesNames(env: Env, steps: seq<Node>, w: World)
    requires ValidAll(steps)
    ensures ResultsWrites(ExecuteBranches(env, steps, w).results) <= WritesAll(steps)
    ensures ResultsTouches(env, ExecuteBranches(env, steps, w).results) <= TouchesAll(env, steps)
  {
    BranchesWithin(env, steps, w);
    forall n | n in InsideAll(steps)
      ensures Writes(n) <= WritesAll(steps) && Touches(env, n) <= TouchesAll(env, steps)
    {
      InsideAllNames(env, steps, n);
    }
    ResultsNames(env, ExecuteBranches(env, steps, w).results, InsideAll(steps), WritesAll(steps),
                 TouchesAll(env, steps));
  }
}
