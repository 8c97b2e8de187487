/** Callbacks that look at loop counters only: what a tree does then depends on the counters it
    touches and on nothing else, which is what makes parallel branches independent. */
module WorkflowLocality {
  import opened Common
  import opened WorkflowTree
  import opened WorkflowExec
  import opened WorkflowDirect

  // The same, as far as a callback can tell that looks at these counters, or at EVERYTHING.
  ghost predicate Alike(names: set<string>, c1: Context, l1: seq<Event>, c2: Context, l2: seq<Event>) {
    && (EVERYTHING in names ==> c1 == c2 && l1 == l2)
    && forall x :: x in names ==>
         (if x in c1.loops then c1.loops[x] else 0) == if x in c2.loops then c2.loops[x] else 0
  }

  // `looksAt` tells the truth.
  ghost predicate Local(env: Env) {
    && (forall id, c1, l1, c2, l2 :: Alike(env.looksAt(id), c1, l1, c2, l2) ==>
          env.ask(id, c1, l1) == env.ask(id, c2, l2))
    && (forall id, c1, l1, c2, l2 :: Alike(env.looksAt(id), c1, l1, c2, l2) ==>
          env.select(id, c1, l1) == env.select(id, c2, l2))
    && (forall id, c1, l1, c2, l2 :: Alike(env.looksAt(id), c1, l1, c2, l2) ==>
          env.run(id, c1, l1) == env.run(id, c2, l2))
  }

  // The loop names a tree writes or its callbacks look at.
  function Touches(env: Env, node: Node): set<string>
    decreases node
  {
    match node
    case Step(id) => env.looksAt(id)
    case Parallel(_, steps) => TouchesAll(env, steps)
    case Condition(id, ifTrue, ifFalse) => env.looksAt(id) + TouchesAll(env, ifTrue) + TouchesAll(env, ifFalse)
    case Router(id, routes) => env.looksAt(id) + TouchesRoutes(env, routes)
    case Loop(id, name, _, steps) => {name} + env.looksAt(id) + TouchesAll(env, steps)
  }

  function TouchesAll(env: Env, steps: seq<Node>): set<string>
    decreases steps
  {
    if steps == [] then {} else Touches(env, steps[0]) + TouchesAll(env, steps[1..])
  }

  function TouchesRoutes(env: Env, routes: seq<Route>): set<string>
    decreases routes
  {
    if routes == [] then {} else TouchesAll(env, routes[0].steps) + TouchesRoutes(env, routes[1..])
  }

  function ContTouches(env: Env, c: Cont): set<string>
    decreases c
  {
    match c
    case SeqCont(steps) => TouchesAll(env, steps)
    case LoopCont(loop, _, previous) => Touches(env, loop) + if previous.Some? then {previous.value} else {}
    case OutCont(outputs) => ResultsTouches(env, outputs)
  }

  function ContsTouches(env: Env, cs: seq<Cont>): set<string>
    decreases cs
  {
    if cs == [] then {} else ContTouches(env, cs[0]) + ContsTouches(env, cs[1..])
  }

  function ResultsTouches(env: Env, rs: seq<Result>): set<string>
    decreases rs
  {
    if rs == [] then {} else ContsTouches(env, rs[0].conts) + ResultsTouches(env, rs[1..])
  }

  lemma {:induction false} TouchesDrop(env: Env, steps: seq<Node>, i: nat)
    requires i <= |steps|
    ensures TouchesAll(env, steps[i..]) <= TouchesAll(env, steps)
  {
    if i > 0 {
      TouchesDrop(env, steps[1..], i - 1);
      assert steps[1..][i - 1..] == steps[i..];
    }
  }

  lemma {:induction false} TouchesRouteAt(env: Env, routes: seq<Route>, i: nat)
    requires i < |routes|
    ensures TouchesAll(env, routes[i].steps) <= TouchesRoutes(env, routes)
  {
    if i > 0 {
      TouchesRouteAt(env, routes[1..], i - 1);
    }
  }

  ghost predicate Agree(names: set<string>, a: World, b: World) {
    forall x :: x in names ==> Count(a, x) == Count(b, x)
  }

  // From a to a' the same happened as from b to b', as far as these counters can tell.
  ghost predicate SameShift(names: set<string>, a: World, a': World, b: World, b': World) {
    && Grows(a, a', names) && Grows(b, b', names)
    && a'.log[|a.log|..] == b'.log[|b.log|..]
    && a'.answered - a.answered == b'.answered - b.answered
    && Agree(names, a', b')
  }

  lemma {:induction false} ShiftTrans(names: set<string>, a: World, a1: World, a2: World, b: World, b1: World,
                                      b2: World)
    requires SameShift(names, a, a1, b, b1) && SameShift(names, a1, a2, b1, b2)
    ensures SameShift(names, a, a2, b, b2)
  {
    GrowsTrans(a, a1, a2, names);
    GrowsTrans(b, b1, b2, names);
    assert a2.log[|a.log|..] == a1.log[|a.log|..] + a2.log[|a1.log|..] by {
      assert a2.log[|a.log|..|a1.log|] == a2.log[..|a1.log|][|a.log|..];
    }
    assert b2.log[|b.log|..] == b1.log[|b.log|..] + b2.log[|b1.log|..] by {
      assert b2.log[|b.log|..|b1.log|] == b2.log[..|b1.log|][|b.log|..];
    }
  }

  lemma {:induction false} ShiftPublish(names: set<string>, a: World, xs: seq<Report>, b: World, ys: seq<Report>)
    requires Agree(names, a, b)
    ensures SameShift(names, a, Publish(a, xs), b, Publish(b, ys))
  {
    PublishGrows(a, xs);
    PublishGrows(b, ys);
    GrowsWider(a, Publish(a, xs), {}, names);
    GrowsWider(b, Publish(b, ys), {}, names);
  }

  lemma {:induction false} ShiftCall(env: Env, names: set<string>, a: World, b: World, id: nat, e: Event)
    requires Agree(names, a, b)
    ensures SameShift(names, a, Call(env, id, e, a), b, Call(env, id, e, b))
  {
  }

  lemma {:induction false} AlikeFromAgree(names: set<string>, wider: set<string>, a: World, b: World)
    requires Agree(wider, a, b) && names <= wider && EVERYTHING !in wider
    ensures Alike(names, a.ctx, a.log, b.ctx, b.log)
  {
    forall x | x in names
      ensures (if x in a.ctx.loops then a.ctx.loops[x] else 0) == if x in b.ctx.loops then b.ctx.loops[x] else 0
    {
      assert Count(a, x) == Count(b, x);
    }
  }

  // The same reports, and the same shift.
  ghost predicate SameRun(names: set<string>, a: World, da: Done, b: World, db: Done) {
    SameReports(da.reports, db.reports) && SameShift(names, a, da.world, b, db.world)
  }

  lemma {:induction false} SameAtOnce(names: set<string>, a: World, b: World)
    requires Agree(names, a, b)
    ensures SameRun(names, a, Done([], a), b, Done([], b))
  {
  }

  // First a to a' and b to b', and the same from there on.
  lemma {:induction false} SameAfter(names: set<string>, a: World, a': World, da: Done, b: World, b': World,
                                     db: Done)
    requires SameShift(names, a, a', b, b') && SameRun(names, a', da, b', db)
    ensures SameRun(names, a, da, b, db)
  {
    ShiftTrans(names, a, a', da.world, b, b', db.world);
  }

  lemma {:induction false} SameThen(names: set<string>, a: World, da: Done, ka: Done, b: World, db: Done, kb: Done)
    requires SameRun(names, a, da, b, db) && SameRun(names, da.world, ka, db.world, kb)
    ensures SameRun(names, a, Prepend(da.reports, ka), b, Prepend(db.reports, kb))
  {
    ShiftTrans(names, a, da.world, ka.world, b, db.world, kb.world);
    SameConcat(da.reports, db.reports, ka.reports, kb.reports);
  }

  lemma {:induction false} SamePublished(names: set<string>, a: World, da: Done, b: World, db: Done)
    requires SameRun(names, a, da, b, db)
    ensures SameRun(names, a, Published(da), b, Published(db))
  {
    ShiftPublish(names, da.world, da.reports, db.world, db.reports);
    ShiftTrans(names, a, da.world, Published(da).world, b, db.world, Published(db).world);
  }

  // ---- Trees that touch these counters only -----------------------------------------------------

  /** A tree whose callbacks look at loop counters only does the same in any two worlds that agree on
      the counters it touches: the same reports, history, pauses and counters. */
  lemma {:induction false} LocalNode(env: Env, node: Node, names: set<string>, a: World, b: World)
    requires Local(env) && Valid(node) && Touches(env, node) <= names && EVERYTHING !in names && Agree(names, a, b)
    ensures SameRun(names, a, Direct(env, node, a), b, Direct(env, node, b))
    decreases node
  {
    match node
    case Step(id) => LocalStep(env, id, names, a, b);
    case Parallel(_, steps) =>
      LocalBranches(env, steps, names, a.(forked := true), b.(forked := true));
      LocalGathered(env, node, names, a, b);
    case Condition(id, ifTrue, ifFalse) =>
      LocalAsk(env, names, a, b, id);
      var a', b' := Call(env, id, Asked(id), a), Call(env, id, Asked(id), b);
      if env.ask(id, a.ctx, a.log) {
        LocalSequence(env, ifTrue, names, a', b');
      } else {
        LocalSequence(env, ifFalse, names, a', b');
      }
      SameAfter(names, a, a', Direct(env, node, a), b, b', Direct(env, node, b));
    case Router(id, routes) =>
      LocalAsk(env, names, a, b, id);
      var a', b' := Call(env, id, Asked(id), a), Call(env, id, Asked(id), b);
      var route := FindRoute(routes, env.select(id, a.ctx, a.log));
      if route.Some? {
        ValidRouteAt(routes, route.value);
        TouchesRouteAt(env, routes, route.value);
        LocalSequence(env, routes[route.value].steps, names, a', b');
        SameAfter(names, a, a', Direct(env, node, a), b, b', Direct(env, node, b));
      }
    case Loop(_, _, _, _) =>
      var a', b' := EnterLoop(node, a), EnterLoop(node, b);
      assert SameShift(names, a, a', b, b');
      LocalIterations(env, node, 0, false, names, a', b');
      SameAfter(names, a, a', Direct(env, node, a), b, b', Direct(env, node, b));
  }

  lemma {:induction false} LocalAsk(env: Env, names: set<string>, a: World, b: World, id: nat)
    requires Local(env) && env.looksAt(id) <= names && EVERYTHING !in names && Agree(names, a, b)
    ensures env.ask(id, a.ctx, a.log) == env.ask(id, b.ctx, b.log)
    ensures env.select(id, a.ctx, a.log) == env.select(id, b.ctx, b.log)
    ensures env.run(id, a.ctx, a.log) == env.run(id, b.ctx, b.log)
    ensures SameShift(names, a, Call(env, id, Asked(id), a), b, Call(env, id, Asked(id), b))
  {
    AlikeFromAgree(env.looksAt(id), names, a, b);
    ShiftCall(env, names, a, b, id, Asked(id));
  }

  lemma {:induction false} LocalStep(env: Env, id: nat, names: set<string>, a: World, b: World)
    requires Local(env) && env.looksAt(id) <= names && EVERYTHING !in names && Agree(names, a, b)
    ensures SameRun(names, a, Direct(env, Step(id), a), b, Direct(env, Step(id), b))
  {
    LocalAsk(env, names, a, b, id);
    ShiftCall(env, names, a, b, id, Started(id));
  }

  lemma {:induction false} LocalGathered(env: Env, node: Node, names: set<string>, a: World, b: World)
    requires node.Parallel? && Valid(node) && Agree(names, a, b)
    requires var a', b' := a.(forked := true), b.(forked := true);
             SameRun(names, a', DirectBranches(env, node.steps, a'), b', DirectBranches(env, node.steps, b'))
    ensures SameRun(names, a, Direct(env, node, a), b, Direct(env, node, b))
  {
    var a', b' := a.(forked := true), b.(forked := true);
    var da, db := DirectBranches(env, node.steps, a'), DirectBranches(env, node.steps, b');
    assert SameShift(names, a, a', b, b');
    SameAfter(names, a, a', da, b, b', db);
    SameFailures(da.reports, db.reports);
  }

  lemma {:induction false} LocalBranches(env: Env, steps: seq<Node>, names: set<string>, a: World, b: World)
    requires Local(env) && ValidAll(steps) && TouchesAll(env, steps) <= names && EVERYTHING !in names
    requires Agree(names, a, b)
    ensures SameRun(names, a, DirectBranches(env, steps, a), b, DirectBranches(env, steps, b))
    decreases steps
  {
    if steps == [] {
      SameAtOnce(names, a, b);
    } else {
      var da, db := Direct(env, steps[0], a), Direct(env, steps[0], b);
      LocalNode(env, steps[0], names, a, b);
      LocalBranches(env, steps[1..], names, da.world, db.world);
      SameThen(names, a, da, DirectBranches(env, steps[1..], da.world), b, db,
               DirectBranches(env, steps[1..], db.world));
    }
  }

  lemma {:induction false} LocalSequence(env: Env, steps: seq<Node>, names: set<string>, a: World, b: World)
    requires Local(env) && ValidAll(steps) && TouchesAll(env, steps) <= names && EVERYTHING !in names
    requires Agree(names, a, b)
    ensures SameRun(names, a, DirectSequence(env, steps, a), b, DirectSequence(env, steps, b))
    decreases steps
  {
    if steps == [] {
      SameAtOnce(names, a, b);
    } else {
      var da, db := Published(Direct(env, steps[0], a)), Published(Direct(env, steps[0], b));
      LocalNode(env, steps[0], names, a, b);
      SamePublished(names, a, Direct(env, steps[0], a), b, Direct(env, steps[0], b));
      SameFailures(da.reports, db.reports);
      if !AnyFailed(da.reports) {
        LocalSequence(env, steps[1..], names, da.world, db.world);
        SameThen(names, a, da, DirectSequence(env, steps[1..], da.world), b, db,
                 DirectSequence(env, steps[1..], db.world));
      }
    }
  }

  lemma {:induction false} LocalIterations(env: Env, loop: Node, start: nat, started: bool, names: set<string>,
                                           a: World, b: World)
    requires loop.Loop? && Valid(loop) && start <= |loop.steps|
    requires Local(env) && Touches(env, loop) <= names && EVERYTHING !in names && Agree(names, a, b)
    ensures SameRun(names, a, DirectIterations(env, loop, start, started, a),
                    b, DirectIterations(env, loop, start, started, b))
    decreases loop, 1, IterationsLeft(loop, started, a), 0
  {
    assert loop.name in names;
    assert Count(a, loop.name) == Count(b, loop.name);
    if started || Count(a, loop.name) < loop.limit {
      var a1, b1 := BeginIteration(loop, started, a), BeginIteration(loop, started, b);
      assert SameShift(names, a, a1, b, b1);
      ValidDrop(loop.steps, start);
      TouchesDrop(env, loop.steps, start);
      var da, db := DirectSequence(env, loop.steps[start..], a1), DirectSequence(env, loop.steps[start..], b1);
      LocalSequence(env, loop.steps[start..], names, a1, b1);
      SameAfter(names, a, a1, da, b, b1, db);
      LocalAfter(env, loop, names, a, da, b, db);
    } else {
      SameAtOnce(names, a, b);
    }
  }

  // After one iteration: `stop` decides alike, and so does everything after it.
  lemma {:induction false} LocalAfter(env: Env, loop: Node, names: set<string>, a: World, da: Done, b: World,
                                      db: Done)
    requires loop.Loop? && Valid(loop)
    requires Local(env) && Touches(env, loop) <= names && EVERYTHING !in names && SameRun(names, a, da, b, db)
    ensures SameRun(names, a, AfterIteration(env, loop, da), b, AfterIteration(env, loop, db))
    decreases loop, 1, IterationsLeft(loop, false, da.world), 1
  {
    SameFailures(da.reports, db.reports);
    if !AnyFailed(da.reports) {
      LocalAsk(env, names, da.world, db.world, loop.id);
      var a2, b2 := Call(env, loop.id, Asked(loop.id), da.world), Call(env, loop.id, Asked(loop.id), db.world);
      ShiftTrans(names, a, da.world, a2, b, db.world, b2);
      if !env.ask(loop.id, da.world.ctx, da.world.log) {
        var ka, kb := DirectIterations(env, loop, 0, false, a2), DirectIterations(env, loop, 0, false, b2);
        LocalIterations(env, loop, 0, false, names, a2, b2);
        SameThen(names, a, Done(da.reports, a2), ka, b, Done(db.reports, b2), kb);
      }
    }
  }

  // ---- Continuations and answers ----------------------------------------------------------------

  lemma {:induction false} LocalCont(env: Env, c: Cont, names: set<string>, a: World, b: World)
    requires Local(env) && ValidCont(c) && ContTouches(env, c) <= names && EVERYTHING !in names && Agree(names, a, b)
    ensures SameRun(names, a, DirectCont(env, c, a), b, DirectCont(env, c, b))
    decreases c
  {
    match c
    case SeqCont(steps) => LocalSequence(env, steps, names, a, b);
    case LoopCont(loop, start, previous) =>
      var a', b' := Renamed(loop, previous, a), Renamed(loop, previous, b);
      assert previous.Some? ==> Count(a, previous.value) == Count(b, previous.value);
      assert SameShift(names, a, a', b, b');
      LocalIterations(env, loop, start, true, names, a', b');
      SameAfter(names, a, a', DirectCont(env, c, a), b, b', DirectCont(env, c, b));
    case OutCont(outputs) => LocalAnswers(env, outputs, names, a, b);
  }

  lemma {:induction false} LocalConts(env: Env, cs: seq<Cont>, names: set<string>, a: World, b: World)
    requires Local(env) && ValidConts(cs) && ContsTouches(env, cs) <= names && EVERYTHING !in names
             && Agree(names, a, b)
    ensures SameRun(names, a, DirectConts(env, cs, a), b, DirectConts(env, cs, b))
    decreases cs
  {
    if cs == [] {
      SameAtOnce(names, a, b);
    } else {
      var da, db := Published(DirectCont(env, cs[0], a)), Published(DirectCont(env, cs[0], b));
      LocalCont(env, cs[0], names, a, b);
      SamePublished(names, a, DirectCont(env, cs[0], a), b, DirectCont(env, cs[0], b));
      SameFailures(da.reports, db.reports);
      if !AnyFailed(da.reports) {
        LocalConts(env, cs[1..], names, da.world, db.world);
        SameThen(names, a, da, DirectConts(env, cs[1..], da.world), b, db, DirectConts(env, cs[1..], db.world));
      }
    }
  }

  lemma {:induction false} LocalAnswers(env: Env, results: seq<Result>, names: set<string>, a: World, b: World)
    requires Local(env) && ValidResults(results) && ResultsTouches(env, results) <= names && EVERYTHING !in names
    requires Agree(names, a, b)
    ensures SameRun(names, a, AnswerAll(env, results, a), b, AnswerAll(env, results, b))
    decreases results
  {
    if results == [] {
      SameAtOnce(names, a, b);
    } else {
      var da, db := AnswerOne(env, results[0], a), AnswerOne(env, results[0], b);
      LocalAnswer(env, results[0], names, a, b);
      SameFailures(da.reports, db.reports);
      if !AnyFailed(da.reports) {
        LocalAnswers(env, results[1..], names, da.world, db.world);
        SameThen(names, a, da, AnswerAll(env, results[1..], da.world), b, db, AnswerAll(env, results[1..], db.world));
      }
    }
  }

  lemma {:induction false} LocalAnswer(env: Env, result: Result, names: set<string>, a: World, b: World)
    requires Local(env) && CarriesState(result) && ValidConts(result.conts)
    requires ContsTouches(env, result.conts) <= names && EVERYTHING !in names && Agree(names, a, b)
    ensures SameRun(names, a, AnswerOne(env, result, a), b, AnswerOne(env, result, b))
    decreases result
  {
    if result.report.status != Paused {
      ShiftPublish(names, a, [result.report], b, [result.report]);
    } else {
      var s := result.state.value;
      var a1, b1 := a.(answered := a.answered + s.left + 1), b.(answered := b.answered + s.left + 1);
      var da, db := Answer(s, a), Answer(s, b);
      assert SameShift(names, a, a1, b, b1);
      ShiftPublish(names, a1, da.reports, b1, db.reports);
      SameAfter(names, a, a1, da, b, b1, db);
      if !AnyFailed(da.reports) {
        LocalConts(env, result.conts, names, da.world, db.world);
        SameThen(names, a, da, DirectConts(env, result.conts, da.world), b, db,
                 DirectConts(env, result.conts, db.world));
      }
    }
  }
}
