/** Loops inside loops of the same name, which src/blackgeorge/workflow/nodes.py accepts: the inner loop
    resets the counter that bounds the outer one. */
module WorkflowNesting {
  import opened Common
  import opened WorkflowTree
  import opened WorkflowExec
  import opened WorkflowDirect
  import opened WorkflowScope
  import opened WorkflowBounds

  // ---- Iterations of a loop ---------------------------------------------------------------------

  // From the loop's guard on, n iterations begin one after the other.
  predicate Goes(env: Env, loop: Node, w: World, n: nat)
    requires loop.Loop? && ValidAll(loop.steps)
    decreases n
  {
    n == 0 ||
    (&& Count(w, loop.name) < loop.limit
     && (n == 1 ||
         var body := DirectSequence(env, loop.steps, BeginIteration(loop, false, w));
         && !AnyFailed(body.reports) && !env.ask(loop.id, body.world.ctx, body.world.log)
         && Goes(env, loop, Call(env, loop.id, Asked(loop.id), body.world), n - 1)))
  }

  /** A loop without a loop of its own name inside begins at most `limit` iterations. */
  lemma {:induction false} GoesWithinLimit(env: Env, loop: Node, w: World, n: nat)
    requires loop.Loop? && Valid(loop) && Goes(env, loop, w, n) && n > 0
    ensures Count(w, loop.name) + n <= loop.limit
    decreases n
  {
    if n > 1 {
      var body := DirectSequence(env, loop.steps, BeginIteration(loop, false, w));
      GoesWithinLimit(env, loop, Call(env, loop.id, Asked(loop.id), body.world), n - 1);
    }
  }

  // ---- A counter that counts is never back to zero ----------------------------------------------

  // A loop's counter only goes up while it runs.
  lemma {:induction false} CountsUp(env: Env, loop: Node, start: nat, started: bool, w: World)
    requires loop.Loop? && Valid(loop) && start <= |loop.steps|
    ensures var after := Count(DirectIterations(env, loop, start, started, w).world, loop.name);
            && after >= Count(w, loop.name)
            && (!started && Count(w, loop.name) < loop.limit ==> after > Count(w, loop.name))
    decreases IterationsLeft(loop, started, w), 0
  {
    if started || Count(w, loop.name) < loop.limit {
      ValidDrop(loop.steps, start);
      CountsUpAfter(env, loop, DirectSequence(env, loop.steps[start..], BeginIteration(loop, started, w)));
    }
  }

  lemma {:induction false} CountsUpAfter(env: Env, loop: Node, body: Done)
    requires loop.Loop? && Valid(loop)
    ensures Count(AfterIteration(env, loop, body).world, loop.name) >= Count(body.world, loop.name)
    decreases IterationsLeft(loop, false, body.world), 1
  {
    if !AnyFailed(body.reports) && !env.ask(loop.id, body.world.ctx, body.world.log) {
      CountsUp(env, loop, 0, false, Call(env, loop.id, Asked(loop.id), body.world));
    }
  }

  // No tree takes a positive counter to zero: a loop that sets it to zero begins an iteration at once.
  lemma {:induction false} StaysPositive(env: Env, node: Node, w: World, name: string)
    requires Valid(node) && Count(w, name) > 0
    ensures Count(Direct(env, node, w).world, name) > 0
    decreases node
  {
    match node
    case Step(_) =>
    case Parallel(_, steps) => BranchesStayPositive(env, steps, w.(forked := true), name);
    case Condition(id, ifTrue, ifFalse) =>
      var w' := Call(env, id, Asked(id), w);
      if env.ask(id, w.ctx, w.log) {
        SequenceStaysPositive(env, ifTrue, w', name);
      } else {
        SequenceStaysPositive(env, ifFalse, w', name);
      }
    case Router(id, routes) =>
      var route := FindRoute(routes, env.select(id, w.ctx, w.log));
      if route.Some? {
        ValidRouteAt(routes, route.value);
        SequenceStaysPositive(env, routes[route.value].steps, Call(env, id, Asked(id), w), name);
      }
    case Loop(_, _, _, _) =>
      if node.name == name {
        CountsUp(env, node, 0, false, EnterLoop(node, w));
      } else {
        IterationsStayPositive(env, node, 0, false, EnterLoop(node, w), name);
      }
  }

  lemma {:induction false} BranchesStayPositive(env: Env, steps: seq<Node>, w: World, name: string)
    requires ValidAll(steps) && Count(w, name) > 0
    ensures Count(DirectBranches(env, steps, w).world, name) > 0
    decreases steps
  {
    if steps != [] {
      StaysPositive(env, steps[0], w, name);
      BranchesStayPositive(env, steps[1..], Direct(env, steps[0], w).world, name);
    }
  }

  lemma {:induction false} SequenceStaysPositive(env: Env, steps: seq<Node>, w: World, name: string)
    requires ValidAll(steps) && Count(w, name) > 0
    ensures Count(DirectSequence(env, steps, w).world, name) > 0
    decreases steps
  {
    if steps != [] {
      var d := Direct(env, steps[0], w);
      StaysPositive(env, steps[0], w, name);
      PublishGrows(d.world, d.reports);
      if !AnyFailed(d.reports) {
        SequenceStaysPositive(env, steps[1..], Published(d).world, name);
      }
    }
  }

  lemma {:induction false} IterationsStayPositive(env: Env, loop: Node, start: nat, started: bool, w: World,
                                                  name: string)
    requires loop.Loop? && Valid(loop) && start <= |loop.steps| && loop.name != name && Count(w, name) > 0
    ensures Count(DirectIterations(env, loop, start, started, w).world, name) > 0
    decreases loop, 1, IterationsLeft(loop, started, w), 0
  {
    if started || Count(w, loop.name) < loop.limit {
      ValidDrop(loop.steps, start);
      var w' := BeginIteration(loop, started, w);
      SequenceStaysPositive(env, loop.steps[start..], w', name);
      AfterStaysPositive(env, loop, DirectSequence(env, loop.steps[start..], w'), name);
    }
  }

  lemma {:induction false} AfterStaysPositive(env: Env, loop: Node, body: Done, name: string)
    requires loop.Loop? && Valid(loop) && loop.name != name && Count(body.world, name) > 0
    ensures Count(AfterIteration(env, loop, body).world, name) > 0
    decreases loop, 1, IterationsLeft(loop, false, body.world), 1
  {
    if !AnyFailed(body.reports) && !env.ask(loop.id, body.world.ctx, body.world.log) {
      IterationsStayPositive(env, loop, 0, false, Call(env, loop.id, Asked(loop.id), body.world), name);
    }
  }

  // With a limit of one the second iteration never begins, whatever is inside.
  lemma {:induction false} LimitOneHolds(env: Env, loop: Node, w: World, n: nat)
    requires loop.Loop? && ValidAll(loop.steps) && loop.limit == 1 && Goes(env, loop, w, n)
    ensures n <= 1
  {
    if n > 1 {
      var w' := BeginIteration(loop, false, w);
      var body := DirectSequence(env, loop.steps, w');
      SequenceStaysPositive(env, loop.steps, w', loop.name);
    }
  }

  // ---- Steering a run to the inner loop ---------------------------------------------------------

  // Callbacks that stop every loop inside, and elsewhere choose a branch that has a loop of that name.
  ghost predicate Takes(loop: Node, id: nat)
    requires loop.Loop?
  {
    exists n :: n in InsideAll(loop.steps) && n.id == id
                && (n.Loop? || (n.Condition? && loop.name in WritesAll(n.ifTrue)))
  }

  function WritingKey(routes: seq<Route>, name: string): string {
    if routes == [] then ""
    else if name in WritesAll(routes[0].steps) then routes[0].key
    else WritingKey(routes[1..], name)
  }

  ghost function KeyFor(loop: Node, id: nat): string
    requires loop.Loop?
  {
    if exists n :: n in InsideAll(loop.steps) && n.id == id && n.Router? then
      var n :| n in InsideAll(loop.steps) && n.id == id && n.Router?;
      WritingKey(n.routes, loop.name)
    else ""
  }

  ghost function Steering(loop: Node): Env
    requires loop.Loop?
  {
    Env((id: nat, c: Context, l: seq<Event>) => Takes(loop, id),
        (id: nat, c: Context, l: seq<Event>) => KeyFor(loop, id),
        (id: nat, c: Context, l: seq<Event>) => Script(0, true, ""),
        (id: nat, c: Context, l: seq<Event>) => c.artifacts,
        (artifacts: map<string, string>) => Some(artifacts), (r: Report) => Some(r), (s: RunState) => Some(s),
        (id: nat) => {})
  }

  // An identity tells the executable, as it does in Python.
  ghost predicate Identified(loop: Node) {
    forall m, n :: m in Inside(loop) && n in Inside(loop) && m.id == n.id ==> m == n
  }

  lemma {:induction false} OuterGoesOn(loop: Node)
    requires loop.Loop? && Identified(loop)
    ensures !Takes(loop, loop.id)
  {
    forall n | n in InsideAll(loop.steps)
      ensures n.id != loop.id
    {
      InsideAllSmaller(loop.steps, n);
      assert n in Inside(loop) && loop in Inside(loop);
    }
  }

  lemma {:induction false} SteersWhatItSees(loop: Node, n: Node)
    requires loop.Loop? && Identified(loop) && n in InsideAll(loop.steps)
    ensures Takes(loop, n.id) <==> n.Loop? || (n.Condition? && loop.name in WritesAll(n.ifTrue))
    ensures n.Router? ==> KeyFor(loop, n.id) == WritingKey(n.routes, loop.name)
  {
    assert forall m :: m in InsideAll(loop.steps) ==> m in Inside(loop);
  }

  lemma {:induction false} WritingRoute(routes: seq<Route>, name: string)
    requires name in WritesRoutes(routes)
    requires forall i, j :: 0 <= i < j < |routes| ==> routes[i].key != routes[j].key
    ensures var route := FindRoute(routes, WritingKey(routes, name));
            route.Some? && name in WritesAll(routes[route.value].steps)
  {
    if name !in WritesAll(routes[0].steps) {
      var rest := routes[1..];
      assert forall i :: 0 <= i < |rest| ==> rest[i] == routes[i + 1];
      WritingRoute(rest, name);
      var route := FindRoute(rest, WritingKey(rest, name));
      assert routes[0].key != rest[route.value].key;
    }
  }

  // Nothing has failed, and where the name is written the counter has come to one.
  predicate Steered(d: Done, name: string, writes: set<string>) {
    !AnyFailed(d.reports) && (name in writes ==> Count(d.world, name) == 1)
  }

  lemma {:induction false} SteeredTwice(first: Done, rest: Done, name: string, before: set<string>,
                                        after: set<string>)
    requires Steered(first, name, before) && Steered(rest, name, after) && Grows(first.world, rest.world, after)
    ensures Steered(Prepend(first.reports, rest), name, before + after)
  {
    var all := first.reports + rest.reports;
    forall i | 0 <= i < |all|
      ensures all[i].status != Failed
    {
      if i < |first.reports| {
        assert all[i] == first.reports[i];
      } else {
        assert all[i] == rest.reports[i - |first.reports|];
      }
    }
  }

  lemma {:induction false} SteersNode(loop: Node, node: Node, w: World)
    requires loop.Loop? && Identified(loop) && Valid(node) && Inside(node) <= InsideAll(loop.steps)
    ensures Steered(Direct(Steering(loop), node, w), loop.name, Writes(node))
    decreases node
  {
    var env, name := Steering(loop), loop.name;
    assert node in Inside(node);
    SteersWhatItSees(loop, node);
    match node
    case Step(_) =>
    case Parallel(_, steps) => SteersBranches(loop, steps, w.(forked := true));
    case Condition(id, ifTrue, ifFalse) =>
      var w' := Call(env, id, Asked(id), w);
      if Takes(loop, id) {
        SteersSequence(loop, ifTrue, w');
      } else {
        SteersSequence(loop, ifFalse, w');
      }
    case Router(id, routes) => SteersRouter(loop, node, w);
    case Loop(_, _, _, _) => SteersLoop(loop, node, w);
  }

  lemma {:induction false} SteersRouter(loop: Node, node: Node, w: World)
    requires loop.Loop? && Identified(loop) && Valid(node) && Inside(node) <= InsideAll(loop.steps) && node.Router?
    ensures Steered(Direct(Steering(loop), node, w), loop.name, Writes(node))
    decreases node, 0
  {
    assert node in Inside(node);
    SteersWhatItSees(loop, node);
    var routes := node.routes;
    var route := FindRoute(routes, KeyFor(loop, node.id));
    if loop.name in WritesRoutes(routes) {
      WritingRoute(routes, loop.name);
    }
    if route.Some? {
      ValidRouteAt(routes, route.value);
      InsideRouteAt(routes, route.value);
      SteersSequence(loop, routes[route.value].steps, Call(Steering(loop), node.id, Asked(node.id), w));
    }
  }

  lemma {:induction false} SteersBranches(loop: Node, steps: seq<Node>, w: World)
    requires loop.Loop? && Identified(loop) && ValidAll(steps) && InsideAll(steps) <= InsideAll(loop.steps)
    ensures Steered(DirectBranches(Steering(loop), steps, w), loop.name, WritesAll(steps))
    decreases steps
  {
    if steps != [] {
      var first := Direct(Steering(loop), steps[0], w);
      SteersNode(loop, steps[0], w);
      SteersBranches(loop, steps[1..], first.world);
      SteeredTwice(first, DirectBranches(Steering(loop), steps[1..], first.world), loop.name, Writes(steps[0]),
                   WritesAll(steps[1..]));
    }
  }

  lemma {:induction false} SteersSequence(loop: Node, steps: seq<Node>, w: World)
    requires loop.Loop? && Identified(loop) && ValidAll(steps) && InsideAll(steps) <= InsideAll(loop.steps)
    ensures Steered(DirectSequence(Steering(loop), steps, w), loop.name, WritesAll(steps))
    decreases steps
  {
    if steps != [] {
      var d := Direct(Steering(loop), steps[0], w);
      SteersNode(loop, steps[0], w);
      PublishGrows(d.world, d.reports);
      var first := Published(d);
      SteersSequence(loop, steps[1..], first.world);
      SteeredTwice(first, DirectSequence(Steering(loop), steps[1..], first.world), loop.name, Writes(steps[0]),
                   WritesAll(steps[1..]));
    }
  }

  // An inner loop is stopped after its first iteration.
  lemma {:induction false} SteersLoop(loop: Node, node: Node, w: World)
    requires loop.Loop? && Identified(loop) && Valid(node) && Inside(node) <= InsideAll(loop.steps) && node.Loop?
    ensures Steered(Direct(Steering(loop), node, w), loop.name, Writes(node))
    decreases node, 0
  {
    var env := Steering(loop);
    assert node in Inside(node);
    SteersWhatItSees(loop, node);
    var w' := BeginIteration(node, false, EnterLoop(node, w));
    assert node.steps[0..] == node.steps;
    SteersSequence(loop, node.steps, w');
    var body := DirectSequence(env, node.steps, w');
    assert AfterIteration(env, node, body) == body.(world := Call(env, node.id, Asked(node.id), body.world));
    assert Count(EnterLoop(node, w), node.name) == 0;
    assert Direct(env, node, w) == AfterIteration(env, node, body);
    assert Count(w', node.name) == 1;
  }

  lemma {:induction false} GoesOn(loop: Node, w: World, n: nat)
    requires loop.Loop? && ValidAll(loop.steps) && Identified(loop)
    requires loop.limit >= 2 && loop.name in WritesAll(loop.steps) && Count(w, loop.name) <= 1
    ensures Goes(Steering(loop), loop, w, n)
    decreases n
  {
    if n > 1 {
      var w' := BeginIteration(loop, false, w);
      var body := DirectSequence(Steering(loop), loop.steps, w');
      SteersSequence(loop, loop.steps, w');
      OuterGoesOn(loop);
      GoesOn(loop, Call(Steering(loop), loop.id, Asked(loop.id), body.world), n - 1);
    }
  }

  // ---- When the bound holds ---------------------------------------------------------------------

  // Whatever callbacks and runners do, at most `limit` iterations begin once the loop was entered.
  ghost predicate KeepsToLimit(loop: Node)
    requires loop.Loop? && ValidAll(loop.steps)
  {
    forall env, w, n: nat :: Goes(env, loop, EnterLoop(loop, w), n) ==> n <= loop.limit
  }

  /** For a loop with anything inside: it begins at most `limit` iterations, whatever callbacks and runners
      do, if and only if its limit is one or no loop inside, at any depth, has its name; otherwise there are
      callbacks with which it never stops. */
  lemma {:induction false} SameNameBoundIff(loop: Node)
    requires loop.Loop? && loop.steps != [] && loop.limit >= 1 && loop.name != "" && ValidAll(loop.steps)
    requires Identified(loop)
    ensures KeepsToLimit(loop) <==> loop.limit == 1 || loop.name !in WritesAll(loop.steps)
    ensures !KeepsToLimit(loop) ==> forall w, n: nat :: Goes(Steering(loop), loop, EnterLoop(loop, w), n)
  {
    if loop.limit == 1 {
      forall env, w, n: nat | Goes(env, loop, EnterLoop(loop, w), n)
        ensures n <= loop.limit
      {
        LimitOneHolds(env, loop, EnterLoop(loop, w), n);
      }
    } else if loop.name !in WritesAll(loop.steps) {
      forall env, w, n: nat | Goes(env, loop, EnterLoop(loop, w), n)
        ensures n <= loop.limit
      {
        if n > 0 {
          GoesWithinLimit(env, loop, EnterLoop(loop, w), n);
        }
      }
    } else {
      forall w, n: nat
        ensures Goes(Steering(loop), loop, EnterLoop(loop, w), n)
      {
        GoesOn(loop, EnterLoop(loop, w), n);
      }
      var w: World := World(Context([], map[], map[]), [], 0, false);
      assert Goes(Steering(loop), loop, EnterLoop(loop, w), loop.limit + 1);
    }
  }
}
