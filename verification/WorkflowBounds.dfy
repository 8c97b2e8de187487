/** How often a loop body starts, and when a paused flow can be stored at all. */
module WorkflowBounds {
  import opened Common
  import opened WorkflowTree
  import opened WorkflowExec
  import opened WorkflowDirect
  import opened WorkflowLocality
  import opened WorkflowScope
  import opened WorkflowGraph
  import opened WorkflowAgreement
  import opened WorkflowFlow
  import opened WorkflowTransparency

  // ---- Iterations in a history ------------------------------------------------------------------

  type Log = seq<Event>

  // How many iterations of the loop `id` have begun since it was last entered.
  function SinceEntered(id: nat, log: Log): nat
    decreases |log|
  {
    if log == [] then 0
    else
      var before, last := log[..|log| - 1], log[|log| - 1];
      if last == Entered(id) then 0 else SinceEntered(id, before) + if last == Iterated(id) then 1 else 0
  }

  // Since the loop was entered at most `limit` iterations have begun, and none before.
  predicate Allowed(id: nat, limit: nat, log: Log) {
    SinceEntered(id, log) <= if Entered(id) in log then limit else 0
  }

  // At every moment of the history.
  ghost predicate WithinLimit(id: nat, limit: nat, log: Log) {
    forall k :: 0 <= k <= |log| ==> Allowed(id, limit, log[..k])
  }

  lemma {:induction false} OneMoreEvent(id: nat, limit: nat, log: Log, e: Event)
    ensures SinceEntered(id, log + [e])
            == if e == Entered(id) then 0 else SinceEntered(id, log) + if e == Iterated(id) then 1 else 0
    ensures WithinLimit(id, limit, log) && Allowed(id, limit, log + [e]) ==> WithinLimit(id, limit, log + [e])
  {
    var longer := log + [e];
    assert longer[..|log|] == log;
    if WithinLimit(id, limit, log) && Allowed(id, limit, longer) {
      forall k | 0 <= k <= |longer|
        ensures Allowed(id, limit, longer[..k])
      {
        if k <= |log| {
          assert longer[..k] == log[..k];
        } else {
          assert longer[..k] == longer;
        }
      }
    }
  }

  lemma {:induction false} LimitNow(id: nat, limit: nat, log: Log)
    requires WithinLimit(id, limit, log)
    ensures Allowed(id, limit, log)
  {
    assert log[..|log|] == log;
  }

  lemma {:induction false} OtherEvent(id: nat, limit: nat, log: Log, e: Event)
    requires WithinLimit(id, limit, log) && e.id != id
    ensures WithinLimit(id, limit, log + [e]) && SinceEntered(id, log + [e]) == SinceEntered(id, log)
    ensures Entered(id) in log + [e] <==> Entered(id) in log
  {
    LimitNow(id, limit, log);
    OneMoreEvent(id, limit, log, e);
  }

  // How often an event is in a history.
  function Times(e: Event, log: Log): nat {
    multiset(log)[e]
  }

  // Over the whole history: every time but the last one took at most `limit` iterations.
  predicate InAll(id: nat, limit: nat, log: Log) {
    var entered, iterated := Times(Entered(id), log), Times(Iterated(id), log);
    if entered == 0 then iterated == 0 else iterated <= limit * (entered - 1) + SinceEntered(id, log)
  }

  // Another time adds the limit.
  lemma {:induction false} OneMoreTime(limit: nat, entered: nat, iterated: nat, now: nat)
    requires entered > 0 && now <= limit && iterated <= limit * (entered - 1) + now
    ensures iterated <= limit * entered
  {
    assert limit * entered == limit * (entered - 1) + limit;
  }

  lemma {:induction false} TimesOneMore(e: Event, log: Log, last: Event)
    ensures Times(e, log + [last]) == Times(e, log) + if last == e then 1 else 0
    ensures e in log <==> Times(e, log) > 0
  {
    assert multiset(log + [last]) == multiset(log) + multiset{last};
  }

  lemma {:induction false} InAllOneMore(id: nat, limit: nat, log: Log, last: Event)
    requires InAll(id, limit, log) && Allowed(id, limit, log) && Allowed(id, limit, log + [last])
    ensures InAll(id, limit, log + [last])
  {
    var entered, iterated, now := Times(Entered(id), log), Times(Iterated(id), log), SinceEntered(id, log);
    OneMoreEvent(id, limit, log, last);
    TimesOneMore(Entered(id), log, last);
    TimesOneMore(Iterated(id), log, last);
    TimesOneMore(Entered(id), log + [last], last);
    if last == Entered(id) && entered > 0 {
      OneMoreTime(limit, entered, iterated, now);
    }
  }

  lemma {:induction false} LimitInAll(id: nat, limit: nat, log: Log)
    requires WithinLimit(id, limit, log)
    ensures InAll(id, limit, log)
    decreases |log|
  {
    if log != [] {
      var before, last := log[..|log| - 1], log[|log| - 1];
      assert log == before + [last];
      forall k | 0 <= k <= |before|
        ensures Allowed(id, limit, before[..k])
      {
        assert before[..k] == log[..k];
      }
      LimitInAll(id, limit, before);
      LimitNow(id, limit, before);
      LimitNow(id, limit, log);
      InAllOneMore(id, limit, before, last);
    }
  }

  // A history with no more events than one within the limit, or with the same ones.
  lemma {:induction false} LimitTransfers(id: nat, limit: nat, log: Log, reference: Log)
    requires WithinLimit(id, limit, reference) && multiset(log) <= multiset(reference)
    ensures Times(Iterated(id), log) <= limit * Times(Entered(id), reference)
  {
    LimitInAll(id, limit, reference);
    LimitNow(id, limit, reference);
    var entered := Times(Entered(id), reference);
    if entered > 0 {
      assert limit * entered == limit * (entered - 1) + limit;
    }
    assert multiset(log)[Iterated(id)] <= multiset(reference)[Iterated(id)];
  }

  // ---- What trees do to a history ---------------------------------------------------------------

  // Of the nodes in S only `loop` itself has its identity.
  predicate OnlyLoop(loop: Node, S: set<Node>) {
    forall n :: n in S && n.id == loop.id ==> n == loop
  }

  // The property stands every event of other nodes.
  ghost predicate Indifferent(P: Log -> bool, id: nat) {
    forall log, e: Event :: P(log) && e.id != id ==> P(log + [e])
  }

  // Running the loop keeps the property.
  ghost predicate LoopKeepsIt(env: Env, P: Log -> bool, loop: Node)
    requires Valid(loop)
  {
    forall w: World :: P(w.log) ==> P(Direct(env, loop, w).world.log)
  }

  // What is asked of a property of histories so that trees over S keep it.
  ghost predicate Keepable(env: Env, P: Log -> bool, loop: Node, S: set<Node>)
    requires Valid(loop)
  {
    OnlyLoop(loop, S) && Indifferent(P, loop.id) && (loop in S ==> LoopKeepsIt(env, P, loop))
  }

  lemma {:induction false} LogKept(env: Env, node: Node, w: World, P: Log -> bool, loop: Node)
    requires Valid(loop) && Keepable(env, P, loop, Inside(node)) && Valid(node) && P(w.log)
    ensures P(Direct(env, node, w).world.log)
    decreases node
  {
    if node != loop {
      match node
      case Step(id) =>
      case Parallel(_, steps) => LogKeptBranches(env, steps, w.(forked := true), P, loop);
      case Condition(id, ifTrue, ifFalse) =>
        var w' := Call(env, id, Asked(id), w);
        if env.ask(id, w.ctx, w.log) {
          LogKeptSequence(env, ifTrue, w', P, loop);
        } else {
          LogKeptSequence(env, ifFalse, w', P, loop);
        }
      case Router(id, routes) =>
        var w' := Call(env, id, Asked(id), w);
        var route := FindRoute(routes, env.select(id, w.ctx, w.log));
        if route.Some? {
          ValidRouteAt(routes, route.value);
          InsideRouteAt(routes, route.value);
          LogKeptSequence(env, routes[route.value].steps, w', P, loop);
        }
      case Loop(_, _, _, _) => LogKeptIterations(env, node, 0, false, EnterLoop(node, w), P, loop);
    }
  }

  lemma {:induction false} LogKeptBranches(env: Env, steps: seq<Node>, w: World, P: Log -> bool, loop: Node)
    requires Valid(loop) && Keepable(env, P, loop, InsideAll(steps)) && ValidAll(steps) && P(w.log)
    ensures P(DirectBranches(env, steps, w).world.log)
    decreases steps
  {
    if steps != [] {
      LogKept(env, steps[0], w, P, loop);
      LogKeptBranches(env, steps[1..], Direct(env, steps[0], w).world, P, loop);
    }
  }

  lemma {:induction false} LogKeptSequence(env: Env, steps: seq<Node>, w: World, P: Log -> bool, loop: Node)
    requires Valid(loop) && Keepable(env, P, loop, InsideAll(steps)) && ValidAll(steps) && P(w.log)
    ensures P(DirectSequence(env, steps, w).world.log)
    decreases steps
  {
    if steps != [] {
      var d := Direct(env, steps[0], w);
      LogKept(env, steps[0], w, P, loop);
      PublishGrows(d.world, d.reports);
      if !AnyFailed(d.reports) {
        LogKeptSequence(env, steps[1..], Published(d).world, P, loop);
      }
    }
  }

  lemma {:induction false} LogKeptIterations(env: Env, other: Node, start: nat, started: bool, w: World,
          P: Log -> bool, loop: Node)
    requires Valid(loop) && other.Loop? && Valid(other) && start <= |other.steps| && other.id != loop.id
    requires Keepable(env, P, loop, InsideAll(other.steps)) && P(w.log)
    ensures P(DirectIterations(env, other, start, started, w).world.log)
    decreases other, 1, IterationsLeft(other, started, w), 0
  {
    if started || Count(w, other.name) < other.limit {
      var w' := BeginIteration(other, started, w);
      ValidDrop(other.steps, start);
      InsideDrop(other.steps, start);
      LogKeptSequence(env, other.steps[start..], w', P, loop);
      LogKeptAfter(env, other, DirectSequence(env, other.steps[start..], w'), P, loop);
    }
  }

  lemma {:induction false} LogKeptAfter(env: Env, other: Node, body: Done, P: Log -> bool, loop: Node)
    requires Valid(loop) && other.Loop? && Valid(other) && other.id != loop.id
    requires Keepable(env, P, loop, InsideAll(other.steps)) && P(body.world.log)
    ensures P(AfterIteration(env, other, body).world.log)
    decreases other, 1, IterationsLeft(other, false, body.world), 1
  {
    if !AnyFailed(body.reports) && !env.ask(other.id, body.world.ctx, body.world.log) {
      LogKeptIterations(env, other, 0, false, Call(env, other.id, Asked(other.id), body.world), P, loop);
    }
  }

  lemma {:induction false} InsideDrop(steps: seq<Node>, i: nat)
    requires i <= |steps|
    ensures InsideAll(steps[i..]) <= InsideAll(steps)
  {
    if i > 0 {
      InsideDrop(steps[1..], i - 1);
      assert steps[1..][i - 1..] == steps[i..];
    }
  }

  // ---- A loop -----------------------------------------------------------------------------------

  // The counter says how many iterations have begun since the loop was entered.
  ghost predicate Counted(loop: Node, w: World)
    requires loop.Loop?
  {
    && WithinLimit(loop.id, loop.limit, w.log) && Entered(loop.id) in w.log
    && Count(w, loop.name) == SinceEntered(loop.id, w.log)
  }

  // Steps without the loop begin none of its iterations and leave its counter alone.
  lemma {:induction false} BodyCounted(env: Env, loop: Node, start: nat, w: World)
    requires loop.Loop? && Valid(loop) && start <= |loop.steps| && Counted(loop, w)
    requires forall n :: n in InsideAll(loop.steps) ==> n.id != loop.id
    ensures ValidAll(loop.steps[start..])
    ensures var after := DirectSequence(env, loop.steps[start..], w).world;
            Counted(loop, after) && Count(after, loop.name) == Count(w, loop.name)
  {
    var id, n := loop.id, SinceEntered(loop.id, w.log);
    var P: Log -> bool :=
      log => WithinLimit(id, loop.limit, log) && SinceEntered(id, log) == n && Entered(id) in log;
    forall log, e: Event | P(log) && e.id != id
      ensures P(log + [e])
    {
      OtherEvent(id, loop.limit, log, e);
    }
    ValidDrop(loop.steps, start);
    InsideDrop(loop.steps, start);
    LogKeptSequence(env, loop.steps[start..], w, P, loop);
  }

  /** Finishing or running iterations of a loop keeps its counter at the number of iterations begun
      since it was entered, and both within the limit. */
  lemma {:induction false} IterationsCounted(env: Env, loop: Node, start: nat, started: bool, w: World)
    requires loop.Loop? && Valid(loop) && start <= |loop.steps| && Counted(loop, w)
    requires forall n :: n in InsideAll(loop.steps) ==> n.id != loop.id
    ensures Counted(loop, DirectIterations(env, loop, start, started, w).world)
    decreases IterationsLeft(loop, started, w), 0
  {
    if started || Count(w, loop.name) < loop.limit {
      var w' := BeginIteration(loop, started, w);
      OneMoreEvent(loop.id, loop.limit, w.log, Iterated(loop.id));
      BodyCounted(env, loop, start, w');
      AfterCounted(env, loop, DirectSequence(env, loop.steps[start..], w'));
    }
  }

  lemma {:induction false} AfterCounted(env: Env, loop: Node, body: Done)
    requires loop.Loop? && Valid(loop) && Counted(loop, body.world)
    requires forall n :: n in InsideAll(loop.steps) ==> n.id != loop.id
    ensures Counted(loop, AfterIteration(env, loop, body).world)
    decreases IterationsLeft(loop, false, body.world), 1
  {
    if !AnyFailed(body.reports) {
      var w' := Call(env, loop.id, Asked(loop.id), body.world);
      OneMoreEvent(loop.id, loop.limit, body.world.log, Asked(loop.id));
      LimitNow(loop.id, loop.limit, body.world.log);
      if !env.ask(loop.id, body.world.ctx, body.world.log) {
        IterationsCounted(env, loop, 0, false, w');
      }
    }
  }

  /** A run of a loop begins at most `limit` iterations after it is entered. */
  lemma {:induction false} LoopBound(env: Env, loop: Node, w: World)
    requires loop.Loop? && Valid(loop) && WithinLimit(loop.id, loop.limit, w.log)
    requires forall n :: n in InsideAll(loop.steps) ==> n.id != loop.id
    ensures Counted(loop, Direct(env, loop, w).world)
  {
    OneMoreEvent(loop.id, loop.limit, w.log, Entered(loop.id));
    IterationsCounted(env, loop, 0, false, EnterLoop(loop, w));
  }

  // ---- A loop anywhere in a flow ----------------------------------------------------------------

  function Size(node: Node): nat
    decreases node
  {
    1 +
    match node
    case Step(_) => 0
    case Parallel(_, steps) => SizeAll(steps)
    case Condition(_, ifTrue, ifFalse) => SizeAll(ifTrue) + SizeAll(ifFalse)
    case Router(_, routes) => SizeRoutes(routes)
    case Loop(_, _, _, steps) => SizeAll(steps)
  }

  function SizeAll(steps: seq<Node>): nat
    decreases steps
  {
    if steps == [] then 0 else Size(steps[0]) + SizeAll(steps[1..])
  }

  function SizeRoutes(routes: seq<Route>): nat
    decreases routes
  {
    if routes == [] then 0 else SizeAll(routes[0].steps) + SizeRoutes(routes[1..])
  }

  lemma {:induction false} InsideSmaller(node: Node, n: Node)
    requires n in Inside(node)
    ensures Size(n) <= Size(node)
    decreases node
  {
    if n != node {
      match node
      case Step(_) =>
      case Parallel(_, steps) => InsideAllSmaller(steps, n);
      case Condition(_, ifTrue, ifFalse) =>
        if n in InsideAll(ifTrue) {
          InsideAllSmaller(ifTrue, n);
        } else {
          InsideAllSmaller(ifFalse, n);
        }
      case Router(_, routes) => InsideRoutesSmaller(routes, n);
      case Loop(_, _, _, steps) => InsideAllSmaller(steps, n);
    }
  }

  lemma {:induction false} InsideAllSmaller(steps: seq<Node>, n: Node)
    requires n in InsideAll(steps)
    ensures Size(n) <= SizeAll(steps)
    decreases steps
  {
    if n in Inside(steps[0]) {
      InsideSmaller(steps[0], n);
    } else {
      InsideAllSmaller(steps[1..], n);
    }
  }

  lemma {:induction false} InsideRoutesSmaller(routes: seq<Route>, n: Node)
    requires n in InsideRoutes(routes)
    ensures Size(n) <= SizeRoutes(routes)
    decreases routes
  {
    if n in InsideAll(routes[0].steps) {
      InsideAllSmaller(routes[0].steps, n);
    } else {
      InsideRoutesSmaller(routes[1..], n);
    }
  }

  // Where instances are used once, an identity tells the executable.
  lemma {:induction false} IdentityTells(steps: seq<Node>, m: Node, n: Node)
    requires UniqueIds(Graph(steps)) && m in InsideAll(steps) && n in InsideAll(steps) && m.id == n.id
    ensures m == n
  {
    var es := Graph(steps);
    assert steps[0..] == steps;
    EntriesYield(steps, 0, [], m);
    EntriesYield(steps, 0, [], n);
    var a :| 0 <= a < |es| && es[a].node == m;
    var b :| 0 <= b < |es| && es[b].node == n;
    assert a == b;
  }

  lemma {:induction false} NotInItself(steps: seq<Node>, loop: Node)
    requires UniqueIds(Graph(steps)) && loop in InsideAll(steps) && loop.Loop?
    ensures OnlyLoop(loop, InsideAll(steps))
    ensures forall n :: n in InsideAll(loop.steps) ==> n.id != loop.id
  {
    forall n | n in InsideAll(steps) && n.id == loop.id
      ensures n == loop
    {
      IdentityTells(steps, n, loop);
    }
    forall n | n in InsideAll(loop.steps)
      ensures n.id != loop.id
    {
      InsideAllTwice(steps, loop, n);
      InsideAllSmaller(loop.steps, n);
    }
  }

  /** In the run in which every pause is answered on the spot: wherever a loop is in a flow, at no moment
      have more than `limit` of its iterations begun since it was last entered. */
  lemma {:induction false} FlowLoopBound(env: Env, steps: seq<Node>, loop: Node)
    requires ValidAll(steps) && UniqueIds(Graph(steps)) && loop in InsideAll(steps) && loop.Loop?
    ensures WithinLimit(loop.id, loop.limit, DirectFlow(env, steps).world.log)
  {
    var id, limit := loop.id, loop.limit;
    var P: Log -> bool := log => WithinLimit(id, limit, log);
    InsideAllValid(steps, loop);
    NotInItself(steps, loop);
    forall log, e: Event | P(log) && e.id != id
      ensures P(log + [e])
    {
      OtherEvent(id, limit, log, e);
    }
    forall w: World | P(w.log)
      ensures P(Direct(env, loop, w).world.log)
    {
      LoopBound(env, loop, w);
    }
    assert START.log[..0] == [];
    LogKeptSequence(env, steps, START, P, loop);
  }

  /** The same for a flow that is paused, stored and resumed any number of times: the iterations before
      and after every resume count together. After a Parallel, where only the order of the history may
      differ, at most `limit` iterations begin for every time the in-place run enters the loop, and if
      that completes, for every time the loop is entered. */
  lemma {:induction false} LoopBoundAcrossPauses(env: Env, steps: seq<Node>, loop: Node) returns (n: nat)
    requires ValidAll(steps) && SuitsAll(env, steps) && UniqueIds(Graph(steps)) && Tame(env)
    requires loop in InsideAll(steps) && loop.Loop?
    ensures var direct := DirectFlow(env, steps);
            var f := Drive(env, steps, Run(env, steps), n);
            && !direct.FlowPaused? && !f.FlowPaused?
            && (!direct.world.forked ==> WithinLimit(loop.id, loop.limit, f.world.log))
            && Times(Iterated(loop.id), f.world.log) <= loop.limit * Times(Entered(loop.id), direct.world.log)
            && (direct.FlowCompleted? ==>
                  Times(Iterated(loop.id), f.world.log) <= loop.limit * Times(Entered(loop.id), f.world.log))
  {
    n := ParallelKeepsSiblings(env, steps);
    var direct, f := DirectFlow(env, steps), Drive(env, steps, Run(env, steps), n);
    FlowLoopBound(env, steps, loop);
    LimitTransfers(loop.id, loop.limit, f.world.log, direct.world.log);
    if direct.FlowCompleted? {
      assert Times(Entered(loop.id), f.world.log) == Times(Entered(loop.id), direct.world.log);
    }
  }

  // ---- When a pause can be stored ---------------------------------------------------------------

  // Every executable that a continuation mentions occurs exactly once in the graph.
  predicate Addressable(es: seq<Entry>, c: Cont)
    decreases c
  {
    match c
    case SeqCont(steps) => forall s :: s in steps ==> |Occurrences(es, s.id)| == 1
    case LoopCont(loop, _, _) => loop.Loop? && |Occurrences(es, loop.id)| == 1
    case OutCont(outputs) => AddressableResults(es, outputs)
  }

  predicate AddressableAll(es: seq<Entry>, cs: seq<Cont>)
    decreases cs
  {
    cs == [] || (Addressable(es, cs[0]) && AddressableAll(es, cs[1..]))
  }

  predicate AddressableResults(es: seq<Entry>, rs: seq<Result>)
    decreases rs
  {
    rs == [] || (AddressableAll(es, rs[0].conts) && AddressableResults(es, rs[1..]))
  }

  lemma {:induction false} StepsStored(es: seq<Entry>, steps: seq<Node>)
    ensures SerializeSteps(es, steps).Some? <==> forall s :: s in steps ==> |Occurrences(es, s.id)| == 1
  {
    if steps != [] {
      StepsStored(es, steps[1..]);
      assert steps == [steps[0]] + steps[1..];
    }
  }

  lemma {:induction false} ContStored(es: seq<Entry>, c: Cont)
    ensures SerializeCont(es, c).Some? <==> Addressable(es, c)
    decreases c
  {
    match c
    case SeqCont(steps) => StepsStored(es, steps);
    case LoopCont(_, _, _) =>
    case OutCont(outputs) => ResultsStored(es, outputs);
  }

  lemma {:induction false} ContsStored(es: seq<Entry>, cs: seq<Cont>)
    ensures SerializeConts(es, cs).Some? <==> AddressableAll(es, cs)
    decreases cs
  {
    if cs != [] {
      ContStored(es, cs[0]);
      ContsStored(es, cs[1..]);
    }
  }

  lemma {:induction false} ResultsStored(es: seq<Entry>, rs: seq<Result>)
    ensures SerializeResults(es, rs).Some? <==> AddressableResults(es, rs)
    decreases rs
  {
    if rs != [] {
      ContsStored(es, rs[0].conts);
      ResultsStored(es, rs[1..]);
    }
  }

  // All reports and states that a continuation holds can be written as JSON.
  predicate Writable(env: Env, c: Cont)
    decreases c
  {
    c.OutCont? ==> WritableResults(env, c.outputs)
  }

  predicate WritableAll(env: Env, cs: seq<Cont>)
    decreases cs
  {
    cs == [] || (Writable(env, cs[0]) && WritableAll(env, cs[1..]))
  }

  predicate WritableResults(env: Env, rs: seq<Result>)
    decreases rs
  {
    rs == [] ||
    (&& env.dump(rs[0].report).Some? && (rs[0].state.Some? ==> env.freeze(rs[0].state.value).Some?)
     && WritableAll(env, rs[0].conts) && WritableResults(env, rs[1..]))
  }

  lemma {:induction false} ReportsWritten(env: Env, rs: seq<Report>)
    ensures DumpReports(env, rs).Some? <==> forall r :: r in rs ==> env.dump(r).Some?
  {
    if rs != [] {
      ReportsWritten(env, rs[1..]);
      assert rs == [rs[0]] + rs[1..];
    }
  }

  // Writing the reports and states of a continuation changes none of the executables it mentions.
  lemma {:induction false} ContWritten(env: Env, es: seq<Entry>, c: Cont)
    ensures DumpCont(env, c).Some? <==> Writable(env, c)
    ensures Writable(env, c) ==> (Addressable(es, DumpCont(env, c).value) <==> Addressable(es, c))
    decreases c
  {
    if c.OutCont? {
      ResultsWritten(env, es, c.outputs);
    }
  }

  lemma {:induction false} ContsWritten(env: Env, es: seq<Entry>, cs: seq<Cont>)
    ensures DumpConts(env, cs).Some? <==> WritableAll(env, cs)
    ensures WritableAll(env, cs) ==> (AddressableAll(es, DumpConts(env, cs).value) <==> AddressableAll(es, cs))
    decreases cs
  {
    if cs != [] {
      ContWritten(env, es, cs[0]);
      ContsWritten(env, es, cs[1..]);
      if WritableAll(env, cs) {
        var first, rest := DumpCont(env, cs[0]).value, DumpConts(env, cs[1..]).value;
        assert DumpConts(env, cs).value == [first] + rest && ([first] + rest)[1..] == rest;
      }
    }
  }

  lemma {:induction false} ResultsWritten(env: Env, es: seq<Entry>, rs: seq<Result>)
    ensures DumpResults(env, rs).Some? <==> WritableResults(env, rs)
    ensures WritableResults(env, rs) ==>
              (AddressableResults(es, DumpResults(env, rs).value) <==> AddressableResults(es, rs))
    decreases rs
  {
    if rs != [] {
      ContsWritten(env, es, rs[0].conts);
      ResultsWritten(env, es, rs[1..]);
      if WritableResults(env, rs) {
        var rest := DumpResults(env, rs[1..]).value;
        var first := DumpResults(env, rs).value[0];
        assert DumpResults(env, rs).value == [first] + rest && ([first] + rest)[1..] == rest;
      }
    }
  }

  /** A pause is stored if and only if every executable that its continuations mention occurs exactly once
      in the flow, and the context's artifacts, all accepted reports, the state of the paused runner, and the
      reports and states of the siblings behind it can be written as JSON; otherwise the run fails. */
  lemma {:induction false} PauseStoredIff(env: Env, steps: seq<Node>, report: Report, pending: RunState, index: nat,
                                          all: seq<Report>, w: World, conts: seq<Cont>)
    ensures PauseFlow(env, Graph(steps), report, pending, index, all, w, conts).FlowPaused?
            <==> AddressableAll(Graph(steps), conts) && env.encode(w.ctx.artifacts).Some?
                 && (forall r :: r in all ==> env.dump(r).Some?) && env.freeze(pending).Some?
                 && WritableAll(env, conts)
  {
    ReportsWritten(env, all);
    ContsWritten(env, Graph(steps), conts);
    if WritableAll(env, conts) {
      ContsStored(Graph(steps), DumpConts(env, conts).value);
    }
  }
}
