/** A run that stops at pauses and the reference meaning agree: answering what the run left open
    gives what answering every pause on the spot gives, but for the order of the history once a
    Parallel has been executed. */
module WorkflowAgreement {
  import opened Common
  import opened WorkflowTree
  import opened WorkflowExec
  import opened WorkflowDirect
  import opened WorkflowAnswers
  import opened WorkflowLocality
  import opened WorkflowScope

  // ---- What is asked of callbacks ---------------------------------------------------------------

  // No branch writes a loop counter that another branch touches.
  predicate Apart(env: Env, steps: seq<Node>) {
    steps == [] ||
    (&& Writes(steps[0]) !! TouchesAll(env, steps[1..])
     && Touches(env, steps[0]) !! WritesAll(steps[1..])
     && Apart(env, steps[1..]))
  }

  // All callbacks look at loop counters only, and branches are apart.
  predicate Loose(env: Env, node: Node)
    decreases node
  {
    match node
    case Step(id) => EVERYTHING !in env.looksAt(id)
    case Parallel(_, steps) => Apart(env, steps) && LooseAll(env, steps)
    case Condition(id, ifTrue, ifFalse) =>
      EVERYTHING !in env.looksAt(id) && LooseAll(env, ifTrue) && LooseAll(env, ifFalse)
    case Router(id, routes) => EVERYTHING !in env.looksAt(id) && LooseRoutes(env, routes)
    case Loop(id, _, _, steps) => EVERYTHING !in env.looksAt(id) && LooseAll(env, steps)
  }

  predicate LooseAll(env: Env, steps: seq<Node>)
    decreases steps
  {
    steps == [] || (Loose(env, steps[0]) && LooseAll(env, steps[1..]))
  }

  predicate LooseRoutes(env: Env, routes: seq<Route>)
    decreases routes
  {
    routes == [] || (LooseAll(env, routes[0].steps) && LooseRoutes(env, routes[1..]))
  }

  /** Callbacks inside a Parallel, and callbacks that may be asked after one, look at loop counters only;
      all others may look at the context and at the whole history. */
  ghost predicate Suits(env: Env, node: Node)
    decreases node
  {
    match node
    case Step(_) => true
    case Parallel(_, _) => Local(env) && Loose(env, node)
    case Condition(_, ifTrue, ifFalse) => SuitsAll(env, ifTrue) && SuitsAll(env, ifFalse)
    case Router(_, routes) => SuitsRoutes(env, routes)
    case Loop(_, _, _, _) => NoParallel(node) || (Local(env) && Loose(env, node))
  }

  ghost predicate SuitsAll(env: Env, steps: seq<Node>)
    decreases steps
  {
    steps == [] ||
    (&& Suits(env, steps[0]) && SuitsAll(env, steps[1..])
     && (NoParallel(steps[0]) || (Local(env) && LooseAll(env, steps[1..]))))
  }

  ghost predicate SuitsRoutes(env: Env, routes: seq<Route>)
    decreases routes
  {
    routes == [] || (SuitsAll(env, routes[0].steps) && SuitsRoutes(env, routes[1..]))
  }

  // What is asked of a tree before or after the first Parallel of a run.
  ghost predicate Fit(env: Env, node: Node, forked: bool) {
    if forked then Local(env) && Loose(env, node) else Suits(env, node)
  }

  ghost predicate FitAll(env: Env, steps: seq<Node>, forked: bool) {
    if forked then Local(env) && LooseAll(env, steps) else SuitsAll(env, steps)
  }

  lemma {:induction false} LooseAt(env: Env, steps: seq<Node>, i: nat)
    requires LooseAll(env, steps) && i < |steps|
    ensures Loose(env, steps[i])
  {
    if i > 0 {
      LooseAt(env, steps[1..], i - 1);
    }
  }

  lemma {:induction false} FitRouteAt(env: Env, routes: seq<Route>, i: nat, forked: bool)
    requires i < |routes|
    requires if forked then Local(env) && LooseRoutes(env, routes) else SuitsRoutes(env, routes)
    ensures FitAll(env, routes[i].steps, forked)
  {
    if i > 0 {
      FitRouteAt(env, routes[1..], i - 1, forked);
    }
  }

  lemma {:induction false} LooseSuits(env: Env, node: Node)
    requires Local(env) && Loose(env, node)
    ensures Suits(env, node)
    decreases node
  {
    match node
    case Step(_) =>
    case Parallel(_, _) =>
    case Condition(_, ifTrue, ifFalse) =>
      LooseSuitAll(env, ifTrue);
      LooseSuitAll(env, ifFalse);
    case Router(_, routes) => LooseSuitRoutes(env, routes);
    case Loop(_, _, _, _) =>
  }

  lemma {:induction false} LooseSuitAll(env: Env, steps: seq<Node>)
    requires Local(env) && LooseAll(env, steps)
    ensures SuitsAll(env, steps)
    decreases steps
  {
    if steps != [] {
      LooseSuits(env, steps[0]);
      LooseSuitAll(env, steps[1..]);
    }
  }

  lemma {:induction false} LooseSuitRoutes(env: Env, routes: seq<Route>)
    requires Local(env) && LooseRoutes(env, routes)
    ensures SuitsRoutes(env, routes)
    decreases routes
  {
    if routes != [] {
      LooseSuitAll(env, routes[0].steps);
      LooseSuitRoutes(env, routes[1..]);
    }
  }

  // The first step fits, and once it has run, which may have forked the run, so do the others.
  lemma {:induction false} FitRest(env: Env, steps: seq<Node>, forked: bool, after: bool)
    requires FitAll(env, steps, forked) && steps != []
    requires (forked ==> after) && (NoParallel(steps[0]) ==> after == forked)
    ensures Fit(env, steps[0], forked) && FitAll(env, steps[1..], after)
  {
    if !forked && !NoParallel(steps[0]) {
      LooseSuitAll(env, steps[1..]);
    }
  }

  lemma {:induction false} FitDrop(env: Env, loop: Node, index: nat, forked: bool)
    requires loop.Loop? && Fit(env, loop, forked) && index <= |loop.steps|
    ensures FitAll(env, loop.steps[index..], forked)
  {
    if forked || !NoParallel(loop) {
      LooseDrop(env, loop.steps, index);
      LooseSuitAll(env, loop.steps[index..]);
    } else {
      NoParallelDrop(loop.steps, index);
      NoParallelsSuit(env, loop.steps[index..]);
    }
  }

  lemma {:induction false} LooseDrop(env: Env, steps: seq<Node>, i: nat)
    requires LooseAll(env, steps) && i <= |steps|
    ensures LooseAll(env, steps[i..])
  {
    if i > 0 {
      LooseDrop(env, steps[1..], i - 1);
      assert steps[1..][i - 1..] == steps[i..];
    }
  }

  // A loop fits before, between and after its iterations.
  lemma {:induction false} FitLoop(env: Env, loop: Node, forked: bool, after: bool)
    requires loop.Loop? && Fit(env, loop, forked)
    requires (forked ==> after) && (NoParallel(loop) ==> after == forked)
    ensures Fit(env, loop, after)
  {
  }

  lemma {:induction false} FitInLoop(env: Env, loop: Node, index: nat, forked: bool)
    requires loop.Loop? && Fit(env, loop, forked) && index < |loop.steps|
    ensures Fit(env, loop.steps[index], forked)
  {
    if forked || !NoParallel(loop) {
      LooseAt(env, loop.steps, index);
      LooseSuits(env, loop.steps[index]);
    } else {
      NoParallelAt(loop.steps, index);
      NoParallelSuits(env, loop.steps[index]);
    }
  }

  lemma {:induction false} NoParallelSuits(env: Env, node: Node)
    requires NoParallel(node)
    ensures Suits(env, node)
    decreases node
  {
    match node
    case Step(_) =>
    case Condition(_, ifTrue, ifFalse) =>
      NoParallelsSuit(env, ifTrue);
      NoParallelsSuit(env, ifFalse);
    case Router(_, routes) => NoParallelRoutesSuit(env, routes);
    case Loop(_, _, _, _) =>
  }

  lemma {:induction false} NoParallelsSuit(env: Env, steps: seq<Node>)
    requires NoParallels(steps)
    ensures SuitsAll(env, steps)
    decreases steps
  {
    if steps != [] {
      NoParallelSuits(env, steps[0]);
      NoParallelsSuit(env, steps[1..]);
    }
  }

  lemma {:induction false} NoParallelRoutesSuit(env: Env, routes: seq<Route>)
    requires NoParallelRoutes(routes)
    ensures SuitsRoutes(env, routes)
    decreases routes
  {
    if routes != [] {
      NoParallelsSuit(env, routes[0].steps);
      NoParallelRoutesSuit(env, routes[1..]);
    }
  }

  lemma {:induction false} LooseTouches(env: Env, node: Node)
    requires Valid(node) && Loose(env, node)
    ensures EVERYTHING !in Touches(env, node)
    decreases node
  {
    match node
    case Step(_) =>
    case Parallel(_, steps) => LooseTouchesAll(env, steps);
    case Condition(_, ifTrue, ifFalse) =>
      LooseTouchesAll(env, ifTrue);
      LooseTouchesAll(env, ifFalse);
    case Router(_, routes) => LooseTouchesRoutes(env, routes);
    case Loop(_, _, _, steps) => LooseTouchesAll(env, steps);
  }

  lemma {:induction false} LooseTouchesAll(env: Env, steps: seq<Node>)
    requires ValidAll(steps) && LooseAll(env, steps)
    ensures EVERYTHING !in TouchesAll(env, steps)
    decreases steps
  {
    if steps != [] {
      LooseTouches(env, steps[0]);
      LooseTouchesAll(env, steps[1..]);
    }
  }

  lemma {:induction false} LooseTouchesRoutes(env: Env, routes: seq<Route>)
    requires ValidRoutes(routes) && LooseRoutes(env, routes)
    ensures EVERYTHING !in TouchesRoutes(env, routes)
    decreases routes
  {
    if routes != [] {
      LooseTouchesAll(env, routes[0].steps);
      LooseTouchesRoutes(env, routes[1..]);
    }
  }

  // ---- What it means to agree -------------------------------------------------------------------

  ghost predicate SameCounts(a: World, b: World) {
    forall x: string :: Count(a, x) == Count(b, x)
  }

  // The same but for the order of the history and what depends on it.
  ghost predicate LikeWorld(a: World, b: World) {
    && SameCounts(a, b) && a.answered == b.answered && multiset(a.log) == multiset(b.log)
    && a.forked == b.forked
  }

  // b is the reference; once a Parallel has been executed, only the order of the history may differ.
  ghost predicate SameWorld(a: World, b: World) {
    if b.forked then LikeWorld(a, b) else a == b
  }

  /** x against the reference y: the same as long as y executed no Parallel. After one, the same status,
      nothing asked, started or answered more often, and the same reports and counters unless the run
      fails. */
  ghost predicate Matches(x: Done, y: Done) {
    if !y.world.forked then x == y
    else
      && (AnyFailed(x.reports) <==> AnyFailed(y.reports))
      && x.world.answered <= y.world.answered
      && multiset(x.world.log) <= multiset(y.world.log)
      && (!AnyFailed(y.reports) ==> SameReports(x.reports, y.reports) && LikeWorld(x.world, y.world))
  }

  lemma {:induction false} MatchTrans(x: Done, y: Done, z: Done)
    requires Matches(x, y) && Matches(y, z)
    ensures Matches(x, z)
  {
  }

  lemma {:induction false} MatchThen(x: Done, kx: Done, y: Done, ky: Done)
    requires Matches(x, y)
    requires !AnyFailed(y.reports) ==> Matches(kx, ky) && (y.world.forked ==> ky.world.forked)
    ensures Matches(Then(x, kx), Then(y, ky))
  {
    AnyFailedSplit(x.reports, kx.reports);
    AnyFailedSplit(y.reports, ky.reports);
  }

  // ---- Equal starts lead to equal ends ----------------------------------------------------------

  lemma {:induction false} ShiftMatches(names: set<string>, a: World, da: Done, b: World, db: Done)
    requires LikeWorld(a, b) && b.forked && SameRun(names, a, da, b, db)
    ensures Matches(da, db)
  {
    assert da.world.log == a.log + da.world.log[|a.log|..];
    assert db.world.log == b.log + db.world.log[|b.log|..];
    SameFailures(da.reports, db.reports);
    forall x: string
      ensures Count(da.world, x) == Count(db.world, x)
    {
      assert Count(a, x) == Count(b, x);
    }
  }

  lemma {:induction false} CongruentSequence(env: Env, steps: seq<Node>, a: World, b: World)
    requires ValidAll(steps) && SameWorld(a, b) && FitAll(env, steps, b.forked)
    ensures Matches(DirectSequence(env, steps, a), DirectSequence(env, steps, b))
  {
    if b.forked {
      var names := TouchesAll(env, steps);
      LooseTouchesAll(env, steps);
      LocalSequence(env, steps, names, a, b);
      ShiftMatches(names, a, DirectSequence(env, steps, a), b, DirectSequence(env, steps, b));
    }
  }

  lemma {:induction false} CongruentIterations(env: Env, loop: Node, start: nat, started: bool, a: World, b: World)
    requires loop.Loop? && Valid(loop) && start <= |loop.steps| && SameWorld(a, b) && Fit(env, loop, b.forked)
    ensures Matches(DirectIterations(env, loop, start, started, a), DirectIterations(env, loop, start, started, b))
  {
    if b.forked {
      var names := Touches(env, loop);
      LooseTouches(env, loop);
      LocalIterations(env, loop, start, started, names, a, b);
      ShiftMatches(names, a, DirectIterations(env, loop, start, started, a), b,
                   DirectIterations(env, loop, start, started, b));
    }
  }

  lemma {:induction false} CongruentConts(env: Env, cs: seq<Cont>, a: World, b: World)
    requires ValidConts(cs) && SameWorld(a, b)
    requires b.forked ==> Local(env) && EVERYTHING !in ContsTouches(env, cs)
    ensures Matches(DirectConts(env, cs, a), DirectConts(env, cs, b))
  {
    if b.forked {
      var names := ContsTouches(env, cs);
      LocalConts(env, cs, names, a, b);
      ShiftMatches(names, a, DirectConts(env, cs, a), b, DirectConts(env, cs, b));
    }
  }

  // ---- Small facts about result lists -----------------------------------------------------------

  lemma {:induction false} FailedResultFails(env: Env, results: seq<Result>, w: World)
    requires ValidResults(results) && HasStatus(results, Failed)
    ensures AnyFailed(AnswerAll(env, results, w).reports)
    decreases |results|
  {
    HasStatusHead(results, Failed);
    var first := AnswerOne(env, results[0], w);
    if results[0].report.status == Failed {
      assert first.reports[0].status == Failed;
    } else if !AnyFailed(first.reports) {
      FailedResultFails(env, results[1..], first.world);
      AnyFailedSplit(first.reports, AnswerAll(env, results[1..], first.world).reports);
    }
  }

  // Completed results that are published already are simply taken.
  lemma {:induction false} Taken(env: Env, results: seq<Result>, w: World)
    requires ValidResults(results) && !ShouldStop(results) && HasAll(w, Reports(results))
    ensures AnswerAll(env, results, w) == Done(Reports(results), w)
    ensures !AnyFailed(Reports(results))
    decreases |results|
  {
    if results != [] {
      HasStatusHead(results, Paused);
      HasStatusHead(results, Failed);
      var rs := Reports(results);
      assert rs == [results[0].report] + Reports(results[1..]);
      assert HasAll(w, [results[0].report]) by { assert Has(w, rs[0]); }
      PublishAgain(w, [results[0].report]);
      assert HasAll(w, Reports(results[1..])) by {
        forall j | 0 <= j < |Reports(results[1..])| ensures Has(w, Reports(results[1..])[j]) {
          assert Has(w, rs[j + 1]);
        }
      }
      Taken(env, results[1..], w);
    }
  }

  lemma {:induction false} PublishedTaken(env: Env, results: seq<Result>, w: World)
    requires ValidResults(results) && Normal(results) && !ShouldStop(results)
    ensures var p := Publish(w, Reports(results));
            HasAll(p, Reports(results)) && AnswerAll(env, results, w) == Done(Reports(results), p)
  {
    PublishHas(w, Reports(results));
    Taken(env, results, Publish(w, Reports(results)));
    PublishEarly(env, results, w);
  }

  // ---- Agreement, construct by construct --------------------------------------------------------

  lemma {:induction false} NodeAgrees(env: Env, node: Node, w: World)
    requires Valid(node) && Fit(env, node, w.forked)
    ensures var e := Execute(env, node, w);
            && ValidResults(e.results)
            && Matches(AnswerAll(env, e.results, e.world), Published(Direct(env, node, w)))
    decreases node
  {
    ExecuteShape(env, node, w);
    match node
    case Step(id) =>
      StepAgrees(env, id, w);
    case Parallel(_, steps) =>
      var w' := w.(forked := true);
      BranchesAgree(env, steps, w', w', ExecuteBranches(env, steps, w').world);
      ParallelAgrees(env, node, w);
    case Condition(id, ifTrue, ifFalse) =>
      var w' := Call(env, id, Asked(id), w);
      var chosen := if env.ask(id, w.ctx, w.log) then ifTrue else ifFalse;
      SequenceAgrees(env, chosen, w');
      SequencePublishes(env, chosen, w');
      PublishAgain(DirectSequence(env, chosen, w').world, DirectSequence(env, chosen, w').reports);
    case Router(id, routes) =>
      var w' := Call(env, id, Asked(id), w);
      var route := FindRoute(routes, env.select(id, w.ctx, w.log));
      if route.Some? {
        var chosen := routes[route.value].steps;
        ValidRouteAt(routes, route.value);
        FitRouteAt(env, routes, route.value, w.forked);
        SequenceAgrees(env, chosen, w');
        SequencePublishes(env, chosen, w');
        PublishAgain(DirectSequence(env, chosen, w').world, DirectSequence(env, chosen, w').reports);
      }
    case Loop(_, _, _, _) =>
      var w' := EnterLoop(node, w);
      IterationsAgree(env, node, 0, false, w');
      IterationsPublish(env, node, 0, false, w');
      PublishAgain(Direct(env, node, w).world, Direct(env, node, w).reports);
  }

  lemma {:induction false} StepAgrees(env: Env, id: nat, w: World)
    ensures var e := Execute(env, Step(id), w);
            && ValidResults(e.results)
            && AnswerAll(env, e.results, e.world) == Published(Direct(env, Step(id), w))
            && Matches(AnswerAll(env, e.results, e.world), Published(Direct(env, Step(id), w)))
  {
    var s := env.run(id, w.ctx, w.log);
    var e := Execute(env, Step(id), w);
    assert e.results == [e.results[0]];
    OneResult(e.results[0]);
    AnswerAllOne(env, e.results[0], e.world);
    if s.pauses > 0 {
      var answer := Answer(RunState(|w.log|, s, s.pauses - 1), e.world);
      assert answer == Published(Direct(env, Step(id), w));
      assert answer.reports + [] == answer.reports;
    } else {
      assert e.world.(answered := w.answered + s.pauses) == e.world;
    }
  }

  lemma {:induction false} SequenceAgrees(env: Env, steps: seq<Node>, w: World)
    requires ValidAll(steps) && FitAll(env, steps, w.forked)
    ensures var e := ExecuteSequence(env, steps, w);
            && ValidResults(e.results)
            && Matches(AnswerAll(env, e.results, e.world), DirectSequence(env, steps, w))
    decreases steps
  {
    SequenceShape(env, steps, w);
    if steps != [] {
      var e1 := Execute(env, steps[0], w);
      var w' := Publish(e1.world, Reports(e1.results));
      var d1 := Direct(env, steps[0], w);
      PublishGrows(e1.world, Reports(e1.results));
      PublishGrows(d1.world, d1.reports);
      FitRest(env, steps, w.forked, w'.forked);
      FitRest(env, steps, w.forked, d1.world.forked);
      NodeAgrees(env, steps[0], w);
      ExecuteShape(env, steps[0], w);
      if HasStatus(e1.results, Paused) {
        SequencePauses(env, steps, w);
      } else if HasStatus(e1.results, Failed) {
        PublishEarly(env, e1.results, e1.world);
        FailedResultFails(env, e1.results, e1.world);
      } else {
        SequenceAgrees(env, steps[1..], w');
        SequenceGoesOn(env, steps, w);
      }
    }
  }

  lemma {:induction false} SequencePauses(env: Env, steps: seq<Node>, w: World)
    requires ValidAll(steps) && steps != []
    requires FitAll(env, steps[1..], Published(Direct(env, steps[0], w)).world.forked)
    requires var e1 := Execute(env, steps[0], w);
             && ValidResults(e1.results) && Normal(e1.results) && HasStatus(e1.results, Paused)
             && Matches(AnswerAll(env, e1.results, e1.world), Published(Direct(env, steps[0], w)))
    ensures var e := ExecuteSequence(env, steps, w);
            && ValidResults(e.results)
            && Matches(AnswerAll(env, e.results, e.world), DirectSequence(env, steps, w))
  {
    var e1 := Execute(env, steps[0], w);
    var w' := Publish(e1.world, Reports(e1.results));
    var d1 := Published(Direct(env, steps[0], w));
    PublishEarly(env, e1.results, e1.world);
    var a1 := AnswerAll(env, e1.results, w');
    var conts := if steps[1..] == [] then [] else [SeqCont(steps[1..])];
    NormalPausedNotFailed(e1.results);
    if steps[1..] != [] {
      OneCont(conts[0]);
      DirectContsOne(env, conts[0], a1.world);
    }
    DeferredMeaning(env, e1.results, conts, w');
    assert DirectConts(env, conts, a1.world) == DirectSequence(env, steps[1..], a1.world);
    if !AnyFailed(d1.reports) {
      CongruentSequence(env, steps[1..], a1.world, d1.world);
    }
    MatchThen(a1, DirectSequence(env, steps[1..], a1.world), d1, DirectSequence(env, steps[1..], d1.world));
  }

  lemma {:induction false} SequenceGoesOn(env: Env, steps: seq<Node>, w: World)
    requires ValidAll(steps) && steps != []
    requires FitAll(env, steps[1..], Published(Direct(env, steps[0], w)).world.forked)
    requires var e1 := Execute(env, steps[0], w);
             var w' := Publish(e1.world, Reports(e1.results));
             var e2 := ExecuteSequence(env, steps[1..], w');
             && ValidResults(e1.results) && Normal(e1.results) && !ShouldStop(e1.results) && ValidResults(e2.results)
             && Matches(AnswerAll(env, e1.results, e1.world), Published(Direct(env, steps[0], w)))
             && Matches(AnswerAll(env, e2.results, e2.world), DirectSequence(env, steps[1..], w'))
    ensures var e := ExecuteSequence(env, steps, w);
            && ValidResults(e.results)
            && Matches(AnswerAll(env, e.results, e.world), DirectSequence(env, steps, w))
  {
    var e1 := Execute(env, steps[0], w);
    var w' := Publish(e1.world, Reports(e1.results));
    var d1 := Published(Direct(env, steps[0], w));
    var e2 := ExecuteSequence(env, steps[1..], w');
    var k := AnswerAll(env, e2.results, e2.world);
    PublishedTaken(env, e1.results, e1.world);
    HasStays(w', e2.world, WritesAll(steps[1..]), Reports(e1.results));
    Taken(env, e1.results, e2.world);
    AnswerAllSplit(env, e1.results, e2.results, e2.world);
    CongruentSequence(env, steps[1..], w', d1.world);
    MatchTrans(k, DirectSequence(env, steps[1..], w'), DirectSequence(env, steps[1..], d1.world));
    MatchThen(Done(Reports(e1.results), w'), k, d1, DirectSequence(env, steps[1..], d1.world));
  }

  // ---- Loops ------------------------------------------------------------------------------------

  lemma {:induction false} AfterThen(env: Env, loop: Node, x: Done, k: Done)
    requires loop.Loop? && Valid(loop)
    ensures AfterIteration(env, loop, Then(x, k)) == Then(x, AfterIteration(env, loop, k))
  {
    AnyFailedSplit(x.reports, k.reports);
    if !AnyFailed(x.reports) && !AnyFailed(k.reports) && !env.ask(loop.id, k.world.ctx, k.world.log) {
      var more := DirectIterations(env, loop, 0, false, Call(env, loop.id, Asked(loop.id), k.world));
      assert (x.reports + k.reports) + more.reports == x.reports + (k.reports + more.reports);
    }
  }

  lemma {:induction false} SequenceUnfolds(env: Env, steps: seq<Node>, index: nat, w: World)
    requires ValidAll(steps) && index < |steps|
    ensures ValidAll(steps[index..]) && ValidAll(steps[index + 1..]) && Valid(steps[index])
    ensures var d1 := Published(Direct(env, steps[index], w));
            DirectSequence(env, steps[index..], w) == Then(d1, DirectSequence(env, steps[index + 1..], d1.world))
  {
    ValidDrop(steps, index);
    ValidDrop(steps, index + 1);
    ValidAllAt(steps, index);
    assert steps[index..][1..] == steps[index + 1..];
  }

  // Finishing a started iteration: the current step, then the rest of the iteration and the loop.
  lemma {:induction false} StartedUnfolds(env: Env, loop: Node, index: nat, w: World)
    requires loop.Loop? && Valid(loop) && index < |loop.steps|
    ensures ValidAll(loop.steps[index..]) && ValidAll(loop.steps[index + 1..]) && Valid(loop.steps[index])
    ensures var d1 := Published(Direct(env, loop.steps[index], w));
            && DirectSequence(env, loop.steps[index..], w)
                 == Then(d1, DirectSequence(env, loop.steps[index + 1..], d1.world))
            && DirectIterations(env, loop, index, true, w)
                 == Then(d1, DirectIterations(env, loop, index + 1, true, d1.world))
  {
    SequenceUnfolds(env, loop.steps, index, w);
    var d1 := Published(Direct(env, loop.steps[index], w));
    AfterThen(env, loop, d1, DirectSequence(env, loop.steps[index + 1..], d1.world));
  }

  // A body that stops agrees with finishing the loop; one that does not, with its own steps.
  ghost predicate BodyAgreement(env: Env, loop: Node, index: nat, w: World)
    requires loop.Loop? && Valid(loop) && index <= |loop.steps|
  {
    var e := ExecuteBody(env, loop, index, w);
    && ValidResults(e.results) && ValidAll(loop.steps[index..])
    && (ShouldStop(e.results) ==>
          Matches(AnswerAll(env, e.results, e.world), DirectIterations(env, loop, index, true, w)))
    && (!ShouldStop(e.results) ==>
          && HasAll(e.world, Reports(e.results))
          && Matches(Done(Reports(e.results), e.world), DirectSequence(env, loop.steps[index..], w)))
  }

  lemma {:induction false} BodyAgrees(env: Env, loop: Node, index: nat, w: World)
    requires loop.Loop? && Valid(loop) && index <= |loop.steps| && Fit(env, loop, w.forked)
    ensures BodyAgreement(env, loop, index, w)
    decreases loop, 0, |loop.steps| - index
  {
    if index == |loop.steps| {
      BodyEnds(env, loop, w);
    } else {
      ValidAllAt(loop.steps, index);
      FitInLoop(env, loop, index, w.forked);
      StillFits(env, loop, index, w);
      var e1 := Execute(env, loop.steps[index], w);
      NodeAgrees(env, loop.steps[index], w);
      ExecuteShape(env, loop.steps[index], w);
      if HasStatus(e1.results, Paused) {
        BodyPauses(env, loop, index, w);
      } else if HasStatus(e1.results, Failed) {
        BodyFails(env, loop, index, w);
      } else {
        BodyAgrees(env, loop, index + 1, Publish(e1.world, Reports(e1.results)));
        BodyGoesOn(env, loop, index, w);
      }
    }
  }

  lemma {:induction false} StillFits(env: Env, loop: Node, index: nat, w: World)
    requires loop.Loop? && Valid(loop) && index < |loop.steps| && Valid(loop.steps[index]) && Fit(env, loop, w.forked)
    ensures var e1 := Execute(env, loop.steps[index], w);
            var d1 := Published(Direct(env, loop.steps[index], w));
            Fit(env, loop, Publish(e1.world, Reports(e1.results)).forked) && Fit(env, loop, d1.world.forked)
  {
    var e1, d1 := Execute(env, loop.steps[index], w), Direct(env, loop.steps[index], w);
    PublishGrows(e1.world, Reports(e1.results));
    PublishGrows(d1.world, d1.reports);
    if NoParallel(loop) {
      NoParallelAt(loop.steps, index);
    }
    FitLoop(env, loop, w.forked, e1.world.forked);
    FitLoop(env, loop, w.forked, d1.world.forked);
  }

  lemma {:induction false} BodyEnds(env: Env, loop: Node, w: World)
    requires loop.Loop? && Valid(loop)
    ensures BodyAgreement(env, loop, |loop.steps|, w)
  {
    assert loop.steps[|loop.steps|..] == [];
  }

  lemma {:induction false} BodyFails(env: Env, loop: Node, index: nat, w: World)
    requires loop.Loop? && Valid(loop) && index < |loop.steps|
    requires Valid(loop.steps[index])
    requires var e1 := Execute(env, loop.steps[index], w);
             && ValidResults(e1.results) && Normal(e1.results)
             && HasStatus(e1.results, Failed) && !HasStatus(e1.results, Paused)
             && Matches(AnswerAll(env, e1.results, e1.world), Published(Direct(env, loop.steps[index], w)))
    ensures BodyAgreement(env, loop, index, w)
  {
    var e1 := Execute(env, loop.steps[index], w);
    PublishEarly(env, e1.results, e1.world);
    FailedResultFails(env, e1.results, e1.world);
    StartedUnfolds(env, loop, index, w);
  }

  lemma {:induction false} BodyPauses(env: Env, loop: Node, index: nat, w: World)
    requires loop.Loop? && Valid(loop) && index < |loop.steps|
    requires Valid(loop.steps[index]) && Fit(env, loop, Published(Direct(env, loop.steps[index], w)).world.forked)
    requires var e1 := Execute(env, loop.steps[index], w);
             && ValidResults(e1.results) && Normal(e1.results) && HasStatus(e1.results, Paused)
             && Matches(AnswerAll(env, e1.results, e1.world), Published(Direct(env, loop.steps[index], w)))
    ensures BodyAgreement(env, loop, index, w)
  {
    var e1 := Execute(env, loop.steps[index], w);
    NormalPausedNotFailed(e1.results);
    DeferKeepsPause(e1.results, [LoopCont(loop, index + 1, None)]);
    PauseInLoop(env, loop, index, e1, Published(Direct(env, loop.steps[index], w)));
    StartedUnfolds(env, loop, index, w);
  }

  // A pause in step `index` leaves the rest of the iteration, and of the loop, to the continuation.
  lemma {:induction false} PauseInLoop(env: Env, loop: Node, index: nat, e1: Out, d1: Done)
    requires loop.Loop? && Valid(loop) && index < |loop.steps| && Fit(env, loop, d1.world.forked)
    requires ValidResults(e1.results) && Normal(e1.results) && HasStatus(e1.results, Paused)
    requires Matches(AnswerAll(env, e1.results, e1.world), d1)
    ensures var deferred := DeferPaused(e1.results, [LoopCont(loop, index + 1, None)]);
            && ValidResults(deferred)
            && Matches(AnswerAll(env, deferred, Publish(e1.world, Reports(e1.results))),
                       Then(d1, DirectIterations(env, loop, index + 1, true, d1.world)))
  {
    var w' := Publish(e1.world, Reports(e1.results));
    PublishEarly(env, e1.results, e1.world);
    var a1 := AnswerAll(env, e1.results, w');
    var c := LoopCont(loop, index + 1, None);
    NormalPausedNotFailed(e1.results);
    OneCont(c);
    DirectContsOne(env, c, a1.world);
    DeferredMeaning(env, e1.results, [c], w');
    if !AnyFailed(d1.reports) {
      CongruentIterations(env, loop, index + 1, true, a1.world, d1.world);
    }
    MatchThen(a1, DirectIterations(env, loop, index + 1, true, a1.world),
              d1, DirectIterations(env, loop, index + 1, true, d1.world));
  }

  lemma {:induction false} BodyGoesOn(env: Env, loop: Node, index: nat, w: World)
    requires loop.Loop? && Valid(loop) && index < |loop.steps|
    requires Valid(loop.steps[index]) && Fit(env, loop, Published(Direct(env, loop.steps[index], w)).world.forked)
    requires var e1 := Execute(env, loop.steps[index], w);
             && ValidResults(e1.results) && Normal(e1.results) && !ShouldStop(e1.results)
             && Matches(AnswerAll(env, e1.results, e1.world), Published(Direct(env, loop.steps[index], w)))
             && BodyAgreement(env, loop, index + 1, Publish(e1.world, Reports(e1.results)))
    ensures BodyAgreement(env, loop, index, w)
  {
    var e1 := Execute(env, loop.steps[index], w);
    var w' := Publish(e1.world, Reports(e1.results));
    var d1 := Published(Direct(env, loop.steps[index], w));
    var e2 := ExecuteBody(env, loop, index + 1, w');
    var e := ExecuteBody(env, loop, index, w);
    assert e.results == e1.results + e2.results && e.world == e2.world;
    BodyShape(env, loop, index, w);
    StartedUnfolds(env, loop, index, w);
    PublishedTaken(env, e1.results, e1.world);
    HasStays(w', e2.world, WritesAll(loop.steps), Reports(e1.results));
    Taken(env, e1.results, e2.world);
    AnswerAllSplit(env, e1.results, e2.results, e2.world);
    ReportsSplit(e1.results, e2.results);
    HasStatusSplit(e1.results, e2.results, Paused);
    HasStatusSplit(e1.results, e2.results, Failed);
    var a1 := Done(Reports(e1.results), w');
    if ShouldStop(e2.results) {
      var k := AnswerAll(env, e2.results, e2.world);
      CongruentIterations(env, loop, index + 1, true, w', d1.world);
      MatchTrans(k, DirectIterations(env, loop, index + 1, true, w'),
                 DirectIterations(env, loop, index + 1, true, d1.world));
      MatchThen(a1, k, d1, DirectIterations(env, loop, index + 1, true, d1.world));
    } else {
      var k := Done(Reports(e2.results), e2.world);
      HasBoth(e2.world, Reports(e1.results), Reports(e2.results));
      FitDrop(env, loop, index + 1, d1.world.forked);
      CongruentSequence(env, loop.steps[index + 1..], w', d1.world);
      MatchTrans(k, DirectSequence(env, loop.steps[index + 1..], w'),
                 DirectSequence(env, loop.steps[index + 1..], d1.world));
      MatchThen(a1, k, d1, DirectSequence(env, loop.steps[index + 1..], d1.world));
    }
  }

  lemma {:induction false} ReportsSplit(xs: seq<Result>, ys: seq<Result>)
    ensures Reports(xs + ys) == Reports(xs) + Reports(ys)
  {
  }

  lemma {:induction false} IterationsAgree(env: Env, loop: Node, start: nat, started: bool, w: World)
    requires loop.Loop? && Valid(loop) && start <= |loop.steps| && Fit(env, loop, w.forked)
    ensures var e := RunIterations(env, loop, start, started, w);
            && ValidResults(e.results)
            && Matches(AnswerAll(env, e.results, e.world), DirectIterations(env, loop, start, started, w))
    decreases loop, 1, IterationsLeft(loop, started, w), 0
  {
    IterationsShape(env, loop, start, started, w);
    if started || Count(w, loop.name) < loop.limit {
      var w1 := BeginIteration(loop, started, w);
      var body := ExecuteBody(env, loop, start, w1);
      BodyAgrees(env, loop, start, w1);
      if !ShouldStop(body.results) {
        var d := DirectSequence(env, loop.steps[start..], w1);
        if NoParallel(loop) {
          NoParallelDrop(loop.steps, start);
        }
        FitLoop(env, loop, w.forked, d.world.forked);
        AfterAgrees(env, loop, body, d);
      }
    }
  }

  lemma {:induction false} AfterAgrees(env: Env, loop: Node, body: Out, d: Done)
    requires loop.Loop? && Valid(loop) && Fit(env, loop, d.world.forked)
    requires ValidResults(body.results) && !ShouldStop(body.results) && HasAll(body.world, Reports(body.results))
    requires Matches(Done(Reports(body.results), body.world), d)
    ensures var e := AfterBody(env, loop, body);
            && ValidResults(e.results)
            && Matches(AnswerAll(env, e.results, e.world), AfterIteration(env, loop, d))
    decreases loop, 1, IterationsLeft(loop, false, body.world), 1
  {
    var w2, d2 := Call(env, loop.id, Asked(loop.id), body.world), Call(env, loop.id, Asked(loop.id), d.world);
    Taken(env, body.results, body.world);
    StopSame(env, loop.id, body.world, d.world);
    HasStays(body.world, w2, {}, Reports(body.results));
    if env.ask(loop.id, d.world.ctx, d.world.log) {
      Taken(env, body.results, w2);
    } else {
      IterationsAgree(env, loop, 0, false, w2);
      IterationGoesOn(env, loop, body.results, w2, Done(d.reports, d2));
    }
  }

  lemma {:induction false} StopSame(env: Env, id: nat, a: World, b: World)
    requires SameWorld(a, b) && (b.forked ==> Local(env) && EVERYTHING !in env.looksAt(id))
    ensures env.ask(id, a.ctx, a.log) == env.ask(id, b.ctx, b.log)
    ensures SameWorld(Call(env, id, Asked(id), a), Call(env, id, Asked(id), b))
  {
    if b.forked {
      AlikeFromAgree(env.looksAt(id), env.looksAt(id), a, b);
    }
    CallSame(env, id, a, b);
  }

  // Whole iterations follow an iteration that completed with `results`.
  lemma {:induction false} IterationGoesOn(env: Env, loop: Node, results: seq<Result>, w2: World,
                                           d2: Done)
    requires loop.Loop? && Valid(loop) && Fit(env, loop, d2.world.forked)
    requires ValidResults(results) && !ShouldStop(results) && HasAll(w2, Reports(results))
    requires Matches(Done(Reports(results), w2), d2)
    requires var e := RunIterations(env, loop, 0, false, w2);
             && ValidResults(e.results)
             && Matches(AnswerAll(env, e.results, e.world), DirectIterations(env, loop, 0, false, w2))
    ensures var e := RunIterations(env, loop, 0, false, w2);
            && ValidResults(results + e.results)
            && Matches(AnswerAll(env, results + e.results, e.world),
                       Then(d2, DirectIterations(env, loop, 0, false, d2.world)))
            && !AnyFailed(d2.reports)
  {
    var e := RunIterations(env, loop, 0, false, w2);
    var k := AnswerAll(env, e.results, e.world);
    Taken(env, results, w2);
    HasStays(w2, e.world, Writes(loop), Reports(results));
    Taken(env, results, e.world);
    AnswerAllSplit(env, results, e.results, e.world);
    CongruentIterations(env, loop, 0, false, w2, d2.world);
    MatchTrans(k, DirectIterations(env, loop, 0, false, w2), DirectIterations(env, loop, 0, false, d2.world));
    MatchThen(Done(Reports(results), w2), k, d2, DirectIterations(env, loop, 0, false, d2.world));
  }

  lemma {:induction false} CallSame(env: Env, id: nat, a: World, b: World)
    requires SameWorld(a, b)
    ensures SameWorld(Call(env, id, Asked(id), a), Call(env, id, Asked(id), b))
  {
    if b.forked {
      forall x: string
        ensures Count(Call(env, id, Asked(id), a), x) == Count(Call(env, id, Asked(id), b), x)
      {
        assert Count(a, x) == Count(b, x);
      }
    }
  }

  // ---- Parallel ---------------------------------------------------------------------------------

  // What happened between two worlds, as a bag of events.
  function Since(a: World, a': World): multiset<Event> {
    if |a.log| <= |a'.log| then multiset(a'.log[|a.log|..]) else multiset{}
  }

  lemma {:induction false} SinceSplit(a: World, a1: World, a2: World, names: set<string>)
    requires Grows(a, a1, names) && Grows(a1, a2, names)
    ensures Since(a, a2) == Since(a, a1) + Since(a1, a2)
    ensures multiset(a2.log) == multiset(a.log) + Since(a, a2)
  {
    GrowsTrans(a, a1, a2, names);
    assert a2.log == a.log + a2.log[|a.log|..];
    assert a1.log == a.log + a1.log[|a.log|..];
    assert a2.log == a1.log + a2.log[|a1.log|..];
    assert a2.log[|a.log|..] == a1.log[|a.log|..] + a2.log[|a1.log|..];
  }

  lemma {:induction false} WritesTouched(env: Env, node: Node)
    ensures Writes(node) <= Touches(env, node)
    decreases node
  {
    match node
    case Step(_) =>
    case Parallel(_, steps) => WritesAllTouched(env, steps);
    case Condition(_, ifTrue, ifFalse) =>
      WritesAllTouched(env, ifTrue);
      WritesAllTouched(env, ifFalse);
    case Router(_, routes) => WritesRoutesTouched(env, routes);
    case Loop(_, _, _, steps) => WritesAllTouched(env, steps);
  }

  lemma {:induction false} WritesAllTouched(env: Env, steps: seq<Node>)
    ensures WritesAll(steps) <= TouchesAll(env, steps)
    decreases steps
  {
    if steps != [] {
      WritesTouched(env, steps[0]);
      WritesAllTouched(env, steps[1..]);
    }
  }

  lemma {:induction false} WritesRoutesTouched(env: Env, routes: seq<Route>)
    ensures WritesRoutes(routes) <= TouchesRoutes(env, routes)
    decreases routes
  {
    if routes != [] {
      WritesAllTouched(env, routes[0].steps);
      WritesRoutesTouched(env, routes[1..]);
    }
  }

  // Branches run from w to we and answered from u, against the reference run from v.
  ghost predicate BranchMatch(w: World, we: World, u: World, a: Done, v: World, d: Done, names: set<string>) {
    && (AnyFailed(a.reports) <==> AnyFailed(d.reports))
    && a.world.answered - u.answered <= d.world.answered - v.answered
    && Since(w, we) + Since(u, a.world) <= Since(v, d.world)
    && (!AnyFailed(d.reports) ==>
          && SameReports(a.reports, d.reports)
          && a.world.answered - u.answered == d.world.answered - v.answered
          && Since(w, we) + Since(u, a.world) == Since(v, d.world)
          && Agree(names, a.world, d.world))
  }

  lemma {:induction false} BranchesAgree(env: Env, steps: seq<Node>, w: World, v: World, u: World)
    requires Local(env) && ValidAll(steps) && LooseAll(env, steps) && Apart(env, steps)
    requires w.forked && v.forked && u.forked
    requires Agree(TouchesAll(env, steps), w, v)
    requires Agree(TouchesAll(env, steps), u, ExecuteBranches(env, steps, w).world)
    ensures var e := ExecuteBranches(env, steps, w);
            && ValidResults(e.results)
            && BranchMatch(w, e.world, u, AnswerAll(env, e.results, u), v, DirectBranches(env, steps, v),
                           WritesAll(steps))
    decreases steps
  {
    BranchesShape(env, steps, w);
    if steps != [] {
      var e1 := Execute(env, steps[0], w);
      var e2 := ExecuteBranches(env, steps[1..], e1.world);
      ExecuteShape(env, steps[0], w);
      BranchesShape(env, steps[1..], e1.world);
      NodeAgrees(env, steps[0], w);
      ExecuteNames(env, steps[0], w);
      BranchesNames(env, steps[1..], e1.world);
      var a1 := AnswerAll(env, e1.results, u);
      var d1 := Direct(env, steps[0], v);
      forall x | x in Touches(env, steps[0])
        ensures Count(u, x) == Count(e1.world, x) && Count(w, x) == Count(v, x)
      {
        assert x in TouchesAll(env, steps) && x !in WritesAll(steps[1..]);
        assert Count(u, x) == Count(e2.world, x);
      }
      HeadAgrees(env, steps[0], w, v, u);
      forall x | x in TouchesAll(env, steps[1..])
        ensures Count(a1.world, x) == Count(e2.world, x) && Count(e1.world, x) == Count(d1.world, x)
      {
        assert x in TouchesAll(env, steps) && x !in Writes(steps[0]);
        assert Count(u, x) == Count(e2.world, x) && Count(w, x) == Count(v, x);
      }
      BranchesAgree(env, steps[1..], e1.world, d1.world, a1.world);
      AnswerAllSplit(env, e1.results, e2.results, u);
      WritesTouched(env, steps[0]);
      var a2 := AnswerAll(env, e2.results, a1.world);
      GrowsWider(u, a1.world, ResultsWrites(e1.results), Writes(steps[0]));
      GrowsWider(a1.world, a2.world, ResultsWrites(e2.results), WritesAll(steps[1..]));
      BranchesCompose(Writes(steps[0]), WritesAll(steps[1..]), w, e1.world, e2.world,
                      u, a1, a2, v, d1, DirectBranches(env, steps[1..], d1.world));
    }
  }

  lemma {:induction false} HeadAgrees(env: Env, node: Node, w: World, v: World, u: World)
    requires Local(env) && Valid(node) && Loose(env, node) && ValidResults(Execute(env, node, w).results)
    requires w.forked && v.forked && u.forked
    requires ResultsTouches(env, Execute(env, node, w).results) <= Touches(env, node)
    requires var e := Execute(env, node, w);
             Matches(AnswerAll(env, e.results, e.world), Published(Direct(env, node, w)))
    requires Agree(Touches(env, node), w, v) && Agree(Touches(env, node), u, Execute(env, node, w).world)
    ensures var e := Execute(env, node, w);
            BranchMatch(w, e.world, u, AnswerAll(env, e.results, u), v, Direct(env, node, v), Writes(node))
  {
    var T := Touches(env, node);
    var e := Execute(env, node, w);
    var dw := Direct(env, node, w);
    WritesTouched(env, node);
    LooseTouches(env, node);
    LocalNode(env, node, T, w, v);
    LocalAnswers(env, e.results, T, u, e.world);
    PublishGrows(dw.world, dw.reports);
    GrowsWider(w, e.world, Writes(node), T);
    HeadMatch(T, Writes(node), w, e.world, AnswerAll(env, e.results, e.world), dw, Published(dw),
              u, AnswerAll(env, e.results, u), v, Direct(env, node, v));
  }

  lemma {:induction false} Cancel(c: multiset<Event>, x: multiset<Event>, y: multiset<Event>)
    requires c + x <= c + y
    ensures x <= y
    ensures c + x == c + y ==> x == y
  {
    forall e: Event
      ensures x[e] <= y[e] && (c + x == c + y ==> x[e] == y[e])
    {
      assert (c + x)[e] <= (c + y)[e];
    }
  }

  lemma {:induction false} SinceFromTotals(names: set<string>, w: World, we: World, here: World, d: World)
    requires Grows(w, we, names) && Grows(we, here, names) && Grows(w, d, names)
    requires multiset(here.log) <= multiset(d.log)
    ensures Since(w, we) + Since(we, here) <= Since(w, d)
    ensures multiset(here.log) == multiset(d.log) ==> Since(w, we) + Since(we, here) == Since(w, d)
  {
    SinceSplit(w, we, here, names);
    SinceSplit(w, d, d, names);
    assert multiset(here.log) == multiset(w.log) + (Since(w, we) + Since(we, here));
    assert multiset(d.log) == multiset(w.log) + Since(w, d);
    Cancel(multiset(w.log), Since(w, we) + Since(we, here), Since(w, d));
  }

  // The same in terms of worlds only: `here` and `dw` start from w, `a` and `dv` elsewhere.
  lemma {:induction false} HeadMatch(T: set<string>, names: set<string>, w: World, we: World, here: Done, dw: Done,
                                     published: Done, u: World, a: Done, v: World, dv: Done)
    requires names <= T && Grows(w, we, T) && we.answered == w.answered
    requires SameRun(T, w, dw, v, dv) && SameRun(T, u, a, we, here)
    requires Matches(here, published) && published.world.forked && published.reports == dw.reports
    requires published.world == dw.world.(ctx := dw.world.ctx.(outputs := published.world.ctx.outputs))
    ensures BranchMatch(w, we, u, a, v, dv, names)
  {
    SinceFromTotals(T, w, we, here.world, dw.world);
    assert Since(u, a.world) == Since(we, here.world) && Since(v, dv.world) == Since(w, dw.world);
    SameFailures(dw.reports, dv.reports);
    SameFailures(a.reports, here.reports);
    if !AnyFailed(dv.reports) {
      forall x | x in names
        ensures Count(a.world, x) == Count(dv.world, x)
      {
        assert Count(here.world, x) == Count(published.world, x);
      }
    }
  }

  // One branch and the branches after it, in terms of worlds only.
  lemma {:induction false} BranchesCompose(first: set<string>, rest: set<string>, w: World, w1: World, w2: World,
                                           u: World, a1: Done, a2: Done, v: World, d1: Done, d2: Done)
    requires first !! rest
    requires Grows(w, w1, first) && Grows(w1, w2, rest)
    requires Grows(u, a1.world, first) && Grows(a1.world, a2.world, rest)
    requires Grows(v, d1.world, first) && Grows(d1.world, d2.world, rest)
    requires BranchMatch(w, w1, u, a1, v, d1, first) && BranchMatch(w1, w2, a1.world, a2, d1.world, d2, rest)
    ensures BranchMatch(w, w2, u, Then(a1, a2), v, Prepend(d1.reports, d2), first + rest)
  {
    var all := first + rest;
    AnyFailedSplit(a1.reports, a2.reports);
    AnyFailedSplit(d1.reports, d2.reports);
    GrowsWider(w, w1, first, all);
    GrowsWider(w1, w2, rest, all);
    GrowsWider(u, a1.world, first, all);
    GrowsWider(a1.world, a2.world, rest, all);
    GrowsWider(v, d1.world, first, all);
    GrowsWider(d1.world, d2.world, rest, all);
    SinceSplit(w, w1, w2, all);
    SinceSplit(u, a1.world, a2.world, all);
    SinceSplit(v, d1.world, d2.world, all);
    if !AnyFailed(d1.reports + d2.reports) {
      forall x | x in all
        ensures Count(a2.world, x) == Count(d2.world, x)
      {
        if x in first {
          assert Count(a1.world, x) == Count(d1.world, x);
        }
      }
    }
  }

  lemma {:induction false} ParallelAgrees(env: Env, node: Node, w: World)
    requires node.Parallel? && Valid(node)
    requires ValidResults(Execute(env, node, w).results)
    requires var w' := w.(forked := true);
             var e := ExecuteBranches(env, node.steps, w');
             && ValidResults(e.results)
             && BranchMatch(w', e.world, e.world, AnswerAll(env, e.results, e.world), w',
                            DirectBranches(env, node.steps, w'), WritesAll(node.steps))
    ensures var e := Execute(env, node, w);
            Matches(AnswerAll(env, e.results, e.world), Published(Direct(env, node, w)))
  {
    var W, w' := WritesAll(node.steps), w.(forked := true);
    var e := ExecuteBranches(env, node.steps, w');
    var a := AnswerAll(env, e.results, e.world);
    var d := DirectBranches(env, node.steps, w');
    BranchesNames(env, node.steps, w');
    GrowsWider(e.world, a.world, ResultsWrites(e.results), W);
    WholeMatch(w', e.world, a, d, W);
    ParallelTaken(env, node, w);
    PublishGrows(d.world, Direct(env, node, w).reports);
    SiblingsDropped(AnswerAll(env, Execute(env, node, w).results, e.world), a, d, Direct(env, node, w), e.world);
  }

  // Deferring drops the siblings of a failure and otherwise keeps everything.
  lemma {:induction false} ParallelTaken(env: Env, node: Node, w: World)
    requires node.Parallel? && Valid(node)
    requires ValidResults(Execute(env, node, w).results)
             && ValidResults(ExecuteBranches(env, node.steps, w.(forked := true)).results)
    ensures var e := ExecuteBranches(env, node.steps, w.(forked := true));
            var a := AnswerAll(env, e.results, e.world);
            var taken := AnswerAll(env, Execute(env, node, w).results, e.world);
            taken == a || (AnyFailed(a.reports) && AnyFailed(taken.reports) && taken.world == e.world)
  {
    var e := ExecuteBranches(env, node.steps, w.(forked := true));
    var a := AnswerAll(env, e.results, e.world);
    if HasStatus(e.results, Failed) {
      FailedResultFails(env, e.results, e.world);
      FailuresStopAtOnce(env, e.results, e.world);
    } else {
      DeferredMeaning(env, e.results, [], e.world);
      assert a.reports + [] == a.reports;
    }
  }

  lemma {:induction false} SiblingsDropped(taken: Done, a: Done, d: Done, direct: Done, we: World)
    requires taken == a || (AnyFailed(a.reports) && AnyFailed(taken.reports) && taken.world == we)
    requires Matches(a, d) && multiset(we.log) <= multiset(d.world.log) && we.answered <= d.world.answered
    requires d.world.forked
    requires direct == if AnyFailed(d.reports) then d.(reports := FailedOnly(d.reports)) else d
    requires Publish(d.world, direct.reports)
             == d.world.(ctx := d.world.ctx.(outputs := Publish(d.world, direct.reports).ctx.outputs))
    ensures Matches(taken, Published(direct))
  {
    if AnyFailed(d.reports) {
      assert AnyFailed(FailedOnly(d.reports)) by {
        assert FailedOnly(d.reports)[0].status == Failed;
      }
    } else {
      forall x: string
        ensures Count(a.world, x) == Count(Published(direct).world, x)
      {
        assert Count(a.world, x) == Count(d.world, x);
      }
    }
  }

  // All branches together, read as one run from w.
  lemma {:induction false} WholeMatch(w: World, we: World, a: Done, d: Done, names: set<string>)
    requires Grows(w, we, names) && Grows(we, a.world, names) && Grows(w, d.world, names) && we.answered == w.answered
    requires w.forked
    requires BranchMatch(w, we, we, a, w, d, names)
    ensures Matches(a, d)
    ensures multiset(we.log) <= multiset(d.world.log) && we.answered <= d.world.answered
  {
    SinceSplit(w, we, a.world, names);
    SinceSplit(w, w, d.world, names);
    SinceSplit(w, w, we, names);
    if !AnyFailed(d.reports) {
      forall x: string
        ensures Count(a.world, x) == Count(d.world, x)
      {
        if x !in names {
          assert Count(w, x) == Count(we, x) && Count(we, x) == Count(a.world, x) && Count(w, x) == Count(d.world, x);
        }
      }
    }
  }

  // Failures that dropped their siblings end the run with nothing more done.
  lemma {:induction false} FailuresStopAtOnce(env: Env, results: seq<Result>, w: World)
    requires ValidResults(results) && HasStatus(results, Failed) && ValidResults(FailuresOf(results))
    ensures var d := AnswerAll(env, FailuresOf(results), w); AnyFailed(d.reports) && d.world == w
  {
    FailuresFail(results);
    var f := FailuresOf(results);
    assert f[0].report.status == Failed;
    NoneCompleted(w, [f[0].report]);
    var one := AnswerOne(env, f[0], w);
    assert one.reports[0].status == Failed;
  }

  /** Branches that are apart may run in either order: each does the same, and the counters and the bag of
      events are the same in the end. */
  lemma {:induction false} EitherOrder(env: Env, m: Node, n: Node, w: World)
    requires Local(env) && Valid(m) && Valid(n) && Loose(env, m) && Loose(env, n) && Apart(env, [m, n])
    ensures var m1 := Direct(env, m, w);
            var n2 := Direct(env, n, m1.world);
            var n1 := Direct(env, n, w);
            var m2 := Direct(env, m, n1.world);
            && SameReports(m1.reports, m2.reports) && SameReports(n1.reports, n2.reports)
            && SameCounts(n2.world, m2.world) && n2.world.answered == m2.world.answered
            && multiset(n2.world.log) == multiset(m2.world.log)
  {
    var M, N := Touches(env, m), Touches(env, n);
    var m1, n1 := Direct(env, m, w), Direct(env, n, w);
    var m2, n2 := Direct(env, m, n1.world), Direct(env, n, m1.world);
    ApartPair(env, m, n);
    LooseTouches(env, m);
    LooseTouches(env, n);
    WritesTouched(env, m);
    WritesTouched(env, n);
    LocalNode(env, m, M, w, n1.world);
    LocalNode(env, n, N, w, m1.world);
    OrdersAlike(Writes(m), Writes(n), M, N, w, m1.world, n2.world, n1.world, m2.world);
  }

  lemma {:induction false} ApartPair(env: Env, m: Node, n: Node)
    requires Apart(env, [m, n])
    ensures Writes(m) !! Touches(env, n) && Touches(env, m) !! Writes(n)
  {
    assert [m, n][1..] == [n] && [n][1..] == [];
    assert TouchesAll(env, [n]) == Touches(env, n) + TouchesAll(env, [n][1..]);
    assert WritesAll([n]) == Writes(n) + WritesAll([n][1..]);
  }

  // The same in terms of worlds only: w to m1 to n2, and w to n1 to m2.
  lemma {:induction false} OrdersAlike(ms: set<string>, ns: set<string>, M: set<string>, N: set<string>, w: World,
                                       m1: World, n2: World, n1: World, m2: World)
    requires ms <= M && ns <= N && ms !! N && M !! ns
    requires Grows(w, m1, ms) && Grows(m1, n2, ns) && Grows(w, n1, ns) && Grows(n1, m2, ms)
    requires SameShift(M, w, m1, n1, m2) && SameShift(N, w, n1, m1, n2)
    ensures SameCounts(n2, m2) && n2.answered == m2.answered && multiset(n2.log) == multiset(m2.log)
  {
    forall x: string
      ensures Count(n2, x) == Count(m2, x)
    {
      if x in ms {
        assert Count(m1, x) == Count(m2, x) && Count(m1, x) == Count(n2, x);
      } else if x in ns {
        assert Count(n1, x) == Count(n2, x) && Count(n1, x) == Count(m2, x);
      } else {
        assert Count(w, x) == Count(m1, x) == Count(n2, x) && Count(w, x) == Count(n1, x) == Count(m2, x);
      }
    }
    var ml, nl := m1.log[|w.log|..], n1.log[|w.log|..];
    assert m1.log == w.log + ml && n1.log == w.log + nl;
    assert n2.log == m1.log + nl && m2.log == n1.log + ml;
  }
}
