/** What a pause leaves behind suits what is asked of callbacks: after a Parallel, everything that is
    still to run looks at loop counters only. */
module WorkflowFit {
  import opened Common
  import opened WorkflowTree
  import opened WorkflowExec
  import opened WorkflowDirect
  import opened WorkflowAnswers
  import opened WorkflowLocality
  import opened WorkflowScope
  import opened WorkflowGraph
  import opened WorkflowAgreement

  // ---- Continuations ----------------------------------------------------------------------------

  predicate NoParallelCont(c: Cont) {
    match c
    case SeqCont(steps) => NoParallels(steps)
    case LoopCont(loop, _, _) => NoParallel(loop)
    case OutCont(_) => false
  }

  predicate NoParallelConts(cs: seq<Cont>) {
    forall c :: c in cs ==> NoParallelCont(c)
  }

  predicate LooseCont(env: Env, c: Cont)
    decreases c
  {
    match c
    case SeqCont(steps) => LooseAll(env, steps)
    case LoopCont(loop, _, _) => Loose(env, loop)
    case OutCont(outputs) => LooseResults(env, outputs)
  }

  predicate LooseConts(env: Env, cs: seq<Cont>)
    decreases cs
  {
    cs == [] || (LooseCont(env, cs[0]) && LooseConts(env, cs[1..]))
  }

  predicate LooseResults(env: Env, rs: seq<Result>)
    decreases rs
  {
    rs == [] || (LooseConts(env, rs[0].conts) && LooseResults(env, rs[1..]))
  }

  ghost predicate SuitsCont(env: Env, c: Cont) {
    match c
    case SeqCont(steps) => SuitsAll(env, steps)
    case LoopCont(loop, _, _) => Suits(env, loop)
    case OutCont(_) => false
  }

  // Continuations and then further steps, as one sequence.
  ghost predicate SuitsConts(env: Env, cs: seq<Cont>, later: seq<Node>) {
    if cs == [] then SuitsAll(env, later)
    else
      && SuitsCont(env, cs[0]) && SuitsConts(env, cs[1..], later)
      && (NoParallelCont(cs[0]) || (Local(env) && LooseConts(env, cs[1..]) && LooseAll(env, later)))
  }

  ghost predicate FitConts(env: Env, cs: seq<Cont>, later: seq<Node>, forked: bool) {
    if forked then Local(env) && LooseConts(env, cs) && LooseAll(env, later) else SuitsConts(env, cs, later)
  }

  ghost predicate FitCont(env: Env, c: Cont, forked: bool) {
    if forked then Local(env) && LooseCont(env, c) else SuitsCont(env, c)
  }

  lemma {:induction false} LooseContsConcat(env: Env, xs: seq<Cont>, ys: seq<Cont>)
    ensures LooseConts(env, xs + ys) <==> LooseConts(env, xs) && LooseConts(env, ys)
  {
    if xs == [] {
      assert xs + ys == ys;
    } else {
      assert (xs + ys)[1..] == xs[1..] + ys;
      LooseContsConcat(env, xs[1..], ys);
    }
  }

  lemma {:induction false} LooseResultsConcat(env: Env, xs: seq<Result>, ys: seq<Result>)
    ensures LooseResults(env, xs + ys) <==> LooseResults(env, xs) && LooseResults(env, ys)
  {
    if xs == [] {
      assert xs + ys == ys;
    } else {
      assert (xs + ys)[1..] == xs[1..] + ys;
      LooseResultsConcat(env, xs[1..], ys);
    }
  }

  lemma {:induction false} LooseContsSuit(env: Env, cs: seq<Cont>, later: seq<Node>, S: set<Node>)
    requires Local(env) && LooseConts(env, cs) && LooseAll(env, later) && ContsWithin(cs, S, false)
    ensures SuitsConts(env, cs, later)
  {
    if cs == [] {
      LooseSuitAll(env, later);
    } else {
      match cs[0] {
        case SeqCont(steps) => LooseSuitAll(env, steps);
        case LoopCont(loop, _, _) => LooseSuits(env, loop);
        case OutCont(_) =>
      }
      LooseContsSuit(env, cs[1..], later, S);
    }
  }

  lemma {:induction false} NoParallelContsSuit(env: Env, cs: seq<Cont>, later: seq<Node>)
    requires NoParallelConts(cs) && SuitsAll(env, later)
    ensures SuitsConts(env, cs, later)
  {
    if cs != [] {
      assert NoParallelCont(cs[0]);
      match cs[0] {
        case SeqCont(steps) => NoParallelsSuit(env, steps);
        case LoopCont(loop, _, _) => NoParallelSuits(env, loop);
        case OutCont(_) =>
      }
      NoParallelContsSuit(env, cs[1..], later);
    }
  }

  lemma {:induction false} SuitsAppend(env: Env, xs: seq<Cont>, ys: seq<Cont>, later: seq<Node>)
    requires SuitsConts(env, xs, []) && SuitsConts(env, ys, later)
    requires NoParallelConts(xs) || (Local(env) && LooseConts(env, ys) && LooseAll(env, later))
    ensures SuitsConts(env, xs + ys, later)
  {
    if xs == [] {
      assert xs + ys == ys;
    } else {
      assert (xs + ys)[1..] == xs[1..] + ys;
      SuitsAppend(env, xs[1..], ys, later);
      LooseContsConcat(env, xs[1..], ys);
    }
  }

  // The first continuation fits, and once it has run, so does the rest.
  lemma {:induction false} FitContsRest(env: Env, cs: seq<Cont>, later: seq<Node>, forked: bool, after: bool,
                                        S: set<Node>)
    requires FitConts(env, cs, later, forked) && cs != [] && ContsWithin(cs, S, forked)
    requires (forked ==> after) && (NoParallelCont(cs[0]) ==> after == forked)
    ensures FitCont(env, cs[0], forked) && FitConts(env, cs[1..], later, after)
  {
    if !forked && !after && !NoParallelCont(cs[0]) {
      LooseContsSuit(env, cs[1..], later, S);
    }
  }

  lemma {:induction false} LooseContsTouches(env: Env, cs: seq<Cont>, S: set<Node>)
    requires ValidConts(cs) && LooseConts(env, cs) && ContsWithin(cs, S, true)
    ensures EVERYTHING !in ContsTouches(env, cs)
    decreases cs
  {
    if cs != [] {
      LooseContTouches(env, cs[0], S);
      LooseContsTouches(env, cs[1..], S);
    }
  }

  lemma {:induction false} LooseContTouches(env: Env, c: Cont, S: set<Node>)
    requires ValidCont(c) && LooseCont(env, c) && ContWithin(c, S, true)
    ensures EVERYTHING !in ContTouches(env, c)
    decreases c
  {
    match c
    case SeqCont(steps) => LooseTouchesAll(env, steps);
    case LoopCont(loop, _, _) => LooseTouches(env, loop);
    case OutCont(outputs) => LooseResultsTouch(env, outputs, S);
  }

  lemma {:induction false} LooseResultsTouch(env: Env, rs: seq<Result>, S: set<Node>)
    requires ValidResults(rs) && LooseResults(env, rs) && ResultsWithin(rs, S, true)
    ensures EVERYTHING !in ResultsTouches(env, rs)
    decreases rs
  {
    if rs != [] {
      LooseContsTouches(env, rs[0].conts, S);
      LooseResultsTouch(env, rs[1..], S);
    }
  }

  // ---- Continuations over loose trees, or over trees without Parallel ---------------------------

  lemma {:induction false} LooseInside(env: Env, node: Node, n: Node)
    requires Loose(env, node) && n in Inside(node)
    ensures Loose(env, n)
    decreases node
  {
    if n != node {
      match node
      case Step(_) =>
      case Parallel(_, steps) => LooseInsideAll(env, steps, n);
      case Condition(_, ifTrue, ifFalse) =>
        if n in InsideAll(ifTrue) {
          LooseInsideAll(env, ifTrue, n);
        } else {
          LooseInsideAll(env, ifFalse, n);
        }
      case Router(_, routes) => LooseInsideRoutes(env, routes, n);
      case Loop(_, _, _, steps) => LooseInsideAll(env, steps, n);
    }
  }

  lemma {:induction false} LooseInsideAll(env: Env, steps: seq<Node>, n: Node)
    requires LooseAll(env, steps) && n in InsideAll(steps)
    ensures Loose(env, n)
    decreases steps
  {
    if n in Inside(steps[0]) {
      LooseInside(env, steps[0], n);
    } else {
      LooseInsideAll(env, steps[1..], n);
    }
  }

  lemma {:induction false} LooseInsideRoutes(env: Env, routes: seq<Route>, n: Node)
    requires LooseRoutes(env, routes) && n in InsideRoutes(routes)
    ensures Loose(env, n)
    decreases routes
  {
    if n in InsideAll(routes[0].steps) {
      LooseInsideAll(env, routes[0].steps, n);
    } else {
      LooseInsideRoutes(env, routes[1..], n);
    }
  }

  lemma {:induction false} NoParallelInside(node: Node, n: Node)
    requires NoParallel(node) && n in Inside(node)
    ensures NoParallel(n)
    decreases node
  {
    if n != node {
      match node
      case Step(_) =>
      case Condition(_, ifTrue, ifFalse) =>
        if n in InsideAll(ifTrue) {
          NoParallelInsideAll(ifTrue, n);
        } else {
          NoParallelInsideAll(ifFalse, n);
        }
      case Router(_, routes) => NoParallelInsideRoutes(routes, n);
      case Loop(_, _, _, steps) => NoParallelInsideAll(steps, n);
    }
  }

  lemma {:induction false} NoParallelInsideAll(steps: seq<Node>, n: Node)
    requires NoParallels(steps) && n in InsideAll(steps)
    ensures NoParallel(n)
    decreases steps
  {
    if n in Inside(steps[0]) {
      NoParallelInside(steps[0], n);
    } else {
      NoParallelInsideAll(steps[1..], n);
    }
  }

  lemma {:induction false} NoParallelInsideRoutes(routes: seq<Route>, n: Node)
    requires NoParallelRoutes(routes) && n in InsideRoutes(routes)
    ensures NoParallel(n)
    decreases routes
  {
    if n in InsideAll(routes[0].steps) {
      NoParallelInsideAll(routes[0].steps, n);
    } else {
      NoParallelInsideRoutes(routes[1..], n);
    }
  }

  lemma {:induction false} StepsLoose(env: Env, steps: seq<Node>, S: set<Node>)
    requires (forall n :: n in S ==> Loose(env, n)) && forall s :: s in steps ==> s in S
    ensures LooseAll(env, steps)
  {
    if steps != [] {
      assert steps[0] in S;
      StepsLoose(env, steps[1..], S);
    }
  }

  lemma {:induction false} ContLoose(env: Env, c: Cont, S: set<Node>)
    requires (forall n :: n in S ==> Loose(env, n)) && ContWithin(c, S, true)
    ensures LooseCont(env, c)
    decreases c
  {
    match c
    case SeqCont(steps) => StepsLoose(env, steps, S);
    case LoopCont(loop, _, _) =>
    case OutCont(outputs) => ResultsLoose(env, outputs, S);
  }

  lemma {:induction false} ContsLoose(env: Env, cs: seq<Cont>, S: set<Node>)
    requires (forall n :: n in S ==> Loose(env, n)) && ContsWithin(cs, S, true)
    ensures LooseConts(env, cs)
    decreases cs
  {
    if cs != [] {
      ContLoose(env, cs[0], S);
      ContsLoose(env, cs[1..], S);
    }
  }

  lemma {:induction false} ResultsLoose(env: Env, rs: seq<Result>, S: set<Node>)
    requires (forall n :: n in S ==> Loose(env, n)) && ResultsWithin(rs, S, true)
    ensures LooseResults(env, rs)
    decreases rs
  {
    if rs != [] {
      ContsLoose(env, rs[0].conts, S);
      ResultsLoose(env, rs[1..], S);
    }
  }

  lemma {:induction false} StepsNoParallel(steps: seq<Node>, S: set<Node>)
    requires (forall n :: n in S ==> NoParallel(n)) && forall s :: s in steps ==> s in S
    ensures NoParallels(steps)
  {
    if steps != [] {
      assert steps[0] in S;
      StepsNoParallel(steps[1..], S);
    }
  }

  lemma {:induction false} ContsNoParallel(cs: seq<Cont>, S: set<Node>)
    requires (forall n :: n in S ==> NoParallel(n)) && ContsWithin(cs, S, false)
    ensures NoParallelConts(cs)
  {
    if cs != [] {
      if cs[0].SeqCont? {
        StepsNoParallel(cs[0].steps, S);
      }
      ContsNoParallel(cs[1..], S);
      assert cs == [cs[0]] + cs[1..];
    }
  }

  // ---- What a run leaves behind -----------------------------------------------------------------

  // Its continuations fit; `narrow` says that no Parallel is among them.
  ghost predicate ResultFits(env: Env, r: Result, forked: bool, narrow: bool) {
    if forked then LooseConts(env, r.conts)
    else SuitsConts(env, r.conts, []) && (narrow ==> NoParallelConts(r.conts))
  }

  ghost predicate ResultsFit(env: Env, rs: seq<Result>, forked: bool, narrow: bool) {
    forall r :: r in rs ==> ResultFits(env, r, forked, narrow)
  }

  lemma {:induction false} SuitsAllLocal(env: Env, steps: seq<Node>)
    requires SuitsAll(env, steps) && !NoParallels(steps)
    ensures Local(env)
    decreases steps
  {
    if NoParallel(steps[0]) {
      SuitsAllLocal(env, steps[1..]);
    }
  }

  lemma {:induction false} LooseResultsAt(env: Env, rs: seq<Result>)
    ensures LooseResults(env, rs) <==> forall r :: r in rs ==> LooseConts(env, r.conts)
    decreases |rs|
  {
    if rs != [] {
      LooseResultsAt(env, rs[1..]);
      assert rs == [rs[0]] + rs[1..];
    }
  }

  lemma {:induction false} WithinAt(rs: seq<Result>, S: set<Node>, out: bool)
    requires ResultsWithin(rs, S, out)
    ensures forall r :: r in rs ==> ContsWithin(r.conts, S, out)
    decreases |rs|
  {
    if rs != [] {
      WithinAt(rs[1..], S, out);
      assert rs == [rs[0]] + rs[1..];
    }
  }

  // Results within a loose tree, or within one that has no Parallel.
  lemma {:induction false} WithinFits(env: Env, rs: seq<Result>, S: set<Node>, forked: bool, narrow: bool)
    requires ResultsWithin(rs, S, forked) && (narrow ==> forall n :: n in S ==> NoParallel(n))
    requires (narrow && !forked) || (Local(env) && forall n :: n in S ==> Loose(env, n))
    ensures ResultsFit(env, rs, forked, narrow)
  {
    WithinAt(rs, S, forked);
    forall r | r in rs
      ensures ResultFits(env, r, forked, narrow)
    {
      if !forked && narrow {
        ContsNoParallel(r.conts, S);
        NoParallelContsSuit(env, r.conts, []);
      } else {
        ContsWithinTrue(r.conts, S, forked);
        ContsLoose(env, r.conts, S);
        if !forked {
          LooseContsSuit(env, r.conts, [], S);
        }
      }
    }
  }

  lemma {:induction false} ContsWithinTrue(cs: seq<Cont>, S: set<Node>, out: bool)
    requires ContsWithin(cs, S, out)
    ensures ContsWithin(cs, S, true)
    decreases cs
  {
    if cs != [] {
      ContWithinTrue(cs[0], S, out);
      ContsWithinTrue(cs[1..], S, out);
    }
  }

  lemma {:induction false} ContWithinTrue(c: Cont, S: set<Node>, out: bool)
    requires ContWithin(c, S, out)
    ensures ContWithin(c, S, true)
  {
  }

  // Deferring behind a pause.
  lemma {:induction false} DeferFits(env: Env, results: seq<Result>, conts: seq<Cont>, forked: bool, head: bool,
                                     narrow: bool)
    requires ResultsFit(env, results, forked, head) && (forked || Normal(results))
    requires forked ==> LooseConts(env, conts)
    requires !forked ==>
               && SuitsConts(env, conts, []) && (head || (Local(env) && LooseConts(env, conts)))
               && (narrow ==> head && NoParallelConts(conts))
    ensures ResultsFit(env, DeferAfterPause(results, conts), forked, narrow)
  {
    if HasStatus(results, Failed) {
      FailuresFit(env, results, conts, forked, head, narrow);
    } else {
      DeferPausedFits(env, results, conts, forked, head, narrow);
    }
  }

  lemma {:induction false} FailuresFit(env: Env, results: seq<Result>, conts: seq<Cont>, forked: bool, head: bool,
                                       narrow: bool)
    requires ResultsFit(env, results, forked, head) && (narrow && !forked ==> head)
    ensures ResultsFit(env, FailuresOf(results), forked, narrow)
  {
    if results != [] {
      assert results[0] in results;
      FailuresFit(env, results[1..], conts, forked, head, narrow);
    }
  }

  lemma {:induction false} DeferPausedFits(env: Env, results: seq<Result>, conts: seq<Cont>, forked: bool,
                                           head: bool, narrow: bool)
    requires ResultsFit(env, results, forked, head) && (forked || Normal(results)) && !HasStatus(results, Failed)
    requires forked ==> LooseConts(env, conts)
    requires !forked ==>
               && SuitsConts(env, conts, []) && (head || (Local(env) && LooseConts(env, conts)))
               && (narrow ==> head && NoParallelConts(conts))
    ensures ResultsFit(env, DeferPaused(results, conts), forked, narrow)
  {
    if results != [] {
      var r := results[0];
      assert r in results;
      HasStatusHead(results, Failed);
      if r.report.status != Paused {
        DeferPausedFits(env, results[1..], conts, forked, head, narrow);
      } else {
        DeferredFits(env, r, results[1..], conts, forked, head, narrow);
      }
    }
  }

  lemma {:induction false} DeferredFits(env: Env, r: Result, later: seq<Result>, conts: seq<Cont>, forked: bool,
                                        head: bool, narrow: bool)
    requires ResultFits(env, r, forked, head) && ResultsFit(env, later, forked, head)
    requires if forked then LooseConts(env, conts)
             else
               && later == [] && SuitsConts(env, conts, []) && (head || (Local(env) && LooseConts(env, conts)))
               && (narrow ==> head && NoParallelConts(conts))
    ensures ResultFits(env, r.(conts := r.conts + Tail(later) + conts), forked, narrow)
  {
    if forked {
      LooseResultsAt(env, later);
      assert LooseConts(env, Tail(later)) by {
        assert later != [] ==> Tail(later)[1..] == [];
      }
      LooseContsConcat(env, r.conts, Tail(later));
      LooseContsConcat(env, r.conts + Tail(later), conts);
    } else {
      assert r.conts + Tail(later) == r.conts;
      SuitsAppend(env, r.conts, conts, []);
    }
  }

  /** Whatever a tree leaves behind when it pauses fits: before a Parallel, the continuations together
      suit what is asked of callbacks; after one, all of their callbacks look at counters only. */
  lemma {:induction false} ExecuteFits(env: Env, node: Node, w: World)
    requires Valid(node) && Fit(env, node, w.forked)
    ensures var e := Execute(env, node, w);
            ResultsFit(env, e.results, e.world.forked, NoParallel(node))
    decreases node
  {
    var e := Execute(env, node, w);
    match node
    case Step(_) =>
    case Condition(id, ifTrue, ifFalse) =>
      var w' := Call(env, id, Asked(id), w);
      if env.ask(id, w.ctx, w.log) {
        SequenceFits(env, ifTrue, w');
      } else {
        SequenceFits(env, ifFalse, w');
      }
    case Router(id, routes) =>
      var route := FindRoute(routes, env.select(id, w.ctx, w.log));
      if route.Some? {
        ValidRouteAt(routes, route.value);
        FitRouteAt(env, routes, route.value, w.forked);
        SequenceFits(env, routes[route.value].steps, Call(env, id, Asked(id), w));
        if NoParallel(node) {
          NoParallelRouteAt(routes, route.value);
        }
      }
    case Parallel(_, _) => WholeFits(env, node, w);
    case Loop(_, _, _, _) => WholeFits(env, node, w);
  }

  lemma {:induction false} InsideFits(env: Env, node: Node)
    ensures NoParallel(node) ==> forall n :: n in Inside(node) ==> NoParallel(n)
    ensures Loose(env, node) ==> forall n :: n in Inside(node) ==> Loose(env, n)
  {
    forall n | n in Inside(node)
      ensures NoParallel(node) ==> NoParallel(n)
      ensures Loose(env, node) ==> Loose(env, n)
    {
      if NoParallel(node) {
        NoParallelInside(node, n);
      }
      if Loose(env, node) {
        LooseInside(env, node, n);
      }
    }
  }

  // A tree that is loose, or has no Parallel, as a whole.
  lemma {:induction false} WholeFits(env: Env, node: Node, w: World)
    requires Valid(node) && Fit(env, node, w.forked)
    requires NoParallel(node) || (Local(env) && Loose(env, node))
    ensures var e := Execute(env, node, w);
            ResultsFit(env, e.results, e.world.forked, NoParallel(node))
  {
    var e := Execute(env, node, w);
    ExecuteWithin(env, node, w, e.world.forked);
    InsideFits(env, node);
    WithinFits(env, e.results, Inside(node), e.world.forked, NoParallel(node));
  }

  lemma {:induction false} SequenceFits(env: Env, steps: seq<Node>, w: World)
    requires ValidAll(steps) && FitAll(env, steps, w.forked)
    ensures var e := ExecuteSequence(env, steps, w);
            ResultsFit(env, e.results, e.world.forked, NoParallels(steps))
    decreases steps
  {
    if steps != [] {
      var e1 := Execute(env, steps[0], w);
      var w' := Publish(e1.world, Reports(e1.results));
      PublishGrows(e1.world, Reports(e1.results));
      FitRest(env, steps, w.forked, w'.forked);
      ExecuteFits(env, steps[0], w);
      ExecuteShape(env, steps[0], w);
      if HasStatus(e1.results, Paused) {
        RestDeferred(env, steps, e1.results, w.forked, w'.forked);
      } else if !HasStatus(e1.results, Failed) {
        SequenceFits(env, steps[1..], w');
        CompletedFit(env, e1.results, ExecuteSequence(env, steps[1..], w').world.forked, NoParallels(steps));
      }
    }
  }

  // Results that neither paused nor failed have nothing to continue.
  lemma {:induction false} CompletedFit(env: Env, results: seq<Result>, forked: bool, narrow: bool)
    requires ValidResults(results) && !ShouldStop(results)
    ensures ResultsFit(env, results, forked, narrow)
    decreases |results|
  {
    if results != [] {
      HasStatusHead(results, Paused);
      HasStatusHead(results, Failed);
      CompletedFit(env, results[1..], forked, narrow);
      assert results == [results[0]] + results[1..];
    }
  }

  lemma {:induction false} RestAlone(env: Env, rest: seq<Node>, forked: bool)
    requires FitAll(env, rest, forked)
    ensures LooseConts(env, [SeqCont(rest)]) <==> LooseAll(env, rest)
    ensures !forked ==> SuitsConts(env, [SeqCont(rest)], [])
  {
    assert [SeqCont(rest)][1..] == [];
    if !forked && !NoParallels(rest) {
      SuitsAllLocal(env, rest);
    }
  }

  lemma {:induction false} RestDeferred(env: Env, steps: seq<Node>, results: seq<Result>, forked: bool, after: bool)
    requires steps != [] && FitAll(env, steps, forked) && FitAll(env, steps[1..], after)
    requires (forked ==> after) && Normal(results) && ResultsFit(env, results, after, NoParallel(steps[0]))
    ensures ResultsFit(env, DeferAfterPause(results, if steps[1..] == [] then [] else [SeqCont(steps[1..])]), after,
                       NoParallels(steps))
  {
    var rest := steps[1..];
    var conts := if rest == [] then [] else [SeqCont(rest)];
    if rest != [] {
      RestAlone(env, rest, after);
    }
    DeferFits(env, results, conts, after, NoParallel(steps[0]), NoParallels(steps));
  }

  lemma {:induction false} ContFits(env: Env, c: Cont, S: set<Node>, w: World)
    requires ValidCont(c) && FitCont(env, c, w.forked) && ContWithin(c, S, w.forked)
    ensures var e := ExecuteCont(env, c, w);
            ResultsFit(env, e.results, e.world.forked, NoParallelCont(c))
  {
    match c
    case SeqCont(steps) => SequenceFits(env, steps, w);
    case LoopCont(loop, start, previous) =>
      var w' := Renamed(loop, previous, w);
      var e := RunIterations(env, loop, start, true, w');
      IterationsWithin(env, loop, start, true, w', e.world.forked);
      InsideFits(env, loop);
      WithinFits(env, e.results, Inside(loop), e.world.forked, NoParallel(loop));
    case OutCont(outputs) => LooseResultsAt(env, outputs);
  }

  // ---- Storing ----------------------------------------------------------------------------------

  // Recording the names of loops changes nothing about what fits.
  lemma {:induction false} SettledLoose(env: Env, cs: seq<Cont>)
    ensures LooseConts(env, SettleAll(cs)) <==> LooseConts(env, cs)
    decreases cs
  {
    if cs != [] {
      SettledContLoose(env, cs[0]);
      SettledLoose(env, cs[1..]);
      assert SettleAll(cs)[1..] == SettleAll(cs[1..]);
    }
  }

  lemma {:induction false} SettledContLoose(env: Env, c: Cont)
    ensures LooseCont(env, Settle(c)) <==> LooseCont(env, c)
    decreases c
  {
    if c.OutCont? {
      SettledResultsLoose(env, c.outputs);
    }
  }

  lemma {:induction false} SettledResultsLoose(env: Env, rs: seq<Result>)
    ensures LooseResults(env, SettleResults(rs)) <==> LooseResults(env, rs)
    decreases rs
  {
    if rs != [] {
      SettledLoose(env, rs[0].conts);
      SettledResultsLoose(env, rs[1..]);
      assert SettleResults(rs)[1..] == SettleResults(rs[1..]);
    }
  }

  lemma {:induction false} SettledFit(env: Env, cs: seq<Cont>, later: seq<Node>, forked: bool)
    requires FitConts(env, cs, later, forked)
    ensures FitConts(env, SettleAll(cs), later, forked)
    decreases cs
  {
    SettledLoose(env, cs);
    if !forked && cs != [] {
      SettledFit(env, cs[1..], later, false);
      SettledLoose(env, cs[1..]);
      assert SettleAll(cs)[1..] == SettleAll(cs[1..]);
    }
  }
}
