/** Continuations as stored data: executables become tree paths and are found again by path
    (executable_entries, WorkflowGraph and the serialize/restore functions of nodes.py). */
module WorkflowGraph {
  import opened Common
  import opened WorkflowTree
  import opened WorkflowExec
  import opened WorkflowDirect
  import opened WorkflowScope

  datatype Part = Index(i: nat) | Key(k: string)

  type Path = seq<Part>

  datatype Entry = Entry(path: Path, node: Node)

  // `executable_entries`, from position i on.
  function Entries(steps: seq<Node>, i: nat, prefix: Path): seq<Entry>
    requires i <= |steps|
    decreases steps, |steps| - i
  {
    if i == |steps| then []
    else
      var path := prefix + [Index(i)];
      [Entry(path, steps[i])] + Nested(steps[i], path) + Entries(steps, i + 1, prefix)
  }

  function Nested(node: Node, path: Path): seq<Entry>
    decreases node
  {
    match node
    case Step(_) => []
    case Parallel(_, steps) => Entries(steps, 0, path + [Key("parallel")])
    case Condition(_, ifTrue, ifFalse) =>
      Entries(ifTrue, 0, path + [Key("true")]) + Entries(ifFalse, 0, path + [Key("false")])
    case Router(_, routes) => RouteEntries(routes, 0, path)
    case Loop(_, _, _, steps) => Entries(steps, 0, path + [Key("loop")])
  }

  function RouteEntries(routes: seq<Route>, i: nat, path: Path): seq<Entry>
    requires i <= |routes|
    decreases routes, |routes| - i
  {
    if i == |routes| then []
    else Entries(routes[i].steps, 0, path + [Key("route"), Key(routes[i].key)]) + RouteEntries(routes, i + 1, path)
  }

  function Graph(steps: seq<Node>): seq<Entry> {
    Entries(steps, 0, [])
  }

  // ---- No path is yielded twice -----------------------------------------------------------------

  predicate DistinctPaths(es: seq<Entry>) {
    forall a, b :: 0 <= a < b < |es| ==> es[a].path != es[b].path
  }

  // Every path of xs differs from every path of ys.
  predicate NoCommonPath(xs: seq<Entry>, ys: seq<Entry>) {
    forall a, b :: 0 <= a < |xs| && 0 <= b < |ys| ==> xs[a].path != ys[b].path
  }

  lemma {:induction false} ConcatDistinct(xs: seq<Entry>, ys: seq<Entry>)
    requires DistinctPaths(xs) && DistinctPaths(ys) && NoCommonPath(xs, ys)
    ensures DistinctPaths(xs + ys)
  {
  }

  // All paths lie below `prefix` and continue with an index not below i; none is repeated.
  lemma {:induction false} EntriesDistinct(steps: seq<Node>, i: nat, prefix: Path)
    requires i <= |steps| && ValidAll(steps[i..])
    ensures DistinctPaths(Entries(steps, i, prefix))
    ensures forall a :: 0 <= a < |Entries(steps, i, prefix)| ==>
              var p := Entries(steps, i, prefix)[a].path;
              && prefix <= p && |prefix| < |p| && p[|prefix|].Index? && i <= p[|prefix|].i
    decreases steps, |steps| - i
  {
    if i < |steps| {
      assert steps[i..][0] == steps[i] && steps[i..][1..] == steps[i + 1..];
      var path := prefix + [Index(i)];
      var head: seq<Entry> := [Entry(path, steps[i])];
      var nested := Nested(steps[i], path);
      var rest := Entries(steps, i + 1, prefix);
      NestedDistinct(steps[i], path);
      EntriesDistinct(steps, i + 1, prefix);
      forall a | 0 <= a < |head + nested|
        ensures path <= (head + nested)[a].path
      {
        if a > 0 {
          assert (head + nested)[a] == nested[a - 1];
        }
      }
      ConcatDistinct(head, nested);
      assert NoCommonPath(head + nested, rest) by {
        forall a, b | 0 <= a < |head + nested| && 0 <= b < |rest|
          ensures (head + nested)[a].path != rest[b].path
        {
          assert path <= (head + nested)[a].path;
          assert (head + nested)[a].path[|prefix|] == path[|prefix|] == Index(i);
        }
      }
      ConcatDistinct(head + nested, rest);
      assert Entries(steps, i, prefix) == (head + nested) + rest;
      forall a | 0 <= a < |(head + nested) + rest|
        ensures var p := ((head + nested) + rest)[a].path;
                && prefix <= p && |prefix| < |p| && p[|prefix|].Index? && i <= p[|prefix|].i
      {
        var p := ((head + nested) + rest)[a].path;
        if a < |head + nested| {
          assert path <= p;
          assert p[|prefix|] == path[|prefix|];
          assert prefix <= p;
        } else {
          assert ((head + nested) + rest)[a] == rest[a - |head + nested|];
        }
      }
    }
  }

  // Paths below a node continue with a key, so they differ from the node's own path.
  lemma {:induction false} NestedDistinct(node: Node, path: Path)
    requires Valid(node)
    ensures DistinctPaths(Nested(node, path))
    ensures forall a :: 0 <= a < |Nested(node, path)| ==>
              path <= Nested(node, path)[a].path && |path| < |Nested(node, path)[a].path|
    decreases node
  {
    match node
    case Step(_) =>
    case Parallel(_, steps) =>
      assert steps[0..] == steps;
      EntriesDistinct(steps, 0, path + [Key("parallel")]);
    case Condition(_, ifTrue, ifFalse) =>
      assert ifTrue[0..] == ifTrue && ifFalse[0..] == ifFalse;
      var t, f := path + [Key("true")], path + [Key("false")];
      EntriesDistinct(ifTrue, 0, t);
      EntriesDistinct(ifFalse, 0, f);
      var ts, fs := Entries(ifTrue, 0, t), Entries(ifFalse, 0, f);
      forall a, b | 0 <= a < |ts| && 0 <= b < |fs|
        ensures ts[a].path != fs[b].path
      {
        assert ts[a].path[|path|] == t[|path|] && fs[b].path[|path|] == f[|path|];
      }
      ConcatDistinct(ts, fs);
    case Router(_, routes) =>
      assert routes[0..] == routes;
      RoutesDistinct(routes, 0, path);
    case Loop(_, _, _, steps) =>
      assert steps[0..] == steps;
      EntriesDistinct(steps, 0, path + [Key("loop")]);
  }

  lemma {:induction false} RoutesDistinct(routes: seq<Route>, i: nat, path: Path)
    requires i <= |routes| && ValidRoutes(routes[i..])
    requires forall a, b :: 0 <= a < b < |routes| ==> routes[a].key != routes[b].key
    ensures DistinctPaths(RouteEntries(routes, i, path))
    ensures forall a :: 0 <= a < |RouteEntries(routes, i, path)| ==>
              var p := RouteEntries(routes, i, path)[a].path;
              path <= p && |path| + 1 < |p| && exists r :: i <= r < |routes| && p[|path| + 1] == Key(routes[r].key)
    decreases routes, |routes| - i
  {
    if i < |routes| {
      assert routes[i..][0] == routes[i] && routes[i..][1..] == routes[i + 1..];
      var prefix := path + [Key("route"), Key(routes[i].key)];
      var steps := routes[i].steps;
      assert steps[0..] == steps;
      EntriesDistinct(steps, 0, prefix);
      RoutesDistinct(routes, i + 1, path);
      var xs, ys := Entries(steps, 0, prefix), RouteEntries(routes, i + 1, path);
      forall a | 0 <= a < |xs|
        ensures path <= xs[a].path && |path| + 1 < |xs[a].path| && xs[a].path[|path| + 1] == Key(routes[i].key)
      {
        assert prefix <= xs[a].path;
        assert xs[a].path[|path| + 1] == prefix[|path| + 1];
        assert path <= xs[a].path;
      }
      ConcatDistinct(xs, ys);
      forall a | 0 <= a < |xs + ys|
        ensures var p := (xs + ys)[a].path;
                path <= p && |path| + 1 < |p| && exists r :: i <= r < |routes| && p[|path| + 1] == Key(routes[r].key)
      {
        if a >= |xs| {
          assert (xs + ys)[a] == ys[a - |xs|];
        }
      }
    }
  }

  lemma {:induction false} GraphDistinct(steps: seq<Node>)
    requires ValidAll(steps)
    ensures DistinctPaths(Graph(steps))
  {
    assert steps[0..] == steps;
    EntriesDistinct(steps, 0, []);
  }

  // ---- Every nested executable is yielded -------------------------------------------------------

  predicate Yielded(es: seq<Entry>, n: Node) {
    exists a :: 0 <= a < |es| && es[a].node == n
  }

  lemma {:induction false} YieldedConcat(xs: seq<Entry>, ys: seq<Entry>, n: Node)
    ensures Yielded(xs + ys, n) <==> Yielded(xs, n) || Yielded(ys, n)
  {
    if Yielded(xs, n) {
      var a :| 0 <= a < |xs| && xs[a].node == n;
      assert (xs + ys)[a].node == n;
    }
    if Yielded(ys, n) {
      var a :| 0 <= a < |ys| && ys[a].node == n;
      assert (xs + ys)[|xs| + a].node == n;
    }
  }

  lemma {:induction false} EntriesYield(steps: seq<Node>, i: nat, prefix: Path, n: Node)
    requires i <= |steps|
    ensures n in InsideAll(steps[i..]) <==> Yielded(Entries(steps, i, prefix), n)
    decreases steps, |steps| - i
  {
    if i < |steps| {
      assert steps[i..][0] == steps[i] && steps[i..][1..] == steps[i + 1..];
      var path := prefix + [Index(i)];
      var head: seq<Entry> := [Entry(path, steps[i])];
      NestedYield(steps[i], path, n);
      EntriesYield(steps, i + 1, prefix, n);
      YieldedConcat(head, Nested(steps[i], path), n);
      YieldedConcat(head + Nested(steps[i], path), Entries(steps, i + 1, prefix), n);
      assert Yielded(head, n) <==> n == steps[i] by {
        assert head[0].node == steps[i];
      }
    }
  }

  lemma {:induction false} NestedYield(node: Node, path: Path, n: Node)
    ensures n in Inside(node) <==> n == node || Yielded(Nested(node, path), n)
    decreases node
  {
    match node
    case Step(_) =>
    case Parallel(_, steps) =>
      assert steps[0..] == steps;
      EntriesYield(steps, 0, path + [Key("parallel")], n);
    case Condition(_, ifTrue, ifFalse) =>
      assert ifTrue[0..] == ifTrue && ifFalse[0..] == ifFalse;
      EntriesYield(ifTrue, 0, path + [Key("true")], n);
      EntriesYield(ifFalse, 0, path + [Key("false")], n);
      YieldedConcat(Entries(ifTrue, 0, path + [Key("true")]), Entries(ifFalse, 0, path + [Key("false")]), n);
    case Router(_, routes) =>
      assert routes[0..] == routes;
      RoutesYield(routes, 0, path, n);
    case Loop(_, _, _, steps) =>
      assert steps[0..] == steps;
      EntriesYield(steps, 0, path + [Key("loop")], n);
  }

  lemma {:induction false} RoutesYield(routes: seq<Route>, i: nat, path: Path, n: Node)
    requires i <= |routes|
    ensures n in InsideRoutes(routes[i..]) <==> Yielded(RouteEntries(routes, i, path), n)
    decreases routes, |routes| - i
  {
    if i < |routes| {
      assert routes[i..][0] == routes[i] && routes[i..][1..] == routes[i + 1..];
      var prefix := path + [Key("route"), Key(routes[i].key)];
      assert routes[i].steps[0..] == routes[i].steps;
      EntriesYield(routes[i].steps, 0, prefix, n);
      RoutesYield(routes, i + 1, path, n);
      YieldedConcat(Entries(routes[i].steps, 0, prefix), RouteEntries(routes, i + 1, path), n);
    }
  }

  // ---- path_for and resolve ---------------------------------------------------------------------

  function Occurrences(es: seq<Entry>, id: nat): seq<Entry> {
    if es == [] then []
    else (if es[0].node.id == id then [es[0]] else []) + Occurrences(es[1..], id)
  }

  // None stands for the ValueError of a target that occurs nowhere or more than once.
  function PathFor(es: seq<Entry>, target: Node): Option<Path> {
    var found := Occurrences(es, target.id);
    if |found| == 1 then Some(found[0].path) else None
  }

  function Resolve(es: seq<Entry>, path: Path): Option<Node> {
    if es == [] then None
    else if es[0].path == path then Some(es[0].node)
    else Resolve(es[1..], path)
  }

  predicate UniqueIds(es: seq<Entry>) {
    forall a, b :: 0 <= a < b < |es| ==> es[a].node.id != es[b].node.id
  }

  lemma {:induction false} OccurrencesAt(es: seq<Entry>, a: nat)
    requires UniqueIds(es) && a < |es|
    ensures Occurrences(es, es[a].node.id) == [es[a]]
  {
    if a == 0 {
      NoOccurrence(es[1..], es[0].node.id);
    } else {
      OccurrencesAt(es[1..], a - 1);
    }
  }

  lemma {:induction false} NoOccurrence(es: seq<Entry>, id: nat)
    requires forall a :: 0 <= a < |es| ==> es[a].node.id != id
    ensures Occurrences(es, id) == []
  {
    if es != [] {
      NoOccurrence(es[1..], id);
    }
  }

  lemma {:induction false} OccurrencesSound(es: seq<Entry>, id: nat)
    ensures forall e :: e in Occurrences(es, id) ==> e in es && e.node.id == id
  {
    if es != [] {
      OccurrencesSound(es[1..], id);
    }
  }

  lemma {:induction false} ResolveAt(es: seq<Entry>, a: nat)
    requires DistinctPaths(es) && a < |es|
    ensures Resolve(es, es[a].path) == Some(es[a].node)
  {
    if a > 0 {
      ResolveAt(es[1..], a - 1);
    }
  }

  // The path of an executable that occurs once leads back to it.
  lemma {:induction false} ResolvePathFor(steps: seq<Node>, n: Node)
    requires ValidAll(steps) && n in InsideAll(steps)
    ensures PathFor(Graph(steps), n).Some? <==> |Occurrences(Graph(steps), n.id)| == 1
    ensures PathFor(Graph(steps), n).Some? ==> Resolve(Graph(steps), PathFor(Graph(steps), n).value) == Some(n)
    ensures UniqueIds(Graph(steps)) ==> PathFor(Graph(steps), n).Some?
  {
    var es := Graph(steps);
    assert steps[0..] == steps;
    EntriesYield(steps, 0, [], n);
    var a :| 0 <= a < |es| && es[a].node == n;
    GraphDistinct(steps);
    ResolveAt(es, a);
    if UniqueIds(es) {
      OccurrencesAt(es, a);
    }
    OccurrenceIncludes(es, a);
    if |Occurrences(es, n.id)| == 1 {
      assert es[a] == Occurrences(es, n.id)[0];
    }
  }

  lemma {:induction false} OccurrenceIncludes(es: seq<Entry>, a: nat)
    requires a < |es|
    ensures es[a] in Occurrences(es, es[a].node.id)
  {
    if a > 0 {
      OccurrenceIncludes(es[1..], a - 1);
    }
  }

  // ---- Serialised continuations -----------------------------------------------------------------

  datatype SCont =
    | SSeq(paths: seq<Path>)
    | SLoop(path: Path, start: int, name: string)
    | SOut(outputs: seq<SResult>)

  datatype SResult = SResult(report: Report, state: Option<RunState>, conts: seq<SCont>)

  function SerializeSteps(es: seq<Entry>, steps: seq<Node>): Option<seq<Path>> {
    if steps == [] then Some([])
    else
      var first, rest := PathFor(es, steps[0]), SerializeSteps(es, steps[1..]);
      if first.None? || rest.None? then None else Some([first.value] + rest.value)
  }

  function SerializeCont(es: seq<Entry>, c: Cont): Option<SCont>
    decreases c
  {
    match c
    case SeqCont(steps) =>
      var paths := SerializeSteps(es, steps);
      if paths.None? then None else Some(SSeq(paths.value))
    case LoopCont(loop, start, _) =>
      var path := PathFor(es, loop);
      if path.None? || !loop.Loop? then None else Some(SLoop(path.value, start, loop.name))
    case OutCont(outputs) =>
      var rs := SerializeResults(es, outputs);
      if rs.None? then None else Some(SOut(rs.value))
  }

  function SerializeConts(es: seq<Entry>, cs: seq<Cont>): Option<seq<SCont>>
    decreases cs
  {
    if cs == [] then Some([])
    else
      var first, rest := SerializeCont(es, cs[0]), SerializeConts(es, cs[1..]);
      if first.None? || rest.None? then None else Some([first.value] + rest.value)
  }

  function SerializeResults(es: seq<Entry>, rs: seq<Result>): Option<seq<SResult>>
    decreases rs
  {
    if rs == [] then Some([])
    else
      var conts, rest := SerializeConts(es, rs[0].conts), SerializeResults(es, rs[1..]);
      if conts.None? || rest.None? then None
      else Some([SResult(rs[0].report, rs[0].state, conts.value)] + rest.value)
  }

  function RestoreSteps(es: seq<Entry>, paths: seq<Path>): Option<seq<Node>> {
    if paths == [] then Some([])
    else
      var first, rest := Resolve(es, paths[0]), RestoreSteps(es, paths[1..]);
      if first.None? || rest.None? then None else Some([first.value] + rest.value)
  }

  function RestoreCont(es: seq<Entry>, s: SCont): Option<Cont>
    decreases s
  {
    match s
    case SSeq(paths) =>
      var steps := RestoreSteps(es, paths);
      if steps.None? then None else Some(SeqCont(steps.value))
    case SLoop(path, start, name) =>
      var loop := Resolve(es, path);
      if loop.None? || !loop.value.Loop? || start < 0 || start > |loop.value.steps| then None
      else Some(LoopCont(loop.value, start, Some(name)))
    case SOut(outputs) =>
      var rs := RestoreResults(es, outputs);
      if rs.None? then None else Some(OutCont(rs.value))
  }

  function RestoreConts(es: seq<Entry>, cs: seq<SCont>): Option<seq<Cont>>
    decreases cs
  {
    if cs == [] then Some([])
    else
      var first, rest := RestoreCont(es, cs[0]), RestoreConts(es, cs[1..]);
      if first.None? || rest.None? then None else Some([first.value] + rest.value)
  }

  function RestoreResults(es: seq<Entry>, rs: seq<SResult>): Option<seq<Result>>
    decreases rs
  {
    if rs == [] then Some([])
    else
      var conts, rest := RestoreConts(es, rs[0].conts), RestoreResults(es, rs[1..]);
      if conts.None? || rest.None? then None
      else Some([Result(rs[0].report, rs[0].state, conts.value)] + rest.value)
  }

  // A restored loop continuation remembers the name the loop had when it was stored.
  function Settle(c: Cont): Cont
    decreases c
  {
    match c
    case SeqCont(_) => c
    case LoopCont(loop, start, _) => if loop.Loop? then LoopCont(loop, start, Some(loop.name)) else c
    case OutCont(outputs) => OutCont(SettleResults(outputs))
  }

  function SettleAll(cs: seq<Cont>): (r: seq<Cont>)
    ensures |r| == |cs|
    decreases cs
  {
    if cs == [] then [] else [Settle(cs[0])] + SettleAll(cs[1..])
  }

  function SettleResults(rs: seq<Result>): (r: seq<Result>)
    ensures |r| == |rs|
    decreases rs
  {
    if rs == [] then [] else [rs[0].(conts := SettleAll(rs[0].conts))] + SettleResults(rs[1..])
  }

  // ---- Round trip -------------------------------------------------------------------------------

  lemma {:induction false} StepsRoundTrip(graph: seq<Node>, steps: seq<Node>)
    requires ValidAll(graph) && UniqueIds(Graph(graph))
    requires forall s :: s in steps ==> s in InsideAll(graph)
    ensures var paths := SerializeSteps(Graph(graph), steps);
            paths.Some? && RestoreSteps(Graph(graph), paths.value) == Some(steps)
  {
    if steps != [] {
      assert steps[0] in InsideAll(graph);
      ResolvePathFor(graph, steps[0]);
      StepsRoundTrip(graph, steps[1..]);
      assert steps == [steps[0]] + steps[1..];
      var paths := SerializeSteps(Graph(graph), steps).value;
      assert paths[1..] == SerializeSteps(Graph(graph), steps[1..]).value;
    }
  }

  // Storing and restoring gives the same continuation, whatever it is nested in.
  lemma {:induction false} ContRoundTrip(graph: seq<Node>, c: Cont)
    requires ValidAll(graph) && UniqueIds(Graph(graph)) && ValidCont(c) && ContWithin(c, InsideAll(graph), true)
    ensures var s := SerializeCont(Graph(graph), c);
            s.Some? && RestoreCont(Graph(graph), s.value) == Some(Settle(c))
    decreases c
  {
    match c
    case SeqCont(steps) => StepsRoundTrip(graph, steps);
    case LoopCont(loop, _, _) => ResolvePathFor(graph, loop);
    case OutCont(outputs) => ResultsRoundTrip(graph, outputs);
  }

  lemma {:induction false} ContsRoundTrip(graph: seq<Node>, cs: seq<Cont>)
    requires ValidAll(graph) && UniqueIds(Graph(graph)) && ValidConts(cs) && ContsWithin(cs, InsideAll(graph), true)
    ensures var s := SerializeConts(Graph(graph), cs);
            s.Some? && RestoreConts(Graph(graph), s.value) == Some(SettleAll(cs))
    decreases cs
  {
    if cs != [] {
      ContRoundTrip(graph, cs[0]);
      ContsRoundTrip(graph, cs[1..]);
      var s := SerializeConts(Graph(graph), cs).value;
      assert s[1..] == SerializeConts(Graph(graph), cs[1..]).value;
    }
  }

  lemma {:induction false} ResultsRoundTrip(graph: seq<Node>, rs: seq<Result>)
    requires ValidAll(graph) && UniqueIds(Graph(graph)) && ValidResults(rs) && ResultsWithin(rs, InsideAll(graph), true)
    ensures var s := SerializeResults(Graph(graph), rs);
            s.Some? && RestoreResults(Graph(graph), s.value) == Some(SettleResults(rs))
    decreases rs
  {
    if rs != [] {
      ContsRoundTrip(graph, rs[0].conts);
      ResultsRoundTrip(graph, rs[1..]);
      var s := SerializeResults(Graph(graph), rs).value;
      assert s[1..] == SerializeResults(Graph(graph), rs[1..]).value;
    }
  }

  // ---- What settling changes: nothing -----------------------------------------------------------

  lemma {:induction false} SettleMeaning(env: Env, graph: set<Node>, c: Cont, w: World, out: bool)
    requires ValidCont(c) && ContWithin(c, graph, out)
    ensures ValidCont(Settle(c)) && ContWithin(Settle(c), graph, out)
    ensures DirectCont(env, Settle(c), w) == DirectCont(env, c, w)
    decreases c
  {
    if c.OutCont? {
      SettleResultsMeaning(env, graph, c.outputs, w, out);
    }
  }

  lemma {:induction false} SettleAllMeaning(env: Env, graph: set<Node>, cs: seq<Cont>, w: World, out: bool)
    requires ValidConts(cs) && ContsWithin(cs, graph, out)
    ensures ValidConts(SettleAll(cs)) && ContsWithin(SettleAll(cs), graph, out)
    ensures DirectConts(env, SettleAll(cs), w) == DirectConts(env, cs, w)
    decreases cs
  {
    if cs != [] {
      SettleMeaning(env, graph, cs[0], w, out);
      SettleAllMeaning(env, graph, cs[1..], Published(DirectCont(env, cs[0], w)).world, out);
      assert SettleAll(cs)[1..] == SettleAll(cs[1..]);
    }
  }

  lemma {:induction false} SettleResultsMeaning(env: Env, graph: set<Node>, rs: seq<Result>, w: World, out: bool)
    requires ValidResults(rs) && ResultsWithin(rs, graph, out)
    ensures ValidResults(SettleResults(rs)) && ResultsWithin(SettleResults(rs), graph, out)
    ensures AnswerAll(env, SettleResults(rs), w) == AnswerAll(env, rs, w)
    decreases rs
  {
    if rs != [] {
      var settled := rs[0].(conts := SettleAll(rs[0].conts));
      if rs[0].report.status == Paused {
        SettleAllMeaning(env, graph, rs[0].conts, Answer(rs[0].state.value, w).world, out);
      } else {
        SettleAllMeaning(env, graph, rs[0].conts, w, out);
      }
      SettleResultsMeaning(env, graph, rs[1..], AnswerOne(env, rs[0], w).world, out);
      assert SettleResults(rs)[0] == settled && SettleResults(rs)[1..] == SettleResults(rs[1..]);
    }
  }
}
