/** The static side of a workflow (src/blackgeorge/workflow/nodes.py): trees of executables,
    the context they share, and the results and continuations they produce. */
module WorkflowTree {
  import opened Common

  // ---- Reports and runner state -----------------------------------------------------------------

  datatype Status = Completed | Paused | Failed

  // `uid` stands for the identity of the Python object, which `add_output` compares with `is`: every
  // start of a runner reports with an object of its own, numbered by the moment of the start.
  datatype Report = Report(uid: nat, status: Status, body: string)

  // What one start of a runner will do: pause `pauses` times, then end with one report.
  datatype Script = Script(pauses: nat, succeeds: bool, body: string)

  // The stored state of a paused runner; `left` further pauses follow the one being answered.
  datatype RunState = RunState(uid: nat, script: Script, left: nat)

  function FinalReport(uid: nat, s: Script): Report {
    Report(uid, if s.succeeds then Completed else Failed, s.body)
  }

  function PausedReport(uid: nat, s: Script): Report {
    Report(uid, Paused, s.body)
  }

  // ---- Trees ------------------------------------------------------------------------------------

  // `id` is the identity of the instance. A dict of routes is an association list.
  datatype Node =
    | Step(id: nat)
    | Parallel(id: nat, steps: seq<Node>)
    | Condition(id: nat, ifTrue: seq<Node>, ifFalse: seq<Node>)
    | Router(id: nat, routes: seq<Route>)
    | Loop(id: nat, name: string, limit: nat, steps: seq<Node>)

  datatype Route = Route(key: string, steps: seq<Node>)

  function FindRoute(routes: seq<Route>, key: string): (r: Option<nat>)
    ensures r.Some? ==> r.value < |routes| && routes[r.value].key == key
    ensures r.None? ==> forall i :: 0 <= i < |routes| ==> routes[i].key != key
  {
    if routes == [] then None
    else if routes[0].key == key then Some(0)
    else
      var rest := FindRoute(routes[1..], key);
      if rest.None? then None else Some(rest.value + 1)
  }

  // The loop names a tree writes.
  function Writes(node: Node): set<string>
    decreases node
  {
    match node
    case Step(_) => {}
    case Parallel(_, steps) => WritesAll(steps)
    case Condition(_, ifTrue, ifFalse) => WritesAll(ifTrue) + WritesAll(ifFalse)
    case Router(_, routes) => WritesRoutes(routes)
    case Loop(_, name, _, steps) => {name} + WritesAll(steps)
  }

  function WritesAll(steps: seq<Node>): set<string>
    decreases steps
  {
    if steps == [] then {} else Writes(steps[0]) + WritesAll(steps[1..])
  }

  function WritesRoutes(routes: seq<Route>): set<string>
    decreases routes
  {
    if routes == [] then {} else WritesAll(routes[0].steps) + WritesRoutes(routes[1..])
  }

  predicate NoParallel(node: Node)
    decreases node
  {
    match node
    case Step(_) => true
    case Parallel(_, _) => false
    case Condition(_, ifTrue, ifFalse) => NoParallels(ifTrue) && NoParallels(ifFalse)
    case Router(_, routes) => NoParallelRoutes(routes)
    case Loop(_, _, _, steps) => NoParallels(steps)
  }

  predicate NoParallels(steps: seq<Node>)
    decreases steps
  {
    steps == [] || (NoParallel(steps[0]) && NoParallels(steps[1..]))
  }

  predicate NoParallelRoutes(routes: seq<Route>)
    decreases routes
  {
    routes == [] || (NoParallels(routes[0].steps) && NoParallelRoutes(routes[1..]))
  }

  lemma {:induction false} NoParallelAt(steps: seq<Node>, i: nat)
    requires NoParallels(steps) && i < |steps|
    ensures NoParallel(steps[i])
  {
    if i > 0 {
      NoParallelAt(steps[1..], i - 1);
    }
  }

  lemma {:induction false} NoParallelDrop(steps: seq<Node>, i: nat)
    requires NoParallels(steps) && i <= |steps|
    ensures NoParallels(steps[i..])
  {
    if i > 0 {
      NoParallelDrop(steps[1..], i - 1);
      assert steps[1..][i - 1..] == steps[i..];
    }
  }

  lemma {:induction false} NoParallelRouteAt(routes: seq<Route>, i: nat)
    requires NoParallelRoutes(routes) && i < |routes|
    ensures NoParallels(routes[i].steps)
  {
    if i > 0 {
      NoParallelRouteAt(routes[1..], i - 1);
    }
  }

  // What the constructors check, dict keys being unique, and no loop being nested in a loop
  // of the same name (the inner one would reset the counter that bounds the outer one).
  predicate Valid(node: Node)
    decreases node
  {
    match node
    case Step(_) => true
    case Parallel(_, steps) => steps != [] && ValidAll(steps)
    case Condition(_, ifTrue, ifFalse) => ValidAll(ifTrue) && ValidAll(ifFalse)
    case Router(_, routes) =>
      && ValidRoutes(routes)
      && forall i, j :: 0 <= i < j < |routes| ==> routes[i].key != routes[j].key
    case Loop(_, name, limit, steps) =>
      steps != [] && limit >= 1 && name != "" && ValidAll(steps) && name !in WritesAll(steps)
  }

  predicate ValidAll(steps: seq<Node>)
    decreases steps
  {
    steps == [] || (Valid(steps[0]) && ValidAll(steps[1..]))
  }

  predicate ValidRoutes(routes: seq<Route>)
    decreases routes
  {
    routes == [] || (ValidAll(routes[0].steps) && ValidRoutes(routes[1..]))
  }

  lemma {:induction false} ValidAllAt(steps: seq<Node>, i: nat)
    requires ValidAll(steps) && i < |steps|
    ensures Valid(steps[i])
    ensures Writes(steps[i]) <= WritesAll(steps)
  {
    if i > 0 {
      ValidAllAt(steps[1..], i - 1);
    }
  }

  lemma {:induction false} ValidDrop(steps: seq<Node>, i: nat)
    requires ValidAll(steps) && i <= |steps|
    ensures ValidAll(steps[i..])
    ensures WritesAll(steps[i..]) <= WritesAll(steps)
  {
    if i > 0 {
      ValidDrop(steps[1..], i - 1);
      assert steps[1..][i - 1..] == steps[i..];
    }
  }

  lemma {:induction false} ValidRouteAt(routes: seq<Route>, i: nat)
    requires ValidRoutes(routes) && i < |routes|
    ensures ValidAll(routes[i].steps)
    ensures WritesAll(routes[i].steps) <= WritesRoutes(routes)
  {
    if i > 0 {
      ValidRouteAt(routes[1..], i - 1);
    }
  }

  // ---- Context (src/blackgeorge/workflow/context.py) --------------------------------------------

  datatype Context = Context(outputs: seq<Report>, artifacts: map<string, string>, loops: map<string, nat>)

  // History of a run: which callbacks were asked, which steps started, which loops were entered and
  // which of their iterations began.
  datatype Event = Asked(id: nat) | Started(id: nat) | Entered(id: nat) | Iterated(id: nat)

  // The context together with the history of the run: the events, the number of pauses answered so
  // far, and whether a Parallel has been executed.
  datatype World = World(ctx: Context, log: seq<Event>, answered: nat, forked: bool)

  function Count(w: World, name: string): nat {
    if name in w.ctx.loops then w.ctx.loops[name] else 0
  }

  function SetCount(w: World, name: string, n: nat): World {
    w.(ctx := w.ctx.(loops := w.ctx.loops[name := n]))
  }

  function AddOutput(w: World, report: Report): World {
    if exists i :: 0 <= i < |w.ctx.outputs| && w.ctx.outputs[i].uid == report.uid then w
    else w.(ctx := w.ctx.(outputs := w.ctx.outputs + [report]))
  }

  // `publish_outputs`: add the completed reports, in order.
  function Publish(w: World, reports: seq<Report>): World
    decreases |reports|
  {
    if reports == [] then w
    else
      var w' := if reports[0].status == Completed then AddOutput(w, reports[0]) else w;
      Publish(w', reports[1..])
  }

  // ---- Callbacks --------------------------------------------------------------------------------

  // Among what callbacks look at: the whole context and history, not only loop counters. No loop has
  // the empty name.
  const EVERYTHING := ""

  // Everything user code decides. Each callback may look at the context and at the whole history;
  // `looksAt` names the loop counters that the callbacks of a node look at, or EVERYTHING. `note` is
  // what a callback leaves of the artifacts. `encode` is what comes back of artifacts that are written as
  // JSON and read again, or nothing if they cannot be written; `dump` and `freeze` are the same for reports
  // and for the states of paused runners, in which tools may have left any object.
  datatype Env = Env(
    ask: (nat, Context, seq<Event>) -> bool,
    select: (nat, Context, seq<Event>) -> string,
    run: (nat, Context, seq<Event>) -> Script,
    note: (nat, Context, seq<Event>) -> map<string, string>,
    encode: map<string, string> -> Option<map<string, string>>,
    dump: Report -> Option<Report>,
    freeze: RunState -> Option<RunState>,
    looksAt: nat -> set<string>)

  // Artifacts that JSON gives back as they were.
  predicate Plain(env: Env, artifacts: map<string, string>) {
    env.encode(artifacts) == Some(artifacts)
  }

  // Reports and states come back as they were.
  ghost predicate Faithful(env: Env) {
    (forall r: Report :: env.dump(r) == Some(r)) && forall s: RunState :: env.freeze(s) == Some(s)
  }

  // Callbacks leave plain artifacts plain, and runners leave what comes back as it was.
  ghost predicate Tame(env: Env) {
    && Faithful(env)
    && Plain(env, map[])
    && forall id, c: Context, l :: Plain(env, c.artifacts) ==> Plain(env, env.note(id, c, l))
  }

  // Calling a callback may rewrite the artifacts and is recorded.
  function Call(env: Env, id: nat, e: Event, w: World): World {
    World(w.ctx.(artifacts := env.note(id, w.ctx, w.log)), w.log + [e], w.answered, w.forked)
  }

  // ---- Results and continuations ----------------------------------------------------------------

  datatype Result = Result(report: Report, state: Option<RunState>, conts: seq<Cont>)

  datatype Cont =
    | SeqCont(steps: seq<Node>)
    | LoopCont(loop: Node, start: nat, previous: Option<string>)
    | OutCont(outputs: seq<Result>)

  function Reports(results: seq<Result>): (rs: seq<Report>)
    ensures |rs| == |results|
    ensures forall i :: 0 <= i < |rs| ==> rs[i] == results[i].report
  {
    if results == [] then [] else [results[0].report] + Reports(results[1..])
  }

  predicate HasStatus(results: seq<Result>, s: Status) {
    exists i :: 0 <= i < |results| && results[i].report.status == s
  }

  predicate ShouldStop(results: seq<Result>) {
    HasStatus(results, Paused) || HasStatus(results, Failed)
  }

  function FailuresOf(results: seq<Result>): seq<Result> {
    if results == [] then []
    else (if results[0].report.status == Failed then [results[0]] else []) + FailuresOf(results[1..])
  }

  // `defer_after_pause`: failures drop everything else; otherwise the first paused result takes
  // over all later results and the given continuations.
  function DeferAfterPause(results: seq<Result>, conts: seq<Cont>): seq<Result> {
    if HasStatus(results, Failed) then FailuresOf(results) else DeferPaused(results, conts)
  }

  // The later results, as the continuation that a deferred pause leaves for them.
  function Tail(later: seq<Result>): seq<Cont> {
    if later == [] then [] else [OutCont(later)]
  }

  function DeferPaused(results: seq<Result>, conts: seq<Cont>): seq<Result> {
    if results == [] then []
    else if results[0].report.status != Paused then [results[0]] + DeferPaused(results[1..], conts)
    else
      [results[0].(conts := results[0].conts + Tail(results[1..]) + conts)]
  }
}
