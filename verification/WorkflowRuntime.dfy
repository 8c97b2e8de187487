/** The workflow engine in the form of the source: a context whose lists and maps are updated in
    place, loops that collect outputs, and a flow object that stores and takes up its state. Each
    method is proved against the functions of WorkflowExec and WorkflowFlow. */
module WorkflowRuntime {
  import opened Common
  import opened WorkflowTree
  import opened WorkflowGraph
  import opened WorkflowAnswers
  import opened WorkflowNumbers
  import Exec = WorkflowExec
  import F = WorkflowFlow

  class WorkflowContext {
    var outputs: seq<Report>
    var artifacts: map<string, string>
    var loopIterations: map<string, nat>
    // history of the run, not part of the source's context
    var log: seq<Event>
    var answered: nat
    var forked: bool

    constructor (w: World)
      ensures Value() == w
    {
      outputs, artifacts, loopIterations := w.ctx.outputs, w.ctx.artifacts, w.ctx.loops;
      log, answered, forked := w.log, w.answered, w.forked;
    }

    function Value(): World
      reads this
    {
      World(Context(outputs, artifacts, loopIterations), log, answered, forked)
    }

    method AddOutput(report: Report)
      modifies this`outputs
      ensures Value() == WorkflowTree.AddOutput(old(Value()), report)
    {
      for i := 0 to |outputs|
        invariant forall j :: 0 <= j < i ==> outputs[j].uid != report.uid
      {
        if outputs[i].uid == report.uid {
          return;
        }
      }
      outputs := outputs + [report];
    }

    method SetLoopIteration(name: string, iteration: nat)
      modifies this`loopIterations
      ensures Value() == SetCount(old(Value()), name, iteration)
    {
      loopIterations := loopIterations[name := iteration];
    }

    method IncrementLoopIteration(name: string) returns (current: nat)
      modifies this`loopIterations
      ensures Value() == SetCount(old(Value()), name, Count(old(Value()), name) + 1)
      ensures current == Count(Value(), name)
    {
      current := if name in loopIterations then loopIterations[name] else 0;
      current := current + 1;
      loopIterations := loopIterations[name := current];
    }

    // Calling user code: it may write artifacts, and the call is recorded.
    method Invoke(env: Env, id: nat, e: Event)
      modifies this`artifacts, this`log
      ensures Value() == Call(env, id, e, old(Value()))
    {
      artifacts := env.note(id, Context(outputs, artifacts, loopIterations), log);
      log := log + [e];
    }

    method PublishOutputs(results: seq<Result>)
      modifies this`outputs
      ensures Value() == Publish(old(Value()), Reports(results))
    {
      var rs := Reports(results);
      assert rs[0..] == rs;
      for i := 0 to |results|
        invariant Publish(Value(), rs[i..]) == Publish(old(Value()), rs)
      {
        assert rs[i..][0] == results[i].report && rs[i..][1..] == rs[i + 1..];
        if results[i].report.status == Completed {
          AddOutput(results[i].report);
        }
      }
      assert rs[|results|..] == [];
    }
  }

  // ---- Deferring with what was collected before -------------------------------------------------

  // Completed outputs collected so far stay in front of a deferred pause.
  lemma {:induction false} DeferCollected(collected: seq<Result>, latest: seq<Result>, conts: seq<Cont>)
    requires !ShouldStop(collected) && Normal(latest) && HasStatus(latest, Paused)
    ensures DeferAfterPause(collected + latest, conts) == collected + DeferAfterPause(latest, conts)
  {
    NormalPausedNotFailed(latest);
    HasStatusSplit(collected, latest, Failed);
    DeferPausedCollected(collected, latest, conts);
  }

  lemma {:induction false} DeferPausedCollected(collected: seq<Result>, latest: seq<Result>, conts: seq<Cont>)
    requires !ShouldStop(collected)
    ensures DeferPaused(collected + latest, conts) == collected + DeferPaused(latest, conts)
  {
    if collected == [] {
      assert collected + latest == latest;
    } else {
      HasStatusHead(collected, Paused);
      HasStatusHead(collected, Failed);
      assert (collected + latest)[1..] == collected[1..] + latest;
      DeferPausedCollected(collected[1..], latest, conts);
    }
  }

  lemma {:induction false} StillGoing(collected: seq<Result>, latest: seq<Result>)
    requires !ShouldStop(collected) && !ShouldStop(latest)
    ensures !ShouldStop(collected + latest)
  {
    HasStatusSplit(collected, latest, Paused);
    HasStatusSplit(collected, latest, Failed);
  }

  // What a sequence or a loop body returns when its latest step paused or failed.
  function StoppedOutputs(collected: seq<Result>, latest: seq<Result>, conts: seq<Cont>): seq<Result> {
    if HasStatus(latest, Paused) then DeferAfterPause(collected + latest, conts) else collected + latest
  }

  function RemainingCont(sequence: seq<Node>, i: nat): seq<Cont>
    requires i < |sequence|
  {
    if sequence[i + 1..] == [] then [] else [SeqCont(sequence[i + 1..])]
  }

  // One step of a sequence after `collected`, as the recursive function sees it.
  lemma {:induction false} SequenceStep(env: Env, sequence: seq<Node>, i: nat, collected: seq<Result>, w: World)
    requires i < |sequence| && ValidAll(sequence[i..]) && !ShouldStop(collected)
    ensures Valid(sequence[i]) && ValidAll(sequence[i + 1..])
    ensures var e := Exec.Execute(env, sequence[i], w);
            var w' := Publish(e.world, Reports(e.results));
            var here := Exec.ExecuteSequence(env, sequence[i..], w);
            if ShouldStop(e.results) then
              Exec.Out(collected + here.results, here.world)
              == Exec.Out(StoppedOutputs(collected, e.results, RemainingCont(sequence, i)), w')
            else
              var rest := Exec.ExecuteSequence(env, sequence[i + 1..], w');
              && !ShouldStop(collected + e.results)
              && Exec.Out(collected + here.results, here.world)
                 == Exec.Out((collected + e.results) + rest.results, rest.world)
  {
    assert sequence[i..][0] == sequence[i] && sequence[i..][1..] == sequence[i + 1..];
    var e := Exec.Execute(env, sequence[i], w);
    var w' := Publish(e.world, Reports(e.results));
    var here := Exec.ExecuteSequence(env, sequence[i..], w);
    ExecuteShape(env, sequence[i], w);
    if HasStatus(e.results, Paused) {
      assert here == Exec.Out(DeferAfterPause(e.results, RemainingCont(sequence, i)), w');
      DeferCollected(collected, e.results, RemainingCont(sequence, i));
    } else if HasStatus(e.results, Failed) {
      assert here == Exec.Out(e.results, w');
    } else {
      StillGoing(collected, e.results);
      var rest := Exec.ExecuteSequence(env, sequence[i + 1..], w');
      assert here == Exec.Out(e.results + rest.results, rest.world);
      assert collected + (e.results + rest.results) == (collected + e.results) + rest.results;
    }
  }

  lemma {:induction false} BodyStep(env: Env, loop: Node, i: nat, collected: seq<Result>, w: World)
    requires loop.Loop? && Valid(loop) && i < |loop.steps| && Valid(loop.steps[i]) && !ShouldStop(collected)
    ensures var e := Exec.Execute(env, loop.steps[i], w);
            var w' := Publish(e.world, Reports(e.results));
            var here := Exec.ExecuteBody(env, loop, i, w);
            if ShouldStop(e.results) then
              && ShouldStop(here.results)
              && Exec.Out(collected + here.results, here.world)
                 == Exec.Out(StoppedOutputs(collected, e.results, [LoopCont(loop, i + 1, None)]), w')
            else
              var rest := Exec.ExecuteBody(env, loop, i + 1, w');
              && !ShouldStop(collected + e.results)
              && (ShouldStop(here.results) <==> ShouldStop(rest.results))
              && Exec.Out(collected + here.results, here.world)
                 == Exec.Out((collected + e.results) + rest.results, rest.world)
  {
    var e := Exec.Execute(env, loop.steps[i], w);
    ExecuteShape(env, loop.steps[i], w);
    if ShouldStop(e.results) {
      if HasStatus(e.results, Paused) {
        DeferCollected(collected, e.results, [LoopCont(loop, i + 1, None)]);
        NormalPausedNotFailed(e.results);
        DeferKeepsPause(e.results, [LoopCont(loop, i + 1, None)]);
      }
    } else {
      StillGoing(collected, e.results);
      var rest := Exec.ExecuteBody(env, loop, i + 1, Publish(e.world, Reports(e.results)));
      HasStatusSplit(e.results, rest.results, Paused);
      HasStatusSplit(e.results, rest.results, Failed);
      assert collected + (e.results + rest.results) == (collected + e.results) + rest.results;
    }
  }

  lemma {:induction false} IterationStep(env: Env, loop: Node, start: nat, started: bool, collected: seq<Result>,
                                         w: World)
    requires loop.Loop? && Valid(loop) && start <= |loop.steps| && !ShouldStop(collected)
    requires started || Count(w, loop.name) < loop.limit
    ensures var body := Exec.ExecuteBody(env, loop, start, Exec.BeginIteration(loop, started, w));
            var here := Exec.RunIterations(env, loop, start, started, w);
            var w' := Call(env, loop.id, Asked(loop.id), body.world);
            if ShouldStop(body.results) then
              Exec.Out(collected + here.results, here.world) == Exec.Out(collected + body.results, body.world)
            else
              && !ShouldStop(collected + body.results)
              && Exec.IterationsLeft(loop, false, w') < Exec.IterationsLeft(loop, started, w)
              && Exec.Out(collected + here.results, here.world)
                 == if env.ask(loop.id, body.world.ctx, body.world.log) then Exec.Out(collected + body.results, w')
                    else
                      var rest := Exec.RunIterations(env, loop, 0, false, w');
                      Exec.Out((collected + body.results) + rest.results, rest.world)
  {
    var body := Exec.ExecuteBody(env, loop, start, Exec.BeginIteration(loop, started, w));
    if !ShouldStop(body.results) {
      StillGoing(collected, body.results);
      var rest := Exec.RunIterations(env, loop, 0, false, Call(env, loop.id, Asked(loop.id), body.world));
      assert collected + (body.results + rest.results) == (collected + body.results) + rest.results;
    }
  }

  // ---- Executables ------------------------------------------------------------------------------

  class Flow {
    const steps: seq<Node>
    const env: Env
    // the run store's record of this run
    var record: Option<F.Stored>

    constructor (env: Env, steps: seq<Node>)
      requires ValidAll(steps)
      ensures this.env == env && this.steps == steps && record == None
    {
      this.env, this.steps, record := env, steps, None;
    }

    method Execute(context: WorkflowContext, node: Node) returns (results: seq<Result>)
      requires Valid(node)
      modifies context
      ensures Exec.Execute(env, node, old(context.Value())) == Exec.Out(results, context.Value())
      decreases node
    {
      match node
      case Step(id) =>
        var s, uid := env.run(id, context.Value().ctx, context.log), |context.log|;
        context.Invoke(env, id, Started(id));
        results := [if s.pauses == 0 then Result(FinalReport(uid, s), None, [])
                    else Result(PausedReport(uid, s), Some(RunState(uid, s, s.pauses - 1)), [])];
      case Parallel(_, branches) =>
        context.forked := true;
        results := Gather(context, branches);
        results := DeferAfterPause(results, []);
      case Condition(id, ifTrue, ifFalse) =>
        var selected := env.ask(id, context.Value().ctx, context.log);
        context.Invoke(env, id, Asked(id));
        if selected {
          results := ExecuteSequence(context, ifTrue);
        } else {
          results := ExecuteSequence(context, ifFalse);
        }
      case Router(id, routes) =>
        var route := FindRoute(routes, env.select(id, context.Value().ctx, context.log));
        context.Invoke(env, id, Asked(id));
        if route.Some? {
          ValidRouteAt(routes, route.value);
          results := ExecuteSequence(context, routes[route.value].steps);
        } else {
          results := [];
        }
      case Loop(id, name, _, _) =>
        context.SetLoopIteration(name, 0);
        context.log := context.log + [Entered(id)];
        results := RunIterations(context, node, 0, false);
    }

    method Gather(context: WorkflowContext, branches: seq<Node>) returns (results: seq<Result>)
      requires ValidAll(branches)
      modifies context
      ensures Exec.ExecuteBranches(env, branches, old(context.Value())) == Exec.Out(results, context.Value())
      decreases branches
    {
      ghost var whole := Exec.ExecuteBranches(env, branches, context.Value());
      results := [];
      ValidDrop(branches, 0);
      assert branches[0..] == branches;
      for i := 0 to |branches|
        invariant ValidAll(branches[i..])
        invariant var rest := Exec.ExecuteBranches(env, branches[i..], context.Value());
                  whole == Exec.Out(results + rest.results, rest.world)
      {
        assert branches[i..][0] == branches[i] && branches[i..][1..] == branches[i + 1..];
        ghost var before := context.Value();
        var group := Execute(context, branches[i]);
        ghost var rest := Exec.ExecuteBranches(env, branches[i + 1..], context.Value());
        assert results + (group + rest.results) == (results + group) + rest.results;
        results := results + group;
      }
      assert branches[|branches|..] == [];
      assert results + [] == results;
    }

    method ExecuteSequence(context: WorkflowContext, sequence: seq<Node>) returns (outputs: seq<Result>)
      requires ValidAll(sequence)
      modifies context
      ensures Exec.ExecuteSequence(env, sequence, old(context.Value())) == Exec.Out(outputs, context.Value())
      decreases sequence
    {
      ghost var whole := Exec.ExecuteSequence(env, sequence, context.Value());
      outputs := [];
      assert sequence[0..] == sequence;
      for i := 0 to |sequence|
        invariant ValidAll(sequence[i..]) && !ShouldStop(outputs)
        invariant var rest := Exec.ExecuteSequence(env, sequence[i..], context.Value());
                  whole == Exec.Out(outputs + rest.results, rest.world)
      {
        SequenceStep(env, sequence, i, outputs, context.Value());
        var stepOutputs := Execute(context, sequence[i]);
        context.PublishOutputs(stepOutputs);
        if ShouldStop(stepOutputs) {
          if HasStatus(stepOutputs, Paused) {
            return DeferAfterPause(outputs + stepOutputs, RemainingCont(sequence, i));
          }
          return outputs + stepOutputs;
        }
        outputs := outputs + stepOutputs;
      }
      assert sequence[|sequence|..] == [];
      assert outputs + [] == outputs;
    }

    method RunIterations(context: WorkflowContext, loop: Node, start: nat, started: bool)
      returns (outputs: seq<Result>)
      requires loop.Loop? && Valid(loop) && start <= |loop.steps|
      modifies context
      ensures Exec.RunIterations(env, loop, start, started, old(context.Value())) == Exec.Out(outputs, context.Value())
      decreases loop, 1
    {
      ghost var whole := Exec.RunIterations(env, loop, start, started, context.Value());
      outputs := [];
      var startIndex: nat := start;
      var iterationStarted := started;
      while iterationStarted || Count(context.Value(), loop.name) < loop.limit
        invariant startIndex <= |loop.steps| && !ShouldStop(outputs)
        invariant var rest := Exec.RunIterations(env, loop, startIndex, iterationStarted, context.Value());
                  whole == Exec.Out(outputs + rest.results, rest.world)
        decreases Exec.IterationsLeft(loop, iterationStarted, context.Value())
      {
        IterationStep(env, loop, startIndex, iterationStarted, outputs, context.Value());
        if !iterationStarted {
          BeginIteration(context, loop);
        }
        var stop;
        outputs, stop := RunBody(context, loop, startIndex, outputs);
        if stop {
          return;
        }
        var stopped := env.ask(loop.id, context.Value().ctx, context.log);
        context.Invoke(env, loop.id, Asked(loop.id));
        if stopped {
          return;
        }
        startIndex, iterationStarted := 0, false;
      }
      assert outputs + [] == outputs;
    }

    method BeginIteration(context: WorkflowContext, loop: Node)
      requires loop.Loop?
      modifies context
      ensures context.Value() == Exec.BeginIteration(loop, false, old(context.Value()))
    {
      var _ := context.IncrementLoopIteration(loop.name);
      context.log := context.log + [Iterated(loop.id)];
    }

    // The inner `for` of `run_iterations`: steps start.. of one iteration, after `collected`.
    method RunBody(context: WorkflowContext, loop: Node, start: nat, collected: seq<Result>)
      returns (outputs: seq<Result>, stop: bool)
      requires loop.Loop? && Valid(loop) && start <= |loop.steps| && !ShouldStop(collected)
      modifies context
      ensures var body := Exec.ExecuteBody(env, loop, start, old(context.Value()));
              && context.Value() == body.world && outputs == collected + body.results
              && stop == ShouldStop(body.results)
      decreases loop, 0
    {
      ghost var whole := Exec.ExecuteBody(env, loop, start, context.Value());
      outputs, stop := collected, false;
      for index := start to |loop.steps|
        invariant !ShouldStop(outputs)
        invariant var rest := Exec.ExecuteBody(env, loop, index, context.Value());
                  && (ShouldStop(whole.results) <==> ShouldStop(rest.results))
                  && Exec.Out(collected + whole.results, whole.world) == Exec.Out(outputs + rest.results, rest.world)
      {
        ValidAllAt(loop.steps, index);
        BodyStep(env, loop, index, outputs, context.Value());
        var stepOutputs := Execute(context, loop.steps[index]);
        context.PublishOutputs(stepOutputs);
        if ShouldStop(stepOutputs) {
          if HasStatus(stepOutputs, Paused) {
            return DeferAfterPause(outputs + stepOutputs, [LoopCont(loop, index + 1, None)]), true;
          }
          return outputs + stepOutputs, true;
        }
        outputs := outputs + stepOutputs;
      }
      assert outputs + [] == outputs;
    }

    method CallContinuation(context: WorkflowContext, c: Cont) returns (outputs: seq<Result>)
      requires Exec.Callable(c)
      modifies context
      ensures Exec.ExecuteCont(env, c, old(context.Value())) == Exec.Out(outputs, context.Value())
    {
      match c
      case SeqCont(steps) =>
        outputs := ExecuteSequence(context, steps);
      case LoopCont(loop, start, previous) =>
        if previous.Some? && previous.value != loop.name {
          context.SetLoopIteration(loop.name, Count(context.Value(), previous.value));
        }
        outputs := RunIterations(context, loop, start, true);
      case OutCont(results) =>
        outputs := results;
    }

    // ---- The flow -------------------------------------------------------------------------------

    method PauseFlow(context: WorkflowContext, report: Report, pending: RunState, index: nat, all: seq<Report>,
                     conts: seq<Cont>)
      returns (r: F.FlowResult)
      modifies this`record
      ensures r == F.PauseFlow(env, Graph(steps), report, pending, index, all, context.Value(), conts)
      ensures record == if r.FlowPaused? then Some(r.stored) else old(record)
    {
      var outputs, state := F.DumpReports(env, all), env.freeze(pending);
      var artifacts, written := env.encode(context.artifacts), F.DumpConts(env, conts);
      if outputs.None? || state.None? || artifacts.None? || written.None? {
        return F.FlowFailed(F.NotPersisted(report), context.Value());
      }
      var stored := SerializeConts(Graph(steps), written.value);
      if stored.None? {
        return F.FlowFailed(F.NotPersisted(report), context.Value());
      }
      record := Some(F.Stored(index, outputs.value, state.value, artifacts.value, context.loopIterations,
                              stored.value));
      r := F.FlowPaused(report, record.value, F.PastOf(context.Value()));
    }

    method ExecuteStepResults(context: WorkflowContext, results: seq<Result>, all: seq<Report>, index: nat,
                              remaining: seq<Cont>)
      returns (v: F.Verdict)
      modifies this`record, context`outputs
      ensures v == F.StepResults(env, Graph(steps), results, old(context.Value()), all, index, remaining)
      ensures v.GoOn? ==> context.Value() == v.world
      ensures record == if v.Stop? && v.result.FlowPaused? then Some(v.result.stored) else old(record)
    {
      var allReports := all;
      ghost var whole := F.StepResults(env, Graph(steps), results, context.Value(), all, index, remaining);
      assert results[0..] == results;
      for i := 0 to |results|
        invariant whole == F.StepResults(env, Graph(steps), results[i..], context.Value(), allReports, index, remaining)
        invariant record == old(record)
      {
        var result := results[i];
        assert results[i..][0] == result && results[i..][1..] == results[i + 1..];
        if result.report.status == Paused {
          if result.state.None? {
            return F.Stop(F.FlowFailed(F.MissingRunnerState, context.Value()));
          }
          var conts := result.conts + Tail(results[i + 1..]) + remaining;
          var r := PauseFlow(context, result.report, result.state.value, index, allReports, conts);
          return F.Stop(r);
        }
        if result.report.status == Failed {
          return F.Stop(F.FlowFailed(F.StepFailed(result.report), context.Value()));
        }
        allReports := allReports + [result.report];
        context.AddOutput(result.report);
      }
      v := F.GoOn(allReports, context.Value());
    }

    method RunSteps(context: WorkflowContext, first: nat, all: seq<Report>) returns (r: F.FlowResult)
      requires ValidAll(steps) && first <= |steps|
      modifies this`record, context
      ensures r == F.RunTop(env, steps, first, old(context.Value()), all)
      ensures record == if r.FlowPaused? then Some(r.stored) else old(record)
    {
      ghost var whole := F.RunTop(env, steps, first, context.Value(), all);
      var allReports := all;
      for i := first to |steps|
        invariant whole == F.RunTop(env, steps, i, context.Value(), allReports)
        invariant record == old(record)
      {
        ValidAllAt(steps, i);
        var results := Execute(context, steps[i]);
        var v := ExecuteStepResults(context, results, allReports, i, []);
        match v {
          case Stop(result) => return result;
          case GoOn(reports, _) => allReports := reports;
        }
      }
      r := F.Finalize(allReports, context.Value());
    }

    method Run() returns (r: F.FlowResult)
      requires ValidAll(steps)
      modifies this`record
      ensures r == F.Run(env, steps)
      ensures record == if r.FlowPaused? then Some(r.stored) else old(record)
    {
      var context := new WorkflowContext(F.START);
      r := RunSteps(context, 0, []);
    }

    // Answer the stored pause; the history of the run is passed along.
    method Resume(past: F.History) returns (r: F.FlowResult)
      requires ValidAll(steps) && record.Some?
      modifies this`record
      ensures r == F.Resume(env, steps, old(record).value, past)
      ensures record == if r.FlowPaused? then Some(r.stored) else old(record)
    {
      var stored := record.value;
      var allReports := stored.outputs;
      var context := new WorkflowContext(World(Context(allReports, stored.artifacts, stored.loops), past.log,
                                               past.answered + 1, past.forked));
      var restored := RestoreConts(Graph(steps), stored.continuations);
      if stored.stepIndex >= |steps| || restored.None? {
        return F.FlowFailed(F.InvalidState, context.Value());
      }
      var s := stored.pending;
      if s.left > 0 {
        r := PauseFlow(context, PausedReport(s.uid, s.script), s.(left := s.left - 1), stored.stepIndex, allReports,
                       restored.value);
        return;
      }
      var report := FinalReport(s.uid, s.script);
      if report.status == Failed {
        return F.FlowFailed(F.StepFailed(report), context.Value());
      }
      F.RestoredCallable(steps, stored.continuations);
      allReports := allReports + [report];
      context.AddOutput(report);
      r := RunContinuations(context, restored.value, allReports, stored.stepIndex);
    }

    // The `while continuations` loop of `_resume`.
    method RunContinuations(context: WorkflowContext, conts: seq<Cont>, all: seq<Report>, index: nat)
      returns (r: F.FlowResult)
      requires ValidAll(steps) && index < |steps| && forall c :: c in conts ==> Exec.Callable(c)
      modifies this`record, context
      ensures r == F.RunConts(env, steps, conts, old(context.Value()), all, index)
      ensures record == if r.FlowPaused? then Some(r.stored) else old(record)
    {
      ghost var whole := F.RunConts(env, steps, conts, context.Value(), all, index);
      var continuations, allReports := conts, all;
      while continuations != []
        invariant forall c :: c in continuations ==> Exec.Callable(c)
        invariant whole == F.RunConts(env, steps, continuations, context.Value(), allReports, index)
        invariant record == old(record)
        decreases |continuations|
      {
        var continuation := continuations[0];
        continuations := continuations[1..];
        var results := CallContinuation(context, continuation);
        var v := ExecuteStepResults(context, results, allReports, index, continuations);
        match v {
          case Stop(result) => return result;
          case GoOn(reports, _) => allReports := reports;
        }
      }
      r := RunSteps(context, index + 1, allReports);
    }
  }
}
