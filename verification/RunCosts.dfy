/** The costs of a run whose runners are nested, such as workers in a workforce in a flow, through
    pauses and resumes in new processes (core/usage.py and its callers). */
module RunCosts {
  import opened Common
  import opened WorkerRunner
  import opened WorkerSafety

  // ---- Stored states and the books of a run -----------------------------------------------------

  // What a paused runner writes out. A worker keeps its metrics; a workforce or a flow keeps the totals
  // of the run as it saw them, and the states of the members that wait, more than one after a Parallel.
  datatype State = WorkerState(stay: nat, metrics: Option<real>) | LevelState(total: Option<real>, waiting: seq<State>)

  // A turn, and the stay it belongs to: one start of a worker and all of its resumes.
  datatype Turn = Turn(stay: nat, cost: real)

  // The totals that all runners share, and two histories: how many stays have begun, and all turns.
  datatype Books = Books(totals: Option<real>, stays: nat, turns: seq<Turn>)

  const NEW_RUN := Books(None, 0, [])

  // What a runner does until it ends or pauses, given its budget: a worker's turns, or the members that
  // a workforce or a flow runs one after the other. A resumed one runs its first waiting member first.
  // Inside a flow there are also sequences of members, and Parallel branches.
  datatype Act = Turns(costs: seq<Option<real>>, pauses: bool) | Level(members: seq<Act>) | Sequence(members: seq<Act>)
    | Gather(branches: seq<Act>)

  // ---- Running and resuming ---------------------------------------------------------------------

  // `restore_totals`
  function Restored(total: Option<real>, stored: Option<real>): Option<real> {
    if total.Some? then total else stored
  }

  // What a resumed runner restores the totals from.
  function StoredTotal(state: State): Option<real> {
    match state
    case WorkerState(_, metrics) => metrics
    case LevelState(total, _) => total
  }

  function Entered(b: Books, from: Option<State>): Books {
    if from.Some? then b.(totals := Restored(b.totals, StoredTotal(from.value))) else b
  }

  predicate Exceeds(budget: Option<real>, total: Option<real>) {
    budget.Some? && Spent(total) > budget.value
  }

  // `record_turn`
  function Recorded(b: Books, stay: nat, cost: real): Books {
    b.(totals := Some(Spent(b.totals) + cost), turns := b.turns + [Turn(stay, cost)])
  }

  // A worker's turns, each after a look at the shared totals; false if they exceed the budget. A turn whose
  // response has no usage is not recorded.
  function Spend(budget: Option<real>, b: Books, stay: nat, metrics: Option<real>, costs: seq<Option<real>>)
    : (Books, Option<real>, bool)
    decreases |costs|
  {
    if costs == [] then (b, metrics, true)
    else if Exceeds(budget, b.totals) then (b, metrics, false)
    else if costs[0].None? then Spend(budget, b, stay, metrics, costs[1..])
    else
      var cost := costs[0].value;
      Spend(budget, Recorded(b, stay, cost), stay, Some(Spent(metrics) + cost), costs[1..])
  }

  function RunWorker(budget: Option<real>, b: Books, stay: nat, metrics: Option<real>, costs: seq<Option<real>>,
                     pauses: bool)
    : (Books, seq<State>)
  {
    var (after, metrics', well) := Spend(budget, b, stay, metrics, costs);
    (after, if well && pauses then [WorkerState(stay, metrics')] else [])
  }

  // Starting a member, or resuming it from its state; a state of another kind is refused.
  function Run(budget: Option<real>, b: Books, from: Option<State>, act: Act): (Books, seq<State>)
    decreases act
  {
    var entered := Entered(b, from);
    match act
    case Turns(costs, pauses) =>
      if from.None? then RunWorker(budget, entered.(stays := b.stays + 1), b.stays, None, costs, pauses)
      else if from.value.WorkerState? then
        RunWorker(budget, entered, from.value.stay, from.value.metrics, costs, pauses)
      else (entered, [])
    case Level(members) =>
      if from.None? then Paused(RunMembers(budget, entered, None, members), [])
      else if from.value.LevelState? && from.value.waiting != [] then
        Paused(RunMembers(budget, entered, Some(from.value.waiting[0]), members), from.value.waiting[1..])
      else (entered, [])
    case Sequence(members) => if from.None? then RunMembers(budget, entered, None, members) else (entered, [])
    case Gather(branches) => if from.None? then RunBranches(budget, entered, branches) else (entered, [])
  }

  // The state is written out if a member paused now, or waits since before.
  function Paused(ran: (Books, seq<State>), rest: seq<State>): (Books, seq<State>) {
    (ran.0, if ran.1 + rest == [] then [] else [LevelState(ran.0.totals, ran.1 + rest)])
  }

  // Members run up to the first one that pauses.
  function RunMembers(budget: Option<real>, b: Books, from: Option<State>, members: seq<Act>): (Books, seq<State>)
    decreases members
  {
    if members == [] then (b, if from.Some? then [from.value] else [])
    else
      var (after, states) := Run(budget, b, from, members[0]);
      if states != [] then (after, states) else RunMembers(budget, after, None, members[1..])
  }

  function RunBranches(budget: Option<real>, b: Books, branches: seq<Act>): (Books, seq<State>)
    decreases branches
  {
    if branches == [] then (b, [])
    else
      var (first, states) := Run(budget, b, None, branches[0]);
      var (after, more) := RunBranches(budget, first, branches[1..]);
      (after, states + more)
  }

  // A worker, a workforce or a flow, that is, something that has a state of its own.
  predicate IsRunner(act: Act) {
    act.Turns? || act.Level?
  }

  // A run: the start of a worker, a workforce or a flow, and a resume for every later act, each with
  // nothing but the stored state. Resuming what does not wait has no effect.
  function RunActs(budget: Option<real>, acts: seq<Act>): (Books, seq<State>)
    decreases |acts|
  {
    if acts == [] then (NEW_RUN, [])
    else if |acts| == 1 then Run(budget, NEW_RUN, None, acts[0])
    else
      var (before, states) := RunActs(budget, acts[..|acts| - 1]);
      if states == [] then (before, [])
      else Run(budget, before.(totals := None), Some(states[0]), acts[|acts| - 1])
  }

  // ---- The books balance ------------------------------------------------------------------------

  function Costs(turns: seq<Turn>): (costs: seq<real>)
    ensures |costs| == |turns|
  {
    seq(|turns|, i requires 0 <= i < |turns| => turns[i].cost)
  }

  function CostsOf(turns: seq<Turn>, stay: nat): seq<real>
    decreases |turns|
  {
    if turns == [] then []
    else
      var last := turns[|turns| - 1];
      CostsOf(turns[..|turns| - 1], stay) + if last.stay == stay then [last.cost] else []
  }

  // The totals are the sum of all turns, and every turn began within the budget.
  ghost predicate Balanced(budget: Option<real>, b: Books) {
    && b.totals == Tally(Costs(b.turns)) && WithinBudget(Costs(b.turns), budget)
    && forall k :: 0 <= k < |b.turns| ==> b.turns[k].stay < b.stays
  }

  // The stays of the workers that wait in a state.
  function Stays(state: State): set<nat> {
    match state
    case WorkerState(stay, _) => {stay}
    case LevelState(_, waiting) => StaysOf(waiting)
  }

  function StaysOf(states: seq<State>): set<nat> {
    if states == [] then {} else Stays(states[0]) + StaysOf(states[1..])
  }

  // Every waiting worker has its own metrics, no stay waits twice, and a level that noted no totals did
  // so before any turn.
  ghost predicate Fits(state: State, b: Books) {
    match state
    case WorkerState(stay, metrics) => stay < b.stays && metrics == Tally(CostsOf(b.turns, stay))
    case LevelState(total, waiting) => (b.turns == [] ==> total.None?) && AllFit(waiting, b)
  }

  ghost predicate AllFit(states: seq<State>, b: Books) {
    states != [] ==>
      Fits(states[0], b) && AllFit(states[1..], b) && Stays(states[0]) !! StaysOf(states[1..])
  }

  // The outermost state alone tells what all turns cost: a level has them all, and a lone worker's turns
  // are all there are.
  ghost predicate Whole(state: State, b: Books) {
    match state
    case WorkerState(stay, _) => forall k :: 0 <= k < |b.turns| ==> b.turns[k].stay == stay
    case LevelState(total, _) => total == Tally(Costs(b.turns))
  }

  lemma {:induction false} CostsAppend(turns: seq<Turn>, t: Turn)
    ensures Costs(turns + [t]) == Costs(turns) + [t.cost]
    ensures forall stay :: CostsOf(turns + [t], stay) == CostsOf(turns, stay) + if t.stay == stay then [t.cost] else []
  {
    assert (turns + [t])[..|turns|] == turns;
  }

  lemma {:induction false} AllFromOne(turns: seq<Turn>, stay: nat)
    requires forall k :: 0 <= k < |turns| ==> turns[k].stay == stay
    ensures CostsOf(turns, stay) == Costs(turns)
    decreases |turns|
  {
    if turns != [] {
      var before, last := turns[..|turns| - 1], turns[|turns| - 1];
      assert turns == before + [last];
      AllFromOne(before, stay);
      CostsAppend(before, last);
    }
  }

  lemma {:induction false} NoneFromNew(turns: seq<Turn>, stay: nat)
    requires forall k :: 0 <= k < |turns| ==> turns[k].stay < stay
    ensures CostsOf(turns, stay) == []
    decreases |turns|
  {
    if turns != [] {
      NoneFromNew(turns[..|turns| - 1], stay);
    }
  }

  lemma {:induction false} RecordBalances(budget: Option<real>, b: Books, stay: nat, cost: real)
    requires Balanced(budget, b) && stay < b.stays && !Exceeds(budget, b.totals)
    ensures var after := Recorded(b, stay, cost);
            && Balanced(budget, after)
            && Tally(CostsOf(after.turns, stay)) == Some(Spent(Tally(CostsOf(b.turns, stay))) + cost)
  {
    CostsAppend(b.turns, Turn(stay, cost));
    TallyOneMore(Costs(b.turns), cost);
    TallyOneMore(CostsOf(b.turns, stay), cost);
    SpendOneMore(Costs(b.turns), Some(cost), budget);
  }

  lemma {:induction false} SpendFirst(budget: Option<real>, b: Books, stay: nat, metrics: Option<real>,
                                      costs: seq<Option<real>>)
    requires costs != [] && costs[0].Some? && !Exceeds(budget, b.totals)
    ensures var cost := costs[0].value;
            Spend(budget, b, stay, metrics, costs)
            == Spend(budget, Recorded(b, stay, cost), stay, Some(Spent(metrics) + cost), costs[1..])
  {
  }

  // A recorded turn comes before the later ones.
  lemma {:induction false} TurnBefore(b: Books, next: Books, after: Books, stay: nat)
    requires b.turns <= next.turns && |next.turns| == |b.turns| + 1 && next.turns[|b.turns|].stay == stay
    requires next.turns <= after.turns && forall k :: |next.turns| <= k < |after.turns| ==> after.turns[k].stay == stay
    ensures b.turns <= after.turns && forall k :: |b.turns| <= k < |after.turns| ==> after.turns[k].stay == stay
  {
    assert after.turns[|b.turns|] == next.turns[|b.turns|];
  }

  lemma {:induction false} SpendBalances(budget: Option<real>, b: Books, stay: nat, metrics: Option<real>,
                                         costs: seq<Option<real>>)
    requires Balanced(budget, b) && stay < b.stays && metrics == Tally(CostsOf(b.turns, stay))
    ensures var (after, metrics', _) := Spend(budget, b, stay, metrics, costs);
            && Balanced(budget, after) && metrics' == Tally(CostsOf(after.turns, stay)) && after.stays == b.stays
            && b.turns <= after.turns && forall k :: |b.turns| <= k < |after.turns| ==> after.turns[k].stay == stay
    decreases |costs|
  {
    if costs != [] && !Exceeds(budget, b.totals) {
      if costs[0].None? {
        SpendBalances(budget, b, stay, metrics, costs[1..]);
      } else {
        var cost := costs[0].value;
        var next := Recorded(b, stay, cost);
        RecordBalances(budget, b, stay, cost);
        SpendFirst(budget, b, stay, metrics, costs);
        SpendBalances(budget, next, stay, Some(Spent(metrics) + cost), costs[1..]);
        TurnBefore(b, next, Spend(budget, next, stay, Some(Spent(metrics) + cost), costs[1..]).0, stay);
      }
    }
  }

  // ---- Nothing is left out ----------------------------------------------------------------------

  function BilledCosts(costs: seq<Option<real>>): seq<real>
    decreases |costs|
  {
    if costs == [] then []
    else
      BilledCosts(costs[..|costs| - 1])
      + if costs[|costs| - 1].Some? then [costs[|costs| - 1].value] else []
  }

  lemma {:induction false} BilledFirst(cost: Option<real>, costs: seq<Option<real>>)
    ensures BilledCosts([cost] + costs) == (if cost.Some? then [cost.value] else []) + BilledCosts(costs)
    decreases |costs|
  {
    var all := [cost] + costs;
    if costs == [] {
      assert all[..0] == [];
    } else {
      BilledFirst(cost, costs[..|costs| - 1]);
      assert all[..|all| - 1] == [cost] + costs[..|costs| - 1];
    }
  }

  lemma {:induction false} OneMoreCost(turns: seq<Turn>, turn: Turn)
    ensures Costs(turns + [turn]) == Costs(turns) + [turn.cost]
  {
  }

  lemma {:induction false} BilledUpTo(costs: seq<Option<real>>, n: nat)
    requires n < |costs|
    ensures BilledCosts(costs[..n + 1])
            == (if costs[0].Some? then [costs[0].value] else []) + BilledCosts(costs[1..][..n])
  {
    BilledFirst(costs[0], costs[1..][..n]);
    assert costs[..n + 1] == [costs[0]] + costs[1..][..n];
  }

  // A worker took its first n turns, and no more only if more than the budget was spent.
  ghost predicate Took(budget: Option<real>, before: seq<real>, after: seq<real>, well: bool,
                       costs: seq<Option<real>>, n: nat) {
    && n <= |costs| && after == before + BilledCosts(costs[..n]) && (well <==> n == |costs|)
    && (!well ==> budget.Some? && Sum(after) > budget.value)
  }

  lemma {:induction false} TookOneMore(budget: Option<real>, before: seq<real>, after: seq<real>, well: bool,
                                       costs: seq<Option<real>>, n: nat)
    requires costs != []
    requires Took(budget, before + (if costs[0].Some? then [costs[0].value] else []), after, well, costs[1..], n)
    ensures Took(budget, before, after, well, costs, n + 1)
  {
    BilledUpTo(costs, n);
    assert (before + (if costs[0].Some? then [costs[0].value] else [])) + BilledCosts(costs[1..][..n])
           == before + ((if costs[0].Some? then [costs[0].value] else []) + BilledCosts(costs[1..][..n]));
  }

  /** A worker takes all of its turns, or the first n, because then more than the budget was spent. */
  lemma {:induction false} SpendTakes(budget: Option<real>, b: Books, stay: nat, metrics: Option<real>,
                                      costs: seq<Option<real>>) returns (n: nat)
    requires b.totals == Tally(Costs(b.turns))
    ensures var (after, _, well) := Spend(budget, b, stay, metrics, costs);
            Took(budget, Costs(b.turns), Costs(after.turns), well, costs, n)
    decreases |costs|
  {
    if costs == [] || Exceeds(budget, b.totals) {
      assert costs[..0] == [] && Costs(b.turns) + [] == Costs(b.turns);
      return 0;
    }
    if costs[0].None? {
      n := SpendTakes(budget, b, stay, metrics, costs[1..]);
      assert Costs(b.turns) + [] == Costs(b.turns);
    } else {
      var next := Recorded(b, stay, costs[0].value);
      OneMoreCost(b.turns, Turn(stay, costs[0].value));
      TallyOneMore(Costs(b.turns), costs[0].value);
      n := SpendTakes(budget, next, stay, Some(Spent(metrics) + costs[0].value), costs[1..]);
      SpendFirst(budget, b, stay, metrics, costs);
    }
    var ran := Spend(budget, b, stay, metrics, costs);
    TookOneMore(budget, Costs(b.turns), Costs(ran.0.turns), ran.2, costs, n);
    n := n + 1;
  }

  predicate NeverPauses(act: Act)
    decreases act
  {
    match act
    case Turns(_, pauses) => !pauses
    case Level(members) => NonePauses(members)
    case Sequence(members) => NonePauses(members)
    case Gather(branches) => NonePauses(branches)
  }

  predicate NonePauses(acts: seq<Act>)
    decreases acts
  {
    acts == [] || (NeverPauses(acts[0]) && NonePauses(acts[1..]))
  }

  function AllCosts(act: Act): seq<real>
    decreases act
  {
    match act
    case Turns(costs, _) => BilledCosts(costs)
    case Level(members) => CostsOfAll(members)
    case Sequence(members) => CostsOfAll(members)
    case Gather(branches) => CostsOfAll(branches)
  }

  function CostsOfAll(acts: seq<Act>): seq<real>
    decreases acts
  {
    if acts == [] then [] else AllCosts(acts[0]) + CostsOfAll(acts[1..])
  }

  // The books after an act that was not limited and did not pause.
  ghost predicate AllTaken(b: Books, ran: (Books, seq<State>), costs: seq<real>) {
    && ran.1 == [] && Costs(ran.0.turns) == Costs(b.turns) + costs
    && (b.totals == Tally(Costs(b.turns)) ==> ran.0.totals == Tally(Costs(ran.0.turns)))
  }

  /** Without a budget and without pauses everything runs: every turn of every member at any depth is
      recorded, in order. */
  lemma {:induction false} NothingSkipped(b: Books, act: Act)
    requires Balanced(None, b) && NeverPauses(act)
    ensures AllTaken(b, Run(None, b, None, act), AllCosts(act)) && Balanced(None, Run(None, b, None, act).0)
    decreases act
  {
    match act
    case Turns(costs, _) =>
      var started := b.(stays := b.stays + 1);
      NoneFromNew(b.turns, b.stays);
      SpendBalances(None, started, b.stays, None, costs);
      var n := SpendTakes(None, started, b.stays, None, costs);
      assert costs[..|costs|] == costs;
    case Level(members) => NoMemberSkipped(b, members);
    case Sequence(members) => NoMemberSkipped(b, members);
    case Gather(branches) => NoBranchSkipped(b, branches);
  }

  lemma {:induction false} NoMemberSkipped(b: Books, members: seq<Act>)
    requires Balanced(None, b) && NonePauses(members)
    ensures AllTaken(b, RunMembers(None, b, None, members), CostsOfAll(members))
    ensures Balanced(None, RunMembers(None, b, None, members).0)
    decreases members
  {
    if members == [] {
      assert Costs(b.turns) + [] == Costs(b.turns);
    } else {
      NothingSkipped(b, members[0]);
      NoMemberSkipped(Run(None, b, None, members[0]).0, members[1..]);
    }
  }

  lemma {:induction false} NoBranchSkipped(b: Books, branches: seq<Act>)
    requires Balanced(None, b) && NonePauses(branches)
    ensures AllTaken(b, RunBranches(None, b, branches), CostsOfAll(branches))
    ensures Balanced(None, RunBranches(None, b, branches).0)
    decreases branches
  {
    if branches == [] {
      assert Costs(b.turns) + [] == Costs(b.turns);
    } else {
      NothingSkipped(b, branches[0]);
      NoBranchSkipped(Run(None, b, None, branches[0]).0, branches[1..]);
    }
  }

  // Inside a run, where the totals are there already, restoring them again changes nothing.
  lemma {:induction false} RestoredAlready(budget: Option<real>, b: Books, state: State)
    requires Balanced(budget, b) && Fits(state, b)
    ensures Entered(b, Some(state)) == b
  {
    if b.turns == [] && state.WorkerState? {
      assert CostsOf(b.turns, state.stay) == [];
    }
  }

  // In a new process they come back whole out of the outermost state.
  lemma {:induction false} RestoredWhole(budget: Option<real>, b: Books, state: State)
    requires Balanced(budget, b) && Fits(state, b) && Whole(state, b)
    ensures Entered(b.(totals := None), Some(state)) == b
  {
    if state.WorkerState? {
      AllFromOne(b.turns, state.stay);
    }
  }

  // From b to `after` only these stays and new ones made turns.
  ghost predicate Grows(b: Books, after: Books, stays: set<nat>) {
    && b.turns <= after.turns && b.stays <= after.stays
    && forall k :: |b.turns| <= k < |after.turns| ==> after.turns[k].stay in stays || after.turns[k].stay >= b.stays
  }

  // Only these stays and new ones wait.
  ghost predicate WaitAmong(states: seq<State>, b: Books, after: Books, stays: set<nat>) {
    forall n :: n in StaysOf(states) ==> n in stays || b.stays <= n < after.stays
  }

  lemma {:induction false} StayIsKnown(states: seq<State>, b: Books)
    requires AllFit(states, b)
    ensures forall n :: n in StaysOf(states) ==> n < b.stays
  {
    if states != [] {
      if states[0].LevelState? {
        StayIsKnown(states[0].waiting, b);
      }
      StayIsKnown(states[1..], b);
      assert StaysOf(states) == Stays(states[0]) + StaysOf(states[1..]);
    }
  }

  lemma {:induction false} OthersKeepCosts(turns: seq<Turn>, after: seq<Turn>, stay: nat)
    requires turns <= after && forall k :: |turns| <= k < |after| ==> after[k].stay != stay
    ensures CostsOf(after, stay) == CostsOf(turns, stay)
    decreases |after|
  {
    if |after| == |turns| {
      assert after == turns;
    } else {
      OthersKeepCosts(turns, after[..|after| - 1], stay);
    }
  }

  // What waits is not touched by the turns of others.
  lemma {:induction false} StillFit(states: seq<State>, b: Books, after: Books, stays: set<nat>)
    requires AllFit(states, b) && Grows(b, after, stays) && StaysOf(states) !! stays
    ensures AllFit(states, after)
  {
    StayIsKnown(states, b);
    if states != [] {
      StillFit(states[1..], b, after, stays);
      match states[0]
      case WorkerState(stay, _) =>
        assert stay in StaysOf(states);
        OthersKeepCosts(b.turns, after.turns, stay);
      case LevelState(_, waiting) => StillFit(waiting, b, after, stays);
    }
  }

  lemma {:induction false} StaysAppend(xs: seq<State>, ys: seq<State>)
    ensures StaysOf(xs + ys) == StaysOf(xs) + StaysOf(ys)
  {
    if xs == [] {
      assert xs + ys == ys;
    } else {
      StaysAppend(xs[1..], ys);
      assert (xs + ys)[1..] == xs[1..] + ys;
    }
  }

  lemma {:induction false} FitAppend(xs: seq<State>, ys: seq<State>, b: Books)
    requires AllFit(xs, b) && AllFit(ys, b) && StaysOf(xs) !! StaysOf(ys)
    ensures AllFit(xs + ys, b)
  {
    if xs == [] {
      assert xs + ys == ys;
    } else {
      FitAppend(xs[1..], ys, b);
      assert (xs + ys)[1..] == xs[1..] + ys;
      StaysAppend(xs[1..], ys);
    }
  }

  // What a member leaves behind, given the stays it may go on with.
  ghost predicate Leaves(budget: Option<real>, b: Books, after: Books, states: seq<State>, stays: set<nat>) {
    && Balanced(budget, after) && Grows(b, after, stays)
    && AllFit(states, after) && WaitAmong(states, b, after, stays)
  }

  function StaysFrom(from: Option<State>): set<nat> {
    if from.None? then {} else Stays(from.value)
  }

  lemma {:induction false} WorkerBalances(budget: Option<real>, b: Books, stay: nat, metrics: Option<real>,
                                          costs: seq<Option<real>>, pauses: bool)
    requires Balanced(budget, b) && stay < b.stays && metrics == Tally(CostsOf(b.turns, stay))
    ensures var (after, states) := RunWorker(budget, b, stay, metrics, costs, pauses);
            && Leaves(budget, b, after, states, {stay}) && after.stays == b.stays
            && (forall k :: |b.turns| <= k < |after.turns| ==> after.turns[k].stay == stay)
            && (states != [] ==> |states| == 1 && states[0].WorkerState? && states[0].stay == stay)
  {
    SpendBalances(budget, b, stay, metrics, costs);
  }

  // A worker that starts has a stay of its own.
  lemma {:induction false} NewWorkerBalances(budget: Option<real>, b: Books, costs: seq<Option<real>>, pauses: bool)
    requires Balanced(budget, b)
    ensures var (after, states) := RunWorker(budget, b.(stays := b.stays + 1), b.stays, None, costs, pauses);
            Leaves(budget, b, after, states, {})
  {
    NoneFromNew(b.turns, b.stays);
    WorkerBalances(budget, b.(stays := b.stays + 1), b.stays, None, costs, pauses);
  }

  lemma {:induction false} LevelLeaves(budget: Option<real>, b: Books, first: State, rest: seq<State>,
                                       ran: (Books, seq<State>))
    requires AllFit([first] + rest, b) && Leaves(budget, b, ran.0, ran.1, Stays(first))
    ensures var (after, states) := Paused(ran, rest);
            Leaves(budget, b, after, states, Stays(first) + StaysOf(rest))
  {
    var (after, states) := ran;
    assert ([first] + rest)[1..] == rest;
    StayIsKnown(rest, b);
    StillFit(rest, b, after, Stays(first));
    FitAppend(states, rest, after);
    StaysAppend(states, rest);
    assert StaysOf([LevelState(after.totals, states + rest)]) == StaysOf(states + rest);
  }

  /** Whatever a runner does, started or resumed at whatever depth: the books balance, only workers that
      waited in its state or are new make turns, and all that waits afterwards has its own metrics. */
  lemma {:induction false} RunBalances(budget: Option<real>, b: Books, from: Option<State>, act: Act)
    requires Balanced(budget, b) && (from.Some? ==> Fits(from.value, b))
    ensures var (after, states) := Run(budget, b, from, act);
            Leaves(budget, b, after, states, StaysFrom(from))
    decreases act
  {
    if from.Some? {
      RestoredAlready(budget, b, from.value);
    }
    match act
    case Turns(costs, pauses) =>
      if from.None? {
        NewWorkerBalances(budget, b, costs, pauses);
      } else if from.value.WorkerState? {
        WorkerBalances(budget, b, from.value.stay, from.value.metrics, costs, pauses);
      }
    case Level(members) =>
      if from.None? {
        MembersBalance(budget, b, None, members);
        NewLevelLeaves(budget, b, RunMembers(budget, b, None, members));
      } else if from.value.LevelState? && from.value.waiting != [] {
        var first, rest := from.value.waiting[0], from.value.waiting[1..];
        assert from.value.waiting == [first] + rest;
        assert Stays(from.value) == Stays(first) + StaysOf(rest);
        MembersBalance(budget, b, Some(first), members);
        LevelLeaves(budget, b, first, rest, RunMembers(budget, b, Some(first), members));
      }
    case Sequence(members) =>
      if from.None? {
        MembersBalance(budget, b, None, members);
      }
    case Gather(branches) =>
      if from.None? {
        BranchesBalance(budget, b, branches);
      }
  }

  lemma {:induction false} NewLevelLeaves(budget: Option<real>, b: Books, ran: (Books, seq<State>))
    requires Leaves(budget, b, ran.0, ran.1, {})
    ensures var (after, states) := Paused(ran, []);
            Leaves(budget, b, after, states, {})
  {
    assert ran.1 + [] == ran.1;
    assert StaysOf([LevelState(ran.0.totals, ran.1)]) == StaysOf(ran.1);
  }

  lemma {:induction false} MembersBalance(budget: Option<real>, b: Books, from: Option<State>, members: seq<Act>)
    requires Balanced(budget, b) && (from.Some? ==> Fits(from.value, b))
    ensures var (after, states) := RunMembers(budget, b, from, members);
            Leaves(budget, b, after, states, StaysFrom(from))
    decreases members
  {
    if members != [] {
      RunBalances(budget, b, from, members[0]);
      var (after, states) := Run(budget, b, from, members[0]);
      if states == [] {
        MembersBalance(budget, after, None, members[1..]);
      }
    } else if from.Some? {
      assert StaysOf([from.value]) == Stays(from.value);
    }
  }

  lemma {:induction false} BranchesBalance(budget: Option<real>, b: Books, branches: seq<Act>)
    requires Balanced(budget, b)
    ensures var (after, states) := RunBranches(budget, b, branches);
            Leaves(budget, b, after, states, {})
    decreases branches
  {
    if branches != [] {
      var (first, states) := Run(budget, b, None, branches[0]);
      var (after, more) := RunBranches(budget, first, branches[1..]);
      RunBalances(budget, b, None, branches[0]);
      BranchesBalance(budget, first, branches[1..]);
      StayIsKnown(states, first);
      StillFit(states, first, after, {});
      FitAppend(states, more, after);
      StaysAppend(states, more);
    }
  }

  // What a whole runner leaves behind is one state, out of which the totals come back.
  lemma {:induction false} LeavesWhole(budget: Option<real>, b: Books, from: Option<State>, act: Act)
    requires Balanced(budget, b) && IsRunner(act)
    requires if from.Some? then Fits(from.value, b) && Whole(from.value, b) else b.turns == []
    ensures var (after, states) := Run(budget, b, from, act);
            states != [] ==> |states| == 1 && Whole(states[0], after)
  {
    RunBalances(budget, b, from, act);
    if from.Some? {
      RestoredAlready(budget, b, from.value);
    }
    if act.Turns? {
      if from.None? {
        WorkerBalances(budget, b.(stays := b.stays + 1), b.stays, None, act.costs, act.pauses);
      } else if from.value.WorkerState? {
        WorkerBalances(budget, b, from.value.stay, from.value.metrics, act.costs, act.pauses);
      }
    }
  }

  /** A whole run of a worker, or of a workforce or flow with runners nested in it at any depth, with
      every resume in a process that has only what was written out: the totals are the sum of all turns,
      none lost and none counted twice; every turn of every worker began within the run's budget; and
      what waits holds the totals and, for every waiting worker, the sum of its own turns. */
  lemma {:induction false} TotalsAreConserved(budget: Option<real>, acts: seq<Act>)
    requires forall a :: a in acts ==> IsRunner(a)
    ensures var (b, states) := RunActs(budget, acts);
            && Balanced(budget, b)
            && (states != [] ==> |states| == 1 && Fits(states[0], b) && Whole(states[0], b))
    decreases |acts|
  {
    if |acts| == 1 {
      RunBalances(budget, NEW_RUN, None, acts[0]);
      LeavesWhole(budget, NEW_RUN, None, acts[0]);
    } else if |acts| > 1 {
      var act := acts[|acts| - 1];
      TotalsAreConserved(budget, acts[..|acts| - 1]);
      var (before, states) := RunActs(budget, acts[..|acts| - 1]);
      if states != [] {
        RestoredWhole(budget, before, states[0]);
        RestoredAlready(budget, before, states[0]);
        assert Run(budget, before.(totals := None), Some(states[0]), act) == Run(budget, before, Some(states[0]), act);
        RunBalances(budget, before, Some(states[0]), act);
        LeavesWhole(budget, before, Some(states[0]), act);
      }
    }
  }
}
