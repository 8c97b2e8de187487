/** The slots of the subworker tool (tools/swarm.py): calls run side by side, and each lock section is
    one step of any interleaving. A call may be cancelled wherever it waits. The lock sections await
    nothing, so within one event loop the lock is free whenever it is asked for and no call is ever
    suspended, or cancelled, while it asks; the model allows it all the same. */
module Subworkers {
  // Where a call is: it runs its child, waits for the lock to commit, enters the `finally`, waits there
  // for the lock to give its slot back, or is over, with its slot used up, given back, lost, or refused.
  datatype Place = Running | Committing | Finally | Releasing | Succeeded | GaveUp | Lost | Rejected

  datatype Call = Call(place: Place, slotActive: bool)

  // A call asks for a slot; its child returns, well or not; it takes the lock to commit; it looks at
  // `slot_active` in the `finally`; it takes the lock to release; it is cancelled.
  datatype Event = Ask(call: nat) | Return(call: nat, well: bool) | Commit(call: nat) | Leave(call: nat)
    | Release(call: nat) | Cancel(call: nat)

  datatype Slots = Slots(spawned: int, active: int, calls: map<nat, Call>)

  const UNUSED := Slots(0, 0, map[])

  predicate At(s: Slots, c: nat, place: Place) {
    c in s.calls && s.calls[c].place == place
  }

  function Moved(s: Slots, c: nat, place: Place): Slots
    requires c in s.calls
  {
    s.(calls := s.calls[c := s.calls[c].(place := place)])
  }

  // Events that do not fit the place of their call do not happen.
  function Step(max: nat, s: Slots, e: Event): Slots {
    match e
    case Ask(c) =>
      if c in s.calls then s
      else if s.spawned + s.active >= max then s.(calls := s.calls[c := Call(Rejected, false)])
      else Slots(s.spawned, s.active + 1, s.calls[c := Call(Running, true)])
    case Return(c, well) => if At(s, c, Running) then Moved(s, c, if well then Committing else Finally) else s
    case Commit(c) =>
      if At(s, c, Committing) then Slots(s.spawned + 1, s.active - 1, s.calls[c := Call(Finally, false)]) else s
    case Leave(c) =>
      if At(s, c, Finally) then Moved(s, c, if s.calls[c].slotActive then Releasing else Succeeded) else s
    case Release(c) => if At(s, c, Releasing) then Moved(s.(active := s.active - 1), c, GaveUp) else s
    case Cancel(c) =>
      if At(s, c, Running) || At(s, c, Committing) then Moved(s, c, Finally)
      else if At(s, c, Releasing) then Moved(s, c, Lost)
      else s
  }

  function RunEvents(max: nat, events: seq<Event>): Slots
    decreases |events|
  {
    if events == [] then UNUSED else Step(max, RunEvents(max, events[..|events| - 1]), events[|events| - 1])
  }

  // The call has taken a slot and neither committed nor given it back.
  predicate Holding(s: Slots, c: nat) {
    c in s.calls && s.calls[c].slotActive && s.calls[c].place != GaveUp
  }

  // The call has committed its success.
  predicate Committed(s: Slots, c: nat) {
    c in s.calls && !s.calls[c].slotActive && s.calls[c].place != Rejected
  }

  ghost function Holders(s: Slots): set<nat> {
    set c | c in s.calls && Holding(s, c)
  }

  ghost function Successes(s: Slots): set<nat> {
    set c | c in s.calls && Committed(s, c)
  }

  ghost function LostOnes(s: Slots): set<nat> {
    set c | c in s.calls && s.calls[c].place == Lost
  }

  // The flag is set as long as the child runs or its result waits, and in all that follows a failure.
  predicate FlagFits(call: Call) {
    match call.place
    case Running => call.slotActive
    case Committing => call.slotActive
    case Finally => true
    case Releasing => call.slotActive
    case Succeeded => !call.slotActive
    case GaveUp => call.slotActive
    case Lost => call.slotActive
    case Rejected => !call.slotActive
  }

  ghost predicate Sound(max: nat, s: Slots) {
    && s.active == |Holders(s)| && s.spawned == |Successes(s)| && s.spawned + s.active <= max
    && forall c :: c in s.calls ==> FlagFits(s.calls[c])
  }

  function One(b: bool): int {
    if b then 1 else 0
  }

  lemma {:induction false} Sizes(S: set<nat>, c: nat)
    ensures |S + {c}| == |S| + One(c !in S) && |S - {c}| == |S| - One(c in S)
  {
    if c in S {
      assert S + {c} == S;
    } else {
      assert S - {c} == S;
    }
  }

  // The two states are the same but for this call.
  ghost predicate OnlyAt(s: Slots, after: Slots, c: nat) {
    && (forall d :: d != c ==> (d in s.calls <==> d in after.calls))
    && (forall d :: d != c && d in s.calls ==> after.calls[d] == s.calls[d])
  }

  lemma {:induction false} SetsAfter(s: Slots, after: Slots, c: nat)
    requires OnlyAt(s, after, c)
    ensures Holders(after) == if Holding(after, c) then Holders(s) + {c} else Holders(s) - {c}
    ensures Successes(after) == if Committed(after, c) then Successes(s) + {c} else Successes(s) - {c}
  {
  }

  lemma {:induction false} SizesAfter(s: Slots, after: Slots, c: nat)
    requires OnlyAt(s, after, c)
    ensures |Holders(after)| - |Holders(s)| == One(Holding(after, c)) - One(Holding(s, c))
    ensures |Successes(after)| - |Successes(s)| == One(Committed(after, c)) - One(Committed(s, c))
  {
    SetsAfter(s, after, c);
    Sizes(Holders(s), c);
    Sizes(Successes(s), c);
    assert c in Holders(s) <==> Holding(s, c);
    assert c in Successes(s) <==> Committed(s, c);
  }

  // A step changes the one call it is about, and counts what becomes of its slot.
  lemma {:induction false} StepCounts(max: nat, s: Slots, e: Event)
    requires forall c :: c in s.calls ==> FlagFits(s.calls[c])
    ensures var c, after := e.call, Step(max, s, e);
            && OnlyAt(s, after, c)
            && after.active - s.active == One(Holding(after, c)) - One(Holding(s, c))
            && after.spawned - s.spawned == One(Committed(after, c)) - One(Committed(s, c))
            && (c in after.calls ==> FlagFits(after.calls[c]))
            && (after.spawned + after.active <= s.spawned + s.active || after.spawned + after.active <= max)
  {
    match e
    case Ask(c) =>
    case Return(c, well) =>
    case Commit(c) =>
    case Leave(c) =>
    case Release(c) =>
    case Cancel(c) =>
  }

  lemma {:induction false} StepIsSound(max: nat, s: Slots, e: Event)
    requires Sound(max, s)
    ensures Sound(max, Step(max, s, e))
  {
    StepCounts(max, s, e);
    SizesAfter(s, Step(max, s, e), e.call);
  }

  /** In every interleaving, with cancellation at any point, the active count is the number of slots
      taken and neither committed nor given back, the spawn count that of the successes, and together
      they never exceed the budget. */
  lemma {:induction false} SlotsAreSound(max: nat, events: seq<Event>)
    ensures Sound(max, RunEvents(max, events))
    decreases |events|
  {
    if events == [] {
      assert Holders(UNUSED) == {} && Successes(UNUSED) == {};
    } else {
      SlotsAreSound(max, events[..|events| - 1]);
      StepIsSound(max, RunEvents(max, events[..|events| - 1]), events[|events| - 1]);
    }
  }

  // No call is under way.
  predicate Quiet(s: Slots) {
    forall c :: c in s.calls ==> s.calls[c].place in {Succeeded, GaveUp, Lost, Rejected}
  }

  /** When no call is under way, exactly the slots of calls that were cancelled in their `finally` are
      lost: a new call is rejected exactly when those and the successes use up the budget. */
  lemma {:induction false} RejectedIff(max: nat, events: seq<Event>, c: nat)
    requires Quiet(RunEvents(max, events)) && c !in RunEvents(max, events).calls
    ensures var s := RunEvents(max, events);
            && s.active == |LostOnes(s)|
            && (At(Step(max, s, Ask(c)), c, Rejected) <==> |Successes(s)| + |LostOnes(s)| == max)
  {
    SlotsAreSound(max, events);
    var s := RunEvents(max, events);
    assert Holders(s) == LostOnes(s);
  }

  // A call is cancelled while it waits for the lock in its `finally`.
  ghost predicate LosesSlot(max: nat, events: seq<Event>, k: nat)
    requires k < |events|
  {
    events[k].Cancel? && At(RunEvents(max, events[..k]), events[k].call, Releasing)
  }

  /** A slot is lost if and only if some call was cancelled while it waited in its `finally`. */
  lemma {:induction false} LostIff(max: nat, events: seq<Event>)
    ensures LostOnes(RunEvents(max, events)) != {} <==> exists k: nat :: k < |events| && LosesSlot(max, events, k)
    decreases |events|
  {
    if events == [] {
      assert LostOnes(UNUSED) == {};
    } else {
      var n := |events| - 1;
      var before := events[..n];
      var s, after := RunEvents(max, before), RunEvents(max, events);
      LostIff(max, before);
      forall k: nat | k < n
        ensures LosesSlot(max, events, k) <==> LosesSlot(max, before, k)
      {
        assert before[..k] == events[..k];
      }
      if LosesSlot(max, events, n) {
        assert events[n].call in LostOnes(after);
      } else {
        assert LostOnes(after) == LostOnes(s);
      }
    }
  }

  /** Unless a call was cancelled in its `finally`, no slot leaks: when no call is under way, a new one
      is rejected exactly when the successes have used up the budget. */
  lemma {:induction false} NoSlotLeaks(max: nat, events: seq<Event>, c: nat)
    requires Quiet(RunEvents(max, events)) && c !in RunEvents(max, events).calls
    requires forall k: nat :: k < |events| ==> !LosesSlot(max, events, k)
    ensures var s := RunEvents(max, events);
            At(Step(max, s, Ask(c)), c, Rejected) <==> |Successes(s)| == max
  {
    RejectedIff(max, events, c);
    LostIff(max, events);
  }

  // The child of this call returned, well or not, while the call was waiting for it.
  ghost predicate Returned(max: nat, events: seq<Event>, k: nat, c: nat, well: bool) {
    k < |events| && events[k] == Return(c, well) && At(RunEvents(max, events[..k]), c, Running)
  }

  ghost predicate ChildReturned(max: nat, events: seq<Event>, c: nat, well: bool) {
    exists k: nat :: Returned(max, events, k, c, well)
  }

  predicate Cancelled(events: seq<Event>, c: nat) {
    exists k: nat :: k < |events| && events[k] == Cancel(c)
  }

  // Where a call that was not cancelled can be, by what its child came to.
  ghost predicate Follows(max: nat, events: seq<Event>, c: nat, call: Call) {
    var well, badly := ChildReturned(max, events, c, true), ChildReturned(max, events, c, false);
    && !(well && badly)
    && match call.place
       case Running => !well && !badly
       case Committing => well
       case Finally => if call.slotActive then badly else well
       case Releasing => badly
       case Succeeded => well
       case GaveUp => badly
       case Lost => badly
       case Rejected => !well && !badly
  }

  lemma {:induction false} ReturnsLater(max: nat, events: seq<Event>, c: nat, well: bool)
    requires events != []
    ensures var n := |events| - 1;
            ChildReturned(max, events, c, well) <==>
              ChildReturned(max, events[..n], c, well) || Returned(max, events, n, c, well)
  {
    var n := |events| - 1;
    var before := events[..n];
    forall k: nat | k < n
      ensures Returned(max, events, k, c, well) <==> Returned(max, before, k, c, well)
    {
      assert before[..k] == events[..k];
    }
  }

  lemma {:induction false} NeverReturned(max: nat, events: seq<Event>, c: nat)
    requires c !in RunEvents(max, events).calls
    ensures !ChildReturned(max, events, c, true) && !ChildReturned(max, events, c, false)
    decreases |events|
  {
    if events != [] {
      NeverReturned(max, events[..|events| - 1], c);
      ReturnsLater(max, events, c, true);
      ReturnsLater(max, events, c, false);
    }
  }

  lemma {:induction false} StepFollows(max: nat, events: seq<Event>, c: nat)
    requires events != [] && !Cancelled(events, c) && c in RunEvents(max, events).calls
    requires var s := RunEvents(max, events[..|events| - 1]);
             if c in s.calls then FlagFits(s.calls[c]) && Follows(max, events[..|events| - 1], c, s.calls[c])
             else !ChildReturned(max, events[..|events| - 1], c, true)
                  && !ChildReturned(max, events[..|events| - 1], c, false)
    ensures Follows(max, events, c, RunEvents(max, events).calls[c])
  {
    var n := |events| - 1;
    assert events[n] != Cancel(c);
    ReturnsLater(max, events, c, true);
    ReturnsLater(max, events, c, false);
  }

  /** What becomes of a call that nobody cancels, in every interleaving: while it waits its child has not
      returned; it commits or has committed its success if and only if the child returned well, and gives
      its slot back or has given it back if and only if the child returned otherwise. */
  lemma {:induction false} OutcomeFollowsChild(max: nat, events: seq<Event>, c: nat)
    requires !Cancelled(events, c) && c in RunEvents(max, events).calls
    ensures Follows(max, events, c, RunEvents(max, events).calls[c])
    decreases |events|
  {
    var before := events[..|events| - 1];
    var s := RunEvents(max, before);
    SlotsAreSound(max, before);
    assert !Cancelled(before, c) by {
      forall k: nat | k < |before|
        ensures before[k] != Cancel(c)
      {
        assert before[k] == events[k];
      }
    }
    if c in s.calls {
      OutcomeFollowsChild(max, before, c);
    } else {
      NeverReturned(max, before, c);
    }
    StepFollows(max, events, c);
  }

  // Such a cancellation would leave a tool with one slot that rejects every call after no success.
  lemma {:induction false} LostSlot()
    ensures var s := RunEvents(1, [Ask(0), Return(0, false), Leave(0), Cancel(0)]);
            && Quiet(s) && Successes(s) == {} && At(Step(1, s, Ask(1)), 1, Rejected)
  {
    var events := [Ask(0), Return(0, false), Leave(0), Cancel(0)];
    assert events[..3][..2][..1] == [Ask(0)] && events[..3][..2] == [Ask(0), Return(0, false)];
    assert events[..3] == [Ask(0), Return(0, false), Leave(0)] && [Ask(0)][..0] == [];
    assert RunEvents(1, [Ask(0)]) == Slots(0, 1, map[0 := Call(Running, true)]);
    assert RunEvents(1, events[..3][..2]) == Slots(0, 1, map[0 := Call(Finally, true)]);
    assert RunEvents(1, events[..3]) == Slots(0, 1, map[0 := Call(Releasing, true)]);
    assert RunEvents(1, events) == Slots(0, 1, map[0 := Call(Lost, true)]);
  }
}
