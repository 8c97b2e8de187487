/** Direct messages and broadcasts between workers (collaboration/channel.py). */
module Messaging {
  import opened Sorting

  datatype Msg = Msg(id: string, sender: string, time: int)

  function TimeOf(m: Msg): int {
    m.time
  }

  // All of the messages that wait, in the order of time and, for equal times, of arrival.
  ghost predicate InOrder(messages: seq<Msg>, waiting: seq<Msg>) {
    && Sorted(messages, TimeOf) && multiset(messages) == multiset(waiting)
    && forall t :: OfKey(messages, TimeOf, t) == OfKey(waiting, TimeOf, t)
  }

  /** What a recipient gets is in the order of time, and in that of arrival where times are equal. */
  lemma {:induction false} SortedInOrder(waiting: seq<Msg>)
    ensures InOrder(SortBy(waiting, TimeOf), waiting)
  {
    SortSorts(waiting, TimeOf);
    forall t
      ensures OfKey(SortBy(waiting, TimeOf), TimeOf, t) == OfKey(waiting, TimeOf, t)
    {
      SortIsStable(waiting, TimeOf, t);
    }
  }

  // ---- The channel ------------------------------------------------------------------------------

  class Channel {
    var direct: map<string, seq<Msg>>
    var broadcasts: seq<Msg>
    var positions: map<string, nat>
    // history: since the last full clear, the broadcasts each recipient was done with, in order
    ghost var taken: map<string, seq<Msg>>

    constructor ()
      ensures Valid() && broadcasts == [] && taken == map[]
    {
      direct, broadcasts, positions, taken := map[], [], map[], map[];
    }

    function Direct(r: string): seq<Msg>
      reads this`direct
    {
      if r in direct then direct[r] else []
    }

    function PositionOf(r: string): nat
      reads this`positions
    {
      if r in positions then positions[r] else 0
    }

    ghost function Taken(r: string): seq<Msg>
      reads this`taken
    {
      if r in taken then taken[r] else []
    }

    // Every recipient is done with exactly a prefix of the broadcasts, each once and in order.
    ghost predicate Valid()
      reads this`positions, this`taken, this`broadcasts
    {
      forall r :: PositionOf(r) <= |broadcasts| && Taken(r) + Unread(r) == broadcasts
    }

    // What waits for a recipient.
    function Unread(r: string): seq<Msg>
      reads this`positions, this`broadcasts
    {
      if PositionOf(r) <= |broadcasts| then broadcasts[PositionOf(r)..] else []
    }

    method Send(r: string, m: Msg)
      requires Valid()
      modifies this`direct
      ensures Valid() && Direct(r) == old(Direct(r)) + [m]
      ensures forall other :: other != r ==> Direct(other) == old(Direct(other))
    {
      direct := direct[r := Direct(r) + [m]];
    }

    method Broadcast(m: Msg)
      requires Valid()
      modifies this`broadcasts
      ensures Valid() && broadcasts == old(broadcasts) + [m]
      ensures forall r :: Unread(r) == old(Unread(r)) + [m]
    {
      ghost var before := broadcasts;
      broadcasts := broadcasts + [m];
      forall r
        ensures Taken(r) + Unread(r) == broadcasts && Unread(r) == old(Unread(r)) + [m]
      {
        assert old(Taken(r)) + old(Unread(r)) == before;
        assert (before + [m])[PositionOf(r)..] == before[PositionOf(r)..] + [m];
      }
    }

    // The recipient is done with all broadcasts so far.
    method MarkRead(r: string)
      requires Valid()
      modifies this`positions, this`taken
      ensures Valid() && Unread(r) == [] && Taken(r) == old(Taken(r)) + old(Unread(r))
      ensures forall other :: other != r ==> Unread(other) == old(Unread(other)) && Taken(other) == old(Taken(other))
    {
      ghost var all := broadcasts;
      assert Taken(r) + Unread(r) == all;
      taken := taken[r := all];
      positions := positions[r := |broadcasts|];
      forall other
        ensures PositionOf(other) <= |broadcasts| && Taken(other) + Unread(other) == broadcasts
      {
        if other != r {
          assert old(Taken(other)) + old(Unread(other)) == all;
        }
      }
    }

    /** `receive`: a clearing one-shot receive delivers what waits for the recipient, sorted
        (SortedInOrder), and only that recipient is then done with it. */
    method Receive(r: string, clear: bool, oneShot: bool) returns (messages: seq<Msg>)
      requires Valid()
      modifies this`direct, this`positions, this`taken
      ensures Valid()
      ensures messages == SortBy(old(Direct(r)) + (if oneShot then old(Unread(r)) else broadcasts), TimeOf)
      ensures Direct(r) == if clear then [] else old(Direct(r))
      ensures Unread(r) == if clear && oneShot then [] else old(Unread(r))
      ensures Taken(r) == if clear && oneShot then old(Taken(r)) + old(Unread(r)) else old(Taken(r))
      ensures forall other :: other != r ==>
                && Direct(other) == old(Direct(other)) && Unread(other) == old(Unread(other))
                && Taken(other) == old(Taken(other))
    {
      assert PositionOf(r) <= |broadcasts|;
      var mine := Direct(r);
      var all := if oneShot then broadcasts[PositionOf(r)..] else broadcasts;
      messages := SortBy(mine + all, TimeOf);
      if clear {
        direct := direct[r := []];
        if oneShot {
          MarkRead(r);
        }
      }
    }

    /** `clear` of one recipient, or of everything. */
    method Clear(r: string, everything: bool)
      requires Valid()
      modifies this
      ensures Valid()
      ensures everything ==> broadcasts == [] && forall any :: Direct(any) == [] && Taken(any) == []
      ensures !everything ==> broadcasts == old(broadcasts) && Direct(r) == [] && Unread(r) == []
      ensures !everything ==> forall other :: other != r ==>
                Direct(other) == old(Direct(other)) && Unread(other) == old(Unread(other))
    {
      if everything {
        Forget();
      } else {
        direct := direct[r := []];
        MarkRead(r);
      }
    }

    method Forget()
      modifies this
      ensures Valid() && broadcasts == [] && direct == map[] && positions == map[] && taken == map[]
    {
      direct, broadcasts, positions, taken := map[], [], map[], map[];
    }
  }
}
