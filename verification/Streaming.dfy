/** Putting streamed tool calls together (worker_runner.py, runner/streaming.py). */
module Streaming {
  import opened Common
  import opened Conversation
  import opened WorkerTools

  // ---- What arrives, and what it is collected in ------------------------------------------------

  // `arguments` of a fragment: nothing, text, an object, or something of an unsupported type.
  datatype Arguments = Missing | Text(text: string) | Object(entries: map<string, string>)
    | Unsupported(typeName: string)

  datatype Delta = Delta(index: Option<int>, id: Option<string>, name: Option<string>, arguments: Arguments)

  // One fragment, with its position in its chunk, from a delta or from a message payload.
  datatype Event = Event(delta: Delta, position: nat, payload: bool)

  datatype Chunk = Chunk(deltas: seq<Delta>, payload: bool)

  datatype Key = Index(index: int) | Id(id: string) | Position(position: nat)

  datatype CallState = CallState(
    id: Option<string>, name: string, parts: seq<string>, entries: Option<map<string, string>>, error: Option<string>,
    keys: set<Key>)

  const NEW_CALL := CallState(None, "", [], None, None, {})

  // The states in the order in which they were made; a key leads to the state with that number.
  datatype Assembly = Assembly(states: seq<CallState>, keyed: map<Key, nat>)

  const NOTHING := Assembly([], map[])

  // What the outside knows: the names of the tools, and whether a text is a JSON object.
  datatype Context = Context(known: set<string>, isObject: string -> bool)

  ghost predicate Valid(a: Assembly) {
    forall key :: key in a.keyed ==> a.keyed[key] < |a.states|
  }

  function Strip(s: string): string {
    StripRight(StripLeft(s))
  }

  function NameOf(d: Delta): string {
    if d.name.Some? then Strip(d.name.value) else ""
  }

  predicate HasId(d: Delta) {
    d.id.Some? && d.id.value != ""
  }

  function StableKeys(d: Delta): seq<Key> {
    (if d.index.Some? then [Index(d.index.value)] else []) + if HasId(d) then [Id(d.id.value)] else []
  }

  predicate StartsWith(s: string, prefix: string) {
    prefix <= s
  }

  function Join(parts: seq<string>): string
    decreases |parts|
  {
    if parts == [] then "" else Join(parts[..|parts| - 1]) + parts[|parts| - 1]
  }

  // ---- Routing a fragment to its call -----------------------------------------------------------

  predicate SameKind(a: Key, b: Key) {
    (a.Index? && b.Index?) || (a.Id? && b.Id?) || (a.Position? && b.Position?)
  }

  predicate Complete(ctx: Context, s: CallState) {
    s.entries.Some? || (Strip(Join(s.parts)) != "" && ctx.isObject(Join(s.parts)))
  }

  // `can_reuse_position`
  predicate CanReusePosition(ctx: Context, s: CallState, e: Event) {
    var stable, name := StableKeys(e.delta), NameOf(e.delta);
    if exists mine, k :: mine in s.keys && k in stable && SameKind(mine, k) && mine != k then false
    else if exists k :: k in stable && k.Index? && k.index != e.position then false
    else if s.name != "" && name != "" && !StartsWith(name, s.name) && !StartsWith(s.name, name)
        && s.name + name !in ctx.known
    then false
    else if stable == [] || !Complete(ctx, s) then true
    else if !e.payload then false
    else match e.delta.arguments
      case Text(text) => text == Join(s.parts)
      case Object(entries) => s.entries == Some(entries)
      case _ => false
  }

  function FindStable(keyed: map<Key, nat>, stable: seq<Key>): Option<nat> {
    if stable == [] then None
    else if stable[0] in keyed then Some(keyed[stable[0]])
    else FindStable(keyed, stable[1..])
  }

  // The number of the state a fragment belongs to; the next free number if it starts a call.
  function Route(ctx: Context, a: Assembly, e: Event): (k: nat)
    requires Valid(a)
    ensures k <= |a.states|
  {
    FindStableValid(a, StableKeys(e.delta));
    var found := FindStable(a.keyed, StableKeys(e.delta));
    var fallback := Position(e.position);
    if found.Some? then found.value
    else if fallback in a.keyed && CanReusePosition(ctx, a.states[a.keyed[fallback]], e) then a.keyed[fallback]
    else |a.states|
  }

  lemma {:induction false} FindStableValid(a: Assembly, stable: seq<Key>)
    requires Valid(a)
    ensures FindStable(a.keyed, stable).Some? ==> FindStable(a.keyed, stable).value < |a.states|
  {
    if stable != [] && stable[0] !in a.keyed {
      FindStableValid(a, stable[1..]);
    }
  }

  // ---- Merging a fragment into its call ---------------------------------------------------------

  function MergedName(had: string, name: string): string {
    if name == "" then had
    else if had == "" || StartsWith(name, had) then name
    else if StartsWith(had, name) then had
    else had + name
  }

  function AppendError(error: Option<string>, message: string): Option<string> {
    Some(if error.None? then message else error.value + "; " + message)
  }

  function Merge(s: CallState, d: Delta, payload: bool): CallState {
    var s := s.(keys := s.keys + (set k | k in StableKeys(d)),
                id := if HasId(d) then d.id else s.id,
                name := MergedName(s.name, NameOf(d)));
    match d.arguments
    case Missing => s
    case Text(text) =>
      if !payload then s.(parts := s.parts + [text])
      else if Join(s.parts) != text then s.(parts := [text])
      else s
    case Object(entries) => s.(entries := Some((if s.entries.Some? then s.entries.value else map[]) + entries))
    case Unsupported(typeName) => s.(error := AppendError(s.error, "Unsupported tool arguments type: " + typeName))
  }

  function ClaimAll(keyed: map<Key, nat>, stable: seq<Key>, k: nat): map<Key, nat>
    decreases |stable|
  {
    if stable == [] then keyed else ClaimAll(keyed[stable[0] := k], stable[1..], k)
  }

  // A keyed fragment does not take a position that belongs to another call.
  function Claim(keyed: map<Key, nat>, stable: seq<Key>, position: Key, k: nat): map<Key, nat> {
    var claimed := ClaimAll(keyed, stable, k);
    if position !in claimed || claimed[position] == k || stable == [] then claimed[position := k] else claimed
  }

  lemma {:induction false} ClaimAllSays(keyed: map<Key, nat>, stable: seq<Key>, k: nat)
    ensures ClaimAll(keyed, stable, k).Keys == keyed.Keys + (set key | key in stable)
    ensures forall key :: key in ClaimAll(keyed, stable, k) ==>
              ClaimAll(keyed, stable, k)[key] == if key in stable then k else keyed[key]
    decreases |stable|
  {
    if stable != [] {
      ClaimAllSays(keyed[stable[0] := k], stable[1..], k);
      assert stable == [stable[0]] + stable[1..];
    }
  }

  // The fragment is merged into call k, or starts it.
  function Placed(a: Assembly, e: Event, k: nat): (a': Assembly)
    requires Valid(a) && k <= |a.states|
    ensures Valid(a')
    ensures |a'.states| == if k < |a.states| then |a.states| else |a.states| + 1
  {
    var stable := StableKeys(e.delta);
    ClaimAllSays(a.keyed, stable, k);
    var keyed := Claim(a.keyed, stable, Position(e.position), k);
    if k < |a.states| then Assembly(a.states[k := Merge(a.states[k], e.delta, e.payload)], keyed)
    else Assembly(a.states + [Merge(NEW_CALL, e.delta, e.payload)], keyed)
  }

  function Step(ctx: Context, a: Assembly, e: Event): (a': Assembly)
    requires Valid(a)
    ensures Valid(a')
  {
    Placed(a, e, Route(ctx, a, e))
  }

  function StepAll(ctx: Context, a: Assembly, events: seq<Event>): (a': Assembly)
    requires Valid(a)
    ensures Valid(a')
    decreases |events|
  {
    if events == [] then a else Step(ctx, StepAll(ctx, a, events[..|events| - 1]), events[|events| - 1])
  }

  function Assembled(ctx: Context, events: seq<Event>): (a: Assembly)
    ensures Valid(a)
  {
    StepAll(ctx, NOTHING, events)
  }

  function EventsOf(chunk: Chunk): (events: seq<Event>)
    ensures |events| == |chunk.deltas|
  {
    seq(|chunk.deltas|, i requires 0 <= i < |chunk.deltas| => Event(chunk.deltas[i], i, chunk.payload))
  }

  function AllEvents(chunks: seq<Chunk>): seq<Event>
    decreases |chunks|
  {
    if chunks == [] then [] else AllEvents(chunks[..|chunks| - 1]) + EventsOf(chunks[|chunks| - 1])
  }

  lemma {:induction false} StepAllAppend(ctx: Context, a: Assembly, xs: seq<Event>, ys: seq<Event>)
    requires Valid(a)
    ensures StepAll(ctx, a, xs + ys) == StepAll(ctx, StepAll(ctx, a, xs), ys)
    decreases |ys|
  {
    if ys == [] {
      assert xs + ys == xs;
    } else {
      assert (xs + ys)[..|xs + ys| - 1] == xs + ys[..|ys| - 1];
      StepAllAppend(ctx, a, xs, ys[..|ys| - 1]);
    }
  }

  lemma {:induction false} StepOneMore(ctx: Context, a: Assembly, events: seq<Event>, n: nat)
    requires Valid(a) && n < |events|
    ensures StepAll(ctx, a, events[..n + 1]) == Step(ctx, StepAll(ctx, a, events[..n]), events[n])
  {
    assert events[..n + 1][..n] == events[..n];
  }

  // ---- The stream, in place ---------------------------------------------------------------------

  class StreamAssembler {
    const ctx: Context
    var states: seq<CallState>
    var keyed: map<Key, nat>

    constructor (ctx: Context)
      ensures this.ctx == ctx && Contents() == NOTHING && Valid(Contents())
    {
      this.ctx, states, keyed := ctx, [], map[];
    }

    function Contents(): Assembly
      reads this
    {
      Assembly(states, keyed)
    }

    method ProcessDelta(e: Event)
      requires Valid(Contents())
      modifies this
      ensures Valid(Contents()) && Contents() == Step(ctx, old(Contents()), e)
    {
      var stable := StableKeys(e.delta);
      var fallback := Position(e.position);
      var k := |states|;
      ClaimAllSays(keyed, stable, Route(ctx, Contents(), e));
      FindStableValid(Contents(), stable);
      var found := Lookup(stable);
      if found.Some? {
        k := found.value;
      } else if fallback in keyed && CanReusePosition(ctx, states[keyed[fallback]], e) {
        k := keyed[fallback];
      }
      if k == |states| {
        states := states + [NEW_CALL];
      }
      ClaimKeys(stable, k);
      if fallback !in keyed || keyed[fallback] == k || stable == [] {
        keyed := keyed[fallback := k];
      }
      states := states[k := Merge(states[k], e.delta, e.payload)];
    }

    method Lookup(stable: seq<Key>) returns (found: Option<nat>)
      ensures found == FindStable(keyed, stable)
    {
      for i := 0 to |stable|
        invariant FindStable(keyed, stable) == FindStable(keyed, stable[i..])
      {
        if stable[i] in keyed {
          return Some(keyed[stable[i]]);
        }
      }
      found := None;
    }

    method ClaimKeys(stable: seq<Key>, k: nat)
      modifies this`keyed
      ensures keyed == ClaimAll(old(keyed), stable, k)
    {
      for i := 0 to |stable|
        invariant ClaimAll(old(keyed), stable, k) == ClaimAll(keyed, stable[i..], k)
      {
        keyed := keyed[stable[i] := k];
      }
    }

    /** `process_chunk` */
    method ProcessChunk(chunk: Chunk)
      requires Valid(Contents())
      modifies this
      ensures Valid(Contents()) && Contents() == StepAll(ctx, old(Contents()), EventsOf(chunk))
    {
      ghost var events, start := EventsOf(chunk), Contents();
      for position := 0 to |chunk.deltas|
        invariant Valid(Contents()) && Contents() == StepAll(ctx, start, events[..position])
      {
        StepOneMore(ctx, start, events, position);
        ProcessDelta(Event(chunk.deltas[position], position, chunk.payload));
      }
      assert events[..|chunk.deltas|] == events;
    }
  }

  method AssembleStream(ctx: Context, chunks: seq<Chunk>) returns (states: seq<CallState>)
    ensures states == Assembled(ctx, AllEvents(chunks)).states
  {
    var assembler := new StreamAssembler(ctx);
    for i := 0 to |chunks|
      invariant assembler.ctx == ctx && fresh(assembler)
      invariant assembler.Contents() == Assembled(ctx, AllEvents(chunks[..i]))
    {
      assert chunks[..i + 1][..i] == chunks[..i];
      StepAllAppend(ctx, NOTHING, AllEvents(chunks[..i]), EventsOf(chunks[i]));
      assembler.ProcessChunk(chunks[i]);
    }
    assert chunks[..|chunks|] == chunks;
    states := assembler.states;
  }

  // ---- No fragment is lost ----------------------------------------------------------------------

  // For every fragment, the number of the call it went to.
  function Owners(ctx: Context, events: seq<Event>): (owners: seq<nat>)
    ensures |owners| == |events|
    decreases |events|
  {
    if events == [] then []
    else
      var before := events[..|events| - 1];
      Owners(ctx, before) + [Route(ctx, Assembled(ctx, before), events[|events| - 1])]
  }

  // The argument texts that went to call k, in stream order.
  function TextsOf(events: seq<Event>, owners: seq<nat>, k: nat): seq<string>
    requires |owners| == |events|
    decreases |events|
  {
    if events == [] then []
    else
      var last := events[|events| - 1];
      TextsOf(events[..|events| - 1], owners[..|events| - 1], k)
      + if owners[|events| - 1] == k && last.delta.arguments.Text? then [last.delta.arguments.text] else []
  }

  /** In a stream of deltas every argument text goes to exactly one call, and each call holds its
      texts in stream order: none is lost, repeated or moved, keyed or not. Every call has a fragment. */
  lemma {:induction false} FragmentsConserved(ctx: Context, events: seq<Event>)
    requires forall e :: e in events ==> !e.payload
    ensures Conserved(events, Owners(ctx, events), Assembled(ctx, events).states)
    decreases |events|
  {
    if events != [] {
      var before, last := events[..|events| - 1], events[|events| - 1];
      assert last in events && events == before + [last];
      FragmentsConserved(ctx, before);
      PlacedConserves(before, Owners(ctx, before), Assembled(ctx, before), last,
                      Route(ctx, Assembled(ctx, before), last));
    }
  }

  predicate Conserved(events: seq<Event>, owners: seq<nat>, states: seq<CallState>)
    requires |owners| == |events|
  {
    && (forall j :: 0 <= j < |owners| ==> owners[j] < |states|)
    && (forall k :: 0 <= k < |states| ==> k in owners && states[k].parts == TextsOf(events, owners, k))
  }

  lemma {:induction false} PlacedConserves(before: seq<Event>, owners: seq<nat>, a: Assembly, e: Event, k: nat)
    requires Valid(a) && |owners| == |before| && Conserved(before, owners, a.states)
    requires k <= |a.states| && !e.payload
    ensures Conserved(before + [e], owners + [k], Placed(a, e, k).states)
  {
    var events, owners', states' := before + [e], owners + [k], Placed(a, e, k).states;
    assert events[..|before|] == before && owners'[..|before|] == owners;
    if k == |a.states| {
      NothingFor(before, owners, k);
    }
    forall l | 0 <= l < |states'|
      ensures l in owners' && states'[l].parts == TextsOf(events, owners', l)
    {
      if l < |a.states| {
        assert l in owners;
      } else {
        assert owners'[|owners|] == l;
      }
    }
  }

  lemma {:induction false} NothingFor(events: seq<Event>, owners: seq<nat>, k: nat)
    requires |owners| == |events| && forall j :: 0 <= j < |owners| ==> owners[j] < k
    ensures TextsOf(events, owners, k) == []
    decreases |events|
  {
    if events != [] {
      NothingFor(events[..|events| - 1], owners[..|events| - 1], k);
    }
  }

  // ---- Indexed streams are grouped by index -----------------------------------------------------

  function IndexOf(e: Event): int {
    if e.delta.index.Some? then e.delta.index.value else 0
  }

  // Every fragment carries an index, and ids agree one-to-one with indices.
  predicate Indexed(events: seq<Event>) {
    && (forall i :: 0 <= i < |events| ==> events[i].delta.index.Some?)
    && (forall i, j :: 0 <= i < |events| && 0 <= j < |events| && HasId(events[i].delta) && HasId(events[j].delta) ==>
          (events[i].delta.id == events[j].delta.id <==> IndexOf(events[i]) == IndexOf(events[j])))
  }

  // The indices, in the order of their first appearance.
  function Indices(events: seq<Event>): seq<int>
    decreases |events|
  {
    if events == [] then []
    else
      var before, index := Indices(events[..|events| - 1]), IndexOf(events[|events| - 1]);
      if index in before then before else before + [index]
  }

  // What the fragments of one index make, read on their own.
  function Alone(events: seq<Event>, index: int): CallState
    decreases |events|
  {
    if events == [] then NEW_CALL
    else
      var before, last := Alone(events[..|events| - 1], index), events[|events| - 1];
      if IndexOf(last) == index then Merge(before, last.delta, last.payload) else before
  }

  // How an assembly looks after an indexed stream.
  ghost predicate Grouped(events: seq<Event>, a: Assembly) {
    var indices := Indices(events);
    && Valid(a)
    && |a.states| == |indices|
    && (forall k :: 0 <= k < |indices| ==>
          a.states[k] == Alone(events, indices[k]) && Index(indices[k]) in a.states[k].keys)
    && (forall i :: Index(i) in a.keyed <==> i in indices)
    && (forall k :: 0 <= k < |indices| ==> a.keyed[Index(indices[k])] == k)
    && (forall id :: Id(id) in a.keyed ==> SeenTogether(events, id, indices[a.keyed[Id(id)]]))
  }

  predicate SeenTogether(events: seq<Event>, id: string, index: int) {
    exists j :: 0 <= j < |events| && HasId(events[j].delta) && events[j].delta.id.value == id
                && IndexOf(events[j]) == index
  }

  predicate Seen(events: seq<Event>, index: int) {
    exists j :: 0 <= j < |events| && IndexOf(events[j]) == index
  }

  lemma {:induction false} IndicesDistinct(events: seq<Event>)
    ensures var indices := Indices(events);
            && (forall k, l :: 0 <= k < l < |indices| ==> indices[k] != indices[l])
            && (forall i :: i in indices <==> Seen(events, i))
    decreases |events|
  {
    if events != [] {
      var before, last := events[..|events| - 1], events[|events| - 1];
      assert events == before + [last];
      IndicesDistinct(before);
      forall i
        ensures i in Indices(events) <==> Seen(events, i)
      {
        SeenLater(before, last, i);
      }
    }
  }

  lemma {:induction false} SeenLater(before: seq<Event>, e: Event, index: int)
    ensures Seen(before + [e], index) <==> Seen(before, index) || IndexOf(e) == index
  {
    assert (before + [e])[|before|] == e;
    if Seen(before, index) {
      var j :| 0 <= j < |before| && IndexOf(before[j]) == index;
      assert (before + [e])[j] == before[j];
    }
  }

  lemma {:induction false} SeenTogetherLater(before: seq<Event>, e: Event, id: string, index: int)
    ensures SeenTogether(before, id, index) ==> SeenTogether(before + [e], id, index)
    ensures HasId(e.delta) && e.delta.id.value == id && IndexOf(e) == index ==> SeenTogether(before + [e], id, index)
  {
    if SeenTogether(before, id, index) {
      var j :| 0 <= j < |before| && HasId(before[j].delta) && before[j].delta.id.value == id
               && IndexOf(before[j]) == index;
      assert (before + [e])[j] == before[j];
    }
    assert (before + [e])[|before|] == e;
  }

  // The call a fragment leads to by its index, or the next free number.
  predicate ByIndex(indices: seq<int>, e: Event, k: nat) {
    if k < |indices| then indices[k] == IndexOf(e) else k == |indices| && IndexOf(e) !in indices
  }

  // An id is only found under the index it came with.
  lemma {:induction false} IdFollowsIndex(before: seq<Event>, e: Event, id: string, index: int)
    requires Indexed(before + [e]) && HasId(e.delta) && e.delta.id.value == id && SeenTogether(before, id, index)
    ensures IndexOf(e) == index
  {
    var j :| 0 <= j < |before| && HasId(before[j].delta) && before[j].delta.id.value == id
             && IndexOf(before[j]) == index;
    assert (before + [e])[j] == before[j] && (before + [e])[|before|] == e;
  }

  lemma {:induction false} FindsNothing(keyed: map<Key, nat>, stable: seq<Key>)
    requires forall key :: key in stable ==> key !in keyed
    ensures FindStable(keyed, stable) == None
  {
    if stable != [] {
      FindsNothing(keyed, stable[1..]);
    }
  }

  // A fragment of a new index starts a call, even if its position was taken.
  lemma {:induction false} RoutesByIndex(ctx: Context, before: seq<Event>, e: Event, a: Assembly)
    requires Indexed(before + [e]) && Grouped(before, a)
    ensures ByIndex(Indices(before), e, Route(ctx, a, e))
  {
    var indices, index := Indices(before), IndexOf(e);
    assert (before + [e])[|before|] == e;
    var stable := StableKeys(e.delta);
    assert stable[0] == Index(index);
    if index !in indices {
      assert Index(index) !in a.keyed;
      if HasId(e.delta) {
        var key := Id(e.delta.id.value);
        if key in a.keyed {
          IdFollowsIndex(before, e, e.delta.id.value, indices[a.keyed[key]]);
        }
      }
      StableOfIndexed(e);
      FindsNothing(a.keyed, stable);
      if Position(e.position) in a.keyed {
        var k := a.keyed[Position(e.position)];
        assert Index(indices[k]) in a.states[k].keys && Index(index) in stable;
        assert SameKind(Index(indices[k]), Index(index)) && indices[k] != index;
      }
    }
  }

  lemma {:induction false} GroupsByIndex(ctx: Context, events: seq<Event>)
    requires Indexed(events)
    ensures Grouped(events, Assembled(ctx, events))
    decreases |events|
  {
    if events != [] {
      var before, last := events[..|events| - 1], events[|events| - 1];
      assert events == before + [last];
      GroupsByIndex(ctx, before);
      var a := Assembled(ctx, before);
      RoutesByIndex(ctx, before, last, a);
      PlacedGroups(before, last, a, Route(ctx, a, last));
    }
  }

  lemma {:induction false} AloneUnseen(events: seq<Event>, index: int)
    requires !Seen(events, index)
    ensures Alone(events, index) == NEW_CALL
    decreases |events|
  {
    if events != [] {
      var before, last := events[..|events| - 1], events[|events| - 1];
      assert events == before + [last];
      SeenLater(before, last, index);
      AloneUnseen(before, index);
    }
  }

  lemma {:induction false} IndicesGrow(before: seq<Event>, e: Event, k: nat)
    requires ByIndex(Indices(before), e, k)
    ensures var indices, indices' := Indices(before), Indices(before + [e]);
            && indices' == (if k < |indices| then indices else indices + [IndexOf(e)])
            && indices'[k] == IndexOf(e)
            && forall l :: 0 <= l < |indices'| && l != k ==> indices'[l] != IndexOf(e)
  {
    assert (before + [e])[..|before|] == before;
    IndicesDistinct(before);
  }

  lemma {:induction false} PlacedGroups(before: seq<Event>, e: Event, a: Assembly, k: nat)
    requires Indexed(before + [e]) && Grouped(before, a) && ByIndex(Indices(before), e, k)
    ensures Grouped(before + [e], Placed(a, e, k))
  {
    IndicesGrow(before, e, k);
    PlacedStates(before, e, a, k);
    PlacedKeys(before, e, a, k);
    PlacedIds(before, e, a, k);
  }

  lemma {:induction false} PlacedStates(before: seq<Event>, e: Event, a: Assembly, k: nat)
    requires Indexed(before + [e]) && Grouped(before, a) && ByIndex(Indices(before), e, k)
    ensures var events, a' := before + [e], Placed(a, e, k);
            && |a'.states| == |Indices(events)|
            && forall l :: 0 <= l < |Indices(events)| ==>
                 a'.states[l] == Alone(events, Indices(events)[l]) && Index(Indices(events)[l]) in a'.states[l].keys
  {
    var indices', a' := Indices(before + [e]), Placed(a, e, k);
    IndicesGrow(before, e, k);
    forall l | 0 <= l < |indices'|
      ensures a'.states[l] == Alone(before + [e], indices'[l]) && Index(indices'[l]) in a'.states[l].keys
    {
      AloneGrows(before, e, indices'[l]);
      if l == k {
        assert (before + [e])[|before|] == e;
        StableOfIndexed(e);
        if k == |Indices(before)| {
          IndicesDistinct(before);
          AloneUnseen(before, IndexOf(e));
        }
      }
    }
  }

  lemma {:induction false} AloneGrows(before: seq<Event>, e: Event, index: int)
    ensures Alone(before + [e], index)
            == if IndexOf(e) == index then Merge(Alone(before, index), e.delta, e.payload) else Alone(before, index)
  {
    assert (before + [e])[..|before|] == before;
  }

  lemma {:induction false} StableOfIndexed(e: Event)
    requires e.delta.index.Some?
    ensures forall key :: key in StableKeys(e.delta) <==>
              key == Index(IndexOf(e)) || (HasId(e.delta) && key == Id(e.delta.id.value))
  {
    assert StableKeys(e.delta)[0] == Index(IndexOf(e));
    if HasId(e.delta) {
      assert StableKeys(e.delta)[1] == Id(e.delta.id.value);
    }
  }

  // Keys other than positions lead where they led, or to call k if the fragment carries them.
  lemma {:induction false} PlacedKeyed(a: Assembly, e: Event, k: nat)
    requires Valid(a) && k <= |a.states| && e.delta.index.Some?
    ensures var keyed' := Placed(a, e, k).keyed;
            && (forall i :: Index(i) in keyed' <==> Index(i) in a.keyed || i == IndexOf(e))
            && (forall i :: Index(i) in keyed' ==> keyed'[Index(i)] == if i == IndexOf(e) then k else a.keyed[Index(i)])
            && (forall id :: Id(id) in keyed' ==>
                  if HasId(e.delta) && e.delta.id.value == id then keyed'[Id(id)] == k
                  else Id(id) in a.keyed && keyed'[Id(id)] == a.keyed[Id(id)])
  {
    ClaimAllSays(a.keyed, StableKeys(e.delta), k);
    StableOfIndexed(e);
  }

  lemma {:induction false} PlacedKeys(before: seq<Event>, e: Event, a: Assembly, k: nat)
    requires Indexed(before + [e]) && Grouped(before, a) && ByIndex(Indices(before), e, k)
    ensures var indices', keyed' := Indices(before + [e]), Placed(a, e, k).keyed;
            && (forall i :: Index(i) in keyed' <==> i in indices')
            && (forall l :: 0 <= l < |indices'| ==> keyed'[Index(indices'[l])] == l)
  {
    assert (before + [e])[|before|] == e;
    IndicesGrow(before, e, k);
    PlacedKeyed(a, e, k);
  }

  lemma {:induction false} PlacedIds(before: seq<Event>, e: Event, a: Assembly, k: nat)
    requires Indexed(before + [e]) && Grouped(before, a) && ByIndex(Indices(before), e, k)
    ensures var indices', a' := Indices(before + [e]), Placed(a, e, k);
            forall id :: Id(id) in a'.keyed ==>
              a'.keyed[Id(id)] < |indices'| && SeenTogether(before + [e], id, indices'[a'.keyed[Id(id)]])
  {
    var indices, indices', keyed' := Indices(before), Indices(before + [e]), Placed(a, e, k).keyed;
    assert (before + [e])[|before|] == e;
    IndicesGrow(before, e, k);
    PlacedKeyed(a, e, k);
    forall id | Id(id) in keyed'
      ensures keyed'[Id(id)] < |indices'| && SeenTogether(before + [e], id, indices'[keyed'[Id(id)]])
    {
      SeenTogetherLater(before, e, id, IndexOf(e));
      if !(HasId(e.delta) && e.delta.id.value == id) {
        SeenTogetherLater(before, e, id, indices[a.keyed[Id(id)]]);
      }
    }
  }

  /** Whatever the chunks and however the fragments interleave: one call per index, in the order of
      first appearance, each the same as if only the fragments of its index had arrived. */
  lemma {:induction false} IndexedStreamsAreGrouped(ctx: Context, events: seq<Event>)
    requires Indexed(events)
    ensures var states, indices := Assembled(ctx, events).states, Indices(events);
            && |states| == |indices|
            && (forall k :: 0 <= k < |indices| ==> states[k] == Alone(events, indices[k]))
            && (forall k, l :: 0 <= k < l < |indices| ==> indices[k] != indices[l])
            && (forall i :: i in indices <==> Seen(events, i))
  {
    GroupsByIndex(ctx, events);
    IndicesDistinct(events);
  }

  // The argument texts of one index.
  function TextsAt(events: seq<Event>, index: int): seq<string>
    decreases |events|
  {
    if events == [] then []
    else
      var last := events[|events| - 1];
      TextsAt(events[..|events| - 1], index)
      + if IndexOf(last) == index && last.delta.arguments.Text? then [last.delta.arguments.text] else []
  }

  lemma {:induction false} AloneHoldsItsTexts(events: seq<Event>, index: int)
    requires forall e :: e in events ==> !e.payload
    ensures Alone(events, index).parts == TextsAt(events, index)
    decreases |events|
  {
    if events != [] {
      assert events[|events| - 1] in events;
      AloneHoldsItsTexts(events[..|events| - 1], index);
    }
  }

  // The fragments of one index, without their places.
  function Fragments(events: seq<Event>, index: int): seq<(Delta, bool)>
    decreases |events|
  {
    if events == [] then []
    else
      var last := events[|events| - 1];
      Fragments(events[..|events| - 1], index) + if IndexOf(last) == index then [(last.delta, last.payload)] else []
  }

  function MergeAll(fragments: seq<(Delta, bool)>): CallState
    decreases |fragments|
  {
    if fragments == [] then NEW_CALL
    else
      var last := fragments[|fragments| - 1];
      Merge(MergeAll(fragments[..|fragments| - 1]), last.0, last.1)
  }

  lemma {:induction false} AloneMerges(events: seq<Event>, index: int)
    ensures Alone(events, index) == MergeAll(Fragments(events, index))
    decreases |events|
  {
    if events != [] {
      var fragments := Fragments(events, index);
      AloneMerges(events[..|events| - 1], index);
      if IndexOf(events[|events| - 1]) == index {
        assert fragments[..|fragments| - 1] == Fragments(events[..|events| - 1], index);
        assert fragments[|fragments| - 1] == (events[|events| - 1].delta, events[|events| - 1].payload);
      } else {
        assert fragments == Fragments(events[..|events| - 1], index);
      }
    }
  }

  /** Two indexed streams that bring the same fragments for an index make the same call of it,
      however differently they are cut into chunks and interleaved. */
  lemma {:induction false} InterleavingIsIrrelevant(ctx: Context, xs: seq<Event>, ys: seq<Event>, k: nat, l: nat)
    requires Indexed(xs) && Indexed(ys) && k < |Indices(xs)| && l < |Indices(ys)| && Indices(xs)[k] == Indices(ys)[l]
    requires Fragments(xs, Indices(xs)[k]) == Fragments(ys, Indices(xs)[k])
    ensures k < |Assembled(ctx, xs).states| && l < |Assembled(ctx, ys).states|
    ensures Assembled(ctx, xs).states[k] == Assembled(ctx, ys).states[l]
  {
    IndexedStreamsAreGrouped(ctx, xs);
    IndexedStreamsAreGrouped(ctx, ys);
    AloneMerges(xs, Indices(xs)[k]);
    AloneMerges(ys, Indices(xs)[k]);
  }

  // ---- From states to calls ---------------------------------------------------------------------

  // What the outside does with argument texts and with calls that came without an id.
  datatype Finisher = Finisher(parse: string -> (map<string, string>, Option<string>), newId: nat -> string)

  function Finished(f: Finisher, s: CallState, k: nat): ToolCall {
    var name := Strip(s.name);
    var error := if name == "" then AppendError(s.error, "Missing tool name") else s.error;
    var id := if s.id.Some? && s.id.value != "" then s.id.value else f.newId(k);
    if s.entries.Some? then ToolCall(id, name, s.entries.value, error, None)
    else
      var (arguments, problem) := f.parse(Join(s.parts));
      ToolCall(id, name, arguments, if problem.Some? then AppendError(error, problem.value) else error, None)
  }

  /** `streamed_tool_calls` */
  method StreamedToolCalls(f: Finisher, states: seq<CallState>) returns (calls: seq<ToolCall>)
    ensures |calls| == |states|
    ensures forall k :: 0 <= k < |states| ==> calls[k] == Finished(f, states[k], k)
  {
    calls := [];
    for k := 0 to |states|
      invariant |calls| == k
      invariant forall i :: 0 <= i < k ==> calls[i] == Finished(f, states[i], i)
    {
      calls := calls + [Finished(f, states[k], k)];
    }
  }

  /** An indexed stream of argument texts: every call is parsed from the texts of its own index. */
  lemma {:induction false} CallsParseTheirOwnTexts(ctx: Context, f: Finisher, events: seq<Event>, k: nat)
    requires Indexed(events) && k < |Indices(events)|
    requires forall e :: e in events ==> !e.payload && !e.delta.arguments.Object?
    ensures k < |Assembled(ctx, events).states|
    ensures Finished(f, Assembled(ctx, events).states[k], k).arguments
            == f.parse(Join(TextsAt(events, Indices(events)[k]))).0
  {
    IndexedStreamsAreGrouped(ctx, events);
    AloneHoldsItsTexts(events, Indices(events)[k]);
    NoEntries(events, Indices(events)[k]);
  }

  lemma {:induction false} NoEntries(events: seq<Event>, index: int)
    requires forall e :: e in events ==> !e.delta.arguments.Object?
    ensures Alone(events, index).entries.None?
    decreases |events|
  {
    if events != [] {
      assert events[|events| - 1] in events;
      NoEntries(events[..|events| - 1], index);
    }
  }

  /** A message payload replaces what was collected: the call's text is the payload's, and the same
      payload again changes nothing. */
  lemma {:induction false} PayloadReplaces(s: CallState, d: Delta)
    requires d.arguments.Text?
    ensures Join(Merge(s, d, true).parts) == d.arguments.text
    ensures Merge(Merge(s, d, true), d, true).parts == Merge(s, d, true).parts
  {
    assert [d.arguments.text][..0] == [];
    assert Join([d.arguments.text]) == Join([]) + d.arguments.text;
  }
}
