/** Where the fragments of a streamed tool call go (worker_runner.py), said of the fragments themselves:
    one fragment after any others, and whole streams that tell calls by their positions. */
module StreamRouting {
  import opened Common
  import opened WorkerTools
  import opened Streaming

  // ---- What a fragment brings -------------------------------------------------------------------

  predicate Keyed(d: Delta) {
    d.index.Some? || (d.id.Some? && d.id.value != "")
  }

  predicate HasKey(d: Delta, key: Key) {
    || (d.index.Some? && key == Index(d.index.value))
    || (d.id.Some? && d.id.value != "" && key == Id(d.id.value))
  }

  lemma {:induction false} KeysAre(d: Delta)
    ensures forall key :: key in StableKeys(d) <==> HasKey(d, key)
    ensures StableKeys(d) == [] <==> !Keyed(d)
  {
    var index := if d.index.Some? then [Index(d.index.value)] else [];
    var id := if HasId(d) then [Id(d.id.value)] else [];
    assert StableKeys(d) == index + id;
  }

  // A name that comes whole again, longer, shorter, or in pieces.
  predicate NameTaken(had: string, name: string, got: string) {
    if name == "" || name <= had then got == had
    else if had <= name then got == name
    else got == had + name
  }

  // What becomes of a call when a fragment joins it.
  ghost predicate Takes(s: CallState, e: Event, t: CallState) {
    var d := e.delta;
    && (forall key :: key in t.keys <==> key in s.keys || HasKey(d, key))
    && t.id == (if d.id.Some? && d.id.value != "" then d.id else s.id)
    && NameTaken(s.name, if d.name.Some? then Strip(d.name.value) else "", t.name)
    && match d.arguments
       case Missing => t.parts == s.parts && t.entries == s.entries && t.error == s.error
       case Text(text) =>
         && t.entries == s.entries && t.error == s.error
         && if e.payload then Join(t.parts) == text else t.parts == s.parts + [text]
       case Object(entries) =>
         && t.parts == s.parts && t.error == s.error && t.entries.Some?
         && (forall k :: k in entries ==> k in t.entries.value && t.entries.value[k] == entries[k])
         && (forall k :: k !in entries ==>
               (k in t.entries.value <==> s.entries.Some? && k in s.entries.value)
               && (k in t.entries.value ==> t.entries.value[k] == s.entries.value[k]))
       case Unsupported(typeName) =>
         && t.parts == s.parts && t.entries == s.entries && t.error.Some?
         && t.error.value == (if s.error.Some? then s.error.value + "; " else "")
                             + "Unsupported tool arguments type: " + typeName
  }

  lemma {:induction false} MergeTakes(s: CallState, e: Event)
    ensures Takes(s, e, Merge(s, e.delta, e.payload))
  {
    KeysAre(e.delta);
    var t := Merge(s, e.delta, e.payload);
    assert forall key :: key in (set k | k in StableKeys(e.delta)) <==> HasKey(e.delta, key);
    if e.delta.arguments.Text? && e.payload {
      var text := e.delta.arguments.text;
      assert [text][..0] == [];
      assert Join([text]) == Join([]) + text;
    }
  }

  // ---- One fragment after any others ------------------------------------------------------------

  // A call has all its arguments: an object came, or a text that is one.
  predicate Done(ctx: Context, s: CallState) {
    s.entries.Some? || (!Blank(Join(s.parts)) && ctx.isObject(Join(s.parts)))
  }

  lemma {:induction false} StripBlank(s: string)
    ensures StripLeft(s) == "" <==> Blank(s)
    ensures StripLeft(s) != "" ==> StripLeft(s)[0] !in {' ', '\t', '\n', '\r'}
  {
    if s != "" && s[0] in {' ', '\t', '\n', '\r'} {
      StripBlank(s[1..]);
      assert s == [s[0]] + s[1..];
      if Blank(s[1..]) {
        forall i | 0 <= i < |s|
          ensures s[i] in {' ', '\t', '\n', '\r'}
        {
          assert i > 0 ==> s[i] == s[1..][i - 1];
        }
      } else {
        var i :| 0 <= i < |s[1..]| && s[1..][i] !in {' ', '\t', '\n', '\r'};
        assert s[i + 1] == s[1..][i];
      }
    }
  }

  lemma {:induction false} StripRightFirst(s: string)
    requires s != "" && s[0] !in {' ', '\t', '\n', '\r'}
    ensures StripRight(s) != ""
    decreases |s|
  {
    if s[|s| - 1] in {' ', '\t', '\n', '\r'} {
      StripRightFirst(s[..|s| - 1]);
    }
  }

  lemma {:induction false} CompleteMeans(ctx: Context, s: CallState)
    ensures Complete(ctx, s) <==> Done(ctx, s)
  {
    var text := Join(s.parts);
    StripBlank(text);
    if StripLeft(text) != "" {
      StripRightFirst(StripLeft(text));
    }
  }

  // The names can be parts of one name.
  predicate OneName(ctx: Context, had: string, name: string) {
    had == "" || name == "" || had <= name || name <= had || had + name in ctx.known
  }

  ghost predicate Conflicts(s: CallState, d: Delta) {
    || (d.index.Some? && exists i :: Index(i) in s.keys && i != d.index.value)
    || (d.id.Some? && d.id.value != "" && exists id :: Id(id) in s.keys && id != d.id.value)
  }

  predicate SameArguments(s: CallState, d: Delta) {
    || (d.arguments.Text? && d.arguments.text == Join(s.parts))
    || (d.arguments.Object? && s.entries == Some(d.arguments.entries))
  }

  // A fragment with no key that is known joins the call at its position: it does not name an index other
  // than that position, or a key other than those of the call, its name can be part of the call's, and the
  // call is not yet done, or the fragment has no keys, or it is a payload that repeats the call.
  ghost predicate JoinsPosition(ctx: Context, s: CallState, e: Event) {
    var d := e.delta;
    && (d.index.Some? ==> d.index.value == e.position) && !Conflicts(s, d)
    && OneName(ctx, s.name, if d.name.Some? then Strip(d.name.value) else "")
    && (!Keyed(d) || !Done(ctx, s) || (e.payload && SameArguments(s, d)))
  }

  lemma {:induction false} ReuseMeans(ctx: Context, s: CallState, e: Event)
    ensures CanReusePosition(ctx, s, e) <==> JoinsPosition(ctx, s, e)
  {
    KeysAre(e.delta);
    CompleteMeans(ctx, s);
    var stable := StableKeys(e.delta);
    assert (exists mine, k :: mine in s.keys && k in stable && SameKind(mine, k) && mine != k)
           <==> Conflicts(s, e.delta)
    by {
      if Conflicts(s, e.delta) {
        if e.delta.index.Some? && exists i :: Index(i) in s.keys && i != e.delta.index.value {
          var i :| Index(i) in s.keys && i != e.delta.index.value;
          assert Index(e.delta.index.value) in stable && SameKind(Index(i), Index(e.delta.index.value));
        } else {
          var id :| Id(id) in s.keys && id != e.delta.id.value;
          assert Id(e.delta.id.value) in stable && SameKind(Id(id), Id(e.delta.id.value));
        }
      }
    }
    assert (exists k :: k in stable && k.Index? && k.index != e.position)
           <==> e.delta.index.Some? && e.delta.index.value != e.position by {
      if e.delta.index.Some? {
        assert Index(e.delta.index.value) in stable;
      }
    }
  }

  // Call k takes the fragment; a new number is a new call. All other calls stay as they were, and so does
  // where the keys lead, but that those of the fragment lead to its call, and its position too, unless
  // the fragment has keys and another call has the position.
  ghost predicate Taken(a: Assembly, b: Assembly, e: Event, k: nat) {
    && k <= |a.states| && |b.states| == (if k < |a.states| then |a.states| else |a.states| + 1)
    && (forall l :: 0 <= l < |a.states| && l != k ==> b.states[l] == a.states[l])
    && Takes(if k < |a.states| then a.states[k] else CallState(None, "", [], None, None, {}), e, b.states[k])
    && (forall key :: HasKey(e.delta, key) ==> key in b.keyed && b.keyed[key] == k)
    && (forall key :: !HasKey(e.delta, key) && key != Position(e.position) ==>
          (key in b.keyed <==> key in a.keyed) && (key in a.keyed ==> b.keyed[key] == a.keyed[key]))
    && Position(e.position) in b.keyed
    && b.keyed[Position(e.position)]
       == if Keyed(e.delta) && Position(e.position) in a.keyed then a.keyed[Position(e.position)] else k
  }

  // The call that a fragment goes to: that of its index if it is known, else that of its id, else the one
  // at its position if it can join it, else a new one.
  ghost predicate GoesTo(ctx: Context, a: Assembly, e: Event, k: nat) {
    var d, place := e.delta, Position(e.position);
    if d.index.Some? && Index(d.index.value) in a.keyed then k == a.keyed[Index(d.index.value)]
    else if d.id.Some? && d.id.value != "" && Id(d.id.value) in a.keyed then k == a.keyed[Id(d.id.value)]
    else if place in a.keyed && a.keyed[place] < |a.states| && JoinsPosition(ctx, a.states[a.keyed[place]], e) then
      k == a.keyed[place]
    else k == |a.states|
  }

  lemma {:induction false} PlacedKeys(a: Assembly, e: Event, k: nat)
    requires Valid(a) && k <= |a.states|
    ensures var keyed, place := Placed(a, e, k).keyed, Position(e.position);
            && (forall key :: HasKey(e.delta, key) ==> key in keyed && keyed[key] == k)
            && (forall key :: !HasKey(e.delta, key) && key != place ==>
                  (key in keyed <==> key in a.keyed) && (key in a.keyed ==> keyed[key] == a.keyed[key]))
            && place in keyed && keyed[place] == if Keyed(e.delta) && place in a.keyed then a.keyed[place] else k
  {
    KeysAre(e.delta);
    ClaimAllSays(a.keyed, StableKeys(e.delta), k);
    assert forall key :: HasKey(e.delta, key) ==> key != Position(e.position);
  }

  lemma {:induction false} PlacedTaken(a: Assembly, e: Event, k: nat)
    requires Valid(a) && k <= |a.states|
    ensures Taken(a, Placed(a, e, k), e, k)
  {
    PlacedKeys(a, e, k);
    MergeTakes(if k < |a.states| then a.states[k] else NEW_CALL, e);
  }

  lemma {:induction false} RouteMeans(ctx: Context, a: Assembly, e: Event)
    requires Valid(a)
    ensures GoesTo(ctx, a, e, Route(ctx, a, e))
  {
    var d := e.delta;
    FindStableValid(a, StableKeys(d));
    if Position(e.position) in a.keyed {
      ReuseMeans(ctx, a.states[a.keyed[Position(e.position)]], e);
    }
    FindMeans(a, d);
  }

  lemma {:induction false} FindMeans(a: Assembly, d: Delta)
    ensures FindStable(a.keyed, StableKeys(d))
            == if d.index.Some? && Index(d.index.value) in a.keyed then Some(a.keyed[Index(d.index.value)])
               else if d.id.Some? && d.id.value != "" && Id(d.id.value) in a.keyed then Some(a.keyed[Id(d.id.value)])
               else None
  {
    var index := if d.index.Some? then [Index(d.index.value)] else [];
    var id := if HasId(d) then [Id(d.id.value)] else [];
    assert StableKeys(d) == index + id;
    FindOne(a.keyed, id);
    if d.index.Some? {
      assert StableKeys(d)[1..] == id;
    } else {
      assert StableKeys(d) == id;
    }
  }

  lemma {:induction false} FindOne(keyed: map<Key, nat>, stable: seq<Key>)
    requires |stable| <= 1
    ensures FindStable(keyed, stable) == if stable != [] && stable[0] in keyed then Some(keyed[stable[0]]) else None
  {
    if stable != [] {
      assert stable[1..] == [];
    }
  }

  /** Where the next fragment of a stream goes, and what becomes of the call, of the others, and of the
      places where keys lead. */
  lemma {:induction false} FragmentGoes(ctx: Context, before: seq<Event>, e: Event) returns (k: nat)
    ensures var a, b := Assembled(ctx, before), Assembled(ctx, before + [e]);
            GoesTo(ctx, a, e, k) && Taken(a, b, e, k)
  {
    var a := Assembled(ctx, before);
    k := Route(ctx, a, e);
    RouteMeans(ctx, a, e);
    PlacedTaken(a, e, k);
    assert (before + [e])[..|before|] == before;
  }

  // ---- Streams that tell calls by position ------------------------------------------------------

  // The positions, in the order of their first appearance.
  function Positions(events: seq<Event>): seq<nat>
    decreases |events|
  {
    if events == [] then []
    else
      var before, p := Positions(events[..|events| - 1]), events[|events| - 1].position;
      if p in before then before else before + [p]
  }

  // What the fragments at one position make, read on their own.
  function AtPosition(events: seq<Event>, p: nat): CallState
    decreases |events|
  {
    if events == [] then NEW_CALL
    else
      var before, last := AtPosition(events[..|events| - 1], p), events[|events| - 1];
      if last.position == p then Merge(before, last.delta, last.payload) else before
  }

  predicate Appears(events: seq<Event>, p: nat) {
    exists j :: 0 <= j < |events| && events[j].position == p
  }

  // A fragment with this key came at this position.
  predicate KeyAt(events: seq<Event>, key: Key, p: nat) {
    exists j :: 0 <= j < |events| && events[j].position == p && HasKey(events[j].delta, key)
  }

  predicate KeySeen(events: seq<Event>, key: Key) {
    exists j :: 0 <= j < |events| && HasKey(events[j].delta, key)
  }

  // The keys of a fragment do not speak against its position: an index is the position, and an id came
  // with no other position and at that position no other id.
  predicate KeysFit(before: seq<Event>, e: Event) {
    && (e.delta.index.Some? ==> e.delta.index.value == e.position)
    && (HasId(e.delta) ==> forall j :: 0 <= j < |before| && HasId(before[j].delta) ==>
          (before[j].delta.id == e.delta.id <==> before[j].position == e.position))
  }

  // If nothing but the position tells where the fragment belongs, then its name can be part of the name
  // there, and if it brings the first keys, the call there is not yet done.
  ghost predicate PlaceFits(ctx: Context, before: seq<Event>, e: Event) {
    var s := AtPosition(before, e.position);
    Appears(before, e.position) && (forall key :: HasKey(e.delta, key) ==> !KeySeen(before, key)) ==>
      && OneName(ctx, s.name, if e.delta.name.Some? then Strip(e.delta.name.value) else "")
      && (Keyed(e.delta) ==> !Done(ctx, s))
  }

  // Every fragment's keys, if it has any, agree with its position, and arrive before its call is done.
  ghost predicate Positioned(ctx: Context, events: seq<Event>) {
    forall j :: 0 <= j < |events| ==> KeysFit(events[..j], events[j]) && PlaceFits(ctx, events[..j], events[j])
  }

  // How an assembly looks after such a stream.
  ghost predicate Placewise(events: seq<Event>, a: Assembly) {
    var places := Positions(events);
    && Valid(a) && |a.states| == |places|
    && (forall k :: 0 <= k < |places| ==> a.states[k] == AtPosition(events, places[k]))
    && (forall k :: 0 <= k < |places| ==> Position(places[k]) in a.keyed && a.keyed[Position(places[k])] == k)
    && (forall p :: Position(p) in a.keyed ==> p in places)
    && (forall key :: key in a.keyed && !key.Position? ==> KeyAt(events, key, places[a.keyed[key]]))
    && (forall key :: KeySeen(events, key) ==> key in a.keyed)
  }

  lemma {:induction false} AppearsLater(before: seq<Event>, e: Event, p: nat)
    ensures Appears(before + [e], p) <==> Appears(before, p) || e.position == p
  {
    assert (before + [e])[|before|] == e;
    if Appears(before, p) {
      var j :| 0 <= j < |before| && before[j].position == p;
      assert (before + [e])[j] == before[j];
    }
  }

  lemma {:induction false} KeyLater(before: seq<Event>, e: Event, key: Key, p: nat)
    ensures KeyAt(before + [e], key, p) <==> KeyAt(before, key, p) || (e.position == p && HasKey(e.delta, key))
    ensures KeySeen(before + [e], key) <==> KeySeen(before, key) || HasKey(e.delta, key)
  {
    assert (before + [e])[|before|] == e;
    if KeyAt(before, key, p) {
      var j :| 0 <= j < |before| && before[j].position == p && HasKey(before[j].delta, key);
      assert (before + [e])[j] == before[j];
    }
    if KeySeen(before, key) {
      var j :| 0 <= j < |before| && HasKey(before[j].delta, key);
      assert (before + [e])[j] == before[j];
    }
  }

  lemma {:induction false} PositionsDistinct(events: seq<Event>)
    ensures forall k, l :: 0 <= k < l < |Positions(events)| ==> Positions(events)[k] != Positions(events)[l]
    ensures forall p: nat :: p in Positions(events) <==> Appears(events, p)
    decreases |events|
  {
    if events != [] {
      var before, last := events[..|events| - 1], events[|events| - 1];
      assert events == before + [last];
      PositionsDistinct(before);
      forall p: nat
        ensures p in Positions(events) <==> Appears(events, p)
      {
        AppearsLater(before, last, p);
      }
    }
  }

  // The keys of the call at a position are those that came with it.
  lemma {:induction false} KeysAtPosition(events: seq<Event>, p: nat)
    ensures forall key :: key in AtPosition(events, p).keys <==> KeyAt(events, key, p)
    decreases |events|
  {
    if events != [] {
      var before, last := events[..|events| - 1], events[|events| - 1];
      assert events == before + [last];
      KeysAtPosition(before, p);
      MergeTakes(AtPosition(before, p), last);
      forall key
        ensures key in AtPosition(events, p).keys <==> KeyAt(events, key, p)
      {
        KeyLater(before, last, key, p);
      }
    }
  }

  // A key that is known was seen at this very position.
  lemma {:induction false} KnownHere(before: seq<Event>, e: Event, a: Assembly, key: Key)
    requires KeysFit(before, e) && HasKey(e.delta, key) && Placewise(before, a) && key in a.keyed
    requires forall j :: 0 <= j < |before| ==> KeysFit(before[..j], before[j])
    ensures Positions(before)[a.keyed[key]] == e.position
  {
    var p := Positions(before)[a.keyed[key]];
    assert !key.Position? && KeyAt(before, key, p);
    var j :| 0 <= j < |before| && before[j].position == p && HasKey(before[j].delta, key);
    assert KeysFit(before[..j], before[j]);
  }

  // The fragment goes to the call of its position.
  lemma {:induction false} GoesToPlace(ctx: Context, before: seq<Event>, e: Event, a: Assembly, k: nat)
    requires KeysFit(before, e) && PlaceFits(ctx, before, e) && Placewise(before, a) && GoesTo(ctx, a, e, k)
    requires forall j :: 0 <= j < |before| ==> KeysFit(before[..j], before[j])
    ensures var places := Positions(before);
            if e.position in places then k < |places| && places[k] == e.position else k == |places|
  {
    var places, p := Positions(before), e.position;
    PositionsDistinct(before);
    forall key | HasKey(e.delta, key) && key in a.keyed
      ensures places[a.keyed[key]] == p
    {
      KnownHere(before, e, a, key);
    }
    if forall key :: HasKey(e.delta, key) ==> key !in a.keyed {
      if Position(p) in a.keyed {
        assert p in places;
        forall key | HasKey(e.delta, key)
          ensures !KeySeen(before, key)
        {
        }
        var l := a.keyed[Position(p)];
        var m :| 0 <= m < |places| && places[m] == p;
        assert l == m;
        NoConflict(before, e, p);
        assert JoinsPosition(ctx, a.states[l], e);
      }
    } else {
      var key :| HasKey(e.delta, key) && key in a.keyed;
      assert a.keyed[key] < |places|;
    }
  }

  lemma {:induction false} NoConflict(before: seq<Event>, e: Event, p: nat)
    requires KeysFit(before, e) && e.position == p
    requires forall j :: 0 <= j < |before| ==> KeysFit(before[..j], before[j])
    ensures !Conflicts(AtPosition(before, p), e.delta)
  {
    var s := AtPosition(before, p);
    KeysAtPosition(before, p);
    forall i | Index(i) in s.keys
      ensures i == p
    {
      var j :| 0 <= j < |before| && before[j].position == p && HasKey(before[j].delta, Index(i));
      assert KeysFit(before[..j], before[j]);
    }
    if HasId(e.delta) {
      forall id | Id(id) in s.keys
        ensures id == e.delta.id.value
      {
        var j :| 0 <= j < |before| && before[j].position == p && HasKey(before[j].delta, Id(id));
        assert before[j].delta.id == e.delta.id;
      }
    }
  }

  lemma {:induction false} AtPositionLater(before: seq<Event>, e: Event, p: nat)
    ensures AtPosition(before + [e], p)
            == if e.position == p then Merge(AtPosition(before, p), e.delta, e.payload) else AtPosition(before, p)
  {
    assert (before + [e])[..|before|] == before;
  }

  lemma {:induction false} AtPositionUnseen(events: seq<Event>, p: nat)
    requires !Appears(events, p)
    ensures AtPosition(events, p) == NEW_CALL
    decreases |events|
  {
    if events != [] {
      var before, last := events[..|events| - 1], events[|events| - 1];
      assert events == before + [last];
      AppearsLater(before, last, p);
      AtPositionUnseen(before, p);
    }
  }

  lemma {:induction false} PlacesGrow(before: seq<Event>, e: Event, k: nat)
    requires var places := Positions(before);
             if e.position in places then k < |places| && places[k] == e.position else k == |places|
    ensures var places, places' := Positions(before), Positions(before + [e]);
            && places' == (if k < |places| then places else places + [e.position]) && places'[k] == e.position
            && forall l :: 0 <= l < |places'| && l != k ==> places'[l] != e.position
  {
    assert (before + [e])[..|before|] == before;
    PositionsDistinct(before);
  }

  lemma {:induction false} PlacedStatewise(before: seq<Event>, e: Event, a: Assembly, k: nat)
    requires Placewise(before, a)
    requires var places := Positions(before);
             if e.position in places then k < |places| && places[k] == e.position else k == |places|
    ensures var places', b := Positions(before + [e]), Placed(a, e, k);
            && |b.states| == |places'|
            && forall l :: 0 <= l < |places'| ==> b.states[l] == AtPosition(before + [e], places'[l])
  {
    var places', b := Positions(before + [e]), Placed(a, e, k);
    PlacesGrow(before, e, k);
    PositionsDistinct(before);
    forall l | 0 <= l < |places'|
      ensures b.states[l] == AtPosition(before + [e], places'[l])
    {
      AtPositionLater(before, e, places'[l]);
      if l == k && k == |Positions(before)| {
        AtPositionUnseen(before, e.position);
      }
    }
  }

  lemma {:induction false} PlacedKeywise(before: seq<Event>, e: Event, a: Assembly, k: nat)
    requires Placewise(before, a)
    requires var places := Positions(before);
             if e.position in places then k < |places| && places[k] == e.position else k == |places|
    ensures var places', b := Positions(before + [e]), Placed(a, e, k);
            && (forall l :: 0 <= l < |places'| ==>
                  Position(places'[l]) in b.keyed && b.keyed[Position(places'[l])] == l)
            && (forall p :: Position(p) in b.keyed ==> p in places')
            && (forall key :: key in b.keyed && !key.Position? ==>
                  b.keyed[key] < |places'| && KeyAt(before + [e], key, places'[b.keyed[key]]))
            && (forall key :: KeySeen(before + [e], key) ==> key in b.keyed)
  {
    var places, places', b := Positions(before), Positions(before + [e]), Placed(a, e, k);
    PlacesGrow(before, e, k);
    PlacedTaken(a, e, k);
    forall key | key in b.keyed && !key.Position?
      ensures b.keyed[key] < |places'| && KeyAt(before + [e], key, places'[b.keyed[key]])
    {
      if HasKey(e.delta, key) {
        KeyLater(before, e, key, e.position);
      } else {
        KeyLater(before, e, key, places[a.keyed[key]]);
      }
    }
    forall key | KeySeen(before + [e], key)
      ensures key in b.keyed
    {
      KeyLater(before, e, key, e.position);
      assert KeySeen(before, key) ==> !key.Position?;
    }
  }

  lemma {:induction false} GroupsByPosition(ctx: Context, events: seq<Event>)
    requires Positioned(ctx, events)
    ensures Placewise(events, Assembled(ctx, events))
    decreases |events|
  {
    if events != [] {
      var n := |events| - 1;
      var before, last := events[..n], events[n];
      assert events == before + [last];
      forall j | 0 <= j < n
        ensures KeysFit(before[..j], before[j]) && PlaceFits(ctx, before[..j], before[j])
      {
        assert before[..j] == events[..j];
      }
      GroupsByPosition(ctx, before);
      var a := Assembled(ctx, before);
      var k := Route(ctx, a, last);
      RouteMeans(ctx, a, last);
      GoesToPlace(ctx, before, last, a, k);
      PlacedStatewise(before, last, a, k);
      PlacedKeywise(before, last, a, k);
    }
  }

  // The argument texts that came at a position, in order.
  function TextsAt(events: seq<Event>, p: nat): seq<string>
    decreases |events|
  {
    if events == [] then []
    else
      var last := events[|events| - 1];
      TextsAt(events[..|events| - 1], p)
      + if last.position == p && last.delta.arguments.Text? then [last.delta.arguments.text] else []
  }

  // The last id that came at a position.
  function IdAt(events: seq<Event>, p: nat): Option<string>
    decreases |events|
  {
    if events == [] then None
    else
      var last := events[|events| - 1];
      if last.position == p && last.delta.id.Some? && last.delta.id.value != "" then last.delta.id
      else IdAt(events[..|events| - 1], p)
  }

  lemma {:induction false} HoldsItsFragments(events: seq<Event>, p: nat)
    requires forall e :: e in events ==> !e.payload
    ensures AtPosition(events, p).parts == TextsAt(events, p) && AtPosition(events, p).id == IdAt(events, p)
    decreases |events|
  {
    if events != [] {
      var last := events[|events| - 1];
      assert last in events;
      HoldsItsFragments(events[..|events| - 1], p);
      MergeTakes(AtPosition(events[..|events| - 1], p), last);
    }
  }

  /** Streams in which keys are missing, or arrive late but before a call is done: one call for each
      position, in the order of first appearance, each the same as if only its own fragments had arrived;
      a stream of deltas leaves it the texts of its position, in order, and the last id that came there. */
  lemma {:induction false} PositionedStreamsAreGrouped(ctx: Context, events: seq<Event>)
    requires Positioned(ctx, events)
    ensures var states, places := Assembled(ctx, events).states, Positions(events);
            && |states| == |places|
            && (forall k, l :: 0 <= k < l < |places| ==> places[k] != places[l])
            && (forall p: nat :: p in places <==> Appears(events, p))
            && (forall k :: 0 <= k < |places| ==> states[k] == AtPosition(events, places[k]))
            && ((forall e :: e in events ==> !e.payload) ==>
                  forall k :: 0 <= k < |places| ==>
                    states[k].parts == TextsAt(events, places[k]) && states[k].id == IdAt(events, places[k]))
  {
    GroupsByPosition(ctx, events);
    PositionsDistinct(events);
    if forall e :: e in events ==> !e.payload {
      forall k | 0 <= k < |Positions(events)|
        ensures AtPosition(events, Positions(events)[k]).parts == TextsAt(events, Positions(events)[k])
        ensures AtPosition(events, Positions(events)[k]).id == IdAt(events, Positions(events)[k])
      {
        HoldsItsFragments(events, Positions(events)[k]);
      }
    }
  }

  /** Without any keys it only takes names that can be parts of one. */
  lemma {:induction false} UnkeyedStreamsAreGrouped(ctx: Context, events: seq<Event>)
    requires forall e :: e in events ==> !e.payload && e.delta.index.None? && e.delta.id.None?
    requires forall j :: 0 <= j < |events| ==>
               OneName(ctx, AtPosition(events[..j], events[j].position).name,
                       if events[j].delta.name.Some? then Strip(events[j].delta.name.value) else "")
    ensures var states, places := Assembled(ctx, events).states, Positions(events);
            && |states| == |places|
            && forall k :: 0 <= k < |places| ==>
                 states[k].parts == TextsAt(events, places[k]) && states[k].id == None && states[k].keys == {}
  {
    forall j | 0 <= j < |events|
      ensures KeysFit(events[..j], events[j]) && PlaceFits(ctx, events[..j], events[j])
    {
      assert events[j] in events;
    }
    PositionedStreamsAreGrouped(ctx, events);
    forall k | 0 <= k < |Positions(events)|
      ensures IdAt(events, Positions(events)[k]) == None && AtPosition(events, Positions(events)[k]).keys == {}
    {
      NoIdsAt(events, Positions(events)[k]);
      KeysAtPosition(events, Positions(events)[k]);
    }
  }

  lemma {:induction false} NoIdsAt(events: seq<Event>, p: nat)
    requires forall e :: e in events ==> e.delta.id.None?
    ensures IdAt(events, p) == None
    decreases |events|
  {
    if events != [] {
      assert events[|events| - 1] in events;
      NoIdsAt(events[..|events| - 1], p);
    }
  }

  // ---- From states to calls ---------------------------------------------------------------------

  lemma {:induction false} Joined(parts: seq<string>, part: string)
    ensures Join([]) == "" && Join(parts + [part]) == Join(parts) + part
  {
    assert (parts + [part])[..|parts|] == parts;
  }

  /** A finished call has its own id, or a new one if it came without; the arguments of its object, or
      those that its joined texts parse to; and an error exactly if one was collected, its name is blank,
      or the texts do not parse. */
  lemma {:induction false} FinishedSays(f: Finisher, s: CallState, k: nat)
    ensures var c := Finished(f, s, k);
            && c.id == (if s.id.Some? && s.id.value != "" then s.id.value else f.newId(k)) && c.name == Strip(s.name)
            && c.arguments == (if s.entries.Some? then s.entries.value else f.parse(Join(s.parts)).0)
            && c.result.None?
            && (c.error.None? <==>
                  s.error.None? && !Blank(s.name) && (s.entries.Some? || f.parse(Join(s.parts)).1.None?))
            && (s.error.None? && Blank(s.name) && s.entries.Some? ==> c.error == Some("Missing tool name"))
            && (s.error.None? && !Blank(s.name) && s.entries.None? ==> c.error == f.parse(Join(s.parts)).1)
  {
    StripBlank(s.name);
    if StripLeft(s.name) != "" {
      StripRightFirst(StripLeft(s.name));
    }
  }

  const NAME_ONLY := Event(Delta(None, None, Some("echo"), Arguments.Text("")), 0, false)

  lemma {:induction false} AfterName()
    ensures AtPosition([NAME_ONLY], 0) == CallState(None, "echo", [""], None, None, {})
    ensures Positions([NAME_ONLY]) == [0] && Join([""]) == ""
  {
    assert [NAME_ONLY][..0] == [] && [""][..0] == [];
    assert AtPosition([NAME_ONLY], 0) == Merge(NEW_CALL, NAME_ONLY.delta, false);
    assert (set k | k in StableKeys(NAME_ONLY.delta)) == {};
    assert StripLeft("echo") == "echo" && StripRight("echo") == "echo";
    assert Join([""]) == Join([]) + "";
  }

  lemma {:induction false} AfterBoth(later: Event, text: string)
    requires later == Event(Delta(Some(0), Some("call_1"), None, Arguments.Text(text)), 0, false)
    ensures AtPosition([NAME_ONLY, later], 0)
            == CallState(Some("call_1"), "echo", ["", text], None, None, {Index(0), Id("call_1")})
    ensures Positions([NAME_ONLY, later]) == [0]
  {
    assert [NAME_ONLY, later][..1] == [NAME_ONLY];
    AfterName();
    assert StableKeys(later.delta) == [Index(0)] + [Id("call_1")];
    assert (set k | k in StableKeys(later.delta)) == {Index(0), Id("call_1")};
    assert [""] + [text] == ["", text];
  }

  /** A name first, and the id with the arguments later: one call, with both. */
  lemma {:induction false} LateIdJoins(ctx: Context, text: string)
    ensures var later := Event(Delta(Some(0), Some("call_1"), None, Arguments.Text(text)), 0, false);
            Assembled(ctx, [NAME_ONLY, later]).states
            == [CallState(Some("call_1"), "echo", ["", text], None, None, {Index(0), Id("call_1")})]
  {
    var later := Event(Delta(Some(0), Some("call_1"), None, Arguments.Text(text)), 0, false);
    var events := [NAME_ONLY, later];
    assert events[..0] == [] && events[..1] == [NAME_ONLY];
    AfterName();
    AfterBoth(later, text);
    assert !Done(ctx, AtPosition([NAME_ONLY], 0));
    PositionedStreamsAreGrouped(ctx, events);
  }
}
