/** Messages and the pairing of tool calls with their answers. */
module Conversation {
  import opened Common

  datatype Role = System | User | Assistant | ToolRole

  // `arguments` are kept abstract as strings; `text` is the content of a result, or its data as JSON.
  datatype ToolResult = ToolResult(text: Option<string>, error: Option<string>)

  datatype ToolCall = ToolCall(
    id: string, name: string, arguments: map<string, string>, error: Option<string>, result: Option<ToolResult>)

  datatype Message = Message(
    role: Role, content: string, toolCalls: seq<ToolCall>, toolCallId: Option<string>, summary: bool)

  function SystemMessage(text: string): Message {
    Message(System, text, [], None, false)
  }

  function UserMessage(text: string): Message {
    Message(User, text, [], None, false)
  }

  function AssistantMessage(text: string, calls: seq<ToolCall>): Message {
    Message(Assistant, text, calls, None, false)
  }

  function ToolMessage(id: string, text: string): Message {
    Message(ToolRole, text, [], Some(id), false)
  }

  // ---- The pairing, stated outright -------------------------------------------------------------

  predicate Declares(m: Message, id: string) {
    m.role == Assistant && exists k :: 0 <= k < |m.toolCalls| && m.toolCalls[k].id == id
  }

  predicate Answers(m: Message, id: string) {
    m.role == ToolRole && m.toolCallId == Some(id)
  }

  predicate DistinctIds(calls: seq<ToolCall>) {
    forall a, b :: 0 <= a < b < |calls| ==> calls[a].id != calls[b].id
  }

  // No call is declared twice; every answer follows the declaration of its call; no call is
  // answered twice; and exactly the calls in `open` are not answered yet.
  ghost predicate Paired(ms: seq<Message>, open: set<string>) {
    && (forall i :: 0 <= i < |ms| && ms[i].role == Assistant ==> DistinctIds(ms[i].toolCalls))
    && (forall i, j, id :: 0 <= i < j < |ms| && Declares(ms[i], id) ==> !Declares(ms[j], id))
    && (forall j, id :: 0 <= j < |ms| && Answers(ms[j], id) ==> exists i :: 0 <= i < j && Declares(ms[i], id))
    && (forall i, j, id :: 0 <= i < j < |ms| && Answers(ms[i], id) ==> !Answers(ms[j], id))
    && (forall id :: id in open <==>
          (exists i :: 0 <= i < |ms| && Declares(ms[i], id)) && !(exists j :: 0 <= j < |ms| && Answers(ms[j], id)))
  }

  // ---- The pairing as a ledger kept while reading from left to right ----------------------------

  datatype Ledger = Ledger(declared: set<string>, open: set<string>, ok: bool)

  const EMPTY := Ledger({}, {}, true)

  function Ids(calls: seq<ToolCall>): set<string> {
    set c | c in calls :: c.id
  }

  function Read(l: Ledger, m: Message): Ledger {
    if m.role == Assistant then
      Ledger(l.declared + Ids(m.toolCalls), l.open + Ids(m.toolCalls),
             l.ok && DistinctIds(m.toolCalls) && Ids(m.toolCalls) !! l.declared)
    else if m.role == ToolRole && m.toolCallId.Some? then
      Ledger(l.declared, l.open - {m.toolCallId.value}, l.ok && m.toolCallId.value in l.open)
    else l
  }

  function ReadAll(l: Ledger, ms: seq<Message>): Ledger
    decreases |ms|
  {
    if ms == [] then l else Read(ReadAll(l, ms[..|ms| - 1]), ms[|ms| - 1])
  }

  lemma {:induction false} ReadAppend(l: Ledger, xs: seq<Message>, ys: seq<Message>)
    ensures ReadAll(l, xs + ys) == ReadAll(ReadAll(l, xs), ys)
    decreases |ys|
  {
    if ys == [] {
      assert xs + ys == xs;
    } else {
      assert (xs + ys)[..|xs + ys| - 1] == xs + ys[..|ys| - 1];
      ReadAppend(l, xs, ys[..|ys| - 1]);
    }
  }

  lemma {:induction false} ReadOne(l: Ledger, m: Message)
    ensures ReadAll(l, [m]) == Read(l, m)
  {
    assert [m][..0] == [];
  }

  lemma {:induction false} DeclaresIds(m: Message, id: string)
    requires m.role == Assistant
    ensures Declares(m, id) <==> id in Ids(m.toolCalls)
  {
    if id in Ids(m.toolCalls) {
      var c :| c in m.toolCalls && c.id == id;
      var k :| 0 <= k < |m.toolCalls| && m.toolCalls[k] == c;
      assert m.toolCalls[k].id == id;
    }
  }

  ghost predicate DeclaredIn(ms: seq<Message>, id: string) {
    exists i :: 0 <= i < |ms| && Declares(ms[i], id)
  }

  ghost predicate AnsweredIn(ms: seq<Message>, id: string) {
    exists j :: 0 <= j < |ms| && Answers(ms[j], id)
  }

  lemma {:induction false} InAppend(ms: seq<Message>, m: Message, id: string)
    ensures DeclaredIn(ms + [m], id) <==> DeclaredIn(ms, id) || Declares(m, id)
    ensures AnsweredIn(ms + [m], id) <==> AnsweredIn(ms, id) || Answers(m, id)
  {
    var all := ms + [m];
    assert all[|ms|] == m;
    if DeclaredIn(ms, id) {
      var i :| 0 <= i < |ms| && Declares(ms[i], id);
      assert Declares(all[i], id);
    }
    if AnsweredIn(ms, id) {
      var i :| 0 <= i < |ms| && Answers(ms[i], id);
      assert Answers(all[i], id);
    }
  }

  lemma {:induction false} LedgerSets(ms: seq<Message>)
    ensures forall id :: id in ReadAll(EMPTY, ms).declared <==> DeclaredIn(ms, id)
    ensures ReadAll(EMPTY, ms).ok ==>
              forall id :: id in ReadAll(EMPTY, ms).open <==> DeclaredIn(ms, id) && !AnsweredIn(ms, id)
    decreases |ms|
  {
    if ms != [] {
      var pre, m := ms[..|ms| - 1], ms[|ms| - 1];
      assert ms == pre + [m];
      LedgerSets(pre);
      var l := ReadAll(EMPTY, pre);
      forall id
        ensures id in ReadAll(EMPTY, ms).declared <==> DeclaredIn(ms, id)
        ensures ReadAll(EMPTY, ms).ok ==> (id in ReadAll(EMPTY, ms).open <==> DeclaredIn(ms, id) && !AnsweredIn(ms, id))
      {
        InAppend(pre, m, id);
        if m.role == Assistant {
          DeclaresIds(m, id);
          if ReadAll(EMPTY, ms).ok && AnsweredIn(pre, id) {
            AnsweredDeclared(pre, id);
          }
        }
      }
    }
  }

  // In a ledger that is in order, only declared calls are answered.
  lemma {:induction false} AnsweredDeclared(ms: seq<Message>, id: string)
    requires ReadAll(EMPTY, ms).ok && AnsweredIn(ms, id)
    ensures id in ReadAll(EMPTY, ms).declared
    decreases |ms|
  {
    var pre, m := ms[..|ms| - 1], ms[|ms| - 1];
    assert ms == pre + [m];
    InAppend(pre, m, id);
    OpenDeclared(pre);
    if AnsweredIn(pre, id) {
      AnsweredDeclared(pre, id);
    }
  }

  lemma {:induction false} OpenDeclared(ms: seq<Message>)
    ensures ReadAll(EMPTY, ms).open <= ReadAll(EMPTY, ms).declared
    decreases |ms|
  {
    if ms != [] {
      OpenDeclared(ms[..|ms| - 1]);
    }
  }

  lemma {:induction false} PairedPrefix(ms: seq<Message>, m: Message)
    ensures (exists open :: Paired(ms + [m], open)) ==> exists open :: Paired(ms, open)
  {
    var all := ms + [m];
    if open' :| Paired(all, open') {
      LedgerSets(ms);
      var open := set id | id in ReadAll(EMPTY, ms).declared && !AnsweredIn(ms, id);
      forall i | 0 <= i < |ms|
        ensures all[i] == ms[i]
      {
      }
      forall id
        ensures id in open <==> DeclaredIn(ms, id) && !AnsweredIn(ms, id)
      {
      }
      assert Paired(ms, open);
    }
  }

  /** The ledger keeps the pairing: it is in order exactly when the messages are paired, and then
      its open calls are exactly the unanswered ones. */
  lemma {:induction false} LedgerIsPairing(ms: seq<Message>, open: set<string>)
    ensures Paired(ms, open) <==> ReadAll(EMPTY, ms).ok && ReadAll(EMPTY, ms).open == open
    decreases |ms|
  {
    if ms == [] {
    } else {
      var pre, m := ms[..|ms| - 1], ms[|ms| - 1];
      assert ms == pre + [m];
      LedgerSets(pre);
      LedgerSets(ms);
      if ReadAll(EMPTY, ms).ok {
        LedgerIsPairing(pre, ReadAll(EMPTY, pre).open);
        LedgerGivesPairing(pre, m);
      }
      if Paired(ms, open) {
        PairedPrefix(pre, m);
        var before :| Paired(pre, before);
        LedgerIsPairing(pre, before);
        PairingGivesLedger(pre, m, open);
      }
    }
  }

  lemma {:induction false} LedgerGivesPairing(pre: seq<Message>, m: Message)
    requires ReadAll(EMPTY, pre + [m]).ok && Paired(pre, ReadAll(EMPTY, pre).open)
    ensures Paired(pre + [m], ReadAll(EMPTY, pre + [m]).open)
  {
    var ms := pre + [m];
    assert ms[..|ms| - 1] == pre;
    LedgerSets(pre);
    LedgerSets(ms);
    forall i, j, id | 0 <= i < j < |ms| && Declares(ms[i], id)
      ensures !Declares(ms[j], id)
    {
      if j == |pre| && m.role == Assistant {
        assert DeclaredIn(pre, id);
        DeclaresIds(m, id);
      }
    }
    forall j, id | 0 <= j < |ms| && Answers(ms[j], id)
      ensures exists i :: 0 <= i < j && Declares(ms[i], id)
    {
      if j == |pre| {
        assert id in ReadAll(EMPTY, pre).open;
        var i :| 0 <= i < |pre| && Declares(pre[i], id);
        assert Declares(ms[i], id);
      } else {
        var i :| 0 <= i < j && Declares(pre[i], id);
        assert Declares(ms[i], id);
      }
    }
    forall i, j, id | 0 <= i < j < |ms| && Answers(ms[i], id)
      ensures !Answers(ms[j], id)
    {
      if j == |pre| {
        assert Answers(pre[i], id);
        assert AnsweredIn(pre, id);
      }
    }
  }

  lemma {:induction false} PairingGivesLedger(pre: seq<Message>, m: Message, open: set<string>)
    requires Paired(pre + [m], open) && ReadAll(EMPTY, pre).ok
    ensures ReadAll(EMPTY, pre + [m]).ok && ReadAll(EMPTY, pre + [m]).open == open
  {
    var ms := pre + [m];
    assert ms[..|ms| - 1] == pre && ms[|pre|] == m;
    LedgerSets(pre);
    LedgerSets(ms);
    var l := ReadAll(EMPTY, pre);
    if m.role == Assistant {
      forall id | id in Ids(m.toolCalls)
        ensures id !in l.declared
      {
        DeclaresIds(m, id);
        assert Declares(ms[|pre|], id);
        forall i | 0 <= i < |pre|
          ensures !Declares(pre[i], id)
        {
          assert ms[i] == pre[i];
        }
      }
    } else if m.role == ToolRole && m.toolCallId.Some? {
      var id := m.toolCallId.value;
      assert Answers(ms[|pre|], id);
      var i :| 0 <= i < |pre| && Declares(ms[i], id);
      assert Declares(pre[i], id);
      forall j | 0 <= j < |pre|
        ensures !Answers(pre[j], id)
      {
        assert ms[j] == pre[j];
      }
    }
    assert ReadAll(EMPTY, ms).ok;
    forall id
      ensures id in ReadAll(EMPTY, ms).open <==> id in open
    {
      assert DeclaredIn(ms, id) <==> exists i :: 0 <= i < |ms| && Declares(ms[i], id);
    }
  }

  // ---- Messages that do not matter --------------------------------------------------------------

  predicate Neutral(m: Message) {
    m.role == System || m.role == User || (m.role == ToolRole && m.toolCallId.None?)
  }

  lemma {:induction false} ReadNeutral(l: Ledger, ms: seq<Message>)
    requires forall m :: m in ms ==> Neutral(m)
    ensures ReadAll(l, ms) == l
    decreases |ms|
  {
    if ms != [] {
      assert ms[|ms| - 1] in ms;
      ReadNeutral(l, ms[..|ms| - 1]);
    }
  }

  // Dropping neutral messages changes no ledger.
  lemma {:induction false} ReadFiltered(l: Ledger, ms: seq<Message>, keep: Message -> bool)
    requires forall m :: m in ms && !keep(m) ==> Neutral(m)
    ensures ReadAll(l, Filter(ms, keep)) == ReadAll(l, ms)
    decreases |ms|
  {
    if ms != [] {
      var pre, m := ms[..|ms| - 1], ms[|ms| - 1];
      assert m in ms;
      ReadFiltered(l, pre, keep);
      if keep(m) {
        ReadAppend(l, Filter(pre, keep), [m]);
        ReadOne(ReadAll(l, Filter(pre, keep)), m);
      } else {
        assert Filter(ms, keep) == Filter(pre, keep);
      }
    }
  }

  function Filter(ms: seq<Message>, keep: Message -> bool): (r: seq<Message>)
    ensures |r| <= |ms|
    ensures forall m :: m in r <==> m in ms && keep(m)
    decreases |ms|
  {
    if ms == [] then []
    else
      var m := ms[|ms| - 1];
      assert forall x :: x in ms <==> x in ms[..|ms| - 1] || x == m by {
        assert ms == ms[..|ms| - 1] + [m];
      }
      Filter(ms[..|ms| - 1], keep) + if keep(m) then [m] else []
  }

  lemma {:induction false} FilterAppend(xs: seq<Message>, ys: seq<Message>, keep: Message -> bool)
    ensures Filter(xs + ys, keep) == Filter(xs, keep) + Filter(ys, keep)
    decreases |ys|
  {
    if ys == [] {
      assert xs + ys == xs;
    } else {
      assert (xs + ys)[..|xs + ys| - 1] == xs + ys[..|ys| - 1];
      FilterAppend(xs, ys[..|ys| - 1], keep);
    }
  }

  lemma {:induction false} FilterOne(m: Message, keep: Message -> bool)
    ensures Filter([m], keep) == if keep(m) then [m] else []
  {
    assert [m][..0] == [];
  }

  // `picked` are the messages at these places, in order, and no other message is to be kept.
  ghost predicate PickedAt(ms: seq<Message>, picked: seq<Message>, keep: Message -> bool, at: seq<nat>) {
    && |at| == |picked| && (forall k :: 0 <= k < |at| ==> at[k] < |ms| && picked[k] == ms[at[k]] && keep(picked[k]))
    && (forall j, k :: 0 <= j < k < |at| ==> at[j] < at[k])
    && (forall i: nat :: i < |ms| && keep(ms[i]) ==> i in at)
  }

  /** Filtering keeps exactly the messages that are to be kept, each once and in order. */
  lemma {:induction false} FilterPicks(ms: seq<Message>, keep: Message -> bool) returns (at: seq<nat>)
    ensures PickedAt(ms, Filter(ms, keep), keep, at)
  {
    at := KeptAt(ms, keep);
    KeptReads(ms, keep);
    KeptRises(ms, keep);
    forall i: nat | i < |ms| && keep(ms[i]) ensures i in at {
      KeptHas(ms, keep, i);
    }
  }

  // The positions of the messages to be kept.
  ghost function KeptAt(ms: seq<Message>, keep: Message -> bool): (at: seq<nat>)
    ensures forall k :: 0 <= k < |at| ==> at[k] < |ms|
    decreases |ms|
  {
    if ms == [] then []
    else
      var n := |ms| - 1;
      if keep(ms[n]) then KeptAt(ms[..n], keep) + [n] else KeptAt(ms[..n], keep)
  }

  lemma {:induction false} KeptReads(ms: seq<Message>, keep: Message -> bool)
    ensures var (at, picked) := (KeptAt(ms, keep), Filter(ms, keep));
            |at| == |picked| && forall k :: 0 <= k < |at| ==> picked[k] == ms[at[k]] && keep(picked[k])
    decreases |ms|
  {
    if ms != [] {
      var n := |ms| - 1;
      KeptReads(ms[..n], keep);
      var was, at := KeptAt(ms[..n], keep), KeptAt(ms, keep);
      assert forall k :: 0 <= k < |was| ==> at[k] == was[k];
    }
  }

  lemma {:induction false} KeptRises(ms: seq<Message>, keep: Message -> bool)
    ensures forall j, k :: 0 <= j < k < |KeptAt(ms, keep)| ==> KeptAt(ms, keep)[j] < KeptAt(ms, keep)[k]
    decreases |ms|
  {
    if ms != [] {
      var n := |ms| - 1;
      KeptRises(ms[..n], keep);
      var was, at := KeptAt(ms[..n], keep), KeptAt(ms, keep);
      assert forall k :: 0 <= k < |was| ==> at[k] == was[k];
    }
  }

  lemma {:induction false} KeptHas(ms: seq<Message>, keep: Message -> bool, i: nat)
    requires i < |ms| && keep(ms[i])
    ensures i in KeptAt(ms, keep)
    decreases |ms|
  {
    if i < |ms| - 1 {
      KeptHas(ms[..|ms| - 1], keep, i);
    }
  }
}
