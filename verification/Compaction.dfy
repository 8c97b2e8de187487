/** Context compaction (src/blackgeorge/worker_context.py): where the history is cut, and what
    replaces its head. */
module Compaction {
  import opened Common
  import opened Conversation

  const SUMMARY_TAIL_MESSAGES := 4

  // ---- The cut ----------------------------------------------------------------------------------

  predicate AnsweredFrom(ms: seq<Message>, b: nat, id: string) {
    id != "" && exists j :: b <= j < |ms| && Answers(ms[j], id)
  }

  // Message i declares a call that is answered at or after b.
  predicate Crosses(ms: seq<Message>, i: nat, b: nat)
    requires i < |ms|
  {
    ms[i].role == Assistant && exists k :: 0 <= k < |ms[i].toolCalls| && AnsweredFrom(ms, b, ms[i].toolCalls[k].id)
  }

  // No assistant before b declares a call that is answered at or after b.
  predicate ValidCut(ms: seq<Message>, b: nat) {
    b <= |ms| && forall i :: 0 <= i < b ==> !Crosses(ms, i, b)
  }

  // The greatest valid cut that is not above b.
  function Cut(ms: seq<Message>, b: nat): (r: nat)
    requires b <= |ms|
    ensures r <= b && ValidCut(ms, r)
    ensures forall c :: r < c <= b ==> !ValidCut(ms, c)
  {
    if ValidCut(ms, b) then b else Cut(ms, b - 1)
  }

  function Clamp(ms: seq<Message>, b: int): nat {
    if b <= 0 then 0 else if b <= |ms| then b else |ms|
  }

  // A declaration that crosses a cut also crosses every later cut between itself and the old one.
  lemma {:induction false} CrossesEarlier(ms: seq<Message>, i: nat, c: nat, b: nat)
    requires i < |ms| && c <= b && Crosses(ms, i, b)
    ensures Crosses(ms, i, c)
  {
    var k :| 0 <= k < |ms[i].toolCalls| && AnsweredFrom(ms, b, ms[i].toolCalls[k].id);
    assert AnsweredFrom(ms, c, ms[i].toolCalls[k].id);
  }

  /** `_preserve_tool_call_boundary`: jump from declaration to declaration; the result is the
      greatest valid cut not above the requested boundary. */
  method PreserveToolCallBoundary(ms: seq<Message>, requested: int) returns (boundary: nat)
    ensures boundary == Cut(ms, Clamp(ms, requested))
    ensures boundary <= Clamp(ms, requested) && ValidCut(ms, boundary)
    ensures forall c :: boundary < c <= Clamp(ms, requested) ==> !ValidCut(ms, c)
  {
    boundary := Clamp(ms, requested);
    while boundary > 0
      invariant boundary <= Clamp(ms, requested)
      invariant forall c :: boundary < c <= Clamp(ms, requested) ==> !ValidCut(ms, c)
    {
      var tailIds := TailIds(ms, boundary);
      if tailIds == {} {
        assert ValidCut(ms, boundary) by {
          assert forall id :: !AnsweredFrom(ms, boundary, id);
        }
        return;
      }
      var matching := -1;
      for index := boundary downto 0
        invariant matching == -1
        invariant forall i :: index <= i < boundary ==> !Crosses(ms, i, boundary)
      {
        if ms[index].role == Assistant && exists c :: c in ms[index].toolCalls && c.id in tailIds {
          matching := index;
          ghost var c :| c in ms[index].toolCalls && c.id in tailIds;
          ghost var k :| 0 <= k < |ms[index].toolCalls| && ms[index].toolCalls[k] == c;
          assert AnsweredFrom(ms, boundary, ms[index].toolCalls[k].id);
          break;
        }
      }
      if matching == -1 {
        assert ValidCut(ms, boundary);
        return;
      }
      forall c | matching < c <= boundary
        ensures !ValidCut(ms, c)
      {
        CrossesEarlier(ms, matching, c, boundary);
      }
      boundary := matching;
    }
  }

  // The ids answered at or after b.
  function TailIds(ms: seq<Message>, b: nat): (ids: set<string>)
    requires b <= |ms|
    ensures forall id :: id in ids <==> AnsweredFrom(ms, b, id)
    decreases |ms| - b
  {
    if b == |ms| then {}
    else
      var rest := TailIds(ms, b + 1);
      assert forall id :: AnsweredFrom(ms, b, id) <==> AnsweredFrom(ms, b + 1, id) || (id != "" && Answers(ms[b], id));
      if ms[b].role == ToolRole && ms[b].toolCallId.Some? && ms[b].toolCallId.value != "" then
        rest + {ms[b].toolCallId.value}
      else rest
  }

  // ---- The split --------------------------------------------------------------------------------

  datatype Split = Split(system: seq<Message>, head: seq<Message>, tail: seq<Message>)

  predicate IsSystem(m: Message) {
    m.role == System
  }

  predicate NotSystem(m: Message) {
    m.role != System
  }

  function Min(a: int, b: int): int {
    if a <= b then a else b
  }

  function TailLimit(system: nat, limit: Option<nat>): nat {
    if limit.None? then SUMMARY_TAIL_MESSAGES
    else Min(SUMMARY_TAIL_MESSAGES, if limit.value - system - 1 >= 0 then limit.value - system - 1 else 0)
  }

  function SummarySplit(ms: seq<Message>, preserveRecent: bool, limit: Option<nat>): Split {
    var system := Filter(ms, IsSystem);
    SplitRest(system, Filter(ms, NotSystem), TailLimit(|system|, limit), preserveRecent)
  }

  function SplitRest(system: seq<Message>, rest: seq<Message>, tailLimit: nat, preserveRecent: bool): Split {
    if rest == [] then Split(system, [], [])
    else if |rest| <= tailLimit then
      if preserveRecent then Split(system, [], rest) else Split(system, rest, [])
    else
      var b := Cut(rest, if preserveRecent then |rest| - tailLimit else |rest|);
      Split(system, rest[..b], rest[b..])
  }

  function SummaryMessage(text: string): Message {
    Message(User, "Summary of previous context:\n" + text, [], None, true)
  }

  // `_commit_context_summary`: what the message list becomes.
  function Committed(s: Split, text: string): seq<Message> {
    s.system + [SummaryMessage(text)] + s.tail
  }

  lemma {:induction false} RestPartitions(system: seq<Message>, rest: seq<Message>, tailLimit: nat,
                                          preserveRecent: bool)
    ensures var s := SplitRest(system, rest, tailLimit, preserveRecent);
            && s.system == system && s.head + s.tail == rest
            && ValidCut(rest, |s.head|)
            && (!preserveRecent ==> s.tail == [])
  {
    assert rest + [] == rest && [] + rest == rest;
    if !preserveRecent {
      assert ValidCut(rest, |rest|) by {
        forall i | 0 <= i < |rest|
          ensures !Crosses(rest, i, |rest|)
        {
        }
      }
    }
  }

  // The split keeps every message, in order, and never separates a call from its answer.
  lemma {:induction false} SplitPartitions(ms: seq<Message>, preserveRecent: bool, limit: Option<nat>)
    ensures var s := SummarySplit(ms, preserveRecent, limit);
            && s.system == Filter(ms, IsSystem)
            && s.head + s.tail == Filter(ms, NotSystem)
            && |s.system| + |s.head| + |s.tail| == |ms|
            && ValidCut(s.head + s.tail, |s.head|)
            && (!preserveRecent ==> s.tail == [])
  {
    var system, rest := Filter(ms, IsSystem), Filter(ms, NotSystem);
    RestPartitions(system, rest, TailLimit(|system|, limit), preserveRecent);
    FilterSizes(ms);
    var s := SummarySplit(ms, preserveRecent, limit);
    assert |s.head + s.tail| == |s.head| + |s.tail|;
  }

  lemma {:induction false} FilterSizes(ms: seq<Message>)
    ensures |Filter(ms, IsSystem)| + |Filter(ms, NotSystem)| == |ms|
    decreases |ms|
  {
    if ms != [] {
      FilterSizes(ms[..|ms| - 1]);
    }
  }

  // ---- What a summary leaves, said of the messages themselves -----------------------------------

  predicate EndsWith(s: string, suffix: string) {
    |suffix| <= |s| && s[|s| - |suffix|..] == suffix
  }

  // How many of the messages that are not system messages a summary replaces: all, or, if recent ones are
  // to be kept, as many as a cut that separates no call from its answer leaves behind the last four, or
  // behind fewer if the limit has no room for them beside the system messages and the summary.
  ghost predicate Summarizes(ms: seq<Message>, preserveRecent: bool, limit: Option<nat>, n: nat) {
    var system, rest := |Filter(ms, IsSystem)|, Filter(ms, NotSystem);
    var room := if limit.None? then 4 else limit.value - system - 1;
    var recent := if room <= 0 then 0 else if room <= 4 then room else 4;
    if !preserveRecent then n == |rest|
    else if |rest| <= recent then n == 0
    else n <= |rest| - recent && ValidCut(rest, n) && forall c :: n < c <= |rest| - recent ==> !ValidCut(rest, c)
  }

  // The system messages as they were, one summary that ends with its text, and the other messages after
  // the first n, all in order.
  ghost predicate Compacted(before: seq<Message>, after: seq<Message>, n: nat, text: string) {
    var system, rest := Filter(before, IsSystem), Filter(before, NotSystem);
    && n <= |rest| && ValidCut(rest, n)
    && |after| == |system| + 1 + |rest| - n
    && after[..|system|] == system && after[|system| + 1..] == rest[n..]
    && var m := after[|system|];
       m.role == User && m.summary && m.toolCalls == [] && m.toolCallId == None && EndsWith(m.content, text)
  }

  lemma {:induction false} SplitMeans(ms: seq<Message>, preserveRecent: bool, limit: Option<nat>)
    ensures var s, rest := SummarySplit(ms, preserveRecent, limit), Filter(ms, NotSystem);
            && Summarizes(ms, preserveRecent, limit, |s.head|)
            && |s.head| <= |rest| && s.head == rest[..|s.head|] && s.tail == rest[|s.head|..]
  {
    var s, rest := SummarySplit(ms, preserveRecent, limit), Filter(ms, NotSystem);
    SplitPartitions(ms, preserveRecent, limit);
    assert s.head == (s.head + s.tail)[..|s.head|] && s.tail == (s.head + s.tail)[|s.head|..];
  }

  /** A committed summary keeps every system message and everything after the cut, and adds nothing but
      the summary. */
  lemma {:induction false} CommittedMeans(ms: seq<Message>, preserveRecent: bool, limit: Option<nat>, text: string)
    ensures var s := SummarySplit(ms, preserveRecent, limit); Compacted(ms, Committed(s, text), |s.head|, text)
  {
    var s := SummarySplit(ms, preserveRecent, limit);
    SplitPartitions(ms, preserveRecent, limit);
    SplitMeans(ms, preserveRecent, limit);
    var after := Committed(s, text);
    assert after[|s.system|] == SummaryMessage(text);
    assert after[..|s.system|] == s.system && after[|s.system| + 1..] == s.tail;
  }

  lemma {:induction false} SystemStays(ms: seq<Message>)
    ensures Filter(Filter(ms, IsSystem), IsSystem) == Filter(ms, IsSystem)
    decreases |ms|
  {
    if ms != [] {
      SystemStays(ms[..|ms| - 1]);
      var m := ms[|ms| - 1];
      FilterAppend(Filter(ms[..|ms| - 1], IsSystem), if IsSystem(m) then [m] else [], IsSystem);
      FilterOne(m, IsSystem);
    }
  }

  lemma {:induction false} NoSystem(ms: seq<Message>)
    requires forall m :: m in ms ==> m.role != System
    ensures Filter(ms, IsSystem) == []
    decreases |ms|
  {
    if ms != [] {
      assert ms[|ms| - 1] in ms;
      NoSystem(ms[..|ms| - 1]);
    }
  }

  lemma {:induction false} CompactedIs(before: seq<Message>, after: seq<Message>, n: nat, text: string)
    requires Compacted(before, after, n, text)
    ensures var system := Filter(before, IsSystem);
            && |system| < |after| && after[|system|].role != System && n <= |Filter(before, NotSystem)|
            && after == system + ([after[|system|]] + Filter(before, NotSystem)[n..])
  {
    var system := Filter(before, IsSystem);
    assert after == after[..|system|] + ([after[|system|]] + after[|system| + 1..]);
  }

  lemma {:induction false} CompactedKeepsSystem(before: seq<Message>, after: seq<Message>, n: nat, text: string)
    requires Compacted(before, after, n, text)
    ensures Filter(after, IsSystem) == Filter(before, IsSystem)
  {
    CompactedIs(before, after, n, text);
    FrontKeepsSystem(before, after[|Filter(before, IsSystem)|], n);
  }

  lemma {:induction false} FrontKeepsSystem(before: seq<Message>, m: Message, n: nat)
    requires n <= |Filter(before, NotSystem)| && m.role != System
    ensures var system := Filter(before, IsSystem);
            Filter(system + ([m] + Filter(before, NotSystem)[n..]), IsSystem) == system
  {
    var system, behind := Filter(before, IsSystem), [m] + Filter(before, NotSystem)[n..];
    OthersBehind(before, m, n);
    FilterAppend(system, behind, IsSystem);
    SystemStays(before);
    assert system + [] == system;
  }

  lemma {:induction false} OthersBehind(before: seq<Message>, m: Message, n: nat)
    requires n <= |Filter(before, NotSystem)| && m.role != System
    ensures Filter([m] + Filter(before, NotSystem)[n..], IsSystem) == []
  {
    var rest := Filter(before, NotSystem);
    forall x | x in [m] + rest[n..]
      ensures x.role != System
    {
      if x in rest[n..] {
        assert x in rest;
      }
    }
    NoSystem([m] + rest[n..]);
  }

  /** A committed summary never lengthens the conversation. */
  lemma {:induction false} SummaryNeverLengthens(ms: seq<Message>, preserveRecent: bool, limit: Option<nat>,
          text: string)
    ensures var s := SummarySplit(ms, preserveRecent, limit);
            s.head != [] ==> |Committed(s, text)| <= |ms|
  {
    SplitPartitions(ms, preserveRecent, limit);
  }

  // ---- Compaction keeps the pairing -------------------------------------------------------------

  // Reading the tail alone goes as well as reading it after the head, if the tail answers nothing
  // that only the head declared.
  lemma {:induction false} TailAlone(l: Ledger, small: Ledger, extra: set<string>, tail: seq<Message>)
    requires l.ok && small.ok && small.declared <= l.declared
    requires l.open == small.open + extra && small.open <= small.declared
    requires forall id :: id in extra ==> !AnsweredIn(tail, id)
    requires ReadAll(l, tail).ok
    ensures ReadAll(small, tail).ok
    ensures ReadAll(l, tail).open == ReadAll(small, tail).open + extra
    ensures ReadAll(small, tail).declared <= ReadAll(l, tail).declared
    decreases |tail|
  {
    if tail != [] {
      var pre, m := tail[..|tail| - 1], tail[|tail| - 1];
      assert tail == pre + [m];
      forall id | id in extra
        ensures !AnsweredIn(pre, id) && !Answers(m, id)
      {
        InAppend(pre, m, id);
      }
      TailAlone(l, small, extra, pre);
      if m.role == ToolRole && m.toolCallId.Some? {
        assert Answers(m, m.toolCallId.value);
        assert m.toolCallId.value !in extra;
      }
    }
  }

  lemma {:induction false} HeadOpenNotAnswered(head: seq<Message>, tail: seq<Message>, id: string)
    requires ValidCut(head + tail, |head|) && DeclaredIn(head, id) && id != ""
    ensures !AnsweredIn(tail, id)
  {
    var ms := head + tail;
    var i :| 0 <= i < |head| && Declares(head[i], id);
    assert ms[i] == head[i];
    var k :| 0 <= k < |ms[i].toolCalls| && ms[i].toolCalls[k].id == id;
    forall j | 0 <= j < |tail|
      ensures !Answers(tail[j], id)
    {
      assert !Crosses(ms, i, |head|);
      assert ms[|head| + j] == tail[j];
    }
  }

  predicate NonEmptyIds(ms: seq<Message>) {
    forall m :: m in ms ==> forall c :: c in m.toolCalls ==> c.id != ""
  }

  lemma {:induction false} DeclaredNonEmpty(ms: seq<Message>, id: string)
    requires NonEmptyIds(ms) && DeclaredIn(ms, id)
    ensures id != ""
  {
    var i :| 0 <= i < |ms| && Declares(ms[i], id);
    assert ms[i] in ms;
    var k :| 0 <= k < |ms[i].toolCalls| && ms[i].toolCalls[k].id == id;
    assert ms[i].toolCalls[k] in ms[i].toolCalls;
  }

  /** If every call has been answered, compacting keeps the pairing complete and declares no
      new call. */
  lemma {:induction false} CompactionKeepsPairing(ms: seq<Message>, preserveRecent: bool, limit: Option<nat>,
          text: string)
    requires Paired(ms, {}) && NonEmptyIds(ms)
    ensures var after := Committed(SummarySplit(ms, preserveRecent, limit), text);
            && Paired(after, {}) && NonEmptyIds(after)
            && ReadAll(EMPTY, after).declared <= ReadAll(EMPTY, ms).declared
  {
    var s := SummarySplit(ms, preserveRecent, limit);
    var rest := s.head + s.tail;
    var after := Committed(s, text);
    SplitPartitions(ms, preserveRecent, limit);
    LedgerIsPairing(ms, {});
    ReadFiltered(EMPTY, ms, NotSystem);
    ReadAppend(EMPTY, s.head, s.tail);
    var l := ReadAll(EMPTY, s.head);
    OrderlyPrefix(s.head, s.tail);
    LedgerSets(s.head);
    LedgerIsPairing(s.head, l.open);
    forall m | m in rest
      ensures m in ms
    {
      assert m in Filter(ms, NotSystem);
    }
    forall id | id in l.open
      ensures !AnsweredIn(s.tail, id)
    {
      DeclaredNonEmpty(s.head, id);
      HeadOpenNotAnswered(s.head, s.tail, id);
    }
    TailAlone(l, EMPTY, l.open, s.tail);
    CommittedReads(s, text);
    LedgerIsPairing(after, {});
    forall m | m in after
      ensures forall c :: c in m.toolCalls ==> c.id != ""
    {
      if m in s.system {
        assert m in ms;
      }
    }
  }

  lemma {:induction false} OrderlyPrefix(xs: seq<Message>, ys: seq<Message>)
    requires ReadAll(EMPTY, xs + ys).ok
    ensures ReadAll(EMPTY, xs).ok
    decreases |ys|
  {
    if ys == [] {
      assert xs + ys == xs;
    } else {
      assert (xs + ys)[..|xs + ys| - 1] == xs + ys[..|ys| - 1];
      OrderlyPrefix(xs, ys[..|ys| - 1]);
    }
  }

  lemma {:induction false} CommittedReads(s: Split, text: string)
    requires forall m :: m in s.system ==> m.role == System
    ensures ReadAll(EMPTY, Committed(s, text)) == ReadAll(EMPTY, s.tail)
  {
    var front := s.system + [SummaryMessage(text)];
    ReadNeutral(EMPTY, front);
    ReadAppend(EMPTY, front, s.tail);
  }
}
