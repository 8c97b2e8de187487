/** Tools, the gates in front of them, and how a job's tools are resolved
    (worker_tools.py, tools/registry.py and the resolve methods of worker_runner.py). */
module WorkerTools {
  import opened Common
  import opened Conversation

  datatype Kind = Handoff | Confirmation | UserInput

  datatype Tool = Tool(name: string, handoff: bool, confirm: bool, input: bool, inputKey: Option<string>)

  function ActionType(tool: Tool): Option<Kind> {
    if tool.handoff then Some(Handoff)
    else if tool.confirm then Some(Confirmation)
    else if tool.input then Some(UserInput)
    else None
  }

  datatype Pending = Pending(kind: Kind, call: ToolCall, inputKey: Option<string>)

  function ResumeArgumentKey(p: Pending): string {
    if p.inputKey.Some? then p.inputKey.value else "user_input"
  }

  function UpdateArguments(call: ToolCall, key: string, value: string): ToolCall {
    call.(arguments := call.arguments[key := value])
  }

  // ---- Resolving tools --------------------------------------------------------------------------

  type Toolbelt = map<string, Tool>

  predicate ValidBelt(belt: Toolbelt) {
    forall n :: n in belt ==> belt[n].name == n
  }

  // An override lists tools, or names to be looked up in the toolbelt.
  datatype Item = ToolItem(tool: Tool) | NameItem(name: string)

  function ItemName(item: Item): string {
    match item
    case ToolItem(tool) => tool.name
    case NameItem(name) => name
  }

  function ResolveItem(belt: Toolbelt, item: Item): Option<Tool> {
    match item
    case ToolItem(tool) => Some(tool)
    case NameItem(name) => if name in belt then Some(belt[name]) else None
  }

  // The dict of allowed tools that planning uses: later items win.
  function Allowed(belt: Toolbelt, items: Option<seq<Item>>): map<string, Tool> {
    if items.None? then belt else AllowedItems(belt, items.value)
  }

  function AllowedItems(belt: Toolbelt, items: seq<Item>): map<string, Tool>
    decreases |items|
  {
    if items == [] then map[]
    else
      var before := AllowedItems(belt, items[..|items| - 1]);
      var tool := ResolveItem(belt, items[|items| - 1]);
      if tool.Some? then before[tool.value.name := tool.value] else before
  }

  // The tool that a resume looks up: the first item of that name decides.
  function ResumeTool(belt: Toolbelt, items: Option<seq<Item>>, name: string): Option<Tool> {
    if items.None? then (if name in belt then Some(belt[name]) else None) else ResumeItems(belt, items.value, name)
  }

  function ResumeItems(belt: Toolbelt, items: seq<Item>, name: string): Option<Tool> {
    if items == [] then None
    else if ItemName(items[0]) == name then ResolveItem(belt, items[0])
    else ResumeItems(belt, items[1..], name)
  }

  function Lookup(tools: map<string, Tool>, name: string): Option<Tool> {
    if name in tools then Some(tools[name]) else None
  }

  // Item i is the first one of that name.
  predicate FirstNamed(items: seq<Item>, name: string, i: nat) {
    && i < |items| && ItemName(items[i]) == name
    && forall k :: 0 <= k < i ==> ItemName(items[k]) != name
  }

  // Item j is the last one of that name that stands for a tool.
  predicate LastResolving(belt: Toolbelt, items: seq<Item>, name: string, j: nat) {
    && j < |items| && ItemName(items[j]) == name && ResolveItem(belt, items[j]).Some?
    && forall k :: j < k < |items| && ItemName(items[k]) == name ==> ResolveItem(belt, items[k]).None?
  }

  predicate Named(items: seq<Item>, name: string) {
    exists k :: 0 <= k < |items| && ItemName(items[k]) == name
  }

  // A resume looks at the first item of the name only.
  lemma {:induction false} ResumeTakesFirst(belt: Toolbelt, items: seq<Item>, name: string)
    ensures !Named(items, name) ==> ResumeItems(belt, items, name) == None
    ensures forall i: nat :: FirstNamed(items, name, i) ==>
              ResumeItems(belt, items, name) == ResolveItem(belt, items[i])
    ensures Named(items, name) ==> exists i: nat :: FirstNamed(items, name, i)
  {
    if items != [] && ItemName(items[0]) != name {
      var rest := items[1..];
      ResumeTakesFirst(belt, rest, name);
      assert forall k :: 0 <= k < |rest| ==> rest[k] == items[k + 1];
      forall i: nat | FirstNamed(items, name, i)
        ensures ResumeItems(belt, items, name) == ResolveItem(belt, items[i])
      {
        assert FirstNamed(rest, name, i - 1);
      }
      if Named(items, name) {
        var k :| 0 <= k < |items| && ItemName(items[k]) == name;
        assert ItemName(rest[k - 1]) == name;
        var i: nat :| FirstNamed(rest, name, i);
        assert FirstNamed(items, name, i + 1);
      }
    } else if items != [] {
      assert FirstNamed(items, name, 0);
    }
  }

  // Planning keeps the last item of the name that stands for a tool.
  lemma {:induction false} PlanningTakesLast(belt: Toolbelt, items: seq<Item>, name: string)
    requires ValidBelt(belt)
    ensures var planned := Lookup(AllowedItems(belt, items), name);
            && (planned.Some? <==> exists j: nat :: LastResolving(belt, items, name, j))
            && forall j: nat :: LastResolving(belt, items, name, j) ==> planned == ResolveItem(belt, items[j])
    decreases |items|
  {
    if items != [] {
      var n := |items| - 1;
      var pre := items[..n];
      PlanningTakesLast(belt, pre, name);
      var planned := Lookup(AllowedItems(belt, items), name);
      if ItemName(items[n]) == name && ResolveItem(belt, items[n]).Some? {
        assert LastResolving(belt, items, name, n);
      } else {
        assert planned == Lookup(AllowedItems(belt, pre), name);
        forall j: nat
          ensures LastResolving(belt, items, name, j) <==> LastResolving(belt, pre, name, j)
        {
        }
      }
    }
  }

  /** Planning and resuming agree on a name exactly when the first item of that name stands for the
      same tool as the last one of that name that stands for a tool at all; in particular, when no
      item of that name stands for a tool. */
  lemma {:induction false} PlanAndResumeAgreeIff(belt: Toolbelt, items: seq<Item>, name: string)
    requires ValidBelt(belt)
    ensures Lookup(Allowed(belt, Some(items)), name) == ResumeTool(belt, Some(items), name)
            <==> forall i: nat, j: nat :: FirstNamed(items, name, i) && LastResolving(belt, items, name, j) ==>
                   ResolveItem(belt, items[i]) == ResolveItem(belt, items[j])
  {
    ResumeTakesFirst(belt, items, name);
    PlanningTakesLast(belt, items, name);
    if exists j: nat :: LastResolving(belt, items, name, j) {
      var j: nat :| LastResolving(belt, items, name, j);
      assert Named(items, name);
    } else if Named(items, name) {
      var i: nat :| FirstNamed(items, name, i);
      NoneResolves(belt, items, name, i);
    }
  }

  // If an item of that name stands for a tool, then there is a last one that does.
  lemma {:induction false} NoneResolves(belt: Toolbelt, items: seq<Item>, name: string, i: nat)
    requires i < |items| && ItemName(items[i]) == name
    requires forall j: nat :: !LastResolving(belt, items, name, j)
    ensures ResolveItem(belt, items[i]).None?
    decreases |items| - i
  {
    forall k: nat | i < k < |items| && ItemName(items[k]) == name
      ensures ResolveItem(belt, items[k]).None?
    {
      NoneResolves(belt, items, name, k);
    }
    assert !LastResolving(belt, items, name, i);
  }

  predicate DistinctNames(items: seq<Item>) {
    forall i, j :: 0 <= i < j < |items| ==> ItemName(items[i]) != ItemName(items[j])
  }

  /** With distinct names in the override a resume finds the very tool that was planned. */
  lemma {:induction false} DistinctNamesAgree(belt: Toolbelt, items: seq<Item>, name: string)
    requires ValidBelt(belt) && DistinctNames(items)
    ensures Lookup(Allowed(belt, Some(items)), name) == ResumeTool(belt, Some(items), name)
  {
    PlanAndResumeAgreeIff(belt, items, name);
  }

  // Without distinct names they can differ: planning sees the last tool, a resume the first.
  lemma {:induction false} DuplicateNamesDiffer(belt: Toolbelt, name: string)
    requires ValidBelt(belt)
    ensures var gated := Tool(name, false, true, false, None);
            var free := Tool(name, false, false, false, None);
            var items := [ToolItem(free), ToolItem(gated)];
            && Lookup(Allowed(belt, Some(items)), name) == Some(gated)
            && ResumeTool(belt, Some(items), name) == Some(free)
  {
    var gated := Tool(name, false, true, false, None);
    var free := Tool(name, false, false, false, None);
    var items := [ToolItem(free), ToolItem(gated)];
    PlanningTakesLast(belt, items, name);
    assert items[|items| - 1] == ToolItem(gated);
  }

  // ---- Decisions --------------------------------------------------------------------------------

  datatype Decision = Yes | No | Nothing | Text(text: string)

  const APPROVALS: set<string> := {"1", "approve", "approved", "confirm", "confirmed", "ok", "okay", "y", "yes"}
  const DECLINES: set<string> := {"", "0", "cancel", "cancelled", "decline", "declined", "deny", "denied", "false",
                                  "n", "no", "reject", "rejected"}

  function Lower(s: string): (r: string)
    ensures |r| == |s|
  {
    if s == "" then ""
    else [if 'A' <= s[0] <= 'Z' then 'a' + (s[0] - 'A') else s[0]] + Lower(s[1..])
  }

  function StripLeft(s: string): string {
    if s != "" && s[0] in {' ', '\t', '\n', '\r'} then StripLeft(s[1..]) else s
  }

  function StripRight(s: string): string
    decreases |s|
  {
    if s != "" && s[|s| - 1] in {' ', '\t', '\n', '\r'} then StripRight(s[..|s| - 1]) else s
  }

  // `_confirmation_approved`
  predicate Approved(d: Decision) {
    match d
    case Yes => true
    case No => false
    case Nothing => false
    case Text(text) =>
      var normalized := Lower(StripRight(StripLeft(text)));
      normalized in APPROVALS || (normalized !in DECLINES && normalized != "")
  }

  predicate Blank(s: string) {
    forall i :: 0 <= i < |s| ==> s[i] in {' ', '\t', '\n', '\r'}
  }

  // The text without white space around it: nothing, or it begins and ends with something else.
  predicate Bare(s: string) {
    s == "" || !(s[0] in {' ', '\t', '\n', '\r'} || s[|s| - 1] in {' ', '\t', '\n', '\r'})
  }

  // The same letters, whether capital or not; the word has no capital ones.
  predicate Spells(s: string, word: string) {
    |s| == |word| && forall i :: 0 <= i < |s| ==> word[i] == if 'A' <= s[i] <= 'Z' then 'a' + (s[i] - 'A') else s[i]
  }

  lemma {:induction false} LowerSpells(s: string)
    ensures Spells(s, Lower(s))
    ensures forall word :: Spells(s, word) ==> word == Lower(s)
  {
    if s != "" {
      LowerSpells(s[1..]);
      assert forall i :: 0 < i < |s| ==> s[1..][i - 1] == s[i] && Lower(s)[i] == Lower(s[1..])[i - 1];
      forall word | Spells(s, word)
        ensures word == Lower(s)
      {
        assert Spells(s[1..], word[1..]);
        assert word == [word[0]] + word[1..];
      }
    }
  }

  lemma {:induction false} LeftStripped(before: string, s: string)
    requires Blank(before) && (s == "" || s[0] !in {' ', '\t', '\n', '\r'})
    ensures StripLeft(before + s) == s
  {
    if before == "" {
      assert before + s == s;
    } else {
      assert (before + s)[0] == before[0] && (before + s)[1..] == before[1..] + s;
      LeftStripped(before[1..], s);
    }
  }

  lemma {:induction false} RightStripped(s: string, after: string)
    requires Blank(after) && (s == "" || s[|s| - 1] !in {' ', '\t', '\n', '\r'})
    ensures StripRight(s + after) == s
    decreases |after|
  {
    if after == "" {
      assert s + after == s;
    } else {
      var all, shorter := s + after, after[..|after| - 1];
      assert all[|all| - 1] == after[|after| - 1] && all[..|all| - 1] == s + shorter;
      RightStripped(s, shorter);
    }
  }

  /** A text approves unless it spells a decline, in any case and with any white space around it; a blank
      one declines. */
  lemma {:induction false} ApprovedIff(before: string, s: string, after: string)
    requires Blank(before) && Blank(after) && Bare(s)
    ensures Approved(Text(before + s + after)) <==> forall word :: word in DECLINES ==> !Spells(s, word)
  {
    if s == "" {
      assert Blank(before + after) && before + s + after == (before + after) + "";
      LeftStripped(before + after, "");
    } else {
      assert before + s + after == before + (s + after);
      LeftStripped(before, s + after);
      RightStripped(s, after);
    }
    LowerSpells(s);
    assert forall word :: word in APPROVALS ==> word !in DECLINES;
  }

  function AsArgument(d: Decision): string {
    match d
    case Yes => "True"
    case No => "False"
    case Nothing => "None"
    case Text(text) => text
  }
}
