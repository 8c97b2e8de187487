/** What becomes of a job's `tools_override` when a paused run is stored and taken up again
    (core/job.py, desk.py, worker_runner.py): tools are written as names, and a desk that is still
    alive puts the tools back into the job of the run that it resumes itself. */
module ToolOverrides {
  import opened Common
  import opened WorkerTools

  // `_serialize_tools_override`: of every item its name.
  function Names(items: seq<Item>): (names: seq<Item>)
    ensures |names| == |items|
    ensures forall k :: 0 <= k < |items| ==> names[k] == NameItem(ItemName(items[k]))
  {
    if items == [] then [] else [NameItem(ItemName(items[0]))] + Names(items[1..])
  }

  function Written(items: Option<seq<Item>>): Option<seq<Item>> {
    if items.None? then None else Some(Names(items.value))
  }

  // The tools of a list by their names; of two with one name the later one.
  function RuntimeTools(items: seq<Item>): map<string, Tool>
    decreases |items|
  {
    if items == [] then map[]
    else
      var before, last := RuntimeTools(items[..|items| - 1]), items[|items| - 1];
      if last.ToolItem? then before[last.tool.name := last.tool] else before
  }

  // The loop of `_restore_runtime_tools_override`, and the tools for which it found no item.
  function PutBack(items: seq<Item>, runtime: map<string, Tool>): (seq<Item>, map<string, Tool>) {
    if items == [] then ([], runtime)
    else
      var name := ItemName(items[0]);
      var item := if items[0].NameItem? && name in runtime then ToolItem(runtime[name]) else items[0];
      var (rest, left) := PutBack(items[1..], runtime - {name});
      ([item] + rest, left)
  }

  // Where a resume takes the job from: the run as it is kept in memory, or the database, in both cases
  // with the desk that paused the run; or only what was written, as in a new process, and for whatever
  // runs inside a workforce or a flow.
  datatype Way = InMemory | FromDatabase | AsWritten

  // The list that a resume works with.
  function Seen(items: Option<seq<Item>>, way: Way): Option<seq<Item>> {
    if items.None? then None
    else
      match way
      case InMemory => Some(PutBack(items.value, RuntimeTools(items.value)).0)
      case FromDatabase => Some(PutBack(Names(items.value), RuntimeTools(items.value)).0)
      case AsWritten => Written(items)
  }

  // ---- What is kept -----------------------------------------------------------------------------

  // Every name of a tool in the list is the name of an item.
  lemma {:induction false} RuntimeNamed(items: seq<Item>, name: string)
    ensures name in RuntimeTools(items) ==> RuntimeTools(items)[name].name == name && Named(items, name)
    decreases |items|
  {
    if items != [] {
      var pre := items[..|items| - 1];
      RuntimeNamed(pre, name);
      assert items[|items| - 1] == items[|pre|];
      if Named(pre, name) {
        var k :| 0 <= k < |pre| && ItemName(pre[k]) == name;
        assert items[k] == pre[k];
      }
    }
  }

  // Nothing is left when every tool has an item of its name.
  lemma {:induction false} NothingLeft(items: seq<Item>, runtime: map<string, Tool>)
    requires forall n :: n in runtime ==> Named(items, n)
    ensures PutBack(items, runtime).1 == map[]
  {
    if items == [] {
      assert forall n :: n !in runtime;
    } else {
      var rest, name := items[1..], ItemName(items[0]);
      forall n | n in runtime - {name}
        ensures Named(rest, n)
      {
        var k :| 0 <= k < |items| && ItemName(items[k]) == n;
        assert rest[k - 1] == items[k];
      }
      NothingLeft(rest, runtime - {name});
    }
  }

  // So the desk never adds tools at the end of the list.
  lemma {:induction false} NoneAppended(items: seq<Item>, stored: seq<Item>)
    requires stored == items || stored == Names(items)
    ensures PutBack(stored, RuntimeTools(items)).1 == map[]
  {
    forall n | n in RuntimeTools(items)
      ensures Named(stored, n)
    {
      RuntimeNamed(items, n);
      var k :| 0 <= k < |items| && ItemName(items[k]) == n;
      assert ItemName(stored[k]) == n;
    }
    NothingLeft(stored, RuntimeTools(items));
  }

  lemma {:induction false} RuntimeAt(items: seq<Item>, k: nat)
    requires DistinctNames(items) && k < |items|
    ensures ToolAt(items[k], RuntimeTools(items))
    decreases |items|
  {
    var n := |items| - 1;
    var pre, name := items[..n], ItemName(items[k]);
    if k < n {
      RuntimeAt(pre, k);
      assert ItemName(items[n]) != name;
    } else {
      RuntimeNamed(pre, name);
      forall j | 0 <= j < |pre|
        ensures ItemName(pre[j]) != name
      {
        assert pre[j] == items[j];
      }
    }
  }

  // The tools of the list, and no others, under the names of its items.
  ghost predicate ToolsOf(items: seq<Item>, runtime: map<string, Tool>) {
    forall k :: 0 <= k < |items| ==> ToolAt(items[k], runtime)
  }

  predicate ToolAt(item: Item, runtime: map<string, Tool>) {
    if item.ToolItem? then item.tool.name in runtime && runtime[item.tool.name] == item.tool
    else item.name !in runtime
  }

  lemma {:induction false} ToolsOfRest(items: seq<Item>, runtime: map<string, Tool>)
    requires items != [] && DistinctNames(items) && ToolsOf(items, runtime)
    ensures DistinctNames(items[1..]) && ToolsOf(items[1..], runtime - {ItemName(items[0])})
  {
    var rest := items[1..];
    forall k | 0 <= k < |rest|
      ensures ToolAt(rest[k], runtime - {ItemName(items[0])})
    {
      assert rest[k] == items[k + 1] && ItemName(items[0]) != ItemName(items[k + 1]);
      assert ToolAt(items[k + 1], runtime);
    }
  }

  lemma {:induction false} PutBackKeeps(items: seq<Item>, runtime: map<string, Tool>)
    requires DistinctNames(items) && ToolsOf(items, runtime)
    ensures PutBack(items, runtime).0 == items
  {
    if items != [] {
      ToolsOfRest(items, runtime);
      PutBackKeeps(items[1..], runtime - {ItemName(items[0])});
      assert ToolAt(items[0], runtime);
    }
  }

  lemma {:induction false} PutBackNames(items: seq<Item>, runtime: map<string, Tool>)
    requires DistinctNames(items) && ToolsOf(items, runtime)
    ensures PutBack(Names(items), runtime).0 == items
  {
    if items != [] {
      ToolsOfRest(items, runtime);
      PutBackNames(items[1..], runtime - {ItemName(items[0])});
      assert ToolAt(items[0], runtime);
      var names := Names(items);
      assert names[0] == NameItem(ItemName(items[0])) && names[1..] == Names(items[1..]);
    }
  }

  /** With distinct names a desk that is still alive gives a resume the very list the run was started with. */
  lemma {:induction false} DeskPutsToolsBack(items: Option<seq<Item>>, way: Way)
    requires items.Some? ==> DistinctNames(items.value)
    requires way != AsWritten
    ensures Seen(items, way) == items
  {
    if items.Some? {
      forall k | 0 <= k < |items.value|
        ensures ToolAt(items.value[k], RuntimeTools(items.value))
      {
        RuntimeAt(items.value, k);
      }
      PutBackKeeps(items.value, RuntimeTools(items.value));
      PutBackNames(items.value, RuntimeTools(items.value));
    }
  }

  // ---- When names are enough --------------------------------------------------------------------

  // The item is a name, or stands for the tool that the toolbelt has under its name.
  predicate Own(belt: Toolbelt, item: Item) {
    item.ToolItem? ==> item.tool.name in belt && belt[item.tool.name] == item.tool
  }

  // What a list of names stands for.
  lemma {:induction false} NamesResolve(belt: Toolbelt, items: seq<Item>, name: string)
    requires ValidBelt(belt)
    ensures var tool := if Named(items, name) && name in belt then Some(belt[name]) else None;
            && Lookup(AllowedItems(belt, Names(items)), name) == tool
            && ResumeItems(belt, Names(items), name) == tool
  {
    var names := Names(items);
    assert Named(names, name) <==> Named(items, name) by {
      assert forall k :: 0 <= k < |items| ==> ItemName(names[k]) == ItemName(items[k]);
    }
    ResumeTakesFirst(belt, names, name);
    PlanningTakesLast(belt, names, name);
    if Named(items, name) {
      var i: nat :| FirstNamed(names, name, i);
      if name in belt {
        if forall j: nat :: !LastResolving(belt, names, name, j) {
          NoneResolves(belt, names, name, i);
        }
        var j: nat :| LastResolving(belt, names, name, j);
      }
    }
  }

  // The tools and names stand for the same when they are the toolbelt's own.
  ghost predicate OwnLast(belt: Toolbelt, items: seq<Item>, name: string) {
    forall j: nat :: LastResolving(belt, items, name, j) ==> Own(belt, items[j])
  }

  ghost predicate OwnFirst(belt: Toolbelt, items: seq<Item>, name: string) {
    forall i: nat :: FirstNamed(items, name, i) ==> Own(belt, items[i])
  }

  lemma {:induction false} NamesPlanIff(belt: Toolbelt, items: seq<Item>, name: string)
    requires ValidBelt(belt)
    ensures Lookup(AllowedItems(belt, Names(items)), name) == Lookup(AllowedItems(belt, items), name)
            <==> OwnLast(belt, items, name)
  {
    NamesResolve(belt, items, name);
    PlanningTakesLast(belt, items, name);
    if exists j: nat :: LastResolving(belt, items, name, j) {
      var j: nat :| LastResolving(belt, items, name, j);
      assert Named(items, name);
      assert forall k: nat :: LastResolving(belt, items, name, k) ==> k == j;
    } else if Named(items, name) {
      var i: nat :| i < |items| && ItemName(items[i]) == name;
      NoneResolves(belt, items, name, i);
    }
  }

  lemma {:induction false} NamesResumeIff(belt: Toolbelt, items: seq<Item>, name: string)
    requires ValidBelt(belt)
    ensures ResumeItems(belt, Names(items), name) == ResumeItems(belt, items, name) <==> OwnFirst(belt, items, name)
  {
    NamesResolve(belt, items, name);
    ResumeTakesFirst(belt, items, name);
    if Named(items, name) {
      var i: nat :| FirstNamed(items, name, i);
      assert forall k: nat :: FirstNamed(items, name, k) ==> k == i;
    }
  }

  /** After a list was written as names, planning finds the same tool under a name if and only if the last
      item of that name that stands for a tool is a name or the toolbelt's own tool; a resume finds the
      same one if and only if the first item of that name is. */
  lemma {:induction false} NamesAreEnoughIff(belt: Toolbelt, items: seq<Item>, name: string)
    requires ValidBelt(belt)
    ensures Lookup(AllowedItems(belt, Names(items)), name) == Lookup(AllowedItems(belt, items), name)
            <==> OwnLast(belt, items, name)
    ensures ResumeItems(belt, Names(items), name) == ResumeItems(belt, items, name) <==> OwnFirst(belt, items, name)
  {
    NamesPlanIff(belt, items, name);
    NamesResumeIff(belt, items, name);
  }

  predicate AllOwn(belt: Toolbelt, items: Option<seq<Item>>) {
    items.Some? ==> forall item :: item in items.value ==> Own(belt, item)
  }

  // A tool that is not the toolbelt's own is told from its name.
  lemma {:induction false} OthersDiffer(belt: Toolbelt, items: seq<Item>, k: nat)
    requires ValidBelt(belt) && DistinctNames(items) && k < |items| && !Own(belt, items[k])
    ensures var name := ItemName(items[k]);
            && Lookup(AllowedItems(belt, Names(items)), name) != Lookup(AllowedItems(belt, items), name)
            && ResumeItems(belt, Names(items), name) != ResumeItems(belt, items, name)
  {
    var name := ItemName(items[k]);
    assert FirstNamed(items, name, k) && LastResolving(belt, items, name, k);
    NamesAreEnoughIff(belt, items, name);
  }

  /** With distinct names the whole toolset is the same, for planning and for every resume, if and only if
      every tool in the list is the toolbelt's own. */
  lemma {:induction false} WrittenToolsIff(belt: Toolbelt, items: seq<Item>)
    requires ValidBelt(belt) && DistinctNames(items)
    ensures AllowedItems(belt, Names(items)) == AllowedItems(belt, items) <==> AllOwn(belt, Some(items))
    ensures (forall n :: ResumeItems(belt, Names(items), n) == ResumeItems(belt, items, n))
            <==> AllOwn(belt, Some(items))
  {
    if AllOwn(belt, Some(items)) {
      forall n
        ensures Lookup(AllowedItems(belt, Names(items)), n) == Lookup(AllowedItems(belt, items), n)
        ensures ResumeItems(belt, Names(items), n) == ResumeItems(belt, items, n)
      {
        NamesAreEnoughIff(belt, items, n);
      }
      SameLookups(AllowedItems(belt, Names(items)), AllowedItems(belt, items));
    } else {
      var k: nat :| k < |items| && !Own(belt, items[k]);
      OthersDiffer(belt, items, k);
    }
  }

  lemma {:induction false} SameLookups(a: map<string, Tool>, b: map<string, Tool>)
    ensures a == b <==> forall n :: Lookup(a, n) == Lookup(b, n)
  {
    if forall n :: Lookup(a, n) == Lookup(b, n) {
      forall n
        ensures n in a <==> n in b
        ensures n in a ==> a[n] == b[n]
      {
        assert Lookup(a, n) == Lookup(b, n);
      }
    }
  }

  // Whichever way a resume takes, it works with the same tools.
  lemma {:induction false} SameTools(belt: Toolbelt, items: Option<seq<Item>>, way: Way)
    requires ValidBelt(belt) && (items.Some? ==> DistinctNames(items.value))
    requires way == AsWritten ==> AllOwn(belt, items)
    ensures Allowed(belt, Seen(items, way)) == Allowed(belt, items)
    ensures forall n :: ResumeTool(belt, Seen(items, way), n) == ResumeTool(belt, items, n)
  {
    if way != AsWritten {
      DeskPutsToolsBack(items, way);
    } else if items.Some? {
      WrittenToolsIff(belt, items.value);
      forall n
        ensures ResumeTool(belt, Seen(items, way), n) == ResumeTool(belt, items, n)
      {
        assert ResumeItems(belt, Names(items.value), n) == ResumeItems(belt, items.value, n);
      }
    }
  }

  /** A tool that the toolbelt does not have is gone: planned from the list, but neither planned nor
      found by a resume from what was written. */
  lemma {:induction false} InstanceIsLost(belt: Toolbelt, tool: Tool)
    requires ValidBelt(belt) && tool.name !in belt
    ensures var items := Some([ToolItem(tool)]);
            && Lookup(Allowed(belt, items), tool.name) == Some(tool)
            && ResumeTool(belt, items, tool.name) == Some(tool)
            && Lookup(Allowed(belt, Seen(items, AsWritten)), tool.name) == None
            && ResumeTool(belt, Seen(items, AsWritten), tool.name) == None
  {
    var items := [ToolItem(tool)];
    assert items[..0] == [];
    assert AllowedItems(belt, items[..0]) == map[];
    NamesResolve(belt, items, tool.name);
  }

  /** With a name twice in the list it depends on the store which tool a resume finds: the first one if the
      run is kept in memory, the last one if it comes out of the database, and the toolbelt's, if it has one,
      from what was written. */
  lemma {:induction false} DuplicatesDependOnStore(belt: Toolbelt, first: Tool, last: Tool)
    requires ValidBelt(belt) && first.name == last.name
    ensures var items, name := Some([ToolItem(first), ToolItem(last)]), first.name;
            && Lookup(Allowed(belt, items), name) == Some(last)
            && ResumeTool(belt, Seen(items, InMemory), name) == Some(first)
            && ResumeTool(belt, Seen(items, FromDatabase), name) == Some(last)
            && ResumeTool(belt, Seen(items, AsWritten), name) == Lookup(belt, name)
  {
    var items, name := [ToolItem(first), ToolItem(last)], first.name;
    assert items[..1] == [ToolItem(first)] && items[..1][..0] == [];
    assert RuntimeTools(items[..1]) == map[name := first];
    assert RuntimeTools(items) == RuntimeTools(items[..1])[name := last] == map[name := last];
    assert AllowedItems(belt, items[..1]) == map[name := first];
    var left := RuntimeTools(items) - {name};
    assert PutBack(items, RuntimeTools(items)).0 == [items[0]] + PutBack(items[1..], left).0;
    var names := Names(items);
    assert PutBack(names, RuntimeTools(items)).0 == [ToolItem(last)] + PutBack(names[1..], left).0;
    NamesResolve(belt, items, name);
    assert Named(items, name) by {
      assert ItemName(items[0]) == name;
    }
  }

  // ---- What a run's list can become ---------------------------------------------------------------

  // Names stay the same however they are kept.
  lemma {:induction false} NamesStay(items: seq<Item>, way: Way)
    ensures Seen(Some(Names(items)), way) == Some(Names(items))
  {
    var names := Names(items);
    assert Names(names) == names;
    NoToolsIn(names);
    RuntimeOfTools(names);
    NoRuntime(names);
  }

  predicate ListOrNames(items: Option<seq<Item>>, seen: Option<seq<Item>>) {
    seen == items || seen == Written(items)
  }

  lemma {:induction false} StaysListOrNames(items: Option<seq<Item>>, seen: Option<seq<Item>>, way: Way)
    requires (items.Some? ==> DistinctNames(items.value)) && ListOrNames(items, seen)
    ensures ListOrNames(items, Seen(seen, way))
  {
    if items.Some? && seen == Written(items) {
      NamesStay(items.value, way);
    } else if way != AsWritten {
      DeskPutsToolsBack(items, way);
    }
  }

  // ---- The desk ---------------------------------------------------------------------------------

  // What a desk remembers of the runs it paused.
  class Desk {
    var runtimeTools: map<string, seq<Tool>>

    constructor ()
      ensures runtimeTools == map[]
    {
      runtimeTools := map[];
    }

    /** `_remember_runtime_tools_override` */
    method Remember(run: string, items: Option<seq<Item>>)
      modifies this
      ensures runtimeTools
              == if items.None? then old(runtimeTools) - {run}
                 else if ToolsIn(items.value) == [] then old(runtimeTools)
                 else old(runtimeTools)[run := ToolsIn(items.value)]
    {
      if items.None? {
        runtimeTools := runtimeTools - {run};
        return;
      }
      var tools := [];
      for i := 0 to |items.value|
        invariant tools == ToolsIn(items.value[..i])
      {
        assert items.value[..i + 1][..i] == items.value[..i];
        if items.value[i].ToolItem? {
          tools := tools + [items.value[i].tool];
        }
      }
      assert items.value[..|items.value|] == items.value;
      if tools != [] {
        runtimeTools := runtimeTools[run := tools];
      }
    }

    /** `_restore_runtime_tools_override` for a run whose stored list is that of the pause, or its names:
        no tool is ever added behind the list. */
    method Restore(run: string, stored: Option<seq<Item>>, ghost items: Option<seq<Item>>)
      returns (restored: Option<seq<Item>>)
      requires stored == items || stored == Written(items)
      requires items.Some? ==>
                 if ToolsIn(items.value) == [] then run !in runtimeTools
                 else run in runtimeTools && runtimeTools[run] == ToolsIn(items.value)
      ensures items.Some? ==> restored == Some(PutBack(stored.value, RuntimeTools(items.value)).0)
      ensures items.None? ==> restored == None
    {
      if stored.None? {
        return None;
      }
      RuntimeOfTools(items.value);
      if run !in runtimeTools || runtimeTools[run] == [] {
        NoRuntime(stored.value);
        return stored;
      }
      var byName := ByNames(runtimeTools[run]);
      var done, left := PutBackInto(stored.value, byName);
      NoneAppended(items.value, stored.value);
      assert left == map[];
      restored := Some(done);
    }

    static method ByNames(tools: seq<Tool>) returns (byName: map<string, Tool>)
      ensures byName == ByName(tools)
    {
      byName := map[];
      for i := 0 to |tools|
        invariant byName == ByName(tools[..i])
      {
        assert tools[..i + 1][..i] == tools[..i];
        byName := byName[tools[i].name := tools[i]];
      }
      assert tools[..|tools|] == tools;
    }

    static method PutBackInto(items: seq<Item>, runtime: map<string, Tool>)
      returns (done: seq<Item>, left: map<string, Tool>)
      ensures (done, left) == PutBack(items, runtime)
    {
      done, left := [], runtime;
      assert items[0..] == items && [] + PutBack(items, runtime).0 == PutBack(items, runtime).0;
      for i := 0 to |items|
        invariant var after := PutBack(items[i..], left); PutBack(items, runtime) == (done + after.0, after.1)
      {
        var item, name := items[i], ItemName(items[i]);
        var next := if item.NameItem? && name in left then ToolItem(left[name]) else item;
        PutBackOne(items[i..], left, done, next);
        assert items[i..][1..] == items[i + 1..];
        done, left := done + [next], left - {name};
      }
      assert items[|items|..] == [] && done + [] == done;
    }
  }

  lemma {:induction false} PutBackOne(items: seq<Item>, runtime: map<string, Tool>, done: seq<Item>, next: Item)
    requires items != []
    requires next == if items[0].NameItem? && items[0].name in runtime then ToolItem(runtime[items[0].name])
                     else items[0]
    ensures var before, after := PutBack(items, runtime), PutBack(items[1..], runtime - {ItemName(items[0])});
            before.1 == after.1 && done + before.0 == (done + [next]) + after.0
  {
  }

  function ToolsIn(items: seq<Item>): seq<Tool>
    decreases |items|
  {
    if items == [] then []
    else
      var last := items[|items| - 1];
      ToolsIn(items[..|items| - 1]) + if last.ToolItem? then [last.tool] else []
  }

  function ByName(tools: seq<Tool>): map<string, Tool>
    decreases |tools|
  {
    if tools == [] then map[]
    else ByName(tools[..|tools| - 1])[tools[|tools| - 1].name := tools[|tools| - 1]]
  }

  lemma {:induction false} RuntimeOfTools(items: seq<Item>)
    ensures RuntimeTools(items) == ByName(ToolsIn(items))
    decreases |items|
  {
    if items != [] {
      var pre, last := items[..|items| - 1], items[|items| - 1];
      RuntimeOfTools(pre);
      if last.ToolItem? {
        assert ToolsIn(items) == ToolsIn(pre) + [last.tool];
        assert (ToolsIn(pre) + [last.tool])[..|ToolsIn(pre)|] == ToolsIn(pre);
      } else {
        assert ToolsIn(items) == ToolsIn(pre);
      }
    }
  }

  // If nothing is left of the tools, some are in the list again.
  lemma {:induction false} SomeToolBack(items: seq<Item>, runtime: map<string, Tool>)
    ensures ToolsIn(PutBack(items, runtime).0) == [] ==> PutBack(items, runtime).1 == runtime
  {
    if items != [] {
      var name := ItemName(items[0]);
      var (rest, left) := PutBack(items[1..], runtime - {name});
      var item := PutBack(items, runtime).0[0];
      SomeToolBack(items[1..], runtime - {name});
      assert PutBack(items, runtime) == ([item] + rest, left);
      FirstTool(item, rest);
      if item.NameItem? {
        assert name !in runtime;
        assert runtime - {name} == runtime;
      }
    }
  }

  lemma {:induction false} FirstTool(item: Item, rest: seq<Item>)
    ensures ToolsIn([item] + rest) == (if item.ToolItem? then [item.tool] else []) + ToolsIn(rest)
    decreases |rest|
  {
    var all := [item] + rest;
    if rest == [] {
      assert all[..0] == [];
    } else {
      FirstTool(item, rest[..|rest| - 1]);
      assert all[..|all| - 1] == [item] + rest[..|rest| - 1];
    }
  }

  lemma {:induction false} NoToolsIn(items: seq<Item>)
    requires forall item :: item in items ==> item.NameItem?
    ensures ToolsIn(items) == []
    decreases |items|
  {
    if items != [] {
      assert items[|items| - 1] in items;
      NoToolsIn(items[..|items| - 1]);
    }
  }

  lemma {:induction false} NoRuntime(items: seq<Item>)
    ensures PutBack(items, map[]).0 == items
  {
    if items != [] {
      var none: map<string, Tool> := map[];
      assert none - {ItemName(items[0])} == none;
      NoRuntime(items[1..]);
    }
  }
}
