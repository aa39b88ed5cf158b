/** Tool analytics: the doubly nested counters of arguments and their values. */
module ToolAnalytics {
  import opened Text
  import opened Schema
  import opened Logs
  import opened Slices
  import opened ToolsPerformance

  type Counters = map<string, map<string, int>>

  datatype ToolData = ToolData(calls: int, arguments: Counters)

  datatype ArgumentValue = ArgumentValue(name: string, count: int)

  datatype ToolArgument = ToolArgument(name: string, usageCount: int, values: seq<ArgumentValue>)

  datatype McpTool = McpTool(name: string, calls: int, arguments: seq<ToolArgument>)

  // ----- what is counted -----

  predicate Passes(log: ServerLog, arg: string, value: string) {
    arg in Arguments(log.request) && Arguments(log.request)[arg] == value
  }

  /** The number of logs that pass this value for this argument. */
  function ArgCount(g: seq<ServerLog>, arg: string, value: string): nat {
    if g == [] then 0 else ArgCount(g[..|g| - 1], arg, value) + (if Passes(g[|g| - 1], arg, value) then 1 else 0)
  }

  /** The number of logs that pass this argument at all. */
  function ArgUse(g: seq<ServerLog>, arg: string): nat {
    if g == [] then 0 else ArgUse(g[..|g| - 1], arg) + (if arg in Arguments(g[|g| - 1].request) then 1 else 0)
  }

  lemma CountAppend(g: seq<ServerLog>, log: ServerLog, arg: string, value: string)
    ensures ArgCount(g + [log], arg, value) == ArgCount(g, arg, value) + (if Passes(log, arg, value) then 1 else 0)
    ensures ArgUse(g + [log], arg) == ArgUse(g, arg) + (if arg in Arguments(log.request) then 1 else 0)
  {
    assert (g + [log])[..|g + [log]| - 1] == g;
  }

  lemma {:induction false} UseWithinCalls(g: seq<ServerLog>, arg: string)
    ensures ArgUse(g, arg) <= |g|
  {
    if g != [] { UseWithinCalls(g[..|g| - 1], arg); }
  }

  function CountSum(g: seq<ServerLog>, arg: string, values: seq<string>): nat {
    if values == [] then 0 else ArgCount(g, arg, values[0]) + CountSum(g, arg, values[1..])
  }

  lemma {:induction false} CountSumAppend(g: seq<ServerLog>, log: ServerLog, arg: string, values: seq<string>)
    requires Distinct(values)
    ensures CountSum(g + [log], arg, values)
         == CountSum(g, arg, values) + (if arg in Arguments(log.request)
             && Arguments(log.request)[arg] in values then 1 else 0)
  {
    if values != [] {
      CountAppend(g, log, arg, values[0]);
      CountSumAppend(g, log, arg, values[1..]);
      if Passes(log, arg, values[0]) { assert values[0] !in values[1..]; }
    }
  }

  lemma {:induction false} EmptyCountSum(arg: string, values: seq<string>)
    ensures CountSum([], arg, values) == 0
  {
    if values != [] { EmptyCountSum(arg, values[1..]); }
  }

  ghost predicate CoversValues(g: seq<ServerLog>, arg: string, values: seq<string>) {
    forall i :: 0 <= i < |g| && arg in Arguments(g[i].request) ==> Arguments(g[i].request)[arg] in values
  }

  /** Over the distinct values that occur, the value counts add up to the use of the argument. */
  lemma {:induction false} CountsAddUp(g: seq<ServerLog>, arg: string, values: seq<string>)
    requires Distinct(values) && CoversValues(g, arg, values)
    ensures CountSum(g, arg, values) == ArgUse(g, arg)
  {
    if g == [] {
      EmptyCountSum(arg, values);
    } else {
      var init, last := g[..|g| - 1], g[|g| - 1];
      assert g == init + [last];
      CountsAddUp(init, arg, values);
      CountSumAppend(init, last, arg, values);
    }
  }

  lemma {:induction false} PassedIsCounted(g: seq<ServerLog>, arg: string, value: string)
    ensures ArgCount(g, arg, value) > 0 <==> exists i :: 0 <= i < |g| && Passes(g[i], arg, value)
    ensures ArgCount(g, arg, value) <= ArgUse(g, arg)
  {
    if g != [] {
      var init := g[..|g| - 1];
      PassedIsCounted(init, arg, value);
      if i :| 0 <= i < |init| && Passes(init[i], arg, value) { assert Passes(g[i], arg, value); }
      if i :| 0 <= i < |g| && Passes(g[i], arg, value) { assert i < |init| ==> Passes(init[i], arg, value); }
    }
  }

  // ----- the counters -----

  function CountOf(args: Counters, arg: string, value: string): int {
    if arg in args && value in args[arg] then args[arg][value] else 0
  }

  /** Every stored counter is positive and every argument has one. */
  ghost predicate Positive(args: Counters) {
    && (forall a, v :: a in args && v in args[a] ==> args[a][v] > 0)
    && (forall a :: a in args ==> args[a] != map[])
  }

  /** The counters of a tool are exact for its group of logs. */
  ghost predicate Tracks(g: seq<ServerLog>, d: ToolData) {
    && d.calls == |g|
    && Positive(d.arguments)
    && (forall a, v :: CountOf(d.arguments, a, v) == ArgCount(g, a, v))
    && (forall a :: a in d.arguments <==> ArgUse(g, a) > 0)
  }

  /** Each argument of one request is counted once, under its value. */
  ghost predicate Bumped(args: Counters, passed: map<string, string>, args': Counters) {
    && (Positive(args) ==> Positive(args'))
    && (forall a, v :: CountOf(args', a, v) == CountOf(args, a, v) + (if a in passed && passed[a] == v then 1 else 0))
    && (forall a :: a in args' <==> a in args || a in passed)
  }

  method CountArguments(args: Counters, passed: map<string, string>) returns (args': Counters)
    ensures Bumped(args, passed, args')
  {
    args' := args;
    var rest := passed.Keys;
    ghost var done: map<string, string> := map[];
    while rest != {}
      invariant forall a :: a in passed <==> a in done || a in rest
      invariant forall a :: a in done ==> a !in rest && done[a] == passed[a]
      invariant Bumped(args, done, args')
      decreases rest
    {
      var argName :| argName in rest;
      var argValue := passed[argName];
      ghost var before := args';
      args' := CountArgument(args', argName, argValue);
      BumpOne(args, done, before, argName, argValue, args');
      done := done[argName := argValue];
      rest := rest - {argName};
    }
    assert done == passed;
  }

  /** The body of the loop. */
  method CountArgument(args: Counters, argName: string, argValue: string) returns (args': Counters)
    ensures Bumped(args, map[argName := argValue], args')
  {
    args' := args;
    if argName !in args' {
      args' := args'[argName := map[]];
    }
    var values := args'[argName];
    values := values[argValue := (if argValue in values then values[argValue] else 0) + 1];
    args' := args'[argName := values];
    assert values != map[] by { assert argValue in values; }
  }

  lemma BumpOne(args: Counters, done: map<string, string>, before: Counters, argName: string, argValue: string,
      args': Counters)
    requires argName !in done
    requires Bumped(args, done, before) && Bumped(before, map[argName := argValue], args')
    ensures Bumped(args, done[argName := argValue], args')
  {}

  lemma BumpTracks(g: seq<ServerLog>, log: ServerLog, d: ToolData, d': ToolData)
    requires Tracks(g, d) && d'.calls == d.calls + 1 && Bumped(d.arguments, Arguments(log.request), d'.arguments)
    ensures Tracks(g + [log], d')
  {
    forall a, v ensures CountOf(d'.arguments, a, v) == ArgCount(g + [log], a, v) {
      CountAppend(g, log, a, v);
    }
    forall a ensures a in d'.arguments <==> ArgUse(g + [log], a) > 0 {
      CountAppend(g, log, a, "");
    }
  }

  ghost predicate AllTracked(logs: seq<ServerLog>, data: map<string, ToolData>) {
    data.Keys == ToolNames(logs) && forall n :: n in data ==> Tracks(ByTool(logs, n), data[n])
  }

  method CollectTools(logs: seq<ServerLog>) returns (toolData: map<string, ToolData>)
    ensures AllTracked(logs, toolData)
  {
    toolData := map[];
    var i := 0;
    while i < |logs|
      invariant 0 <= i <= |logs|
      invariant AllTracked(logs[..i], toolData)
    {
      assert logs[..i + 1] == logs[..i] + [logs[i]];
      ghost var before := toolData;
      var toolName := ToolName(logs[i].request);
      if toolName != "" {
        if toolName !in toolData {
          toolData := toolData[toolName := ToolData(0, map[])];
        }
        var data := toolData[toolName];
        var arguments := CountArguments(data.arguments, Arguments(logs[i].request));
        toolData := toolData[toolName := ToolData(data.calls + 1, arguments)];
      }
      TrackOne(logs[..i], logs[i], before, toolData);
      i := i + 1;
    }
    assert logs[..i] == logs;
  }

  lemma TrackOne(logs: seq<ServerLog>, log: ServerLog, data: map<string, ToolData>, data': map<string, ToolData>)
    requires AllTracked(logs, data)
    requires var n := ToolName(log.request);
      if n == "" then data' == data
      else
        var d := if n in data then data[n] else ToolData(0, map[]);
        && n in data' && data' == data[n := data'[n]]
        && data'[n].calls == d.calls + 1 && Bumped(d.arguments, Arguments(log.request), data'[n].arguments)
    ensures AllTracked(logs + [log], data')
  {
    GroupNamesAppend(logs, log);
    forall n | n in data' ensures Tracks(ByTool(logs + [log], n), data'[n]) {
      GroupNotEmpty(logs, n);
      TrackTool(logs, log, n, if n in data then data[n] else ToolData(0, map[]), data'[n]);
    }
  }

  lemma TrackTool(logs: seq<ServerLog>, log: ServerLog, n: string, d: ToolData, d': ToolData)
    requires if ByTool(logs, n) == [] then d == ToolData(0, map[]) else Tracks(ByTool(logs, n), d)
    requires if n == ToolName(log.request)
             then d'.calls == d.calls + 1 && Bumped(d.arguments, Arguments(log.request), d'.arguments)
             else d' == d && ByTool(logs, n) != []
    ensures Tracks(ByTool(logs + [log], n), d')
  {
    ByToolAppend(logs, log, n);
    assert Tracks([], ToolData(0, map[]));
    if n == ToolName(log.request) { BumpTracks(ByTool(logs, n), log, d, d'); }
  }

  // ----- the report -----

  function ValueNames(l: seq<ArgumentValue>): seq<string> { seq(|l|, i requires 0 <= i < |l| => l[i].name) }

  /** The argument lists each occurring value once with its exact count. */
  ghost predicate DescribesArgument(g: seq<ServerLog>, arg: ToolArgument) {
    && arg.usageCount == ArgUse(g, arg.name)
    && Distinct(ValueNames(arg.values))
    && (forall i :: 0 <= i < |arg.values| ==> arg.values[i].count == ArgCount(g, arg.name, arg.values[i].name))
    && (forall v :: v in ValueNames(arg.values) <==> ArgCount(g, arg.name, v) > 0)
  }

  function ArgumentNames(l: seq<ToolArgument>): seq<string> { seq(|l|, i requires 0 <= i < |l| => l[i].name) }

  /** The tool lists each argument that occurs once. */
  ghost predicate DescribesTool(g: seq<ServerLog>, tool: McpTool) {
    && tool.calls == |g|
    && Distinct(ArgumentNames(tool.arguments))
    && (forall i :: 0 <= i < |tool.arguments| ==> DescribesArgument(g, tool.arguments[i]))
    && (forall a :: a in ArgumentNames(tool.arguments) <==> ArgUse(g, a) > 0)
  }

  method ListValues(ghost g: seq<ServerLog>, arg: string, values: map<string, int>) returns (r: ToolArgument)
    requires forall v :: v in values <==> ArgCount(g, arg, v) > 0
    requires forall v :: v in values ==> values[v] == ArgCount(g, arg, v)
    ensures r.name == arg && DescribesArgument(g, r)
  {
    var argValues: seq<ArgumentValue> := [];
    var totalUsage := 0;
    var rest := values.Keys;
    while rest != {}
      invariant rest <= values.Keys
      invariant Distinct(ValueNames(argValues))
      invariant forall v :: v in ValueNames(argValues) <==> v in values && v !in rest
      invariant forall i :: 0 <= i < |argValues| ==> argValues[i].count == ArgCount(g, arg, argValues[i].name)
      invariant totalUsage == CountSum(g, arg, ValueNames(argValues))
      decreases rest
    {
      var valueName :| valueName in rest;
      ghost var before := ValueNames(argValues);
      SumOneMore(g, arg, before, valueName);
      argValues := argValues + [ArgumentValue(valueName, values[valueName])];
      assert ValueNames(argValues) == before + [valueName];
      totalUsage := totalUsage + values[valueName];
      rest := rest - {valueName};
    }
    forall i | 0 <= i < |g| && arg in Arguments(g[i].request)
        ensures Arguments(g[i].request)[arg] in ValueNames(argValues) {
      PassedIsCounted(g, arg, Arguments(g[i].request)[arg]);
      assert Passes(g[i], arg, Arguments(g[i].request)[arg]);
    }
    CountsAddUp(g, arg, ValueNames(argValues));
    r := ToolArgument(arg, totalUsage, argValues);
  }

  lemma {:induction false} SumOneMore(g: seq<ServerLog>, arg: string, values: seq<string>, v: string)
    ensures CountSum(g, arg, values + [v]) == CountSum(g, arg, values) + ArgCount(g, arg, v)
  {
    if values == [] {
      assert [] + [v] == [v] && [v][1..] == [];
    } else {
      assert (values + [v])[1..] == values[1..] + [v];
      SumOneMore(g, arg, values[1..], v);
    }
  }

  method ListArguments(ghost g: seq<ServerLog>, name: string, data: ToolData) returns (tool: McpTool)
    requires Tracks(g, data)
    ensures tool.name == name && DescribesTool(g, tool)
  {
    var arguments: seq<ToolArgument> := [];
    var rest := data.arguments.Keys;
    while rest != {}
      invariant rest <= data.arguments.Keys
      invariant Distinct(ArgumentNames(arguments))
      invariant forall a :: a in ArgumentNames(arguments) <==> a in data.arguments && a !in rest
      invariant forall i :: 0 <= i < |arguments| ==> DescribesArgument(g, arguments[i])
      decreases rest
    {
      var argName :| argName in rest;
      ghost var before := ArgumentNames(arguments);
      forall v ensures v in data.arguments[argName] <==> ArgCount(g, argName, v) > 0 {
        assert CountOf(data.arguments, argName, v) == ArgCount(g, argName, v);
      }
      forall v | v in data.arguments[argName] ensures data.arguments[argName][v] == ArgCount(g, argName, v) {
        assert CountOf(data.arguments, argName, v) == ArgCount(g, argName, v);
      }
      var argument := ListValues(g, argName, data.arguments[argName]);
      arguments := arguments + [argument];
      assert ArgumentNames(arguments) == before + [argName];
      rest := rest - {argName};
    }
    tool := McpTool(name, data.calls, arguments);
  }

  function CompareNames(a: McpTool, b: McpTool): int {
    if a.name == b.name then 0 else if Less(a.name, b.name) then -1 else 1
  }

  lemma NamesOrder(s: set<McpTool>)
    ensures Ordering(s, CompareNames)
  {
    forall x, y | x in s && y in s ensures CompareNames(x, y) < 0 <==> CompareNames(y, x) > 0 {
      LessTotal(x.name, y.name);
      if Less(x.name, y.name) && Less(y.name, x.name) {
        LessTransitive(x.name, y.name, x.name);
        LessIrreflexive(x.name);
      }
      LessIrreflexive(x.name);
    }
    forall x, y, z | x in s && y in s && z in s && CompareNames(x, y) <= 0 && CompareNames(y, z) <= 0
        ensures CompareNames(x, z) <= 0 {
      if Less(x.name, y.name) && Less(y.name, z.name) { LessTransitive(x.name, y.name, z.name); }
    }
  }

  /** Every tool once, with exact counters. */
  ghost predicate DescribesTools(logs: seq<ServerLog>, names: set<string>, l: seq<McpTool>) {
    && (forall i :: 0 <= i < |l| ==> l[i].name in names && DescribesTool(ByTool(logs, l[i].name), l[i]))
    && (forall i, j :: 0 <= i < j < |l| ==> l[i].name != l[j].name)
    && (forall n :: n in names ==> exists i :: 0 <= i < |l| && l[i].name == n)
  }

  ghost predicate OrderedByName(l: seq<McpTool>) {
    forall i, j :: 0 <= i < j < |l| ==> Less(l[i].name, l[j].name)
  }

  lemma AddTool(logs: seq<ServerLog>, names: set<string>, l: seq<McpTool>, n: string, tool: McpTool)
    requires DescribesTools(logs, names, l) && n !in names && tool.name == n && DescribesTool(ByTool(logs, n), tool)
    ensures DescribesTools(logs, names + {n}, l + [tool])
  {
    var l' := l + [tool];
    forall m | m in names + {n} ensures exists i :: 0 <= i < |l'| && l'[i].name == m {
      if m == n {
        assert l'[|l|].name == m;
      } else {
        var i :| 0 <= i < |l| && l[i].name == m;
        assert l'[i].name == m;
      }
    }
    forall i | 0 <= i < |l'| ensures l'[i].name in names + {n} && DescribesTool(ByTool(logs, l'[i].name), l'[i]) {
      if i < |l| { assert l'[i] == l[i]; }
    }
  }

  method ListTools(logs: seq<ServerLog>, toolData: map<string, ToolData>) returns (tools: seq<McpTool>)
    requires AllTracked(logs, toolData)
    ensures DescribesTools(logs, ToolNames(logs), tools)
  {
    tools := [];
    var rest := toolData.Keys;
    ghost var done := {};
    while rest != {}
      invariant forall n :: n in toolData <==> n in done || n in rest
      invariant forall n :: n in done ==> n !in rest
      invariant DescribesTools(logs, done, tools)
      decreases rest
    {
      var toolName :| toolName in rest;
      var tool := ListArguments(ByTool(logs, toolName), toolName, toolData[toolName]);
      AddTool(logs, done, tools, toolName, tool);
      tools, rest, done := tools + [tool], rest - {toolName}, done + {toolName};
    }
    assert rest == {} && done == toolData.Keys;
  }

  lemma PermutedTools(logs: seq<ServerLog>, names: set<string>, l: seq<McpTool>, l': seq<McpTool>)
    requires DescribesTools(logs, names, l) && multiset(l') == multiset(l) && Sorted(l', CompareNames)
    ensures DescribesTools(logs, names, l') && OrderedByName(l')
  {
    SameMembers(l, l');
    PermutationDistinct(l, l');
    forall i | 0 <= i < |l'| ensures l'[i].name in names && DescribesTool(ByTool(logs, l'[i].name), l'[i]) {
      assert l'[i] in l;
    }
    forall i, j | 0 <= i < j < |l'| ensures Less(l'[i].name, l'[j].name) && l'[i].name != l'[j].name {
      assert l'[i] in l && l'[j] in l && CompareNames(l'[i], l'[j]) <= 0;
    }
    forall n | n in names ensures exists i :: 0 <= i < |l'| && l'[i].name == n {
      var i :| 0 <= i < |l| && l[i].name == n;
      assert l[i] in l';
    }
  }

  method CalculateToolAnalytics(logs: seq<ServerLog>) returns (tools: seq<McpTool>)
    ensures DescribesTools(logs, ToolNames(logs), tools)
    ensures OrderedByName(tools)
  {
    var toolData := CollectTools(logs);
    var unsorted := ListTools(logs, toolData);
    tools := SortFunc(unsorted, CompareNames);
    NamesOrder(Slices.Elements(unsorted));
    PermutedTools(logs, ToolNames(logs), unsorted, tools);
  }

  // ----- consequences -----

  function SumCounts(l: seq<ArgumentValue>): int {
    if l == [] then 0 else l[0].count + SumCounts(l[1..])
  }

  lemma {:induction false} SumOfCounts(g: seq<ServerLog>, arg: string, l: seq<ArgumentValue>)
    requires forall i :: 0 <= i < |l| ==> l[i].count == ArgCount(g, arg, l[i].name)
    ensures SumCounts(l) == CountSum(g, arg, ValueNames(l))
  {
    if l != [] {
      assert ValueNames(l)[1..] == ValueNames(l[1..]);
      SumOfCounts(g, arg, l[1..]);
    }
  }

  /** In the report an argument's usage is the sum of its value counts and at most the tool's calls. */
  lemma UsageIsSumOfValues(g: seq<ServerLog>, tool: McpTool, k: nat)
    requires DescribesTool(g, tool) && k < |tool.arguments|
    ensures tool.arguments[k].usageCount == SumCounts(tool.arguments[k].values)
    ensures 0 < tool.arguments[k].usageCount <= tool.calls
  {
    var arg := tool.arguments[k];
    var names := ValueNames(arg.values);
    forall i | 0 <= i < |g| && arg.name in Arguments(g[i].request) ensures Arguments(g[i].request)[arg.name] in names {
      PassedIsCounted(g, arg.name, Arguments(g[i].request)[arg.name]);
      assert Passes(g[i], arg.name, Arguments(g[i].request)[arg.name]);
    }
    CountsAddUp(g, arg.name, names);
    SumOfCounts(g, arg.name, arg.values);
    UseWithinCalls(g, arg.name);
    assert ArgumentNames(tool.arguments)[k] == arg.name;
    assert arg.name in ArgumentNames(tool.arguments);
  }

  ghost predicate InReport(a: McpTool, all: seq<PerformingTool>) {
    exists j :: 0 <= j < |all| && all[j].name == a.name && all[j].totalCalls == a.calls
  }

  ghost predicate InAnalytics(b: PerformingTool, tools: seq<McpTool>) {
    exists i :: 0 <= i < |tools| && tools[i].name == b.name && tools[i].calls == b.totalCalls
  }

  /** The analytics and the performance report, before its truncation, list the same tools with the
      same number of calls. */
  lemma SameToolsAndCalls(logs: seq<ServerLog>, tools: seq<McpTool>, all: seq<PerformingTool>)
    requires DescribesTools(logs, ToolNames(logs), tools) && Reports(logs, ToolNames(logs), all)
    ensures forall i :: 0 <= i < |tools| ==> InReport(tools[i], all)
    ensures forall j :: 0 <= j < |all| ==> InAnalytics(all[j], tools)
  {
    forall i | 0 <= i < |tools| ensures InReport(tools[i], all) {
      var j :| 0 <= j < |all| && all[j].name == tools[i].name;
      assert all[j] == ToolReport(logs, tools[i].name);
    }
    forall j | 0 <= j < |all| ensures InAnalytics(all[j], tools) {
      var i :| 0 <= i < |tools| && tools[i].name == all[j].name;
      assert all[j] == ToolReport(logs, tools[i].name);
    }
  }
}
