/** Per-tool performance: the one-pass counters, the top list, the attention list, and how both relate
    to a group-by over the tool name. */
module ToolsPerformance {
  import opened Prelude
  import opened Schema
  import opened Logs
  import opened Slices

  const MILLISECOND := 1_000_000

  function Milliseconds(duration: int): int { GoDiv(duration, MILLISECOND) }

  datatype Stats = Stats(totalCalls: int, errorCalls: int, totalDuration: int)

  datatype PerformingTool = PerformingTool(name: string, totalCalls: int, errorRate: real, avgLatency: int)

  // ----- the declarative reading -----

  function StatsOf(logs: seq<ServerLog>): Stats
    requires AllWellFormed(logs)
  {
    Stats(|logs|, Total(Errors, logs), Total(Duration, logs))
  }

  /** The average latency in whole milliseconds: truncated once to milliseconds and once by the count. */
  function AverageLatency(totalDuration: int, calls: int): int
    requires calls > 0
  {
    GoDiv(Milliseconds(totalDuration), calls)
  }

  function ReportOf(name: string, s: Stats): PerformingTool
    requires s.totalCalls > 0
  {
    PerformingTool(name, s.totalCalls, s.errorCalls as real / s.totalCalls as real,
        AverageLatency(s.totalDuration, s.totalCalls))
  }

  /** What the report must say about the tool of this name. */
  function ToolReport(logs: seq<ServerLog>, name: string): PerformingTool
    requires name in ToolNames(logs)
  {
    ByToolWellFormed(logs, name);
    GroupNotEmpty(logs, name);
    ReportOf(name, StatsOf(ByTool(logs, name)))
  }

  predicate NeedsAttention(tool: PerformingTool) { tool.errorRate > 0.05 || tool.avgLatency > 1000 }

  /** One report for each of these tools, in some order. */
  ghost predicate Reports(logs: seq<ServerLog>, names: set<string>, l: seq<PerformingTool>)
    requires names <= ToolNames(logs)
  {
    && (forall i :: 0 <= i < |l| ==> l[i].name in names && l[i] == ToolReport(logs, l[i].name))
    && (forall i, j :: 0 <= i < j < |l| ==> l[i].name != l[j].name)
    && (forall n :: n in names ==> exists i :: 0 <= i < |l| && l[i].name == n)
  }

  // ----- the loops -----

  /** The counters hold, for each tool, the statistics of exactly its logs. */
  ghost predicate Collected(logs: seq<ServerLog>, stats: map<string, Stats>) {
    && stats.Keys == ToolNames(logs)
    && forall n :: n in stats ==> AllWellFormed(ByTool(logs, n)) && stats[n] == StatsOf(ByTool(logs, n))
  }

  method CollectStats(logs: seq<ServerLog>) returns (toolStats: map<string, Stats>)
    ensures Collected(logs, toolStats)
  {
    toolStats := map[];
    var i := 0;
    while i < |logs|
      invariant 0 <= i <= |logs|
      invariant Collected(logs[..i], toolStats)
    {
      assert logs[..i + 1] == logs[..i] + [logs[i]];
      toolStats := CountLog(logs[..i], toolStats, logs[i]);
      i := i + 1;
    }
    assert logs[..i] == logs;
  }

  /** The body of the loop: from the statistics of the logs seen so far to those with one more. */
  method CountLog(ghost logs: seq<ServerLog>, stats: map<string, Stats>, log: ServerLog)
      returns (toolStats: map<string, Stats>)
    requires Collected(logs, stats)
    ensures Collected(logs + [log], toolStats)
  {
    toolStats := stats;
    var toolName := ToolName(log.request);
    if toolName == "" {
      assert toolStats == Counted(stats, log);
      CountOne(logs, log, stats);
      return;
    }
    if toolName !in toolStats {
      toolStats := toolStats[toolName := Stats(0, 0, 0)];
    }
    var s := toolStats[toolName];
    s := s.(totalCalls := s.totalCalls + 1, totalDuration := s.totalDuration + log.duration);
    if IsError(log) {
      s := s.(errorCalls := s.errorCalls + 1);
    }
    toolStats := toolStats[toolName := s];
    assert toolStats == Counted(stats, log);
    CountOne(logs, log, stats);
  }

  /** Counting one more log changes the statistics of its own tool only. */
  function Counted(stats: map<string, Stats>, log: ServerLog): map<string, Stats> {
    var n := ToolName(log.request);
    if n == "" then stats
    else
      var s := if n in stats then stats[n] else Stats(0, 0, 0);
      stats[n := Stats(s.totalCalls + 1, s.errorCalls + (if IsError(log) then 1 else 0),
          s.totalDuration + log.duration)]
  }

  lemma CountOneTool(logs: seq<ServerLog>, log: ServerLog, stats: map<string, Stats>, n: string)
    requires Collected(logs, stats) && n in Counted(stats, log)
    ensures AllWellFormed(ByTool(logs + [log], n)) && Counted(stats, log)[n] == StatsOf(ByTool(logs + [log], n))
  {
    ByToolWellFormed(logs, n);
    ByToolAppend(logs, log, n);
    if n == ToolName(log.request) {
      GroupNotEmpty(logs, n);
      CountedOwn(stats, log, ByTool(logs, n));
    } else {
      assert Counted(stats, log)[n] == stats[n];
    }
  }

  lemma CountedOwn(stats: map<string, Stats>, log: ServerLog, g: seq<ServerLog>)
    requires AllWellFormed(g) && ToolName(log.request) != ""
    requires (if ToolName(log.request) in stats then stats[ToolName(log.request)] else Stats(0, 0, 0)) == StatsOf(g)
    ensures AllWellFormed(g + [log]) && Counted(stats, log)[ToolName(log.request)] == StatsOf(g + [log])
  {
    StatsAppend(g, log);
  }

  lemma CountOne(logs: seq<ServerLog>, log: ServerLog, stats: map<string, Stats>)
    requires Collected(logs, stats)
    ensures Collected(logs + [log], Counted(stats, log))
  {
    GroupNamesAppend(logs, log);
    assert Counted(stats, log).Keys == ToolNames(logs + [log]);
    forall n | n in Counted(stats, log)
      ensures AllWellFormed(ByTool(logs + [log], n)) && Counted(stats, log)[n] == StatsOf(ByTool(logs + [log], n))
    {
      CountOneTool(logs, log, stats, n);
    }
  }

  lemma StatsAppend(g: seq<ServerLog>, log: ServerLog)
    requires AllWellFormed(g) && WellFormed(log)
    ensures AllWellFormed(g + [log])
    ensures StatsOf(g + [log])
      == Stats(|g| + 1, Total(Errors, g) + (if IsError(log) then 1 else 0), Total(Duration, g) + log.duration)
  {
    TotalAppend(Errors, g, log);
    TotalAppend(Duration, g, log);
  }

  /** Go iterates over a map in any order. */
  method ListTools(logs: seq<ServerLog>, toolStats: map<string, Stats>)
      returns (allTools: seq<PerformingTool>, toolsNeedingAttention: seq<PerformingTool>)
    requires Collected(logs, toolStats)
    ensures Reports(logs, ToolNames(logs), allTools)
    ensures AttentionNames(logs) <= ToolNames(logs) && Reports(logs, AttentionNames(logs), toolsNeedingAttention)
  {
    allTools, toolsNeedingAttention := [], [];
    var rest := toolStats.Keys;
    ghost var done: set<string>, attention: set<string> := {}, {};
    while rest != {}
      invariant forall n :: n in ToolNames(logs) <==> n in done || n in rest
      invariant forall n :: n in done ==> n !in rest
      invariant forall n :: n in attention <==> n in AttentionNames(logs) && n in done
      invariant done <= ToolNames(logs) && Reports(logs, done, allTools)
      invariant attention <= ToolNames(logs) && Reports(logs, attention, toolsNeedingAttention)
      decreases rest
    {
      var toolName :| toolName in rest;
      var tool := ReportTool(logs, toolStats, toolName);
      AddReport(logs, done, allTools, toolName);
      allTools := allTools + [tool];
      if NeedsAttention(tool) {
        AddReport(logs, attention, toolsNeedingAttention, toolName);
        toolsNeedingAttention := toolsNeedingAttention + [tool];
        attention := attention + {toolName};
      }
      rest, done := rest - {toolName}, done + {toolName};
    }
    assert done == ToolNames(logs) && attention == AttentionNames(logs);
  }

  /** The body of the loop. */
  method ReportTool(logs: seq<ServerLog>, toolStats: map<string, Stats>, toolName: string)
      returns (tool: PerformingTool)
    requires Collected(logs, toolStats) && toolName in ToolNames(logs)
    ensures tool == ToolReport(logs, toolName)
  {
    var stats := toolStats[toolName];
    GroupNotEmpty(logs, toolName);
    tool := PerformingTool(toolName, stats.totalCalls, 0.0, 0);
    if stats.totalCalls > 0 {
      tool := tool.(errorRate := stats.errorCalls as real / stats.totalCalls as real,
                    avgLatency := GoDiv(Milliseconds(stats.totalDuration), stats.totalCalls));
    }
  }

  ghost function AttentionNames(logs: seq<ServerLog>): set<string>
  {
    set n | n in ToolNames(logs) && NeedsAttention(ToolReport(logs, n))
  }

  lemma AddReport(logs: seq<ServerLog>, names: set<string>, l: seq<PerformingTool>, n: string)
    requires names <= ToolNames(logs) && Reports(logs, names, l)
    requires n in ToolNames(logs) && n !in names
    ensures Reports(logs, names + {n}, l + [ToolReport(logs, n)])
  {
    var l' := l + [ToolReport(logs, n)];
    forall m | m in names + {n} ensures exists i :: 0 <= i < |l'| && l'[i].name == m {
      if m == n {
        assert l'[|l|].name == m;
      } else {
        var i :| 0 <= i < |l| && l[i].name == m;
        assert l'[i].name == m;
      }
    }
  }

  // ----- sorting and truncation -----

  function ByCalls(a: PerformingTool, b: PerformingTool): int { b.totalCalls - a.totalCalls }

  function Percent(tool: PerformingTool): int { (tool.errorRate * 100.0).Floor }

  function ByErrorRate(a: PerformingTool, b: PerformingTool): int { Percent(a) - Percent(b) }

  lemma PermutedReports(logs: seq<ServerLog>, names: set<string>, l: seq<PerformingTool>, l': seq<PerformingTool>)
    requires names <= ToolNames(logs) && Reports(logs, names, l)
    requires multiset(l') == multiset(l)
    ensures Reports(logs, names, l')
  {
    SameMembers(l, l');
    PermutationDistinct(l, l');
    forall i | 0 <= i < |l'| ensures l'[i].name in names && l'[i] == ToolReport(logs, l'[i].name) {
      assert l'[i] in l;
    }
    forall n | n in names ensures exists i :: 0 <= i < |l'| && l'[i].name == n {
      var i :| 0 <= i < |l| && l[i].name == n;
      assert l[i] in l';
    }
  }

  lemma {:induction false} ReportCount(logs: seq<ServerLog>, names: set<string>, l: seq<PerformingTool>)
    requires names <= ToolNames(logs) && Reports(logs, names, l)
    ensures |l| == |names|
    decreases |l|
  {
    if l == [] {
      assert forall n :: n !in names;
      assert names == {};
    } else {
      var last := l[|l| - 1].name;
      var init := l[..|l| - 1];
      forall n | n in names - {last} ensures exists i :: 0 <= i < |init| && init[i].name == n {
        var i :| 0 <= i < |l| && l[i].name == n;
        assert init[i].name == n;
      }
      ReportCount(logs, names - {last}, init);
      assert names == names - {last} + {last};
    }
  }

  ghost predicate MostCallsFirst(l: seq<PerformingTool>) {
    forall i, j :: 0 <= i < j < |l| ==> l[i].totalCalls >= l[j].totalCalls
  }

  ghost predicate IsListed(l: seq<PerformingTool>, name: string) {
    exists i :: 0 <= i < |l| && l[i].name == name
  }

  ghost predicate AtMostAll(calls: int, l: seq<PerformingTool>) {
    forall i :: 0 <= i < |l| ==> calls <= l[i].totalCalls
  }

  /** The top list: the min(5, n) tools with most calls, most first, and no omitted tool was called
      more often than a listed one. */
  ghost predicate IsTopList(logs: seq<ServerLog>, top: seq<PerformingTool>)
  {
    var names := ToolNames(logs);
    && |top| == (if |names| < 5 then |names| else 5)
    && (forall i :: 0 <= i < |top| ==> top[i].name in names && top[i] == ToolReport(logs, top[i].name))
    && (forall i, j :: 0 <= i < j < |top| ==> top[i].name != top[j].name)
    && MostCallsFirst(top)
    && (forall n :: n in names && !IsListed(top, n) ==> AtMostAll(ToolReport(logs, n).totalCalls, top))
  }

  /** The attention list: exactly the tools over a threshold, by whole error percentage. */
  ghost predicate IsAttentionList(logs: seq<ServerLog>, attention: seq<PerformingTool>)
  {
    && AttentionNames(logs) <= ToolNames(logs) && Reports(logs, AttentionNames(logs), attention)
    && forall i, j :: 0 <= i < j < |attention| ==> Percent(attention[i]) <= Percent(attention[j])
  }

  lemma OmittedAtMost(logs: seq<ServerLog>, all: seq<PerformingTool>, k: nat, n: string)
    requires Reports(logs, ToolNames(logs), all) && MostCallsFirst(all) && k <= |all|
    requires n in ToolNames(logs) && !IsListed(all[..k], n)
    ensures AtMostAll(ToolReport(logs, n).totalCalls, all[..k])
  {
    var j :| 0 <= j < |all| && all[j].name == n;
    assert forall i :: 0 <= i < k ==> all[..k][i] == all[i];
    assert all[j] == ToolReport(logs, n);
  }

  lemma PrefixReports(logs: seq<ServerLog>, all: seq<PerformingTool>, k: nat)
    requires Reports(logs, ToolNames(logs), all) && MostCallsFirst(all) && k <= |all|
    ensures MostCallsFirst(all[..k])
    ensures forall i :: 0 <= i < k ==>
      all[..k][i].name in ToolNames(logs) && all[..k][i] == ToolReport(logs, all[..k][i].name)
    ensures forall i, j :: 0 <= i < j < k ==> all[..k][i].name != all[..k][j].name
  {
    forall i | 0 <= i < k ensures all[..k][i] == all[i] {}
  }

  lemma PrefixIsTop(logs: seq<ServerLog>, all: seq<PerformingTool>, k: nat)
    requires Reports(logs, ToolNames(logs), all) && MostCallsFirst(all)
    requires k == if |all| < 5 then |all| else 5
    ensures IsTopList(logs, all[..k])
  {
    ReportCount(logs, ToolNames(logs), all);
    PrefixReports(logs, all, k);
    forall n | n in ToolNames(logs) && !IsListed(all[..k], n)
        ensures AtMostAll(ToolReport(logs, n).totalCalls, all[..k]) {
      OmittedAtMost(logs, all, k, n);
    }
  }

  method TopTools(logs: seq<ServerLog>, allTools: seq<PerformingTool>) returns (top: seq<PerformingTool>)
    requires Reports(logs, ToolNames(logs), allTools)
    ensures IsTopList(logs, top)
  {
    var sorted := SortFunc(allTools, ByCalls);
    assert Ordering(Slices.Elements(allTools), ByCalls);
    PermutedReports(logs, ToolNames(logs), allTools, sorted);
    assert MostCallsFirst(sorted) by {
      forall i, j | 0 <= i < j < |sorted| ensures sorted[i].totalCalls >= sorted[j].totalCalls {
        assert ByCalls(sorted[i], sorted[j]) <= 0;
      }
    }
    if |sorted| < 5 {
      top := sorted[..|sorted|];
      PrefixIsTop(logs, sorted, |sorted|);
    } else {
      top := sorted[..5];
      PrefixIsTop(logs, sorted, 5);
    }
  }

  method AttentionTools(logs: seq<ServerLog>, tools: seq<PerformingTool>) returns (attention: seq<PerformingTool>)
    requires AttentionNames(logs) <= ToolNames(logs)
      && Reports(logs, AttentionNames(logs), tools)
    ensures IsAttentionList(logs, attention)
  {
    attention := SortFunc(tools, ByErrorRate);
    assert Ordering(Slices.Elements(tools), ByErrorRate);
    PermutedReports(logs, AttentionNames(logs), tools, attention);
    forall i, j | 0 <= i < j < |attention| ensures Percent(attention[i]) <= Percent(attention[j]) {
      assert ByErrorRate(attention[i], attention[j]) <= 0;
    }
  }

  method CalculateToolsPerformance(logs: seq<ServerLog>)
      returns (top: seq<PerformingTool>, attention: seq<PerformingTool>)
    ensures IsTopList(logs, top)
    ensures IsAttentionList(logs, attention)
  {
    var toolStats := CollectStats(logs);
    var allTools, toolsNeedingAttention := ListTools(logs, toolStats);
    top := TopTools(logs, allTools);
    attention := AttentionTools(logs, toolsNeedingAttention);
  }

  // ----- totals -----

  lemma DropReport(logs: seq<ServerLog>, names: set<string>, l: seq<PerformingTool>)
    requires names <= ToolNames(logs) && Reports(logs, names, l) && l != []
    ensures Reports(logs, names - {l[0].name}, l[1..])
  {
    var n := l[0].name;
    forall m | m in names - {n} ensures exists i :: 0 <= i < |l[1..]| && l[1..][i].name == m {
      var i :| 0 <= i < |l| && l[i].name == m;
      assert l[1..][i - 1].name == m;
    }
  }

  lemma {:induction false} CallsOfReports(logs: seq<ServerLog>, names: set<string>, l: seq<PerformingTool>)
    requires names <= ToolNames(logs) && Reports(logs, names, l)
    ensures SumCalls(l) == GroupSum(Calls, logs, Names(l))
    decreases |l|
  {
    if l != [] {
      var n := l[0].name;
      DropReport(logs, names, l);
      CallsOfReports(logs, names - {n}, l[1..]);
      assert l[0] == ToolReport(logs, n);
      TotalCallsIsLength(ByTool(logs, n));
      assert Names(l)[0] == n && Names(l)[1..] == Names(l[1..]);
    }
  }

  function SumCalls(l: seq<PerformingTool>): int {
    if l == [] then 0 else l[0].totalCalls + SumCalls(l[1..])
  }

  function Names(l: seq<PerformingTool>): seq<string> { seq(|l|, i requires 0 <= i < |l| => l[i].name) }

  /** Before truncation the calls of all tools add up to the number of logs that have a tool name. */
  lemma CallsAddUp(logs: seq<ServerLog>, all: seq<PerformingTool>)
    requires Reports(logs, ToolNames(logs), all)
    ensures SumCalls(all) == |NamedLogs(logs)|
  {
    CallsOfReports(logs, ToolNames(logs), all);
    GroupsPartition(Calls, logs, Names(all));
    TotalCallsIsLength(Listed(logs, Names(all)));
    forall n ensures n in Names(all) <==> n in ToolNames(logs) {
      if n in ToolNames(logs) {
        var i :| 0 <= i < |all| && all[i].name == n;
        assert Names(all)[i] == n;
      }
    }
    ListedIsNamed(logs, logs, Names(all));
  }

  function NamedLogs(logs: seq<ServerLog>): seq<ServerLog> {
    if logs == [] then []
    else
      var init, last := NamedLogs(logs[..|logs| - 1]), logs[|logs| - 1];
      if ToolName(last.request) != "" then init + [last] else init
  }

  lemma {:induction false} ListedIsNamed(logs: seq<ServerLog>, all: seq<ServerLog>, names: seq<string>)
    requires forall n :: n in names <==> n in ToolNames(all)
    requires forall l :: l in logs ==> l in all
    ensures Listed(logs, names) == NamedLogs(logs)
  {
    if logs != [] {
      var init, last := logs[..|logs| - 1], logs[|logs| - 1];
      ListedIsNamed(init, all, names);
      assert last in all;
    }
  }
}
