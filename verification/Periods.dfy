/** The analytics of a project: the split into the current and the previous period and the reports on
    the current one, taken together. */
module Periods {
  import opened Prelude
  import opened Schema
  import opened Logs
  import opened ToolsPerformance
  import opened Overview
  import opened Sessions
  import ToolAnalytics

  /** The logs that start in [from, to), in order. */
  function Started(logs: seq<ServerLog>, from: Time, to: Option<Time>): seq<ServerLog> {
    if logs == [] then []
    else
      var init, last := Started(logs[..|logs| - 1], from, to), logs[|logs| - 1];
      if from <= last.startedAt && (to.Some? ==> last.startedAt < to.value) then init + [last] else init
  }

  lemma {:induction false} StartedElements(logs: seq<ServerLog>, from: Time, to: Option<Time>)
    ensures forall l :: l in Started(logs, from, to) <==>
      l in logs && from <= l.startedAt && (to.Some? ==> l.startedAt < to.value)
  {
    if logs != [] {
      StartedElements(logs[..|logs| - 1], from, to);
      assert logs == logs[..|logs| - 1] + [logs[|logs| - 1]];
    }
  }

  lemma {:induction false} StartedSorted(logs: seq<ServerLog>, from: Time, to: Option<Time>)
    requires SortedByStart(logs)
    ensures SortedByStart(Started(logs, from, to))
  {
    if logs != [] {
      var init, last := logs[..|logs| - 1], logs[|logs| - 1];
      StartedSorted(init, from, to);
      StartedElements(init, from, to);
      var g := Started(init, from, to);
      forall i | 0 <= i < |g| ensures g[i].startedAt <= last.startedAt {
        assert g[i] in g;
        assert g[i] in init;
        var j :| 0 <= j < |init| && init[j] == g[i];
      }
    }
  }

  /** The current period runs from `startAt`, the previous one is as long and ends there. */
  method SplitPeriods(logs: seq<ServerLog>, startAt: Time, now: Time)
      returns (currentLogs: seq<ServerLog>, previousLogs: seq<ServerLog>)
    ensures currentLogs == Started(logs, startAt, None)
    ensures previousLogs == Started(logs, startAt - (now - startAt), Some(startAt))
  {
    var periodDuration := now - startAt;
    var previousPeriodStart, previousPeriodEnd := startAt - periodDuration, startAt;
    currentLogs, previousLogs := [], [];
    var i := 0;
    while i < |logs|
      invariant 0 <= i <= |logs|
      invariant currentLogs == Started(logs[..i], startAt, None)
      invariant previousLogs == Started(logs[..i], startAt - (now - startAt), Some(startAt))
    {
      var log := logs[i];
      assert logs[..i + 1][..i] == logs[..i];
      if !(log.startedAt < startAt) {
        currentLogs := currentLogs + [log];
      } else if !(log.startedAt < previousPeriodStart) && log.startedAt < previousPeriodEnd {
        previousLogs := previousLogs + [log];
      }
      i := i + 1;
    }
    assert logs[..i] == logs;
  }

  /** No log is counted in both periods, none since the previous start is lost, and a period that
      starts in the future has no previous one. */
  lemma PeriodsPartition(logs: seq<ServerLog>, startAt: Time, now: Time, log: ServerLog)
    ensures var current := Started(logs, startAt, None);
      var previous := Started(logs, startAt - (now - startAt), Some(startAt));
      && !(log in current && log in previous)
      && (log in current || log in previous <==>
            log in logs && (startAt <= log.startedAt || startAt - (now - startAt) <= log.startedAt))
      && (now <= startAt ==> previous == [])
  {
    StartedElements(logs, startAt, None);
    StartedElements(logs, startAt - (now - startAt), Some(startAt));
    var previous := Started(logs, startAt - (now - startAt), Some(startAt));
    if previous != [] { assert previous[0] in previous; }
  }

  /** When the earlier of the two periods begins. */
  function PeriodsStart(startAt: Time, now: Time): Time {
    if startAt <= now then startAt - (now - startAt) else startAt
  }

  /** Neither period has a log on which the error check fails exactly when no log since the earlier
      period's start is one: what is older is never looked at. */
  lemma PeriodsSafeIff(logs: seq<ServerLog>, startAt: Time, now: Time)
    ensures AllWellFormed(Started(logs, startAt, None))
            && AllWellFormed(Started(logs, startAt - (now - startAt), Some(startAt)))
       <==> forall log :: log in logs && log.startedAt >= PeriodsStart(startAt, now) ==> WellFormed(log)
  {
    var current, previous := Started(logs, startAt, None), Started(logs, startAt - (now - startAt), Some(startAt));
    StartedElements(logs, startAt, None);
    StartedElements(logs, startAt - (now - startAt), Some(startAt));
    forall i | 0 <= i < |current| ensures current[i] in logs && current[i].startedAt >= PeriodsStart(startAt, now) {
      assert current[i] in current;
    }
    forall i | 0 <= i < |previous| ensures previous[i] in logs && previous[i].startedAt >= PeriodsStart(startAt, now) {
      assert previous[i] in previous;
    }
    if AllWellFormed(current) && AllWellFormed(previous) {
      forall log | log in logs && log.startedAt >= PeriodsStart(startAt, now) ensures WellFormed(log) {
        assert log in current || log in previous;
      }
    }
  }

  datatype OverviewReport = OverviewReport(
    totalSessionCount: nat, totalToolCallsCount: nat, usersCount: nat, avgLatency: int, errorRate: real,
    totalSessionChange: real, totalToolCallsChange: real, usersChange: real, avgLatencyChange: real,
    errorRateChange: real)

  /** The overview of one period against another: its own numbers and the changes of all of them. */
  ghost predicate Compares(current: seq<ServerLog>, previous: seq<ServerLog>, o: OverviewReport)
    requires AllWellFormed(current) && AllWellFormed(previous)
  {
    && o.totalSessionCount == |SessionKeys(current)| && o.totalToolCallsCount == |current|
        && o.usersCount == |UserIds(current)|
    && o.avgLatency == Latency(current) && o.errorRate == ErrorRate(current)
    && o.totalSessionChange == CalculatePercentageChange(|SessionKeys(previous)| as real,
        |SessionKeys(current)| as real)
    && o.totalToolCallsChange == CalculatePercentageChange(|previous| as real, |current| as real)
    && o.usersChange == CalculatePercentageChange(|UserIds(previous)| as real, |UserIds(current)| as real)
    && o.avgLatencyChange == CalculatePercentageChange(Latency(previous) as real, Latency(current) as real)
    && o.errorRateChange == CalculatePercentageChange(ErrorRate(previous), ErrorRate(current))
  }

  method CalculateOverviewWithComparison(current: seq<ServerLog>, previous: seq<ServerLog>) returns (o: OverviewReport)
    requires AllWellFormed(current) && AllWellFormed(previous)
    ensures Compares(current, previous, o)
  {
    var sessions := CountUniqueSessions(current);
    var previousSessions := CountUniqueSessions(previous);
    var users := CountUniqueUsers(current);
    var previousUsers := CountUniqueUsers(previous);
    var avgLatency, errorRate := CalculateLatencyAndErrorRate(current);
    var previousAvgLatency, previousErrorRate := CalculateLatencyAndErrorRate(previous);
    o := OverviewReport(
      sessions, |current|, users, avgLatency, errorRate,
      CalculatePercentageChange(previousSessions as real, sessions as real),
      CalculatePercentageChange(|previous| as real, |current| as real),
      CalculatePercentageChange(previousUsers as real, users as real),
      CalculatePercentageChange(previousAvgLatency as real, avgLatency as real),
      CalculatePercentageChange(previousErrorRate, errorRate));
  }

  // ----- how the reports agree -----

  function SumToolCalls(l: seq<ToolAnalytics.McpTool>): int {
    if l == [] then 0 else l[0].calls + SumToolCalls(l[1..])
  }

  function SumSessionCalls(l: seq<RecentSession>): int {
    if l == [] then 0 else l[0].calls + SumSessionCalls(l[1..])
  }

  /** The failed calls that a rate of some calls stands for. */
  function FailedCalls(errorRate: real, calls: int): real { errorRate * calls as real }

  function SumToolErrors(l: seq<PerformingTool>): real {
    if l == [] then 0.0 else FailedCalls(l[0].errorRate, l[0].totalCalls) + SumToolErrors(l[1..])
  }

  function ToolNameList(l: seq<ToolAnalytics.McpTool>): seq<string> { seq(|l|, i requires 0 <= i < |l| => l[i].name) }

  lemma {:induction false} ToolCallsAreGroups(logs: seq<ServerLog>, l: seq<ToolAnalytics.McpTool>)
    requires forall i :: 0 <= i < |l| ==> l[i].calls == |ByTool(logs, l[i].name)|
    ensures SumToolCalls(l) == GroupSum(Calls, logs, ToolNameList(l))
  {
    if l != [] {
      ToolCallsAreGroups(logs, l[1..]);
      TotalCallsIsLength(ByTool(logs, l[0].name));
      assert ToolNameList(l)[0] == l[0].name && ToolNameList(l)[1..] == ToolNameList(l[1..]);
    }
  }

  lemma {:induction false} NamedAndUnnamed(logs: seq<ServerLog>)
    ensures |NamedLogs(logs)| + |ByTool(logs, "")| == |logs|
  {
    if logs != [] { NamedAndUnnamed(logs[..|logs| - 1]); }
  }

  /** The tools' calls and the logs without a tool name add up to the overview's count. */
  lemma ToolCallsAddUp(logs: seq<ServerLog>, tools: seq<ToolAnalytics.McpTool>)
    requires ToolAnalytics.DescribesTools(logs, ToolNames(logs), tools)
    ensures SumToolCalls(tools) + |ByTool(logs, "")| == |logs|
  {
    var names := ToolNameList(tools);
    ToolCallsAreGroups(logs, tools);
    GroupsPartition(Calls, logs, names);
    TotalCallsIsLength(Listed(logs, names));
    forall n ensures n in names <==> n in ToolNames(logs) {
      if n in ToolNames(logs) {
        var i :| 0 <= i < |tools| && tools[i].name == n;
        assert names[i] == n;
      }
    }
    ListedIsNamed(logs, logs, names);
    NamedAndUnnamed(logs);
  }

  lemma ErrorShare(errors: int, calls: int)
    requires calls > 0
    ensures FailedCalls(errors as real / calls as real, calls) == errors as real
  {}

  lemma ToolErrors(logs: seq<ServerLog>, name: string)
    requires name in ToolNames(logs)
    ensures AllWellFormed(ByTool(logs, name))
    ensures var r := ToolReport(logs, name);
      FailedCalls(r.errorRate, r.totalCalls) == Total(Errors, ByTool(logs, name)) as real
  {
    ByToolWellFormed(logs, name);
    GroupNotEmpty(logs, name);
    ErrorShare(Total(Errors, ByTool(logs, name)), |ByTool(logs, name)|);
  }

  /** Each report stands for the errors of its own tool. */
  ghost predicate StandFor(logs: seq<ServerLog>, l: seq<PerformingTool>)
    requires AllWellFormed(logs)
  {
    forall i :: 0 <= i < |l| ==>
      AllWellFormed(ByTool(logs, l[i].name))
      && FailedCalls(l[i].errorRate, l[i].totalCalls) == Total(Errors, ByTool(logs, l[i].name)) as real
  }

  lemma {:induction false} ToolErrorsAreGroups(logs: seq<ServerLog>, l: seq<PerformingTool>)
    requires AllWellFormed(logs) && StandFor(logs, l)
    ensures SumToolErrors(l) == GroupSum(Errors, logs, Names(l)) as real
  {
    if l != [] {
      ToolErrorsAreGroups(logs, l[1..]);
      assert Names(l)[0] == l[0].name && Names(l)[1..] == Names(l[1..]);
    }
  }

  lemma AllListed(logs: seq<ServerLog>, names: seq<string>)
    requires "" !in GroupNames(logs) && forall n :: n in ToolNames(logs) ==> n in names
    ensures Listed(logs, names) == logs
  {
    forall l | l in logs ensures ToolName(l.request) in names {
      var i :| 0 <= i < |logs| && logs[i] == l;
      assert ToolName(logs[i].request) in GroupNames(logs);
    }
    ListedAll(logs, names);
  }

  lemma ReportedNames(logs: seq<ServerLog>, all: seq<PerformingTool>, n: string)
    requires Reports(logs, ToolNames(logs), all) && n in ToolNames(logs)
    ensures n in Names(all)
  {
    var i :| 0 <= i < |all| && all[i].name == n;
    assert Names(all)[i] == n;
  }

  /** When every log names a tool, the failed calls of all tools are all the errors. */
  lemma ToolErrorsAddUp(logs: seq<ServerLog>, all: seq<PerformingTool>)
    requires AllWellFormed(logs) && "" !in GroupNames(logs) && Reports(logs, ToolNames(logs), all)
    ensures SumToolErrors(all) == Total(Errors, logs) as real
  {
    forall i | 0 <= i < |all|
      ensures AllWellFormed(ByTool(logs, all[i].name))
      ensures FailedCalls(all[i].errorRate, all[i].totalCalls) == Total(Errors, ByTool(logs, all[i].name)) as real
    {
      ToolErrors(logs, all[i].name);
    }
    ToolErrorsAreGroups(logs, all);
    GroupsPartition(Errors, logs, Names(all));
    forall n | n in ToolNames(logs) ensures n in Names(all) {
      ReportedNames(logs, all, n);
    }
    AllListed(logs, Names(all));
  }

  lemma OverviewErrors(logs: seq<ServerLog>)
    requires AllWellFormed(logs)
    ensures FailedCalls(ErrorRate(logs), |logs|) == Total(Errors, logs) as real
  {
    if logs != [] { ErrorShare(Total(Errors, logs), |logs|); }
  }

  /** The logs that belong to a session. */
  function KeyedLogs(logs: seq<ServerLog>): seq<ServerLog> {
    if logs == [] then []
    else
      var init, last := KeyedLogs(logs[..|logs| - 1]), logs[|logs| - 1];
      if SessionKey(last).Some? then init + [last] else init
  }

  function SessionSum(logs: seq<ServerLog>, ids: seq<string>): int {
    if ids == [] then 0 else |BySession(logs, ids[0])| + SessionSum(logs, ids[1..])
  }

  lemma {:induction false} SessionSumAppend(logs: seq<ServerLog>, log: ServerLog, ids: seq<string>)
    requires Distinct(ids)
    ensures SessionSum(logs + [log], ids)
         == SessionSum(logs, ids) + if SessionKey(log).Some? && SessionKey(log).value in ids then 1 else 0
  {
    if ids != [] {
      SessionSumAppend(logs, log, ids[1..]);
      BySessionAppend(logs, log, ids[0]);
      assert ids[0] !in ids[1..];
    }
  }

  lemma {:induction false} NoLogsNoSum(ids: seq<string>)
    ensures SessionSum([], ids) == 0
  {
    if ids != [] { NoLogsNoSum(ids[1..]); }
  }

  lemma {:induction false} SessionsPartition(logs: seq<ServerLog>, ids: seq<string>)
    requires Distinct(ids) && forall l :: l in logs && SessionKey(l).Some? ==> SessionKey(l).value in ids
    ensures SessionSum(logs, ids) == |KeyedLogs(logs)|
  {
    if logs == [] {
      NoLogsNoSum(ids);
    } else {
      var init, last := logs[..|logs| - 1], logs[|logs| - 1];
      assert logs == init + [last];
      SessionsPartition(init, ids);
      SessionSumAppend(init, last, ids);
    }
  }

  lemma {:induction false} SessionCallsAreGroups(logs: seq<ServerLog>, l: seq<RecentSession>)
    requires forall i :: 0 <= i < |l| ==> l[i].calls == |BySession(logs, l[i].sessionId)|
    ensures SumSessionCalls(l) == SessionSum(logs, SessionIdList(l))
  {
    if l != [] {
      SessionCallsAreGroups(logs, l[1..]);
      assert SessionIdList(l)[0] == l[0].sessionId && SessionIdList(l)[1..] == SessionIdList(l[1..]);
    }
  }

  /** The sessions' calls add up to the logs that belong to a session. */
  lemma SessionCallsAddUp(logs: seq<ServerLog>, normalize: string -> string, sessions: seq<RecentSession>)
    requires KeyedWellFormed(logs) && ReportsSessions(logs, normalize, SessionKeys(logs), sessions)
    ensures SumSessionCalls(sessions) == |KeyedLogs(logs)|
  {
    var ids := SessionIdList(sessions);
    SessionCallsAreGroups(logs, sessions);
    SessionIdsCover(logs, normalize, sessions);
    forall l | l in logs && SessionKey(l).Some? ensures SessionKey(l).value in ids {
      var i :| 0 <= i < |logs| && logs[i] == l;
      assert SessionKey(logs[i]).value in SessionKeys(logs);
    }
    SessionsPartition(logs, ids);
  }

  datatype Analytics = Analytics(
    overview: OverviewReport,
    topPerformingTools: seq<PerformingTool>, toolsRequiringAttention: seq<PerformingTool>,
    tools: seq<ToolAnalytics.McpTool>, recentSessions: seq<RecentSession>)

  /** The separately computed reports describe the same logs: their counts add up to the overview's, and
      when every log names a tool so do the errors, and the overview's latency lies between two tools'. */
  ghost predicate Agree(logs: seq<ServerLog>, a: Analytics)
    requires AllWellFormed(logs)
  {
    && |a.recentSessions| == a.overview.totalSessionCount
    && SumSessionCalls(a.recentSessions) == |KeyedLogs(logs)|
    && SumToolCalls(a.tools) + |ByTool(logs, "")| == a.overview.totalToolCallsCount
    && ("" !in GroupNames(logs) ==>
          && (logs != [] ==> a.overview.avgLatency == Latency(logs) && BetweenTools(logs))
          && forall all :: Reports(logs, ToolNames(logs), all) ==>
               SumToolErrors(all) == FailedCalls(a.overview.errorRate, a.overview.totalToolCallsCount))
  }

  lemma ReportsAgree(logs: seq<ServerLog>, previous: seq<ServerLog>, normalize: string -> string, a: Analytics)
    requires AllWellFormed(logs) && AllWellFormed(previous) && Compares(logs, previous, a.overview)
    requires ToolAnalytics.DescribesTools(logs, ToolNames(logs), a.tools)
    requires ReportsSessions(logs, normalize, SessionKeys(logs), a.recentSessions)
    ensures Agree(logs, a)
  {
    ToolCallsAddUp(logs, a.tools);
    SessionCallsAddUp(logs, normalize, a.recentSessions);
    if "" !in GroupNames(logs) {
      if logs != [] { AllNamedBetween(logs); }
      AllNamedErrors(logs, a.overview);
    }
  }

  lemma AllNamedBetween(logs: seq<ServerLog>)
    requires logs != [] && "" !in GroupNames(logs)
    ensures BetweenTools(logs)
  {
    var slow, fast := OverviewAverageBetweenTools(logs);
  }

  lemma AllNamedErrors(logs: seq<ServerLog>, o: OverviewReport)
    requires AllWellFormed(logs) && "" !in GroupNames(logs)
    requires o.errorRate == ErrorRate(logs) && o.totalToolCallsCount == |logs|
    ensures forall all :: Reports(logs, ToolNames(logs), all) ==>
      SumToolErrors(all) == FailedCalls(o.errorRate, o.totalToolCallsCount)
  {
    OverviewErrors(logs);
    forall all | Reports(logs, ToolNames(logs), all) ensures SumToolErrors(all) == Total(Errors, logs) as real {
      ToolErrorsAddUp(logs, all);
    }
  }

  /** The reports are computed separately from the logs of the current period; each is exact, every
      session starts with its earliest log, and they agree. */
  method GetProjectAnalytics(logs: seq<ServerLog>, startAt: Time, now: Time, normalize: string -> string)
      returns (a: Analytics)
    requires AllWellFormed(Started(logs, startAt, None)) && SortedByStart(logs)
    requires AllWellFormed(Started(logs, startAt - (now - startAt), Some(startAt)))
    ensures var current := Started(logs, startAt, None);
      var previous := Started(logs, startAt - (now - startAt), Some(startAt));
      && Compares(current, previous, a.overview)
      && IsTopList(current, a.topPerformingTools) && IsAttentionList(current, a.toolsRequiringAttention)
      && ToolAnalytics.DescribesTools(current, ToolNames(current), a.tools) && ToolAnalytics.OrderedByName(a.tools)
      && ReportsSessions(current, normalize, SessionKeys(current), a.recentSessions)
      && Agree(current, a)
    ensures forall i :: 0 <= i < |a.recentSessions| ==>
      forall l :: l in Started(logs, startAt, None) && SessionKey(l) == Some(a.recentSessions[i].sessionId) ==>
        a.recentSessions[i].startedAt <= l.startedAt
  {
    var current, previous := SplitPeriods(logs, startAt, now);
    StartedSorted(logs, startAt, None);
    var overview := CalculateOverviewWithComparison(current, previous);
    var top, attention := CalculateToolsPerformance(current);
    var tools := ToolAnalytics.CalculateToolAnalytics(current);
    var recent := CalculateRecentSessions(current, normalize);
    forall i | 0 <= i < |recent|
      ensures forall l :: l in current && SessionKey(l) == Some(recent[i].sessionId) ==>
        recent[i].startedAt <= l.startedAt
    {
      StartIsEarliest(current, normalize, recent[i]);
    }
    a := Analytics(overview, top, attention, tools, recent);
    ReportsAgree(current, previous, normalize, a);
  }
}
