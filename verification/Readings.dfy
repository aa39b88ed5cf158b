/** The reports read off the logs directly: every count is one of the exchanges, by their positions,
    that meet a criterion stated on the columns of a log alone. */
module Readings {
  import opened Prelude
  import opened Schema
  import opened Logs
  import opened ToolsPerformance
  import opened Overview
  import opened Sessions
  import ToolAnalytics
  import Periods

  // ----- criteria -----

  ghost predicate FailedExchange(log: ServerLog) {
    log.httpStatusCode.Some? && log.httpStatusCode.value >= 400
  }

  ghost predicate ProtocolError(log: ServerLog) { log.response.Some? && log.response.value.hasError }

  /** A tool call whose result parses and is flagged as an error. */
  ghost predicate FlaggedCall(log: ServerLog) {
    && log.request.Some? && log.request.value.rpc == "tools/call"
    && log.response.Some? && log.response.value.result == Some(CallResult(true))
  }

  ghost predicate Fails(log: ServerLog) { FailedExchange(log) || ProtocolError(log) || FlaggedCall(log) }

  /** A tool call whose parameters parse. */
  ghost predicate IsCall(log: ServerLog) {
    && log.request.Some? && log.request.value.rpc == "tools/call"
    && log.request.value.params.Some? && log.request.value.params.value.Call?
  }

  /** The log is reported under this name: the called tool's, or the method of another request. */
  ghost predicate Names(log: ServerLog, name: string) {
    && log.request.Some?
    && name == if IsCall(log) then log.request.value.params.value.name else log.request.value.rpc
  }

  ghost predicate PassesValue(log: ServerLog, arg: string, value: string) {
    && IsCall(log) && log.request.value.params.value.arguments.Some?
    && arg in log.request.value.params.value.arguments.value
    && log.request.value.params.value.arguments.value[arg] == value
  }

  datatype Criterion =
    | Failing
    | OfTool(name: string) | FailingOfTool(name: string) | PassingToTool(name: string, arg: string, value: string)
    | OfSession(id: string) | FailingOfSession(id: string)

  ghost predicate Meets(c: Criterion, log: ServerLog) {
    match c
    case Failing => Fails(log)
    case OfTool(n) => Names(log, n)
    case FailingOfTool(n) => Names(log, n) && Fails(log)
    case PassingToTool(n, arg, value) => Names(log, n) && PassesValue(log, arg, value)
    case OfSession(id) => log.sessionId == Some(id)
    case FailingOfSession(id) => log.sessionId == Some(id) && Fails(log)
  }

  /** The positions of the logs that meet the criterion. */
  ghost function Where(c: Criterion, logs: seq<ServerLog>): set<int> {
    set i | 0 <= i < |logs| && Meets(c, logs[i])
  }

  lemma WhereAppend(c: Criterion, logs: seq<ServerLog>, log: ServerLog)
    ensures |Where(c, logs + [log])| == |Where(c, logs)| + (if Meets(c, log) then 1 else 0)
  {
    AppendPosition(c, logs, log, Meets(c, log));
  }

  lemma AppendPosition(c: Criterion, logs: seq<ServerLog>, log: ServerLog, meets: bool)
    requires meets == Meets(c, log)
    ensures |Where(c, logs + [log])| == |Where(c, logs)| + (if meets then 1 else 0)
  {
    var before, after := Where(c, logs), Where(c, logs + [log]);
    forall i ensures i in after <==> i in before || (meets && i == |logs|) {
      if 0 <= i < |logs| { assert (logs + [log])[i] == logs[i]; }
    }
    assert after == before + (if meets then {|logs|} else {});
  }

  // ----- one log -----

  /** On every log it can check, the error check is exactly the criterion. */
  lemma ErrorIsFailure(log: ServerLog)
    requires WellFormed(log)
    ensures IsError(log) <==> FailedExchange(log) || ProtocolError(log) || FlaggedCall(log)
  {}

  /** It cannot check a log exactly when a successful response came back for a missing request. */
  lemma UncheckableIff(log: ServerLog)
    ensures !WellFormed(log) <==>
      log.request.None? && log.response.Some? && !ProtocolError(log) && !FailedExchange(log)
  {}

  lemma ToolNameIff(log: ServerLog, name: string)
    requires name != ""
    ensures ToolName(log.request) == name <==> Names(log, name)
  {}

  lemma ArgumentIff(log: ServerLog, arg: string, value: string)
    ensures arg in Arguments(log.request) && Arguments(log.request)[arg] == value <==> PassesValue(log, arg, value)
  {}

  lemma SessionKeyIff(log: ServerLog, id: string)
    ensures SessionKey(log) == Some(id) <==> id != "" && log.sessionId == Some(id)
  {}

  // ----- measures are counts -----

  lemma {:induction false} ErrorsAreFailures(logs: seq<ServerLog>)
    requires AllWellFormed(logs)
    ensures Total(Errors, logs) == |Where(Failing, logs)|
  {
    if logs == [] {
      assert Where(Failing, logs) == {};
    } else {
      var init, last := logs[..|logs| - 1], logs[|logs| - 1];
      assert logs == init + [last];
      ErrorsAreFailures(init);
      WhereAppend(Failing, init, last);
    }
  }

  lemma {:induction false} ToolCounts(logs: seq<ServerLog>, n: string)
    requires n != ""
    ensures AllWellFormed(ByTool(logs, n))
    ensures |ByTool(logs, n)| == |Where(OfTool(n), logs)|
    ensures Total(Errors, ByTool(logs, n)) == |Where(FailingOfTool(n), logs)|
  {
    ByToolWellFormed(logs, n);
    if logs == [] {
      assert Where(OfTool(n), logs) == {} && Where(FailingOfTool(n), logs) == {};
    } else {
      var init, last := logs[..|logs| - 1], logs[|logs| - 1];
      assert logs == init + [last];
      ToolCounts(init, n);
      ByToolAppend(init, last, n);
      WhereAppend(OfTool(n), init, last);
      WhereAppend(FailingOfTool(n), init, last);
      if Names(last, n) { TotalAppend(Errors, ByTool(init, n), last); }
    }
  }

  lemma {:induction false} SessionSize(logs: seq<ServerLog>, id: string)
    requires id != ""
    ensures |BySession(logs, id)| == |Where(OfSession(id), logs)|
  {
    if logs == [] {
      assert Where(OfSession(id), logs) == {};
    } else {
      var init, last := logs[..|logs| - 1], logs[|logs| - 1];
      assert logs == init + [last];
      SessionSize(init, id);
      WhereAppend(OfSession(id), init, last);
    }
  }

  lemma {:induction false} SessionCounts(logs: seq<ServerLog>, id: string)
    requires KeyedWellFormed(logs) && id != ""
    ensures AllWellFormed(BySession(logs, id))
    ensures Total(Errors, BySession(logs, id)) == |Where(FailingOfSession(id), logs)|
  {
    BySessionWellFormed(logs, id);
    if logs == [] {
      assert Where(FailingOfSession(id), logs) == {};
    } else {
      var init, last := logs[..|logs| - 1], logs[|logs| - 1];
      assert logs == init + [last];
      SessionCounts(init, id);
      BySessionAppend(init, last, id);
      WhereAppend(FailingOfSession(id), init, last);
      if last.sessionId == Some(id) {
        assert WellFormed(logs[|logs| - 1]);
        TotalAppend(Errors, BySession(init, id), last);
      }
    }
  }

  lemma {:induction false} ValueCounts(logs: seq<ServerLog>, n: string, arg: string, value: string)
    requires n != ""
    ensures ToolAnalytics.ArgCount(ByTool(logs, n), arg, value) == |Where(PassingToTool(n, arg, value), logs)|
  {
    if logs == [] {
      assert Where(PassingToTool(n, arg, value), logs) == {};
    } else {
      var init, last := logs[..|logs| - 1], logs[|logs| - 1];
      assert logs == init + [last];
      ValueCounts(init, n, arg, value);
      ByToolAppend(init, last, n);
      WhereAppend(PassingToTool(n, arg, value), init, last);
      ArgumentIff(last, arg, value);
      ToolAnalytics.CountAppend(ByTool(init, n), last, arg, value);
    }
  }

  // ----- the overview -----

  /** The overview's error rate stands for exactly the failed exchanges; without logs both numbers are zero. */
  lemma OverviewReads(logs: seq<ServerLog>)
    requires AllWellFormed(logs)
    ensures ErrorRate(logs) * |logs| as real == |Where(Failing, logs)| as real
    ensures logs == [] ==> ErrorRate(logs) == 0.0 && Latency(logs) == 0
  {
    ErrorsAreFailures(logs);
  }

  /** The average latency lies between the truncated durations of the fastest and the slowest exchange, so
      it is their common duration when all take equally long. */
  lemma LatencyWithin(logs: seq<ServerLog>, fastest: int, slowest: int)
    requires logs != [] && forall i :: 0 <= i < |logs| ==> fastest <= logs[i].duration <= slowest
    ensures GoDiv(fastest, 1_000_000) <= Latency(logs) <= GoDiv(slowest, 1_000_000)
  {
    DurationWithin(logs, fastest, slowest);
    AverageMonotone(fastest, 1, Total(Duration, logs), |logs|);
    AverageMonotone(Total(Duration, logs), |logs|, slowest, 1);
    AverageOfOne(fastest);
    AverageOfOne(slowest);
  }

  lemma AverageOfOne(duration: int)
    ensures AverageLatency(duration, 1) == GoDiv(duration, 1_000_000)
  {}

  lemma {:induction false} DurationWithin(logs: seq<ServerLog>, fastest: int, slowest: int)
    requires forall i :: 0 <= i < |logs| ==> fastest <= logs[i].duration <= slowest
    ensures fastest * |logs| <= Total(Duration, logs) <= slowest * |logs|
  {
    if logs != [] {
      DurationWithin(logs[..|logs| - 1], fastest, slowest);
      OneMore(fastest, |logs| - 1);
      OneMore(slowest, |logs| - 1);
    }
  }

  lemma OneMore(a: int, n: int)
    ensures a * (n + 1) == a * n + a
  {
  }

  /** The sessions and users that the overview counts. */
  lemma DistinctReads(logs: seq<ServerLog>)
    ensures forall id :: id in SessionKeys(logs) <==> id != "" && Where(OfSession(id), logs) != {}
    ensures forall u :: u in UserIds(logs) <==> exists i :: 0 <= i < |logs| && logs[i].userAccountId == Some(u)
  {
    forall id ensures id in SessionKeys(logs) <==> id != "" && Where(OfSession(id), logs) != {} {
      if id in SessionKeys(logs) {
        var i :| 0 <= i < |logs| && SessionKey(logs[i]) == Some(id);
        assert i in Where(OfSession(id), logs);
      }
      if i :| id != "" && i in Where(OfSession(id), logs) { assert SessionKey(logs[i]) == Some(id); }
    }
  }

  // ----- the tools -----

  /** A tool is listed exactly when some log has its name; its report counts its logs and its failures. */
  lemma ToolReads(logs: seq<ServerLog>, n: string)
    ensures n in ToolNames(logs) <==> n != "" && Where(OfTool(n), logs) != {}
    ensures n in ToolNames(logs) ==>
      var r := ToolReport(logs, n);
      && r.name == n && r.totalCalls == |Where(OfTool(n), logs)|
      && r.errorRate * r.totalCalls as real == |Where(FailingOfTool(n), logs)| as real
  {
    if n != "" {
      var calls := Where(OfTool(n), logs);
      ToolCounts(logs, n);
      GroupNotEmpty(logs, n);
      assert ByTool(logs, n) != [] <==> calls != {};
      if calls != {} { ToolReportReads(logs, n); }
    }
  }

  lemma ToolReportReads(logs: seq<ServerLog>, n: string)
    requires n in ToolNames(logs)
    ensures var r := ToolReport(logs, n);
      && r.name == n && r.totalCalls == |Where(OfTool(n), logs)|
      && r.errorRate * r.totalCalls as real == |Where(FailingOfTool(n), logs)| as real
  {
    ToolCounts(logs, n);
    Periods.ToolErrors(logs, n);
  }

  /** A tool needs attention exactly when more than every twentieth call failed or the calls took more
      than a second on average; the list is ordered by the whole percentage of failures. */
  lemma AttentionReads(logs: seq<ServerLog>, n: string)
    requires n in ToolNames(logs)
    ensures var calls, failed := |Where(OfTool(n), logs)|, |Where(FailingOfTool(n), logs)|;
      && calls > 0
      && (n in AttentionNames(logs) <==>
            20 * failed > calls || Total(Duration, ByTool(logs, n)) >= 1_001 * 1_000_000 * calls)
      && Percent(ToolReport(logs, n)) == 100 * failed / calls
  {
    ToolReads(logs, n);
    ToolCounts(logs, n);
    GroupNotEmpty(logs, n);
    var calls, failed := |Where(OfTool(n), logs)|, |Where(FailingOfTool(n), logs)|;
    ShareOver(failed, calls);
    SlowIff(Total(Duration, ByTool(logs, n)), calls);
  }

  lemma ShareOver(failed: nat, calls: nat)
    requires calls > 0
    ensures failed as real / calls as real > 0.05 <==> 20 * failed > calls
    ensures (failed as real / calls as real * 100.0).Floor == 100 * failed / calls
  {
    var x := failed as real / calls as real;
    ShareTimes(failed, calls);
    QuotientBounds(100 * failed, calls);
    RealQuotient(x * 100.0, calls, 100 * failed / calls, 100 * failed);
    RealCompare(x, 0.05, calls);
  }

  lemma ShareTimes(failed: nat, calls: nat)
    requires calls > 0
    ensures failed as real / calls as real * calls as real == failed as real
    ensures failed as real / calls as real * 100.0 * calls as real == (100 * failed) as real
  {
    var x := failed as real / calls as real;
    assert x * calls as real == failed as real;
    assert x * 100.0 * calls as real == 100.0 * (x * calls as real);
  }

  lemma QuotientBounds(a: int, d: int)
    requires d > 0
    ensures a / d * d <= a < (a / d + 1) * d
  {
    var q := a / d;
    assert a == d * q + a % d;
    assert d * q == q * d && (q + 1) * d == q * d + d;
  }

  lemma RealCompare(x: real, y: real, n: nat)
    requires n > 0
    ensures x > y <==> x * n as real > y * n as real
  {}

  lemma RealQuotient(x: real, n: nat, q: int, a: int)
    requires n > 0 && x * n as real == a as real && q * n <= a < (q + 1) * n
    ensures x.Floor == q
  {
    RealProduct(q, n);
    RealProduct(q + 1, n);
    RealLess(x, (q + 1) as real, n as real);
    RealAtMost(q as real, x, n as real);
  }

  lemma RealAtMost(x: real, y: real, n: real)
    requires n > 0.0 && x * n <= y * n
    ensures x <= y
  {
    if x > y { RealScaledStrictly(y, x, n); }
  }

  lemma RealScaledStrictly(x: real, y: real, n: real)
    requires n > 0.0 && x < y
    ensures x * n < y * n
  {
    assert (y - x) * n > 0.0;
  }

  lemma RealLess(x: real, y: real, n: real)
    requires n > 0.0 && x * n < y * n
    ensures x < y
  {
    if x >= y { RealScaled(y, x, n); }
  }

  lemma RealScaled(x: real, y: real, n: real)
    requires n > 0.0 && x <= y
    ensures x * n <= y * n
  {
    assert (y - x) * n >= 0.0;
  }

  lemma RealProduct(a: int, b: int)
    ensures a as real * b as real == (a * b) as real
  {}

  lemma SlowIff(total: int, calls: nat)
    requires calls > 0
    ensures AverageLatency(total, calls) > 1000 <==> total >= 1_001 * 1_000_000 * calls
  {
    GoDivGoDiv(total, 1_000_000, calls);
    var d := 1_000_000 * calls;
    if total >= 0 {
      var q := total / d;
      QuotientBounds(total, d);
      if q >= 1001 { TimesMonotone(1001, q, d); } else { TimesMonotone(q + 1, 1001, d); }
    } else {
      QuotientSign(-total, d);
    }
  }

  /** The analytics of a tool count its logs, and for every argument value the calls that pass it. */
  lemma ToolAnalyticsReads(logs: seq<ServerLog>, tool: ToolAnalytics.McpTool, k: nat, v: nat)
    requires tool.name != "" && ToolAnalytics.DescribesTool(ByTool(logs, tool.name), tool)
    requires k < |tool.arguments| && v < |tool.arguments[k].values|
    ensures tool.calls == |Where(OfTool(tool.name), logs)|
    ensures var arg := tool.arguments[k]; var value := arg.values[v];
      value.count == |Where(PassingToTool(tool.name, arg.name, value.name), logs)| && value.count > 0
  {
    var arg := tool.arguments[k];
    ToolCounts(logs, tool.name);
    ValueCounts(logs, tool.name, arg.name, arg.values[v].name);
    assert ToolAnalytics.ValueNames(arg.values)[v] == arg.values[v].name;
    assert arg.values[v].name in ToolAnalytics.ValueNames(arg.values);
  }

  /** And every value that is passed is listed. */
  lemma PassedValueIsListed(logs: seq<ServerLog>, tool: ToolAnalytics.McpTool, arg: string, value: string)
    requires tool.name != "" && ToolAnalytics.DescribesTool(ByTool(logs, tool.name), tool)
    requires Where(PassingToTool(tool.name, arg, value), logs) != {}
    ensures exists k, v ::
      && 0 <= k < |tool.arguments| && tool.arguments[k].name == arg
      && 0 <= v < |tool.arguments[k].values| && tool.arguments[k].values[v].name == value
  {
    var g := ByTool(logs, tool.name);
    ValueCounts(logs, tool.name, arg, value);
    ToolAnalytics.PassedIsCounted(g, arg, value);
    assert arg in ToolAnalytics.ArgumentNames(tool.arguments);
    var k :| 0 <= k < |tool.arguments| && ToolAnalytics.ArgumentNames(tool.arguments)[k] == arg;
    assert ToolAnalytics.DescribesArgument(g, tool.arguments[k]);
    assert value in ToolAnalytics.ValueNames(tool.arguments[k].values);
    var v :| 0 <= v < |tool.arguments[k].values| && ToolAnalytics.ValueNames(tool.arguments[k].values)[v] == value;
  }

  // ----- the sessions -----

  /** A reported session counts its logs and its failures, starts with its first log and ends with the
      latest end of any of them. */
  lemma SessionReads(logs: seq<ServerLog>, normalize: string -> string, r: RecentSession)
    requires KeyedWellFormed(logs) && r.sessionId != "" && ReportsSession(logs, normalize, r)
    ensures r.calls == |Where(OfSession(r.sessionId), logs)| > 0
    ensures r.errors == |Where(FailingOfSession(r.sessionId), logs)|
    ensures exists i :: i in Where(OfSession(r.sessionId), logs) && logs[i].startedAt == r.startedAt
                        && forall j :: j in Where(OfSession(r.sessionId), logs) ==> i <= j
    ensures exists i :: i in Where(OfSession(r.sessionId), logs) && logs[i].startedAt + logs[i].duration == r.endedAt
    ensures forall i :: i in Where(OfSession(r.sessionId), logs) ==> logs[i].startedAt + logs[i].duration <= r.endedAt
  {
    var id := r.sessionId;
    var g := BySession(logs, id);
    SessionSize(logs, id);
    SessionCounts(logs, id);
    FirstOfSession(logs, id);
    BySessionElements(logs, id);
    var k :| 0 <= k < |g| && End(g[k]) == r.endedAt;
    assert g[k] in g;
    var i :| 0 <= i < |logs| && logs[i] == g[k];
    assert i in Where(OfSession(id), logs);
    forall j | j in Where(OfSession(id), logs) ensures logs[j].startedAt + logs[j].duration <= r.endedAt {
      assert logs[j] in g;
    }
  }

  lemma {:induction false} FirstOfSession(logs: seq<ServerLog>, id: string)
    requires id != "" && BySession(logs, id) != []
    ensures exists i :: i in Where(OfSession(id), logs) && logs[i] == BySession(logs, id)[0]
                        && forall j :: j in Where(OfSession(id), logs) ==> i <= j
  {
    var init, last := logs[..|logs| - 1], logs[|logs| - 1];
    BySessionElements(init, id);
    if BySession(init, id) != [] {
      FirstOfSession(init, id);
      var i :| i in Where(OfSession(id), init) && init[i] == BySession(init, id)[0]
               && forall j :: j in Where(OfSession(id), init) ==> i <= j;
      assert i in Where(OfSession(id), logs);
      forall j | j in Where(OfSession(id), logs) ensures i <= j {
        if j < |init| { assert j in Where(OfSession(id), init); }
      }
    } else {
      assert |logs| - 1 in Where(OfSession(id), logs);
      SessionSize(init, id);
      forall j | j in Where(OfSession(id), logs) ensures |logs| - 1 <= j {
        assert j in Where(OfSession(id), init) || j == |logs| - 1;
      }
    }
  }
}
