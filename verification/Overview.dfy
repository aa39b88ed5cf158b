/** The overview numbers and how they agree with the per-tool report. */
module Overview {
  import opened Prelude
  import opened Schema
  import opened Logs
  import opened ToolsPerformance

  // ----- latency and error rate -----

  /** Both are zero without logs. */
  function Latency(logs: seq<ServerLog>): int {
    if logs == [] then 0 else AverageLatency(Total(Duration, logs), |logs|)
  }

  function ErrorRate(logs: seq<ServerLog>): real
    requires AllWellFormed(logs)
  {
    if logs == [] then 0.0 else Total(Errors, logs) as real / |logs| as real
  }

  method CalculateLatencyAndErrorRate(logs: seq<ServerLog>) returns (avgLatency: int, errorRate: real)
    requires AllWellFormed(logs)
    ensures avgLatency == Latency(logs) && errorRate == ErrorRate(logs)
    ensures errorRate * |logs| as real == Total(Errors, logs) as real && 0.0 <= errorRate <= 1.0
  {
    if |logs| == 0 {
      return 0, 0.0;
    }
    var totalDuration := 0;
    var i := 0;
    while i < |logs|
      invariant 0 <= i <= |logs|
      invariant totalDuration == Total(Duration, logs[..i])
    {
      TotalNext(Duration, logs, i);
      totalDuration := totalDuration + logs[i].duration;
      i := i + 1;
    }
    assert logs[..i] == logs;
    avgLatency := GoDiv(Milliseconds(totalDuration), |logs|);
    var errorCount := 0;
    var j := 0;
    while j < |logs|
      invariant 0 <= j <= |logs|
      invariant errorCount == Total(Errors, logs[..j])
    {
      TotalNext(Errors, logs, j);
      if IsError(logs[j]) {
        errorCount := errorCount + 1;
      }
      j := j + 1;
    }
    assert logs[..j] == logs;
    ErrorsWithinCalls(logs);
    errorRate := errorCount as real / |logs| as real;
    RateBounds(errorCount, |logs|);
  }

  lemma TotalNext(m: Measure, logs: seq<ServerLog>, i: nat)
    requires i < |logs| && (m.Errors? ==> AllWellFormed(logs))
    ensures m.Errors? ==> AllWellFormed(logs[..i]) && AllWellFormed(logs[..i + 1])
    ensures Total(m, logs[..i + 1]) == Total(m, logs[..i]) + Weight(m, logs[i])
  {
    assert logs[..i + 1] == logs[..i] + [logs[i]];
    TotalAppend(m, logs[..i], logs[i]);
  }

  lemma RateBounds(errors: int, calls: int)
    requires 0 <= errors <= calls && calls > 0
    ensures 0.0 <= errors as real / calls as real <= 1.0
  {}

  // ----- the average lies between the group averages -----

  function GroupAverage(logs: seq<ServerLog>, name: string): int
    requires name in GroupNames(logs)
  {
    GroupNotEmpty(logs, name);
    AverageLatency(Total(Duration, ByTool(logs, name)), |ByTool(logs, name)|)
  }

  /** Group `name` is at least (sign 1) or at most (sign -1) as slow as the whole list, without any
      division: the inequality of the two averages multiplied out. */
  ghost predicate Beats(logs: seq<ServerLog>, name: string, sign: int) {
    sign * Total(Duration, ByTool(logs, name)) * |logs| >= sign * Total(Duration, logs) * |ByTool(logs, name)|
  }

  /** If no listed group beats the list, neither do they together. */
  lemma {:induction false} NoneBeatsSum(logs: seq<ServerLog>, names: seq<string>, sign: int)
    requires forall n :: n in names ==> !Beats(logs, n, sign)
    ensures names != [] ==>
      sign * GroupSum(Duration, logs, names) * |logs| < sign * Total(Duration, logs) * GroupSum(Calls, logs, names)
    ensures names == [] ==> GroupSum(Duration, logs, names) == 0 && GroupSum(Calls, logs, names) == 0
  {
    if names != [] {
      var n, rest := names[0], names[1..];
      NoneBeatsSum(logs, rest, sign);
      var d, c := Total(Duration, ByTool(logs, n)), |ByTool(logs, n)|;
      var dr, cr := GroupSum(Duration, logs, rest), GroupSum(Calls, logs, rest);
      TotalCallsIsLength(ByTool(logs, n));
      assert !Beats(logs, n, sign);
      Distribute(sign, d, dr, |logs|);
      DistributeRight(sign * Total(Duration, logs), c, cr);
    }
  }

  lemma Distribute(s: int, a: int, b: int, n: int)
    ensures s * (a + b) * n == s * a * n + s * b * n
  {}

  lemma DistributeRight(s: int, a: int, b: int)
    ensures s * (a + b) == s * a + s * b
  {}

  /** A duplicate-free list of the group names. */
  lemma {:induction false} ListNames(names: set<string>) returns (l: seq<string>)
    ensures Distinct(l) && forall n :: n in l <==> n in names
    decreases |names|
  {
    if names == {} {
      l := [];
    } else {
      var n :| n in names;
      var rest := ListNames(names - {n});
      l := [n] + rest;
      forall m ensures m in l <==> m in names {
        assert m in l <==> m == n || m in rest;
      }
    }
  }

  lemma {:induction false} ListedAll(logs: seq<ServerLog>, names: seq<string>)
    requires forall l :: l in logs ==> ToolName(l.request) in names
    ensures Listed(logs, names) == logs
  {
    if logs != [] {
      ListedAll(logs[..|logs| - 1], names);
      assert logs == logs[..|logs| - 1] + [logs[|logs| - 1]];
    }
  }

  /** Some group is at least as slow, and some at most as slow, as all logs together. */
  lemma SomeGroupBeats(logs: seq<ServerLog>, sign: int) returns (name: string)
    requires logs != []
    ensures name in GroupNames(logs) && Beats(logs, name, sign)
  {
    var names := ListNames(GroupNames(logs));
    assert ToolName(logs[0].request) in GroupNames(logs);
    if n :| n in names && Beats(logs, n, sign) {
      name := n;
    } else {
      NoneBeatsSum(logs, names, sign);
      GroupsPartition(Duration, logs, names);
      GroupsPartition(Calls, logs, names);
      forall l | l in logs ensures ToolName(l.request) in names {
        var i :| 0 <= i < |logs| && logs[i] == l;
        assert ToolName(logs[i].request) in GroupNames(logs);
      }
      ListedAll(logs, names);
      TotalCallsIsLength(logs);
      assert false;
    }
  }

  /** The average over all logs lies between the averages of two of its groups, although both are
      truncated to milliseconds before the division and truncated again by it. */
  lemma AverageBetweenGroups(logs: seq<ServerLog>) returns (slow: string, fast: string)
    requires logs != []
    ensures slow in GroupNames(logs) && fast in GroupNames(logs)
    ensures GroupAverage(logs, fast) <= AverageLatency(Total(Duration, logs), |logs|) <= GroupAverage(logs, slow)
  {
    slow := SomeGroupBeats(logs, 1);
    fast := SomeGroupBeats(logs, -1);
    SlowGroup(logs, slow);
    FastGroup(logs, fast);
  }

  lemma SlowGroup(logs: seq<ServerLog>, name: string)
    requires logs != [] && name in GroupNames(logs) && Beats(logs, name, 1)
    ensures AverageLatency(Total(Duration, logs), |logs|) <= GroupAverage(logs, name)
  {
    GroupNotEmpty(logs, name);
    AverageMonotone(Total(Duration, logs), |logs|, Total(Duration, ByTool(logs, name)), |ByTool(logs, name)|);
  }

  lemma FastGroup(logs: seq<ServerLog>, name: string)
    requires logs != [] && name in GroupNames(logs) && Beats(logs, name, -1)
    ensures GroupAverage(logs, name) <= AverageLatency(Total(Duration, logs), |logs|)
  {
    GroupNotEmpty(logs, name);
    Negated(Total(Duration, ByTool(logs, name)), |logs|);
    Negated(Total(Duration, logs), |ByTool(logs, name)|);
    AverageMonotone(Total(Duration, ByTool(logs, name)), |ByTool(logs, name)|, Total(Duration, logs), |logs|);
  }

  lemma Negated(a: int, n: int)
    ensures -1 * a * n == -(a * n)
  {}

  lemma AverageMonotone(a: int, m: int, b: int, n: int)
    requires m > 0 && n > 0 && a * n <= b * m
    ensures AverageLatency(a, m) <= AverageLatency(b, n)
  {
    GoDivGoDiv(a, MILLISECOND, m);
    GoDivGoDiv(b, MILLISECOND, n);
    assert a * (MILLISECOND * n) == MILLISECOND * (a * n) && b * (MILLISECOND * m) == MILLISECOND * (b * m);
    GoDivMonotone(a, MILLISECOND * m, b, MILLISECOND * n);
  }

  /** When every log has a tool name, the overview's average latency lies between the smallest and the
      largest average of the tool report. */
  lemma OverviewAverageBetweenTools(logs: seq<ServerLog>) returns (slow: string, fast: string)
    requires logs != [] && "" !in GroupNames(logs)
    ensures slow in ToolNames(logs) && fast in ToolNames(logs)
    ensures ToolReport(logs, fast).avgLatency <= Latency(logs) <= ToolReport(logs, slow).avgLatency
  {
    slow, fast := AverageBetweenGroups(logs);
  }

  // ----- exactly when that bound holds -----

  /** The overview's average lies between the averages of two reported tools. */
  ghost predicate BetweenTools(logs: seq<ServerLog>) {
    exists slow, fast :: slow in ToolNames(logs) && fast in ToolNames(logs)
      && ToolReport(logs, fast).avgLatency <= Latency(logs) <= ToolReport(logs, slow).avgLatency
  }

  /** The same exchanges, taking these times. */
  function WithDurations(logs: seq<ServerLog>, ds: seq<nat>): seq<ServerLog>
    requires |ds| == |logs|
  {
    seq(|logs|, i requires 0 <= i < |logs| => logs[i].(duration := ds[i]))
  }

  lemma DurationsKeep(logs: seq<ServerLog>, ds: seq<nat>)
    requires |ds| == |logs|
    ensures GroupNames(WithDurations(logs, ds)) == GroupNames(logs)
  {
    var w := WithDurations(logs, ds);
    forall n ensures n in GroupNames(w) <==> n in GroupNames(logs) {
      if n in GroupNames(logs) {
        var i :| 0 <= i < |logs| && n == ToolName(logs[i].request);
        assert ToolName(w[i].request) == n;
      }
    }
  }

  lemma {:induction false} ZeroTotal(logs: seq<ServerLog>)
    requires forall l :: l in logs ==> l.duration == 0
    ensures Total(Duration, logs) == 0
  {
    if logs != [] { ZeroTotal(logs[..|logs| - 1]); }
  }

  lemma {:induction false} TotalAtLeast(logs: seq<ServerLog>, k: nat)
    requires k < |logs| && forall i :: 0 <= i < |logs| ==> logs[i].duration >= 0
    ensures Total(Duration, logs) >= logs[k].duration
  {
    var init := logs[..|logs| - 1];
    if k < |init| {
      TotalAtLeast(init, k);
    } else if init != [] {
      TotalAtLeast(init, 0);
    }
  }

  /** No time for the named exchanges, and much for the others. */
  function OnlyUnnamed(logs: seq<ServerLog>): seq<nat> {
    seq(|logs|, i requires 0 <= i < |logs| => if ToolName(logs[i].request) == "" then |logs| * MILLISECOND else 0)
  }

  lemma SlowUnnamed(logs: seq<ServerLog>)
    requires "" in GroupNames(logs)
    ensures Latency(WithDurations(logs, OnlyUnnamed(logs))) >= 1
  {
    var w := WithDurations(logs, OnlyUnnamed(logs));
    var k :| 0 <= k < |logs| && "" == ToolName(logs[k].request);
    TotalAtLeast(w, k);
    assert w[k].duration == |logs| * MILLISECOND;
    WholeAverage(Total(Duration, w), |logs|);
  }

  lemma WholeAverage(total: int, n: nat)
    requires n > 0 && total >= n * MILLISECOND
    ensures AverageLatency(total, n) >= 1
  {
    QuotientAtLeast(total, MILLISECOND, n);
    QuotientAtLeast(total / MILLISECOND, n, 1);
  }

  lemma QuotientAtLeast(a: int, m: int, q: nat)
    requires m > 0 && a >= q * m
    ensures a / m >= q
  {
    if a / m < q { TimesMonotone(a / m + 1, q, m); }
  }

  lemma FastNamed(logs: seq<ServerLog>, name: string)
    requires name in ToolNames(logs)
    ensures name in ToolNames(WithDurations(logs, OnlyUnnamed(logs)))
    ensures ToolReport(WithDurations(logs, OnlyUnnamed(logs)), name).avgLatency == 0
  {
    var w := WithDurations(logs, OnlyUnnamed(logs));
    DurationsKeep(logs, OnlyUnnamed(logs));
    ByToolElements(w, name);
    GroupNotEmpty(w, name);
    forall l | l in ByTool(w, name) ensures l.duration == 0 {
      var i :| 0 <= i < |w| && w[i] == l;
    }
    ZeroTotal(ByTool(w, name));
  }

  /** For exchanges of which at least one names a tool, the bound holds however long they take exactly
      when every one names a tool: otherwise it fails when only the others take time. */
  lemma BoundHoldsIffAllNamed(logs: seq<ServerLog>)
    requires ToolNames(logs) != {}
    ensures (forall ds: seq<nat> :: |ds| == |logs| ==> BetweenTools(WithDurations(logs, ds)))
       <==> "" !in GroupNames(logs)
  {
    if "" in GroupNames(logs) {
      var w := WithDurations(logs, OnlyUnnamed(logs));
      DurationsKeep(logs, OnlyUnnamed(logs));
      SlowUnnamed(logs);
      forall n | n in ToolNames(w) ensures ToolReport(w, n).avgLatency == 0 {
        FastNamed(logs, n);
      }
      assert !BetweenTools(w);
    } else {
      forall ds: seq<nat> | |ds| == |logs|
        ensures BetweenTools(WithDurations(logs, ds))
      {
        DurationsKeep(logs, ds);
        var slow, fast := OverviewAverageBetweenTools(WithDurations(logs, ds));
      }
    }
  }

  // ----- change between periods -----

  function CalculatePercentageChange(previous: real, current: real): real {
    if previous == 0.0 then (if current == 0.0 then 0.0 else 1.0) else (current - previous) / previous
  }

  /** The change recovers the current value from the previous one, except from nothing, where it is none
      at all or the whole. */
  lemma ChangeRecoversCurrent(previous: real, current: real)
    ensures previous != 0.0 ==> previous * (1.0 + CalculatePercentageChange(previous, current)) == current
    ensures previous == 0.0 ==> CalculatePercentageChange(previous, current) == if current == 0.0 then 0.0 else 1.0
  {}

  // ----- counting distinct values -----

  /** The distinct values that are given. */
  function Values<T, P>(s: seq<T>, p: T -> Option<P>): set<P> {
    set i | 0 <= i < |s| && p(s[i]).Some? :: p(s[i]).value
  }

  method CountUniqueFunc<T, P(==, !new)>(s: seq<T>, p: T -> Option<P>) returns (n: nat)
    ensures n == |Values(s, p)|
  {
    var c: set<P> := {};
    var i := 0;
    while i < |s|
      invariant 0 <= i <= |s|
      invariant forall v :: v in c <==> exists j :: 0 <= j < i && p(s[j]) == Some(v)
    {
      var pv := p(s[i]);
      if pv.Some? {
        c := c + {pv.value};
      }
      i := i + 1;
    }
    forall v ensures v in c <==> v in Values(s, p) {
      if v in Values(s, p) {
        var j :| 0 <= j < |s| && p(s[j]).Some? && p(s[j]).value == v;
        assert p(s[j]) == Some(v);
      }
    }
    assert c == Values(s, p);
    n := |c|;
  }

  method CountUniqueSessions(logs: seq<ServerLog>) returns (n: nat)
    ensures n == |SessionKeys(logs)|
  {
    n := CountUniqueFunc(logs, SessionKey);
    assert Values(logs, SessionKey) == SessionKeys(logs);
  }

  method CountUniqueUsers(logs: seq<ServerLog>) returns (n: nat)
    ensures n == |UserIds(logs)|
  {
    n := CountUniqueFunc(logs, UserOf);
    assert Values(logs, UserOf) == UserIds(logs);
  }

  function UserOf(log: ServerLog): Option<Uuid> { log.userAccountId }

  function UserIds(logs: seq<ServerLog>): set<Uuid> {
    set i | 0 <= i < |logs| && logs[i].userAccountId.Some? :: logs[i].userAccountId.value
  }

  function SessionKeys(logs: seq<ServerLog>): set<string> {
    set i | 0 <= i < |logs| && SessionKey(logs[i]).Some? :: SessionKey(logs[i]).value
  }

  lemma SessionKeysAppend(logs: seq<ServerLog>, log: ServerLog)
    ensures SessionKeys(logs + [log])
         == SessionKeys(logs) + (if SessionKey(log).Some? then {SessionKey(log).value} else {})
  {
    var all := logs + [log];
    forall k ensures k in SessionKeys(all) <==> k in SessionKeys(logs) || SessionKey(log) == Some(k) {
      if k in SessionKeys(logs) {
        var i :| 0 <= i < |logs| && SessionKey(logs[i]) == Some(k);
        assert all[i] == logs[i];
      }
      if SessionKey(log) == Some(k) { assert all[|logs|] == log; }
    }
  }
}
