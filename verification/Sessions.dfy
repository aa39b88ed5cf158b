/** Recent sessions: a one-pass fold over the logs, read as a group-by over the session id. */
module Sessions {
  import opened Prelude
  import opened Schema
  import opened Logs
  import opened Slices
  import opened ToolsPerformance
  import opened Overview

  datatype SessionInfo = SessionInfo(
    sessionId: string, firstStartedAt: Time, lastStartedAt: Time, lastDuration: int,
    calls: int, errors: int, userAgent: string, lastToolCall: string)

  datatype RecentSession = RecentSession(
    sessionId: string, user: string, calls: int, errors: int, lastToolCall: string, startedAt: Time, endedAt: Time)

  function End(log: ServerLog): Time { log.startedAt + log.duration }

  // ----- the group of a session -----

  function BySession(logs: seq<ServerLog>, id: string): seq<ServerLog> {
    if logs == [] then []
    else
      var init, last := BySession(logs[..|logs| - 1], id), logs[|logs| - 1];
      if SessionKey(last) == Some(id) then init + [last] else init
  }

  lemma BySessionAppend(logs: seq<ServerLog>, log: ServerLog, id: string)
    ensures BySession(logs + [log], id) == if SessionKey(log) == Some(id) then BySession(logs, id) + [log]
      else BySession(logs, id)
  {
    assert (logs + [log])[..|logs + [log]| - 1] == logs;
  }

  lemma {:induction false} BySessionElements(logs: seq<ServerLog>, id: string)
    ensures forall l :: l in BySession(logs, id) <==> l in logs && SessionKey(l) == Some(id)
  {
    if logs != [] {
      BySessionElements(logs[..|logs| - 1], id);
      assert logs == logs[..|logs| - 1] + [logs[|logs| - 1]];
    }
  }

  /** The logs that belong to a session; the others are never looked at. */
  ghost predicate KeyedWellFormed(logs: seq<ServerLog>) {
    forall i :: 0 <= i < |logs| && SessionKey(logs[i]).Some? ==> WellFormed(logs[i])
  }

  lemma BySessionWellFormed(logs: seq<ServerLog>, id: string)
    requires KeyedWellFormed(logs)
    ensures AllWellFormed(BySession(logs, id))
  {
    BySessionElements(logs, id);
    var g := BySession(logs, id);
    forall i | 0 <= i < |g| ensures WellFormed(g[i]) {
      assert g[i] in g;
      var j :| 0 <= j < |logs| && logs[j] == g[i];
    }
  }

  lemma KeyHasLogs(logs: seq<ServerLog>, id: string)
    ensures id in SessionKeys(logs) <==> BySession(logs, id) != []
  {
    BySessionElements(logs, id);
    var g := BySession(logs, id);
    if id in SessionKeys(logs) {
      var i :| 0 <= i < |logs| && SessionKey(logs[i]) == Some(id);
      assert logs[i] in g;
    }
    if g != [] {
      assert g[0] in g;
      assert g[0] in logs;
    }
  }

  /** The latest end in the group, whatever the order of the logs. */
  ghost predicate LatestEnd(g: seq<ServerLog>, end: Time) {
    (exists i :: 0 <= i < |g| && End(g[i]) == end) && forall i :: 0 <= i < |g| ==> End(g[i]) <= end
  }

  /** The last value that is given, "" when none is. */
  function LastTool(g: seq<ServerLog>): string {
    if g == [] then ""
    else
      var n := ToolName(g[|g| - 1].request);
      if n != "" then n else LastTool(g[..|g| - 1])
  }

  function LastAgent(g: seq<ServerLog>): string {
    if g == [] then ""
    else if g[|g| - 1].userAgent.Some? then g[|g| - 1].userAgent.value
    else LastAgent(g[..|g| - 1])
  }

  /** The record summarises exactly this group. */
  ghost predicate Summarises(id: string, g: seq<ServerLog>, s: SessionInfo)
    requires AllWellFormed(g)
  {
    && g != [] && s.sessionId == id
    && s.calls == |g| && s.errors == Total(Errors, g)
    && s.firstStartedAt == g[0].startedAt
    && LatestEnd(g, s.lastStartedAt + s.lastDuration)
    && s.lastToolCall == LastTool(g) && s.userAgent == LastAgent(g)
  }

  // ----- the fold -----

  ghost predicate Folded(logs: seq<ServerLog>, data: map<string, SessionInfo>) {
    && data.Keys == SessionKeys(logs)
    && forall id :: id in data ==> AllWellFormed(BySession(logs, id)) && Summarises(id, BySession(logs, id), data[id])
  }

  method CollectSessions(logs: seq<ServerLog>) returns (sessionData: map<string, SessionInfo>)
    requires KeyedWellFormed(logs)
    ensures Folded(logs, sessionData)
  {
    sessionData := map[];
    var i := 0;
    while i < |logs|
      invariant 0 <= i <= |logs|
      invariant Folded(logs[..i], sessionData)
    {
      assert logs[..i + 1] == logs[..i] + [logs[i]];
      ghost var before := sessionData;
      sessionData := FoldLog(sessionData, logs[i]);
      FoldOne(logs[..i], logs[i], before, sessionData);
      i := i + 1;
    }
    assert logs[..i] == logs;
  }

  /** One log's effect on the record of its own session. */
  ghost predicate Absorbs(before: Option<SessionInfo>, log: ServerLog, id: string, s: SessionInfo)
    requires WellFormed(log)
  {
    && s.sessionId == (if before.Some? then before.value.sessionId else id)
    && s.calls == (if before.Some? then before.value.calls else 0) + 1
    && s.errors == (if before.Some? then before.value.errors else 0) + (if IsError(log) then 1 else 0)
    && s.firstStartedAt == (if before.Some? then before.value.firstStartedAt else log.startedAt)
    && s.lastStartedAt + s.lastDuration
       == (if before.Some? && before.value.lastStartedAt + before.value.lastDuration >= End(log)
           then before.value.lastStartedAt + before.value.lastDuration else End(log))
    && s.userAgent == (if log.userAgent.Some? then log.userAgent.value else if before.Some? then before.value.userAgent
        else "")
    && s.lastToolCall == (if ToolName(log.request) != "" then ToolName(log.request)
                          else if before.Some? then before.value.lastToolCall else "")
  }

  /** The body of the loop. */
  method FoldLog(data: map<string, SessionInfo>, log: ServerLog) returns (sessionData: map<string, SessionInfo>)
    requires SessionKey(log).Some? ==> WellFormed(log)
    ensures SessionKey(log).None? ==> sessionData == data
    ensures SessionKey(log).Some? ==>
      var id := SessionKey(log).value;
      && id in sessionData && sessionData == data[id := sessionData[id]]
      && Absorbs(if id in data then Some(data[id]) else None, log, id, sessionData[id])
  {
    sessionData := data;
    var sessionId := SessionKey(log);
    if sessionId.None? {
      return;
    }
    var session: SessionInfo;
    if sessionId.value !in data {
      session := SessionInfo(sessionId.value, log.startedAt, log.startedAt, log.duration, 0, 0, "", "");
    } else {
      session := data[sessionId.value];
      if session.lastStartedAt + session.lastDuration < log.startedAt + log.duration {
        session := session.(lastStartedAt := log.startedAt, lastDuration := log.duration);
      }
    }
    session := session.(calls := session.calls + 1);
    if IsError(log) {
      session := session.(errors := session.errors + 1);
    }
    if log.userAgent.Some? {
      session := session.(userAgent := log.userAgent.value);
    }
    var toolName := ToolName(log.request);
    if toolName != "" {
      session := session.(lastToolCall := toolName);
    }
    sessionData := data[sessionId.value := session];
  }

  lemma AbsorbedSummary(id: string, g: seq<ServerLog>, log: ServerLog, before: Option<SessionInfo>, s: SessionInfo)
    requires AllWellFormed(g) && WellFormed(log)
    requires if g == [] then before.None? else before.Some? && Summarises(id, g, before.value)
    requires Absorbs(before, log, id, s)
    ensures AllWellFormed(g + [log]) && Summarises(id, g + [log], s)
  {
    var g' := g + [log];
    TotalAppend(Errors, g, log);
    assert g'[..|g'| - 1] == g;
    var previous := if before.Some? then before.value.lastStartedAt + before.value.lastDuration else End(log);
    LatestEndAppend(g, log, s.lastStartedAt + s.lastDuration, previous);
  }

  lemma LatestEndAppend(g: seq<ServerLog>, log: ServerLog, end: Time, previous: Time)
    requires g != [] ==> LatestEnd(g, previous)
    requires end == if g != [] && previous >= End(log) then previous else End(log)
    ensures LatestEnd(g + [log], end)
  {
    var g' := g + [log];
    if end == End(log) {
      assert End(g'[|g|]) == end;
    } else {
      var i :| 0 <= i < |g| && End(g[i]) == previous;
      assert End(g'[i]) == end;
    }
  }

  lemma FoldOne(logs: seq<ServerLog>, log: ServerLog, data: map<string, SessionInfo>, data': map<string, SessionInfo>)
    requires (SessionKey(log).Some? ==> WellFormed(log)) && KeyedWellFormed(logs) && Folded(logs, data)
    requires SessionKey(log).None? ==> data' == data
    requires SessionKey(log).Some? ==>
      var id := SessionKey(log).value;
      && id in data' && data' == data[id := data'[id]]
      && Absorbs(if id in data then Some(data[id]) else None, log, id, data'[id])
    ensures Folded(logs + [log], data')
  {
    SessionKeysAppend(logs, log);
    forall id | id in data'
      ensures AllWellFormed(BySession(logs + [log], id)) && Summarises(id, BySession(logs + [log], id), data'[id])
    {
      BySessionAppend(logs, log, id);
      BySessionWellFormed(logs, id);
      KeyHasLogs(logs, id);
      if SessionKey(log) == Some(id) {
        AbsorbedSummary(id, BySession(logs, id), log, if id in data then Some(data[id]) else None, data'[id]);
      }
    }
  }

  // ----- the report -----

  function Recent(s: SessionInfo, normalize: string -> string): RecentSession {
    RecentSession(s.sessionId, normalize(s.userAgent), s.calls, s.errors, s.lastToolCall, s.firstStartedAt,
        s.lastStartedAt + s.lastDuration)
  }

  /** What a reported session says about the logs of its session id. */
  ghost predicate ReportsSession(logs: seq<ServerLog>, normalize: string -> string, r: RecentSession)
    requires KeyedWellFormed(logs)
  {
    BySessionWellFormed(logs, r.sessionId);
    var g := BySession(logs, r.sessionId);
    && g != []
    && r.calls == |g| && r.errors == Total(Errors, g)
    && r.startedAt == g[0].startedAt && LatestEnd(g, r.endedAt)
    && r.lastToolCall == LastTool(g) && r.user == normalize(LastAgent(g))
  }

  /** One report for each of these session ids. */
  ghost predicate ReportsSessions(logs: seq<ServerLog>, normalize: string -> string, ids: set<string>,
      l: seq<RecentSession>)
    requires KeyedWellFormed(logs)
  {
    && (forall i :: 0 <= i < |l| ==> l[i].sessionId in ids && ReportsSession(logs, normalize, l[i]))
    && (forall i, j :: 0 <= i < j < |l| ==> l[i].sessionId != l[j].sessionId)
    && |l| == |ids|
  }

  function SessionIdList(l: seq<RecentSession>): seq<string> { seq(|l|, i requires 0 <= i < |l| => l[i].sessionId) }

  lemma SessionIdsCover(logs: seq<ServerLog>, normalize: string -> string, l: seq<RecentSession>)
    requires KeyedWellFormed(logs) && ReportsSessions(logs, normalize, SessionKeys(logs), l)
    ensures Distinct(SessionIdList(l)) && forall id :: id in SessionKeys(logs) ==> id in SessionIdList(l)
  {
    DistinctCovers(SessionIdList(l), SessionKeys(logs));
  }

  /** Ends are compared in whole milliseconds, later first. */
  function ByEnd(a: RecentSession, b: RecentSession): int { Milliseconds(b.endedAt - a.endedAt) }

  ghost predicate LatestFirst(l: seq<RecentSession>) {
    forall i, j :: 0 <= i < j < |l| ==> l[i].endedAt >= l[j].endedAt
  }

  ghost predicate WholeMilliseconds(logs: seq<ServerLog>) {
    forall i :: 0 <= i < |logs| ==> End(logs[i]) % MILLISECOND == 0
  }

  lemma AddSession(logs: seq<ServerLog>, normalize: string -> string, ids: set<string>, l: seq<RecentSession>,
      id: string, r: RecentSession)
    requires KeyedWellFormed(logs) && ReportsSessions(logs, normalize, ids, l)
    requires r.sessionId == id && id !in ids && ReportsSession(logs, normalize, r)
    ensures ReportsSessions(logs, normalize, ids + {id}, l + [r])
  {}

  method ListSessions(logs: seq<ServerLog>, sessionData: map<string, SessionInfo>, normalize: string -> string)
      returns (sessions: seq<RecentSession>)
    requires KeyedWellFormed(logs) && Folded(logs, sessionData)
    ensures ReportsSessions(logs, normalize, SessionKeys(logs), sessions)
  {
    sessions := [];
    var rest := sessionData.Keys;
    ghost var done := {};
    while rest != {}
      invariant forall id :: id in sessionData <==> id in done || id in rest
      invariant forall id :: id in done ==> id !in rest
      invariant ReportsSessions(logs, normalize, done, sessions)
      decreases rest
    {
      var id :| id in rest;
      var session := Recent(sessionData[id], normalize);
      RecentReports(logs, sessionData, id, normalize);
      AddSession(logs, normalize, done, sessions, id, session);
      sessions, rest, done := sessions + [session], rest - {id}, done + {id};
    }
    assert rest == {} && done == sessionData.Keys;
  }

  lemma RecentReports(logs: seq<ServerLog>, data: map<string, SessionInfo>, id: string, normalize: string -> string)
    requires KeyedWellFormed(logs) && Folded(logs, data) && id in data
    ensures Recent(data[id], normalize).sessionId == id && ReportsSession(logs, normalize, Recent(data[id], normalize))
  {}

  /** Exactly one session per session id, with exact counts, in an order that the sort allows: most
      recently ended first whenever no two sessions end at different times of one millisecond. */
  method CalculateRecentSessions(logs: seq<ServerLog>, normalize: string -> string)
      returns (sessions: seq<RecentSession>)
    requires KeyedWellFormed(logs)
    ensures ReportsSessions(logs, normalize, SessionKeys(logs), sessions)
    ensures SortResult(sessions, ByEnd, sessions)
    ensures CloseIsTransitive(Slices.Elements(sessions)) ==> Sorted(sessions, ByEnd)
    ensures EndsApart(logs) ==> LatestFirst(sessions)
    ensures WholeMilliseconds(logs) ==> LatestFirst(sessions)
  {
    var sessionData := CollectSessions(logs);
    var unsorted := ListSessions(logs, sessionData, normalize);
    sessions := SortFunc(unsorted, ByEnd);
    SameMembers(unsorted, sessions);
    assert Slices.Elements(sessions) == Slices.Elements(unsorted);
    ComparisonOrdersIff(Slices.Elements(unsorted));
    PermutationDistinct(unsorted, sessions);
    PermutedSessions(logs, normalize, unsorted, sessions);
    if WholeMilliseconds(logs) { WholeEndsApart(logs); }
    if EndsApart(logs) {
      ApartIff(logs, normalize, unsorted);
      ApartSorts(unsorted, sessions);
    }
  }

  lemma PermutedSessions(logs: seq<ServerLog>, normalize: string -> string, l: seq<RecentSession>,
      l': seq<RecentSession>)
    requires KeyedWellFormed(logs) && ReportsSessions(logs, normalize, SessionKeys(logs), l)
    requires |l'| == |l| && (forall x :: x in l' <==> x in l)
    requires forall i, j :: 0 <= i < j < |l'| ==> l'[i] != l'[j]
    ensures ReportsSessions(logs, normalize, SessionKeys(logs), l')
  {
    forall i | 0 <= i < |l'| ensures l'[i].sessionId in SessionKeys(logs) && ReportsSession(logs, normalize, l'[i]) {
      assert l'[i] in l;
    }
    forall i, j | 0 <= i < j < |l'| ensures l'[i].sessionId != l'[j].sessionId {
      assert l'[i] in l && l'[j] in l;
    }
  }

  // ----- when the list is in order -----

  /** The session of this id ends then. */
  ghost predicate GroupEnd(logs: seq<ServerLog>, id: string, end: Time) {
    id in SessionKeys(logs) && LatestEnd(BySession(logs, id), end)
  }

  /** Sessions that end less than a millisecond apart end at the same time. */
  ghost predicate EndsApart(logs: seq<ServerLog>) {
    forall x, y, a, b :: GroupEnd(logs, x, a) && GroupEnd(logs, y, b) && -MILLISECOND < b - a < MILLISECOND ==> a == b
  }

  ghost predicate Apart(l: seq<RecentSession>) {
    forall x, y :: x in l && y in l && Close(x, y) ==> x.endedAt == y.endedAt
  }

  lemma GroupReported(logs: seq<ServerLog>, normalize: string -> string, l: seq<RecentSession>, id: string, end: Time)
      returns (r: RecentSession)
    requires KeyedWellFormed(logs) && ReportsSessions(logs, normalize, SessionKeys(logs), l) && GroupEnd(logs, id, end)
    ensures r in l && r.sessionId == id && r.endedAt == end
  {
    SessionIdsCover(logs, normalize, l);
    var i :| 0 <= i < |SessionIdList(l)| && SessionIdList(l)[i] == id;
    r := l[i];
    assert ReportsSession(logs, normalize, l[i]);
  }

  lemma ApartIff(logs: seq<ServerLog>, normalize: string -> string, l: seq<RecentSession>)
    requires KeyedWellFormed(logs) && ReportsSessions(logs, normalize, SessionKeys(logs), l)
    ensures EndsApart(logs) <==> Apart(l)
  {
    if EndsApart(logs) {
      forall x, y | x in l && y in l && Close(x, y) ensures x.endedAt == y.endedAt {
        assert GroupEnd(logs, x.sessionId, x.endedAt) && GroupEnd(logs, y.sessionId, y.endedAt);
      }
    }
    if Apart(l) {
      forall x, y, a, b | GroupEnd(logs, x, a) && GroupEnd(logs, y, b) && -MILLISECOND < b - a < MILLISECOND
          ensures a == b {
        var r := GroupReported(logs, normalize, l, x, a);
        var s := GroupReported(logs, normalize, l, y, b);
        assert Close(r, s);
      }
    }
  }

  /** Then the comparison orders the sessions, and sorting puts the latest end first. */
  lemma ApartSorts(l: seq<RecentSession>, r: seq<RecentSession>)
    requires Apart(l) && SortResult(l, ByEnd, r)
    ensures LatestFirst(r)
  {
    SameMembers(l, r);
    ComparisonOrdersIff(Slices.Elements(l));
    forall i, j | 0 <= i < j < |r| ensures r[i].endedAt >= r[j].endedAt {
      assert r[i] in l && r[j] in l && ByEnd(r[i], r[j]) <= 0;
      MillisecondSign(r[j].endedAt - r[i].endedAt);
      assert r[j].endedAt > r[i].endedAt ==> Close(r[i], r[j]);
    }
  }

  /** Sessions that end less than a millisecond apart can change places in a result of the sort. */
  lemma SwapClose(l: seq<RecentSession>, r: seq<RecentSession>, i: nat, j: nat)
    requires SortResult(l, ByEnd, r) && i < j < |r| && Close(r[i], r[j])
    ensures SortResult(l, ByEnd, r[i := r[j]][j := r[i]])
  {
    SameMembers(l, r);
    assert Slices.Elements(r) == Slices.Elements(l);
    MillisecondSign(r[i].endedAt - r[j].endedAt);
    if Ordering(Slices.Elements(l), ByEnd) { SwapTied(r, i, j, ByEnd); }
    assert multiset(r[i := r[j]][j := r[i]]) == multiset(r);
  }

  lemma EarlyFirst(r: seq<RecentSession>, i: nat, j: nat)
    requires i < j < |r| && r[i].endedAt < r[j].endedAt
    ensures !LatestFirst(r)
  {}

  /** Otherwise some result of the sort has a session before one that ends later. */
  lemma TooClose(l: seq<RecentSession>) returns (r: seq<RecentSession>)
    requires !Apart(l)
    ensures SortResult(l, ByEnd, r) && !LatestFirst(r)
  {
    var x, y :| x in l && y in l && Close(x, y) && x.endedAt != y.endedAt;
    r := SortExists(l, ByEnd);
    SameMembers(l, r);
    var i :| 0 <= i < |r| && r[i] == x;
    var j :| 0 <= j < |r| && r[j] == y;
    var first, second := if i < j then i else j, if i < j then j else i;
    if r[first].endedAt > r[second].endedAt {
      SwapClose(l, r, first, second);
      r := r[first := r[second]][second := r[first]];
    }
    EarlyFirst(r, first, second);
  }

  /** Every list that the sort may return has the latest end first exactly when sessions that end less
      than a millisecond apart end at the same time. */
  lemma LatestFirstIff(logs: seq<ServerLog>, normalize: string -> string, unsorted: seq<RecentSession>)
    requires KeyedWellFormed(logs) && ReportsSessions(logs, normalize, SessionKeys(logs), unsorted)
    ensures (forall r :: SortResult(unsorted, ByEnd, r) ==> LatestFirst(r)) <==> EndsApart(logs)
  {
    ApartIff(logs, normalize, unsorted);
    if Apart(unsorted) {
      forall r | SortResult(unsorted, ByEnd, r) ensures LatestFirst(r) {
        ApartSorts(unsorted, r);
      }
    } else {
      var r := TooClose(unsorted);
    }
  }

  /** Whole milliseconds are one sufficient condition. */
  lemma WholeEndsApart(logs: seq<ServerLog>)
    requires WholeMilliseconds(logs)
    ensures EndsApart(logs)
  {
    forall x, a | GroupEnd(logs, x, a) ensures a % MILLISECOND == 0 {
      BySessionElements(logs, x);
      var g := BySession(logs, x);
      var i :| 0 <= i < |g| && End(g[i]) == a;
      assert g[i] in g;
      assert g[i] in logs;
    }
  }

  lemma MillisecondSign(d: int)
    ensures Milliseconds(d) > 0 <==> d >= MILLISECOND
    ensures Milliseconds(d) < 0 <==> d <= -MILLISECOND
  {}

  // ----- when the comparison orders the sessions -----

  ghost predicate Close(a: RecentSession, b: RecentSession) {
    -MILLISECOND < b.endedAt - a.endedAt < MILLISECOND
  }

  /** Ending within a millisecond of each other is transitive among these sessions. */
  ghost predicate CloseIsTransitive(s: set<RecentSession>) {
    forall x, y, z :: x in s && y in s && z in s && Close(x, y) && Close(y, z) ==> Close(x, z)
  }

  /** The comparison is a strict weak ordering, as slices.SortFunc needs, exactly when ending within a
      millisecond is transitive. */
  lemma ComparisonOrdersIff(s: set<RecentSession>)
    ensures Ordering(s, ByEnd) <==> CloseIsTransitive(s)
  {
    forall x, y ensures ByEnd(x, y) > 0 <==> y.endedAt - x.endedAt >= MILLISECOND
                ensures ByEnd(x, y) < 0 <==> y.endedAt - x.endedAt <= -MILLISECOND
    {
      MillisecondSign(y.endedAt - x.endedAt);
    }
    if Ordering(s, ByEnd) {
      forall x, y, z | x in s && y in s && z in s && Close(x, y) && Close(y, z) ensures Close(x, z) {
        assert ByEnd(x, y) <= 0 && ByEnd(y, z) <= 0 && ByEnd(z, y) <= 0 && ByEnd(y, x) <= 0;
        assert ByEnd(x, z) <= 0 && ByEnd(z, x) <= 0;
      }
    }
    if CloseIsTransitive(s) {
      forall x, y, z | x in s && y in s && z in s && ByEnd(x, y) <= 0 && ByEnd(y, z) <= 0 ensures ByEnd(x, z) <= 0 {
        assert Close(x, y) && Close(y, z) ==> Close(x, z);
      }
    }
  }

  /** It can fail: three sessions ending 0.6 milliseconds apart. */
  lemma ComparisonMayNotOrder(a: RecentSession, b: RecentSession, c: RecentSession)
    requires b.endedAt == a.endedAt + 600_000 && c.endedAt == b.endedAt + 600_000
    ensures !Ordering({a, b, c}, ByEnd)
  {
    ComparisonOrdersIff({a, b, c});
    assert Close(a, b) && Close(b, c) && !Close(a, c);
  }

  // ----- logs sorted by start -----

  ghost predicate SortedByStart(logs: seq<ServerLog>) {
    forall i, j :: 0 <= i < j < |logs| ==> logs[i].startedAt <= logs[j].startedAt
  }

  /** When the logs come sorted by start, a session starts with its earliest log. */
  lemma StartIsEarliest(logs: seq<ServerLog>, normalize: string -> string, r: RecentSession)
    requires KeyedWellFormed(logs) && SortedByStart(logs) && ReportsSession(logs, normalize, r)
    ensures forall l :: l in logs && SessionKey(l) == Some(r.sessionId) ==> r.startedAt <= l.startedAt
    ensures exists l :: l in logs && SessionKey(l) == Some(r.sessionId) && l.startedAt == r.startedAt
  {
    var g := BySession(logs, r.sessionId);
    BySessionElements(logs, r.sessionId);
    BySessionSorted(logs, r.sessionId);
    assert g[0] in g;
    forall l | l in logs && SessionKey(l) == Some(r.sessionId) ensures r.startedAt <= l.startedAt {
      assert l in g;
      var i :| 0 <= i < |g| && g[i] == l;
    }
  }

  lemma {:induction false} BySessionSorted(logs: seq<ServerLog>, id: string)
    requires SortedByStart(logs)
    ensures SortedByStart(BySession(logs, id))
  {
    if logs != [] {
      var init, last := logs[..|logs| - 1], logs[|logs| - 1];
      BySessionSorted(init, id);
      BySessionElements(init, id);
      var g := BySession(init, id);
      forall i | 0 <= i < |g| ensures g[i].startedAt <= last.startedAt {
        assert g[i] in g;
        assert g[i] in init;
        var j :| 0 <= j < |init| && init[j] == g[i];
      }
    }
  }

  /** Log `i` has this tool name and no later log has any. */
  ghost predicate LastNamedAt(g: seq<ServerLog>, name: string, i: int) {
    0 <= i < |g| && ToolName(g[i].request) == name && forall j :: i < j < |g| ==> ToolName(g[j].request) == ""
  }

  /** The last tool call is the name of the last log of the session that has one. */
  lemma {:induction false} LastToolIsLast(g: seq<ServerLog>)
    ensures LastTool(g) == "" <==> forall i :: 0 <= i < |g| ==> ToolName(g[i].request) == ""
    ensures LastTool(g) != "" ==> exists i :: LastNamedAt(g, LastTool(g), i)
  {
    if g != [] {
      var init, last := g[..|g| - 1], g[|g| - 1];
      LastToolIsLast(init);
      if ToolName(last.request) != "" {
        assert LastNamedAt(g, LastTool(g), |g| - 1);
      } else if LastTool(init) != "" {
        var i :| LastNamedAt(init, LastTool(init), i);
        assert ToolName(g[i].request) != "";
        assert LastNamedAt(g, LastTool(g), i);
      } else {
        forall i | 0 <= i < |g| ensures ToolName(g[i].request) == "" {
          assert i < |init| ==> ToolName(init[i].request) == "";
        }
      }
    }
  }

  lemma {:induction false} LastAgentIsLast(g: seq<ServerLog>)
    ensures (forall i :: 0 <= i < |g| ==> g[i].userAgent.None?) ==> LastAgent(g) == ""
    ensures (exists i :: 0 <= i < |g| && g[i].userAgent.Some?) ==>
      exists i :: 0 <= i < |g| && g[i].userAgent == Some(LastAgent(g)) && forall j :: i < j < |g| ==>
          g[j].userAgent.None?
  {
    if g != [] {
      var init := g[..|g| - 1];
      LastAgentIsLast(init);
      if g[|g| - 1].userAgent.None? {
        if k :| 0 <= k < |g| && g[k].userAgent.Some? {
          assert init[k].userAgent.Some?;
          var i :| 0 <= i < |init| && init[i].userAgent == Some(LastAgent(init)) && forall j :: i < j < |init| ==>
              init[j].userAgent.None?;
          assert g[i].userAgent == Some(LastAgent(g));
        }
      }
    }
  }
}
