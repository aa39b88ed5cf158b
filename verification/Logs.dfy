/** The logs the analytics read: errors, tool names, arguments, sessions, and the groups that the
    one-pass loops refine. */
module Logs {
  import opened Prelude
  import opened Schema

  // ----- one log -----

  const TOOLS_CALL := "tools/call"

  /** IsError dereferences the request when there is a response without an error. */
  predicate WellFormed(log: ServerLog) {
    || (log.httpStatusCode.Some? && log.httpStatusCode.value >= 400)
    || log.response.None? || log.response.value.hasError
    || log.request.Some?
  }

  predicate IsError(log: ServerLog)
    requires WellFormed(log)
  {
    if log.httpStatusCode.Some? && log.httpStatusCode.value >= 400 then true
    else if log.response.None? then false
    else if log.response.value.hasError then true
    else if log.request.value.rpc == TOOLS_CALL
            && log.response.value.result.Some? && log.response.value.result.value.CallResult? then
      log.response.value.result.value.isError
    else false
  }

  /** The name of the called tool, the method of any other request, "" without a request. */
  function ToolName(request: Option<Request>): string {
    if request.None? then ""
    else if request.value.rpc == TOOLS_CALL && request.value.params.Some? && request.value.params.value.Call? then
      request.value.params.value.name
    else request.value.rpc
  }

  function Arguments(request: Option<Request>): map<string, string> {
    if request.Some? && request.value.rpc == TOOLS_CALL && request.value.params.Some?
       && request.value.params.value.Call? && request.value.params.value.arguments.Some?
    then request.value.params.value.arguments.value
    else map[]
  }

  function SessionKey(log: ServerLog): Option<string> {
    if log.sessionId.Some? && log.sessionId.value != "" then log.sessionId else None
  }

  ghost predicate AllWellFormed(logs: seq<ServerLog>) {
    forall i :: 0 <= i < |logs| ==> WellFormed(logs[i])
  }

  // ----- measures of a list of logs -----

  datatype Measure = Calls | Errors | Duration

  function Weight(m: Measure, log: ServerLog): int
    requires m.Errors? ==> WellFormed(log)
  {
    match m
    case Calls => 1
    case Errors => if IsError(log) then 1 else 0
    case Duration => log.duration
  }

  function Total(m: Measure, logs: seq<ServerLog>): int
    requires m.Errors? ==> AllWellFormed(logs)
  {
    if logs == [] then 0 else Total(m, logs[..|logs| - 1]) + Weight(m, logs[|logs| - 1])
  }

  lemma TotalAppend(m: Measure, logs: seq<ServerLog>, log: ServerLog)
    requires m.Errors? ==> AllWellFormed(logs) && WellFormed(log)
    ensures m.Errors? ==> AllWellFormed(logs + [log])
    ensures Total(m, logs + [log]) == Total(m, logs) + Weight(m, log)
  {
    assert (logs + [log])[..|logs + [log]| - 1] == logs;
  }

  lemma {:induction false} TotalCallsIsLength(logs: seq<ServerLog>)
    ensures Total(Calls, logs) == |logs|
  {
    if logs != [] { TotalCallsIsLength(logs[..|logs| - 1]); }
  }

  lemma {:induction false} ErrorsWithinCalls(logs: seq<ServerLog>)
    requires AllWellFormed(logs)
    ensures 0 <= Total(Errors, logs) <= |logs|
  {
    if logs != [] { ErrorsWithinCalls(logs[..|logs| - 1]); }
  }

  // ----- groups by tool name -----

  /** The logs with this tool name, in order. */
  function ByTool(logs: seq<ServerLog>, name: string): seq<ServerLog> {
    if logs == [] then []
    else
      var init, last := ByTool(logs[..|logs| - 1], name), logs[|logs| - 1];
      if ToolName(last.request) == name then init + [last] else init
  }

  lemma {:induction false} ByToolElements(logs: seq<ServerLog>, name: string)
    ensures forall l :: l in ByTool(logs, name) <==> l in logs && ToolName(l.request) == name
  {
    if logs != [] {
      ByToolElements(logs[..|logs| - 1], name);
      assert logs == logs[..|logs| - 1] + [logs[|logs| - 1]];
    }
  }

  /** A log with a tool name has a request, so it is never one the error check fails on. */
  lemma ByToolWellFormed(logs: seq<ServerLog>, name: string)
    requires name != "" || AllWellFormed(logs)
    ensures AllWellFormed(ByTool(logs, name))
  {
    ByToolElements(logs, name);
    var g := ByTool(logs, name);
    forall i | 0 <= i < |g| ensures WellFormed(g[i]) { assert g[i] in g; }
  }

  lemma ByToolAppend(logs: seq<ServerLog>, log: ServerLog, name: string)
    ensures ByTool(logs + [log], name) == if ToolName(log.request) == name then ByTool(logs, name) + [log]
      else ByTool(logs, name)
  {
    assert (logs + [log])[..|logs + [log]| - 1] == logs;
  }

  /** All group names, "" included when some log has no tool name. */
  function GroupNames(logs: seq<ServerLog>): set<string> {
    set i | 0 <= i < |logs| :: ToolName(logs[i].request)
  }

  /** The tools: names that are not empty. */
  function ToolNames(logs: seq<ServerLog>): set<string> { GroupNames(logs) - {""} }

  lemma GroupNamesAppend(logs: seq<ServerLog>, log: ServerLog)
    ensures GroupNames(logs + [log]) == GroupNames(logs) + {ToolName(log.request)}
  {
    var all := logs + [log];
    forall n ensures n in GroupNames(all) <==> n in GroupNames(logs) + {ToolName(log.request)} {
      if n in GroupNames(logs) {
        var i :| 0 <= i < |logs| && n == ToolName(logs[i].request);
        assert all[i] == logs[i];
      }
      if n == ToolName(log.request) { assert all[|logs|] == log; }
    }
  }

  lemma GroupNotEmpty(logs: seq<ServerLog>, name: string)
    ensures name in GroupNames(logs) <==> ByTool(logs, name) != []
  {
    ByToolElements(logs, name);
    if name in GroupNames(logs) {
      var i :| 0 <= i < |logs| && name == ToolName(logs[i].request);
      assert logs[i] in ByTool(logs, name);
    }
    if ByTool(logs, name) != [] {
      assert ByTool(logs, name)[0] in ByTool(logs, name);
      assert ByTool(logs, name)[0] in logs;
    }
  }

  // ----- sums over groups -----

  ghost predicate Distinct(names: seq<string>) {
    forall i, j :: 0 <= i < j < |names| ==> names[i] != names[j]
  }

  /** The sum of a measure over the groups of the listed names. */
  function GroupSum(m: Measure, logs: seq<ServerLog>, names: seq<string>): int
    requires m.Errors? ==> AllWellFormed(logs)
  {
    if names == [] then 0
    else
      assert m.Errors? ==> AllWellFormed(ByTool(logs, names[0])) by {
        if m.Errors? { ByToolWellFormed(logs, names[0]); }
      }
      Total(m, ByTool(logs, names[0])) + GroupSum(m, logs, names[1..])
  }

  lemma {:induction false} GroupSumAppend(m: Measure, logs: seq<ServerLog>, log: ServerLog, names: seq<string>)
    requires m.Errors? ==> AllWellFormed(logs) && WellFormed(log)
    requires Distinct(names)
    ensures m.Errors? ==> AllWellFormed(logs + [log])
    ensures GroupSum(m, logs + [log], names)
         == GroupSum(m, logs, names) + if ToolName(log.request) in names then Weight(m, log) else 0
  {
    if names != [] {
      GroupSumAppend(m, logs, log, names[1..]);
      ByToolAppend(logs, log, names[0]);
      if m.Errors? { ByToolWellFormed(logs, names[0]); }
      if ToolName(log.request) == names[0] {
        TotalAppend(m, ByTool(logs, names[0]), log);
        assert names[0] !in names[1..];
      }
    }
  }

  lemma {:induction false} EmptyGroupSum(m: Measure, names: seq<string>)
    ensures GroupSum(m, [], names) == 0
  {
    if names != [] { EmptyGroupSum(m, names[1..]); }
  }

  /** Logs whose tool name is listed. */
  function Listed(logs: seq<ServerLog>, names: seq<string>): seq<ServerLog> {
    if logs == [] then []
    else
      var init, last := Listed(logs[..|logs| - 1], names), logs[|logs| - 1];
      if ToolName(last.request) in names then init + [last] else init
  }

  lemma {:induction false} ListedWellFormed(logs: seq<ServerLog>, names: seq<string>)
    requires AllWellFormed(logs)
    ensures AllWellFormed(Listed(logs, names))
  {
    if logs != [] { ListedWellFormed(logs[..|logs| - 1], names); }
  }

  /** The groups partition the logs: summing a measure over distinct groups is summing it over the
      logs that belong to them. */
  lemma {:induction false} GroupsPartition(m: Measure, logs: seq<ServerLog>, names: seq<string>)
    requires (m.Errors? ==> AllWellFormed(logs)) && Distinct(names)
    ensures m.Errors? ==> AllWellFormed(Listed(logs, names))
    ensures GroupSum(m, logs, names) == Total(m, Listed(logs, names))
  {
    if m.Errors? { ListedWellFormed(logs, names); }
    if logs == [] {
      EmptyGroupSum(m, names);
    } else {
      var init, last := logs[..|logs| - 1], logs[|logs| - 1];
      assert logs == init + [last];
      GroupsPartition(m, init, names);
      GroupSumAppend(m, init, last, names);
      if ToolName(last.request) in names { TotalAppend(m, Listed(init, names), last); }
    }
  }
}
