/** Where the stored logs come from and what a report adds to the usage of an organization. */
module Usage {
  import opened Prelude
  import opened Schema
  import opened Queries
  import opened Store
  import opened Api
  import opened Invariants
  import opened Reports
  import UuidText

  /** The log records a report that the run received for the log's revision. */
  ghost predicate Reported(steps: seq<Step>, log: ServerLog) {
    exists i :: 0 <= i < |steps| && ReportedBy(steps[i], log)
  }

  ghost predicate ReportedBy(step: Step, log: ServerLog) {
    && step.operation.ReceiveReport? && UuidText.Parse(step.operation.param) == Some(log.revisionId)
    && Records(log, step.operation.report)
  }

  /** A log after a step was there before or records the step's report. */
  lemma StepLog(w: World, parse: string -> Option<ParsedUrl>, step: Step, l: Uuid)
    requires Invariant(w.tables) && l in Respond(w, parse, step).0.tables.logs
    ensures var log := Respond(w, parse, step).0.tables.logs[l];
      (l in w.tables.logs && w.tables.logs[l] == log) || ReportedBy(step, log)
  {
    if step.operation.ReceiveReport? {
      ReportLog(w, step.operation.param, step.operation.report, step.env, l);
    } else {
      KeptLog(w, parse, step, l);
    }
  }

  lemma ReportLog(w: World, param: string, report: Report, env: Env, l: Uuid)
    requires Invariant(w.tables) && l in PostReport(w, param, report, env).0.tables.logs
    ensures var log := PostReport(w, param, report, env).0.tables.logs[l];
      || (l in w.tables.logs && w.tables.logs[l] == log)
      || (UuidText.Parse(param) == Some(log.revisionId) && Records(log, report))
  {
    var id := UuidText.Parse(param);
    if id.Some? {
      ReportLandsInItsProject(w, param, id.value, report, env, NIL);
    } else {
      ReportStatus(w, param, report, env);
    }
  }

  lemma KeptLog(w: World, parse: string -> Option<ParsedUrl>, step: Step, l: Uuid)
    requires Invariant(w.tables) && l in Respond(w, parse, step).0.tables.logs && !step.operation.ReceiveReport?
    ensures l in w.tables.logs && w.tables.logs[l] == Respond(w, parse, step).0.tables.logs[l]
  {
    var t' := Respond(w, parse, step).0.tables;
    RespondKeepsInvariant(w, parse, step);
    StepLogs(w, parse, step, t'.logs[l].projectId);
    assert l in LogsOfProject(t', t'.logs[l].projectId);
  }

  /** In every reachable state every stored log records, column by column, a report that was received for
      its revision: nothing else writes a log, and nothing changes one. */
  lemma {:induction false} EveryLogIsReported(parse: string -> Option<ParsedUrl>, steps: seq<Step>, l: Uuid)
    requires Invariant(START.tables) && l in Run(START, parse, steps).tables.logs
    ensures Reported(steps, Run(START, parse, steps).tables.logs[l])
    decreases |steps|
  {
    if steps != [] {
      var init, last := steps[..|steps| - 1], steps[|steps| - 1];
      var before := Run(START, parse, init);
      if l in before.tables.logs { EveryLogIsReported(parse, init, l); }
      StepReported(before, parse, init, last, steps, l);
    }
  }

  lemma StepReported(w: World, parse: string -> Option<ParsedUrl>, init: seq<Step>, last: Step,
      steps: seq<Step>, l: Uuid)
    requires Invariant(w.tables) && l in Respond(w, parse, last).0.tables.logs && steps != []
    requires init == steps[..|steps| - 1] && last == steps[|steps| - 1]
    requires l in w.tables.logs ==> Reported(init, w.tables.logs[l])
    ensures Reported(steps, Respond(w, parse, last).0.tables.logs[l])
  {
    StepLog(w, parse, last, l);
    assert init + [last] == steps;
    ReportedMore(init, last, steps, Respond(w, parse, last).0.tables.logs[l]);
  }

  lemma ReportedMore(init: seq<Step>, last: Step, steps: seq<Step>, log: ServerLog)
    requires steps == init + [last] && (Reported(init, log) || ReportedBy(last, log))
    ensures Reported(steps, log)
  {
    if ReportedBy(last, log) {
      assert ReportedBy(steps[|init|], log);
    } else {
      var i :| 0 <= i < |init| && ReportedBy(init[i], log);
      assert ReportedBy(steps[i], log);
    }
  }

  /** A report counts as one request of the organization whose project it is filed under, adds its session
      there, and leaves the usage of every other organization alone. */
  lemma UsageAfterReport(w: World, param: string, r: Uuid, report: Report, env: Env, orgId: Uuid)
    requires Invariant(w.tables) && UuidText.Parse(param) == Some(r)
    ensures var t := w.tables; var t' := PostReport(w, param, report, env).0.tables;
      var counted := Accepted(t, r, report, env) && t.projects[t.revisions[r].projectId].organizationId == orgId;
      && RequestCount(t', orgId) == RequestCount(t, orgId) + (if counted then 1 else 0)
      && SessionIds(t', UsageLogs(t', orgId))
         == SessionIds(t, UsageLogs(t, orgId)) + (if counted then {report.sessionId} else {})
  {
    var t' := PostReport(w, param, report, env).0.tables;
    ReportLandsInItsProject(w, param, r, report, env, NIL);
    UsageOf(w.tables, t', r, report, env, orgId);
  }

  lemma UsageOf(t: Tables, t': Tables, r: Uuid, report: Report, env: Env, orgId: Uuid)
    requires RevisionKeys(t.revisions, t.projects, t.users)
    requires if Accepted(t, r, report, env)
             then env.logId in t'.logs && t'.logs[env.logId].revisionId == r && Records(t'.logs[env.logId], report)
                  && t' == t.(logs := t.logs[env.logId := t'.logs[env.logId]])
             else t' == t
    ensures var counted := Accepted(t, r, report, env) && t.projects[t.revisions[r].projectId].organizationId == orgId;
      && RequestCount(t', orgId) == RequestCount(t, orgId) + (if counted then 1 else 0)
      && SessionIds(t', UsageLogs(t', orgId))
         == SessionIds(t, UsageLogs(t, orgId)) + (if counted then {report.sessionId} else {})
  {
    if Accepted(t, r, report, env) { LogCounted(t, t', env.logId, t'.logs[env.logId], orgId); }
  }

  lemma LogCounted(t: Tables, t': Tables, l: Uuid, log: ServerLog, orgId: Uuid)
    requires RevisionKeys(t.revisions, t.projects, t.users) && l !in t.logs && log.revisionId in t.revisions
    requires t' == t.(logs := t.logs[l := log]) && log.sessionId.Some?
    ensures var counted := t.projects[t.revisions[log.revisionId].projectId].organizationId == orgId;
      && RequestCount(t', orgId) == RequestCount(t, orgId) + (if counted then 1 else 0)
      && SessionIds(t', UsageLogs(t', orgId))
         == SessionIds(t, UsageLogs(t, orgId)) + (if counted then {log.sessionId.value} else {})
  {
    var counted := t.projects[t.revisions[log.revisionId].projectId].organizationId == orgId;
    var more := if counted then {l} else {};
    UsageGrows(t, t', l, log, orgId);
    SessionCounted(t, t', l, log, UsageLogs(t, orgId), more);
  }

  lemma UsageGrows(t: Tables, t': Tables, l: Uuid, log: ServerLog, orgId: Uuid)
    requires RevisionKeys(t.revisions, t.projects, t.users) && l !in t.logs && log.revisionId in t.revisions
    requires t' == t.(logs := t.logs[l := log])
    ensures UsageLogs(t', orgId) == UsageLogs(t, orgId)
      + (if t.projects[t.revisions[log.revisionId].projectId].organizationId == orgId then {l} else {})
  {}

  lemma SessionCounted(t: Tables, t': Tables, l: Uuid, log: ServerLog, before: set<Uuid>, more: set<Uuid>)
    requires l !in t.logs && t'.logs == t.logs[l := log] && log.sessionId.Some? && l !in before && more <= {l}
    ensures SessionIds(t', before + more)
         == SessionIds(t, before) + (if l in more then {log.sessionId.value} else {})
  {
    forall id ensures id in SessionIds(t', before + more)
        <==> id in SessionIds(t, before) || (l in more && id == log.sessionId.value) {
      if x :| x in before && x in t.logs && t.logs[x].sessionId == Some(id) { assert t'.logs[x] == t.logs[x]; }
    }
  }
}
