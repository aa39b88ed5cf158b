/** What becomes of a report: its status, the project it is filed under in every reachable state, and
    when the stored logs are safe for the analytics. */
module Reports {
  import opened Prelude
  import opened Schema
  import opened Cascade
  import opened Queries
  import opened Gateway
  import opened Store
  import opened Api
  import opened Invariants
  import opened Reconciler
  import opened Failures
  import opened Histories
  import opened Routing
  import opened Logs
  import Periods
  import UuidText

  // ----- one report -----

  /** The report reaches the store: nothing fails, its user is known and its log id is fresh. */
  ghost predicate Accepted(t: Tables, r: Uuid, report: Report, env: Env) {
    && r in t.revisions && KnowsEmail(t, report.subjectEmail)
    && env.logId !in t.logs && env.faults !! {ReadFault, LogFault}
  }

  /** In every maintained state a report is a bad request exactly when its id does not parse, and an
      internal error exactly when a known user's log cannot be inserted; anything else succeeds, the
      reports of unknown users without being stored. An unknown revision is an internal error, because
      the NOT NULL project column is checked before the foreign key that is mapped to a bad request. */
  lemma ReportStatus(w: World, param: string, report: Report, env: Env)
    requires Invariant(w.tables)
    ensures var r := PostReport(w, param, report, env); var id := UuidText.Parse(param);
      && (r.1 == BadRequest <==> id.None?)
      && (r.1 == InternalError <==>
            id.Some? && ReadFault !in env.faults && KnowsEmail(w.tables, report.subjectEmail)
            && (LogFault in env.faults || id.value !in w.tables.revisions || env.logId in w.tables.logs))
      && (r.1 == Ok <==> id.Some? && (Accepted(w.tables, id.value, report, env)
                                      || ReadFault in env.faults || !KnowsEmail(w.tables, report.subjectEmail)))
      && (r.0 != w <==> id.Some? && Accepted(w.tables, id.value, report, env))
  {
    var id := UuidText.Parse(param);
    if id.Some? && Accepted(w.tables, id.value, report, env) {
      ReportInserts(w, param, id.value, report, env);
      assert env.logId in PostReport(w, param, report, env).0.tables.logs;
    }
  }

  lemma InsertedLogIsFiled(t: Tables, row: ServerLog, pid: Uuid)
    requires InsertLog(t, row).Some?
    ensures var t' := InsertLog(t, row).value;
      LogsOfProject(t', pid) == LogsOfProject(t, pid) + (if pid == t.revisions[row.revisionId].projectId then {row.id}
          else {})
  {}

  lemma ReportInserts(w: World, param: string, r: Uuid, report: Report, env: Env)
    requires UniqueUsers(w.tables.users) && RevisionKeys(w.tables.revisions, w.tables.projects, w.tables.users)
    requires UuidText.Parse(param) == Some(r) && Accepted(w.tables, r, report, env)
    ensures var row := ReportedLog(r, UserIdOf(w.tables, report.subjectEmail), report, env);
      && InsertLog(w.tables, row).Some?
      && PostReport(w, param, report, env) == (w.(tables := InsertLog(w.tables, row).value), Ok)
  {}

  /** The log says what the report says, column by column. */
  ghost predicate Records(log: ServerLog, report: Report) {
    && log.sessionId == Some(report.sessionId) && log.authTokenDigest == Some(report.authTokenDigest)
    && log.startedAt == report.startedAt && log.duration == report.duration
    && log.request == report.rpcRequest && log.response == report.rpcResponse
    && log.userAgent == Some(report.userAgent) && log.httpStatusCode == Some(report.httpStatusCode)
    && log.httpError == Some(report.httpError)
  }

  /** The log is one of the stored user with this e-mail. */
  ghost predicate ByUser(t: Tables, log: ServerLog, email: string) {
    log.userAccountId.Some? && log.userAccountId.value in t.users && t.users[log.userAccountId.value].email == email
  }

  /** A report is stored exactly when it is accepted, in its revision's project and in no other: it
      joins that project's logs and leaves every other project's logs as they were. The log records the
      report and is the reported user's. */
  lemma ReportLandsInItsProject(w: World, param: string, r: Uuid, report: Report, env: Env, pid: Uuid)
    requires Invariant(w.tables) && UuidText.Parse(param) == Some(r)
    ensures var t' := PostReport(w, param, report, env).0.tables; var stored := Accepted(w.tables, r, report, env);
      && LogsOfProject(t', pid) == LogsOfProject(w.tables, pid)
           + (if stored && pid == w.tables.revisions[r].projectId then {env.logId} else {})
      && (stored ==>
            && env.logId in t'.logs && t'.logs[env.logId].id == env.logId && t'.logs[env.logId].revisionId == r
            && Records(t'.logs[env.logId], report) && ByUser(t', t'.logs[env.logId], report.subjectEmail))
      && t' == w.tables.(logs := if stored then w.tables.logs[env.logId := t'.logs[env.logId]] else w.tables.logs)
  {
    if Accepted(w.tables, r, report, env) {
      ReportInserts(w, param, r, report, env);
      InsertedLogIsFiled(w.tables, ReportedLog(r, UserIdOf(w.tables, report.subjectEmail), report, env), pid);
    } else {
      ReportStatus(w, param, report, env);
    }
  }

  // ----- the routes of every reachable cluster -----

  /** The revision of a route, if it is stored, is one of the route's own project. */
  ghost predicate OwnRoute(t: Tables, s: ProjectSpec) {
    s.revisionId in t.revisions ==> t.revisions[s.revisionId].projectId == s.projectId
  }

  ghost predicate OwnRoutes(w: World) {
    forall name, i :: name in w.cluster && 0 <= i < |w.cluster[name].projects| ==>
        OwnRoute(w.tables, w.cluster[name].projects[i])
  }

  /** gen_random_uuid() gives every request of the run another revision id. */
  ghost predicate DistinctIds(steps: seq<Step>) {
    forall i, j :: 0 <= i < j < |steps| ==> steps[i].env.revisionId != steps[j].env.revisionId
  }

  ghost predicate Drawn(steps: seq<Step>, r: Uuid) {
    exists i :: 0 <= i < |steps| && steps[i].env.revisionId == r
  }

  /** Every revision id in the store or on a route was drawn by a request of the run. */
  ghost predicate OnlyDrawn(w: World, steps: seq<Step>) {
    && (forall r :: r in w.tables.revisions ==> Drawn(steps, r))
    && (forall name, i :: name in w.cluster && 0 <= i < |w.cluster[name].projects| ==>
        Drawn(steps, w.cluster[name].projects[i].revisionId))
  }

  /** At most the revision drawn by the request is new, and the others are as they were. */
  ghost predicate AddsOnly(t: Tables, t': Tables, id: Uuid) {
    forall r :: r in t'.revisions ==> r == id || (r in t.revisions && t'.revisions[r] == t.revisions[r])
  }

  lemma ChangeAddsOnly(t: Tables, t': Tables, parse: string -> Option<ParsedUrl>, step: Step)
    requires ForeignKeys(t) && OwnRevision(t.projects, t.revisions) && OwnEvent(t.projects, t.revisions, t.events)
    requires Change(t, t', parse, step)
    ensures AddsOnly(t, t', step.env.revisionId)
  {
    if t' != t {
      match step.operation
      case CreateProject(user, project) => CreatedRows(t, user, project, step.env);
      case SaveSettings(user, pid, settings) =>
        SavedLatest(t, Merged(LatestRevision(t, pid), user, pid, settings, step.env), step.env);
      case RemoveProject(user, pid) => SurvivorsUnchanged(t, pid);
      case _ =>
    }
  }

  /** Two tables agree on the revisions they share. */
  ghost predicate SharedRevisions(t: Tables, t': Tables) {
    forall r :: r in t.revisions && r in t'.revisions ==> t.revisions[r] == t'.revisions[r]
  }

  /** What a successful apply read was a maintained state with at most the request's own revision
      added, and it agrees with what is stored afterwards on the revisions they share. */
  lemma ViewIsSound(w: World, parse: string -> Option<ParsedUrl>, step: Step)
    requires Invariant(w.tables) && AppliedView(w, parse, step).Some?
    ensures var v := AppliedView(w, parse, step).value.tables;
      Invariant(v) && AddsOnly(w.tables, v, step.env.revisionId) && SharedRevisions(v, Respond(w, parse, step).0.tables)
  {
    var t' := Respond(w, parse, step).0.tables;
    if step.operation.SaveSettings? && CommitTx in step.env.faults {
      var user, pid, settings := step.operation.user, step.operation.pid, step.operation.settings;
      var row := Merged(LatestRevision(w.tables, pid), user, pid, settings, step.env);
      AcceptedUpdate(w, parse, user, pid, settings, step.env);
      MergedShape(LatestRevision(w.tables, pid), parse, user, pid, settings, step.env);
      SettingsSavedKeeps(w.tables, row, step.env);
      SavedLatest(w.tables, row, step.env);
    } else {
      ViewIsCommitted(w, parse, step);
      RespondKeepsInvariant(w, parse, step);
      StepChange(w, parse, step);
      ChangeAddsOnly(w.tables, t', parse, step);
    }
  }

  lemma ViewRoutes(v: Tables, orgId: Uuid, t: Tables, s: ProjectSpec)
    requires Invariant(v) && SharedRevisions(v, t) && s in RouteList(v, orgId)
    ensures s.revisionId in v.revisions && OwnRoute(t, s)
  {
    ProjectionEntries(v, orgId);
    var i :| 0 <= i < |RouteList(v, orgId)| && RouteList(v, orgId)[i] == s;
    assert EntryOf(v, s.projectId, s);
  }

  /** A route after the step comes from the view of its apply or was there before. */
  lemma RouteOrigin(w: World, parse: string -> Option<ParsedUrl>, step: Step, name: string, s: ProjectSpec)
    requires Invariant(w.tables)
    requires name in Respond(w, parse, step).0.cluster && s in Respond(w, parse, step).0.cluster[name].projects
    ensures var v := AppliedView(w, parse, step);
      || (v.Some? && Projectable(v.value.tables) && s in RouteList(v.value.tables, v.value.organization.id))
      || (name in w.cluster && s in w.cluster[name].projects)
  {
    StepLookup(w, parse, step, name);
  }

  lemma OldRouteKept(w: World, t': Tables, id: Uuid, s: ProjectSpec)
    requires AddsOnly(w.tables, t', id) && s.revisionId != id && OwnRoute(w.tables, s)
    ensures OwnRoute(t', s)
  {}

  lemma StepKeepsRoute(w: World, parse: string -> Option<ParsedUrl>, step: Step, name: string, s: ProjectSpec)
    requires Invariant(w.tables)
    requires name in Respond(w, parse, step).0.cluster && s in Respond(w, parse, step).0.cluster[name].projects
    requires name in w.cluster && s in w.cluster[name].projects ==>
      s.revisionId != step.env.revisionId && OwnRoute(w.tables, s)
    ensures OwnRoute(Respond(w, parse, step).0.tables, s)
    ensures || s.revisionId == step.env.revisionId || s.revisionId in w.tables.revisions
            || (name in w.cluster && s in w.cluster[name].projects)
  {
    var t' := Respond(w, parse, step).0.tables;
    RouteOrigin(w, parse, step, name, s);
    var v := AppliedView(w, parse, step);
    if v.Some? && Projectable(v.value.tables) && s in RouteList(v.value.tables, v.value.organization.id) {
      ViewIsSound(w, parse, step);
      ViewRoutes(v.value.tables, v.value.organization.id, t', s);
    } else {
      StepChange(w, parse, step);
      ChangeAddsOnly(w.tables, t', parse, step);
      OldRouteKept(w, t', step.env.revisionId, s);
    }
  }

  /** In every reachable state, whatever applies and commits failed on the way, the revision of every
      route in the cluster is one of the route's own project or is not stored. */
  lemma {:induction false} RoutesAreOwn(parse: string -> Option<ParsedUrl>, steps: seq<Step>)
    requires Invariant(START.tables) && DistinctIds(steps)
    ensures OwnRoutes(Run(START, parse, steps)) && OnlyDrawn(Run(START, parse, steps), steps)
    decreases |steps|
  {
    if steps != [] {
      var init, last := steps[..|steps| - 1], steps[|steps| - 1];
      LastRevisionIsNew(init, last, steps);
      RoutesAreOwn(parse, init);
      StepRoutes(Run(START, parse, init), parse, init, last);
    }
  }

  lemma LastRevisionIsNew(init: seq<Step>, last: Step, steps: seq<Step>)
    requires steps != [] && init == steps[..|steps| - 1] && last == steps[|steps| - 1] && DistinctIds(steps)
    ensures DistinctIds(init) && !Drawn(init, last.env.revisionId) && init + [last] == steps
  {}

  lemma DrawnMore(init: seq<Step>, last: Step, r: Uuid)
    requires Drawn(init, r) || last.env.revisionId == r
    ensures Drawn(init + [last], r)
  {
    if i :| 0 <= i < |init| && init[i].env.revisionId == r {
      assert (init + [last])[i].env.revisionId == r;
    } else {
      assert (init + [last])[|init|].env.revisionId == r;
    }
  }

  lemma StepRoutes(w: World, parse: string -> Option<ParsedUrl>, init: seq<Step>, last: Step)
    requires Invariant(w.tables) && OwnRoutes(w) && OnlyDrawn(w, init) && !Drawn(init, last.env.revisionId)
    ensures OwnRoutes(Respond(w, parse, last).0) && OnlyDrawn(Respond(w, parse, last).0, init + [last])
  {
    var w' := Respond(w, parse, last).0;
    StepChange(w, parse, last);
    ChangeAddsOnly(w.tables, w'.tables, parse, last);
    forall r | r in w'.tables.revisions ensures Drawn(init + [last], r) {
      DrawnMore(init, last, r);
    }
    forall name, i | name in w'.cluster && 0 <= i < |w'.cluster[name].projects|
      ensures OwnRoute(w'.tables, w'.cluster[name].projects[i])
        && Drawn(init + [last], w'.cluster[name].projects[i].revisionId)
    {
      var s := w'.cluster[name].projects[i];
      StepKeepsRoute(w, parse, last, name, s);
      DrawnMore(init, last, s.revisionId);
    }
  }

  /** Hence, in every reachable state, a report posted through any route of any gateway's configuration
      is filed under the route's own project or under none: it is stored exactly when it is accepted,
      which for a known user means that the route's revision is stored. */
  lemma RouteReportsToItsProject(e: Environment, parse: string -> Option<ParsedUrl>, steps: seq<Step>, name: string,
                                 config: Config, i: nat, report: Report, env: Env, pid: Uuid)
    requires Formats(e) && Invariant(START.tables) && DistinctIds(steps)
    requires var w := Run(START, parse, steps);
      name in w.cluster && IsConfigFor(e, parse, w.cluster[name], Some(config))
    requires i < |config.proxies|
    ensures var w := Run(START, parse, steps);
      var s := w.cluster[name].projects[i];
      && RevisionParam(config.proxies[i].webhook.path).Some?
      && var t' := PostReport(w, RevisionParam(config.proxies[i].webhook.path).value, report, env).0.tables;
         LogsOfProject(t', pid) == LogsOfProject(w.tables, pid)
           + (if pid == s.projectId && Accepted(w.tables, s.revisionId, report, env) then {env.logId} else {})
  {
    var w := Run(START, parse, steps);
    var s := w.cluster[name].projects[i];
    RoutesAreOwn(parse, steps);
    assert IsProxyFor(e, parse, s, config.proxies[i]);
    RouteReports(e, parse, s, config.proxies[i]);
    assert OwnRoute(w.tables, s);
    ReportLandsInItsProject(w, RevisionParam(config.proxies[i].webhook.path).value, s.revisionId, report, env, pid);
  }

  /** After a settings update whose commit failed, some route of the organization's gateway answers
      every report of a known user with an internal error. */
  lemma UncommittedRouteFails(w: World, parse: string -> Option<ParsedUrl>, user: Uuid, pid: Uuid,
      req: SettingsRequest, env: Env)
      returns (i: nat)
    requires Invariant(w.tables) && PutSettings(w, parse, user, pid, req, env).1 == Ok
    requires ApplySucceeds(env.faults) && CommitTx in env.faults
    ensures var w' := PutSettings(w, parse, user, pid, req, env).0;
      var name := w.tables.organizations[w.tables.projects[pid].organizationId].name;
      && Invariant(w'.tables) && name in w'.cluster && i < |w'.cluster[name].projects|
      && forall report: Report, env': Env :: KnowsEmail(w'.tables, report.subjectEmail) && ReadFault !in env'.faults ==>
           PostReport(w', UuidText.ToText(w'.cluster[name].projects[i].revisionId), report, env').1 == InternalError
  {
    var w' := PutSettings(w, parse, user, pid, req, env).0;
    var name := w.tables.organizations[w.tables.projects[pid].organizationId].name;
    SettingsAgreeIffCommitted(w, parse, user, pid, req, env);
    AcceptedUpdate(w, parse, user, pid, req, env);
    i :| 0 <= i < |w'.cluster[name].projects| && w'.cluster[name].projects[i].revisionId !in w'.tables.revisions;
    var r := w'.cluster[name].projects[i].revisionId;
    UuidText.ParseInvertsText(r);
    forall report: Report, env': Env | KnowsEmail(w'.tables, report.subjectEmail) && ReadFault !in env'.faults
      ensures PostReport(w', UuidText.ToText(r), report, env').1 == InternalError
    {
      ReportStatus(w', UuidText.ToText(r), report, env');
    }
  }

  // ----- when the stored logs are safe for the analytics -----

  /** The report is a failed exchange, has no successful response, or carries its request. */
  predicate SafeReport(report: Report) {
    || report.httpStatusCode >= 400 || report.rpcResponse.None? || report.rpcResponse.value.hasError
    || report.rpcRequest.Some?
  }

  /** The project has the same logs, unchanged. */
  ghost predicate LogsKept(t: Tables, t': Tables, pid: Uuid) {
    && LogsOfProject(t', pid) == LogsOfProject(t, pid)
    && forall l :: l in LogsOfProject(t, pid) ==> t'.logs[l] == t.logs[l]
  }

  /** The project has one log more, which records the report and is safe exactly when the report is. */
  ghost predicate LogAdded(t: Tables, t': Tables, pid: Uuid, report: Report) {
    exists l ::
      && l in t'.logs && LogsOfProject(t', pid) == LogsOfProject(t, pid) + {l} && l !in LogsOfProject(t, pid)
      && (forall k :: k in LogsOfProject(t, pid) ==> t'.logs[k] == t.logs[k])
      && (WellFormed(t'.logs[l]) <==> SafeReport(report)) && Records(t'.logs[l], report)
  }

  lemma SameLogsKept(t: Tables, t': Tables, pid: Uuid)
    requires t'.logs == t.logs
    ensures LogsKept(t, t', pid)
  {}

  lemma DeletedLogsKept(t: Tables, gone: Uuid, pid: Uuid)
    requires LogOwnerKeys(t.logs, t.revisions, t.users) && LogsDenormalised(t.logs, t.revisions) && pid != gone
    ensures LogsKept(t, WithoutProject(t, gone), pid)
  {
    var t' := WithoutProject(t, gone);
    forall l | l in t.logs && t.logs[l].projectId == pid ensures l in t'.logs && t'.logs[l] == t.logs[l] {
      assert t.revisions[t.logs[l].revisionId].projectId == pid;
    }
  }

  lemma FoundingLogs(w: World, user: Uuid, name: string, env: Env)
    ensures PostOrganization(w, user, name, env).0.tables.logs == w.tables.logs
  {
    var row := NewOrganization(name, env);
    if InsertOrganization(w.tables, row).Some? { InsertedOrganizationLogs(w.tables, row); }
  }

  lemma InsertedOrganizationLogs(t: Tables, row: Organization)
    requires InsertOrganization(t, row).Some?
    ensures InsertOrganization(t, row).value.logs == t.logs
  {}

  lemma InvitationLogs(w: World, user: Uuid, orgId: Uuid, email: string, env: Env)
    requires UniqueUsers(w.tables.users)
    ensures PutMember(w, user, orgId, email, env).0.tables.logs == w.tables.logs
  {
    if InsertUserIfNew(w.tables, NewUser(email, env)).Some? {
      InsertUserFrame(w.tables, NewUser(email, env));
      InsertedUserUnique(w.tables, email, env);
    }
  }

  lemma RemovalLogs(w: World, user: Uuid, orgId: Uuid, target: Uuid, env: Env)
    ensures DeleteMemberStep(w, user, orgId, target, env).0.tables.logs == w.tables.logs
  {}

  lemma SignInLogs(w: World, email: string, env: Env)
    ensures SignIn(w, email, env).0.tables.logs == w.tables.logs
  {
    var row := NewUser(email, env);
    if InsertUserIfNew(w.tables, row).Some? { InsertUserFrame(w.tables, row); }
  }

  lemma BystanderLogs(w: World, parse: string -> Option<ParsedUrl>, step: Step)
    requires Readable(w.tables) && Bystander(step.operation) && !step.operation.ReceiveReport?
    ensures Respond(w, parse, step).0.tables.logs == w.tables.logs
  {
    match step.operation
    case CreateOrganization(user, name) => FoundingLogs(w, user, name, step.env);
    case AddMember(user, orgId, email) => InvitationLogs(w, user, orgId, email, step.env);
    case RemoveMember(user, orgId, target) => RemovalLogs(w, user, orgId, target, step.env);
    case Authenticate(email) => SignInLogs(w, email, step.env);
    case _ => assert false;
  }

  lemma ChangeLogs(t: Tables, t': Tables, parse: string -> Option<ParsedUrl>, step: Step, pid: Uuid)
    requires LogOwnerKeys(t.logs, t.revisions, t.users) && LogsDenormalised(t.logs, t.revisions)
    requires Change(t, t', parse, step) && !Bystander(step.operation) && pid in t'.projects
    ensures LogsKept(t, t', pid)
  {
    if t' != t {
      match step.operation
      case CreateProject(user, project) => CreatedFrame(t, user, project, step.env);
      case SaveSettings(user, p, settings) =>
        SavedFrame(t, Merged(LatestRevision(t, p), user, p, settings, step.env), step.env);
      case RemoveProject(user, gone) => DeletedLogsKept(t, gone, pid);
      case SaveOrganization(user, orgId, organization) =>
      case _ => assert false;
    }
  }

  /** Only an accepted report changes the logs of a project that is there afterwards. */
  lemma StepLogs(w: World, parse: string -> Option<ParsedUrl>, step: Step, pid: Uuid)
    requires Invariant(w.tables) && pid in Respond(w, parse, step).0.tables.projects
    ensures var t' := Respond(w, parse, step).0.tables;
      LogsKept(w.tables, t', pid)
          || (step.operation.ReceiveReport? && LogAdded(w.tables, t', pid, step.operation.report))
  {
    var t' := Respond(w, parse, step).0.tables;
    if step.operation.ReceiveReport? {
      ReportLogs(w, step.operation.param, step.operation.report, step.env, pid);
    } else if Bystander(step.operation) {
      BystanderLogs(w, parse, step);
      SameLogsKept(w.tables, t', pid);
    } else {
      StepChange(w, parse, step);
      ChangeLogs(w.tables, t', parse, step, pid);
    }
  }

  lemma ReportLogs(w: World, param: string, report: Report, env: Env, pid: Uuid)
    requires Invariant(w.tables)
    ensures var t' := PostReport(w, param, report, env).0.tables;
      LogsKept(w.tables, t', pid) || LogAdded(w.tables, t', pid, report)
  {
    var id := UuidText.Parse(param);
    if id.Some? && Accepted(w.tables, id.value, report, env) {
      ReportInserts(w, param, id.value, report, env);
      InsertedLogFollows(w.tables, id.value, UserIdOf(w.tables, report.subjectEmail), report, env, pid);
    } else {
      ReportStatus(w, param, report, env);
      SameLogsKept(w.tables, w.tables, pid);
    }
  }

  lemma InsertedLogFollows(t: Tables, r: Uuid, user: Uuid, report: Report, env: Env, pid: Uuid)
    requires InsertLog(t, ReportedLog(r, user, report, env)).Some?
    ensures var t' := InsertLog(t, ReportedLog(r, user, report, env)).value;
      LogsKept(t, t', pid) || LogAdded(t, t', pid, report)
  {
    var row := ReportedLog(r, user, report, env);
    var t' := InsertLog(t, row).value;
    InsertedLogIsFiled(t, row, pid);
    assert WellFormed(t'.logs[row.id]) <==> SafeReport(report);
  }

  lemma NewProjectHasNoLogs(w: World, parse: string -> Option<ParsedUrl>, step: Step, pid: Uuid)
    requires Invariant(w.tables) && pid !in w.tables.projects && pid in Respond(w, parse, step).0.tables.projects
    ensures !step.operation.ReceiveReport? && LogsOfProject(Respond(w, parse, step).0.tables, pid) == {}
  {
    StepChange(w, parse, step);
    StepLogs(w, parse, step, pid);
  }

  /** Step `i` stores a report for the project, which has been there ever since. */
  ghost predicate StoredFor(ts: seq<Tables>, steps: seq<Step>, i: int, pid: Uuid)
    requires |ts| == |steps| + 1
  {
    && 0 <= i < |steps| && steps[i].operation.ReceiveReport?
    && LogsOfProject(ts[i + 1], pid) != LogsOfProject(ts[i], pid)
    && forall j :: i < j <= |steps| ==> pid in ts[j].projects
  }

  predicate SafeSince(report: Report, from: Time) { report.startedAt >= from ==> SafeReport(report) }

  /** The reports stored for the project that started then or later are safe. */
  ghost predicate ReportsSafe(ts: seq<Tables>, steps: seq<Step>, pid: Uuid, from: Time)
    requires |ts| == |steps| + 1
  {
    forall i :: StoredFor(ts, steps, i, pid) ==> SafeSince(steps[i].operation.report, from)
  }

  /** The logs of the project that started then or later are safe. */
  ghost predicate LogsSafe(t: Tables, pid: Uuid, from: Time) {
    forall l :: l in LogsOfProject(t, pid) && t.logs[l].startedAt >= from ==> WellFormed(t.logs[l])
  }

  /** What one step can do to the logs of a project that is there after it. */
  ghost predicate LogsFollow(t: Tables, t': Tables, step: Step, pid: Uuid) {
    pid in t'.projects ==>
      if pid in t.projects then
        LogsKept(t, t', pid) || (step.operation.ReceiveReport? && LogAdded(t, t', pid, step.operation.report))
      else !step.operation.ReceiveReport? && LogsOfProject(t', pid) == {}
  }

  lemma StepFollows(w: World, parse: string -> Option<ParsedUrl>, step: Step, pid: Uuid)
    requires Invariant(w.tables)
    ensures LogsFollow(w.tables, Respond(w, parse, step).0.tables, step, pid)
  {
    if pid in Respond(w, parse, step).0.tables.projects {
      StepLogs(w, parse, step, pid);
      if pid !in w.tables.projects { NewProjectHasNoLogs(w, parse, step, pid); }
    }
  }

  /** Along any tables whose logs follow the steps, the logs of the project are safe exactly when the
      reports stored for it are. */
  lemma {:induction false} TraceSafeIff(ts: seq<Tables>, steps: seq<Step>, pid: Uuid, from: Time)
    requires |ts| == |steps| + 1 && pid in ts[|steps|].projects && pid !in ts[0].projects
    requires forall i :: 0 <= i < |steps| ==> LogsFollow(ts[i], ts[i + 1], steps[i], pid)
    ensures LogsSafe(ts[|steps|], pid, from) <==> ReportsSafe(ts, steps, pid, from)
    decreases |steps|
  {
    var n := |steps| - 1;
    var before, init := ts[..n + 1], steps[..n];
    assert LogsFollow(ts[n], ts[n + 1], steps[n], pid);
    if pid in ts[n].projects {
      forall i | 0 <= i < |init| ensures LogsFollow(before[i], before[i + 1], init[i], pid) {
        assert LogsFollow(ts[i], ts[i + 1], steps[i], pid);
      }
      TraceSafeIff(before, init, pid, from);
      forall i ensures StoredFor(ts, steps, i, pid)
          <==> StoredFor(before, init, i, pid) || (i == n && StoredFor(ts, steps, n, pid)) {
        StoredBefore(ts, steps, i, pid);
      }
      SafetyStep(ts[n], ts[n + 1], pid, steps[n].operation, from);
      assert StoredFor(ts, steps, n, pid) <==>
        steps[n].operation.ReceiveReport? && LogsOfProject(ts[n + 1], pid) != LogsOfProject(ts[n], pid);
      LastReportDecides(ts, steps, pid, from);
    } else {
      forall i | StoredFor(ts, steps, i, pid) ensures i < n ==> pid in ts[n].projects {}
    }
  }

  lemma StoredBefore(ts: seq<Tables>, steps: seq<Step>, i: int, pid: Uuid)
    requires |ts| == |steps| + 1 && steps != [] && pid in ts[|steps|].projects
    ensures var n := |steps| - 1;
      StoredFor(ts, steps, i, pid) <==>
        StoredFor(ts[..n + 1], steps[..n], i, pid) || (i == n && StoredFor(ts, steps, n, pid))
  {
    var n := |steps| - 1;
    if StoredFor(ts[..n + 1], steps[..n], i, pid) {
      forall j | i < j <= |steps| ensures pid in ts[j].projects {
        if j <= n { assert ts[..n + 1][j] == ts[j]; }
      }
    }
  }

  lemma LastReportDecides(ts: seq<Tables>, steps: seq<Step>, pid: Uuid, from: Time)
    requires |ts| == |steps| + 1 && steps != []
    requires var n := |steps| - 1; forall i ::
      StoredFor(ts, steps, i, pid) <==>
        StoredFor(ts[..n + 1], steps[..n], i, pid) || (i == n && StoredFor(ts, steps, n, pid))
    ensures var n := |steps| - 1;
      ReportsSafe(ts, steps, pid, from) <==>
        ReportsSafe(ts[..n + 1], steps[..n], pid, from)
        && (StoredFor(ts, steps, n, pid) ==> SafeSince(steps[n].operation.report, from))
  {
    var n := |steps| - 1;
    var before, init := ts[..n + 1], steps[..n];
    if ReportsSafe(ts, steps, pid, from) {
      forall i | StoredFor(before, init, i, pid) ensures SafeSince(init[i].operation.report, from) {
        assert StoredFor(ts, steps, i, pid);
      }
    }
    if && ReportsSafe(before, init, pid, from)
       && (StoredFor(ts, steps, n, pid) ==> SafeSince(steps[n].operation.report, from)) {
      forall i | StoredFor(ts, steps, i, pid) ensures SafeSince(steps[i].operation.report, from) {
        if i != n { assert StoredFor(before, init, i, pid); }
      }
    }
  }

  lemma SafetyStep(t: Tables, t': Tables, pid: Uuid, op: Operation, from: Time)
    requires LogsKept(t, t', pid) || (op.ReceiveReport? && LogAdded(t, t', pid, op.report))
    ensures var stored := op.ReceiveReport? && LogsOfProject(t', pid) != LogsOfProject(t, pid);
      LogsSafe(t', pid, from) <==> LogsSafe(t, pid, from) && (stored ==> SafeSince(op.report, from))
  {}

  /** In a reachable state the logs of a project that started at or after any given time are safe for the
      analytics exactly when every such report that the run stored for it was. */
  lemma LogsSafeIff(parse: string -> Option<ParsedUrl>, steps: seq<Step>, pid: Uuid, from: Time)
    requires Invariant(START.tables) && pid in Run(START, parse, steps).tables.projects
    ensures LogsSafe(Run(START, parse, steps).tables, pid, from) <==> ReportsSafe(Trace(parse, steps), steps, pid, from)
  {
    var ts := Trace(parse, steps);
    TraceEnd(parse, steps);
    forall i | 0 <= i < |steps| ensures LogsFollow(ts[i], ts[i + 1], steps[i], pid) {
      TraceStep(parse, steps, i);
      StepFollows(Run(START, parse, steps[..i]), parse, steps[i], pid);
    }
    TraceSafeIff(ts, steps, pid, from);
  }

  /** The list that the log query returns for a project. */
  ghost predicate ListsLogs(t: Tables, pid: Uuid, logs: seq<ServerLog>) {
    && (forall i :: 0 <= i < |logs| ==> exists l :: l in LogsOfProject(t, pid) && t.logs[l] == logs[i])
    && (forall l :: l in LogsOfProject(t, pid) ==> t.logs[l] in logs)
  }

  /** Hence the analytics, which check the logs of the two periods for errors, dereference no missing
      request exactly when every report stored for the project since the earlier period began was safe. */
  lemma AnalyticsSafeIff(parse: string -> Option<ParsedUrl>, steps: seq<Step>, pid: Uuid, logs: seq<ServerLog>,
      startAt: Time, now: Time)
    requires Invariant(START.tables) && pid in Run(START, parse, steps).tables.projects
    requires ListsLogs(Run(START, parse, steps).tables, pid, logs)
    ensures AllWellFormed(Periods.Started(logs, startAt, None))
            && AllWellFormed(Periods.Started(logs, startAt - (now - startAt), Some(startAt)))
       <==> ReportsSafe(Trace(parse, steps), steps, pid, Periods.PeriodsStart(startAt, now))
  {
    var from := Periods.PeriodsStart(startAt, now);
    LogsSafeIff(parse, steps, pid, from);
    ListedSafety(Run(START, parse, steps).tables, pid, logs, from);
    Periods.PeriodsSafeIff(logs, startAt, now);
  }

  lemma ListedSafety(t: Tables, pid: Uuid, logs: seq<ServerLog>, from: Time)
    requires ListsLogs(t, pid, logs)
    ensures (forall log :: log in logs && log.startedAt >= from ==> WellFormed(log)) <==> LogsSafe(t, pid, from)
  {
    if LogsSafe(t, pid, from) {
      forall log | log in logs && log.startedAt >= from ensures WellFormed(log) {
        var i :| 0 <= i < |logs| && logs[i] == log;
        var l :| l in LogsOfProject(t, pid) && t.logs[l] == logs[i];
      }
    }
  }
}
