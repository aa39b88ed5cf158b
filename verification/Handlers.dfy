/** The HTTP handlers, statement by statement: transactions, sub-steps that fail, the gateway applier
    and the status that reaches the client first. Each handler is proved against its atomic step. */
module Handlers {
  import opened Prelude
  import opened Schema
  import opened Cascade
  import opened Queries
  import opened Gateway
  import opened Transactions
  import opened Store
  import opened Validation
  import opened Api
  import opened Invariants
  import UuidText

  class Server {
    const db: Database
    var cluster: map<string, GatewaySpec>

    constructor (db: Database)
      ensures this.db == db && cluster == map[]
    {
      this.db := db;
      cluster := map[];
    }

    ghost predicate Valid() reads this, db { db.Idle() && Invariant(db.tables) }

    function Now(): World reads this, db { World(db.tables, cluster) }

    // ----- the gateway applier -----

    /** Reads the tables its connection sees, inside or outside a transaction. */
    method Apply(org: Organization, env: Env) returns (ok: bool)
      requires Projectable(db.tables) && ProjectKeys(db.tables.projects, db.tables.organizations, db.tables.users)
      requires !db.aborted
      modifies this`cluster, db`aborted
      ensures ok == ApplySucceeds(env.faults)
      ensures cluster == Applied(old(cluster), db.tables, org, env.faults)
      ensures db.aborted == (ApplyQueryFault in env.faults && db.savepoints != [])
    {
      if ApplyQueryFault in env.faults {
        db.aborted := db.savepoints != [];
        return false;
      }
      var pss := ProjectList(db.tables.projects, org.id);
      WalkGivesRouteList(db.tables, org.id);
      if |pss| == 0 {
        if ApplyClusterFault in env.faults {
          return false;
        }
        cluster := cluster - {org.name};
        return true;
      }
      var gatewayProjects := CollectProjects(pss);
      if ApplyClusterFault in env.faults {
        return false;
      }
      var spec := GatewaySpec(org.id, org.name, org.settings.customDomain, org.settings.dcrPublicClient,
          gatewayProjects);
      cluster := cluster[org.name := spec];
      ok := true;
    }

    /** The loop of Apply. */
    method CollectProjects(pss: seq<Project>) returns (gatewayProjects: seq<ProjectSpec>)
      requires PointersIn(pss, db.tables.revisions)
      ensures gatewayProjects == SpecsFor(pss, db.tables.revisions)
    {
      gatewayProjects := [];
      var i := 0;
      while i < |pss|
        invariant 0 <= i <= |pss|
        invariant gatewayProjects == SpecsFor(pss[..i], db.tables.revisions)
      {
        var ps := pss[i];
        assert pss[..i + 1][..i] == pss[..i];
        if ps.latestRevisionId.Some? {
          gatewayProjects := gatewayProjects + [SpecFor(ps, db.tables.revisions[ps.latestRevisionId.value])];
        }
        i := i + 1;
      }
      assert pss[..i] == pss;
    }

    // ----- projects -----

    method PostProject(user: Uuid, req: ProjectRequest, env: Env) returns (status: Status)
      requires Valid()
      modifies this, db
      ensures db.Idle()
      ensures (Now(), status) == Api.PostProject(old(Now()), user, req, env)
    {
      if !ValidName(req.name) {
        return BadRequest;
      }
      if ReadFault in env.faults || req.organizationId !in db.tables.organizations {
        return InternalError;
      }
      var userInOrg, org := IsMember(db.tables, user, req.organizationId), db.tables.organizations[req.organizationId];
      if !userInOrg {
        return BadRequest;
      }
      var tx := db.Begin(BeginTx in env.faults);
      if tx == 0 {
        return InternalError;
      }
      var failed := ProjectStatements(user, req, env);
      failed := db.Finish(tx, failed, CommitTx in env.faults);
      if failed {
        return InternalError;
      }
      if req.proxyUrl.Some? {
        ProjectCreatedProjectable(old(db.tables), user, req, env);
        ProjectCreatedKeys(old(db.tables), user, req, env);
        var _ := Apply(org, env);
      }
      status := Ok;
    }

    /** The closure of postProjectHandler. */
    method ProjectStatements(user: Uuid, req: ProjectRequest, env: Env) returns (failed: bool)
      requires db.savepoints != [] && !db.aborted
      modifies db
      ensures db.savepoints == old(db.savepoints)
      ensures failed <==>
        ProjectCreated(old(db.tables), user, req, env).None?
            || !(env.faults !! ProjectFaults(req) - {BeginTx, CommitTx})
      ensures !failed ==> db.tables == ProjectCreated(old(db.tables), user, req, env).value && !db.aborted
    {
      var project := Store.CreateProject(db, req.organizationId, user, req.name, env);
      if project.None? {
        return true;
      }
      if req.proxyUrl.Some? {
        var dr := DeploymentRevision(0, 0, user, project.value.id, None, None, true, req.proxyUrl, false);
        if req.telemetry.Some? {
          dr := dr.(telemetry := req.telemetry.value);
        }
        if req.authenticated.Some? {
          dr := dr.(authenticated := req.authenticated.value);
        }
        var revision := CreateDeploymentRevision(db, dr, env);
        if revision.None? {
          return true;
        }
      }
      failed := false;
    }

    method PutSettings(parse: string -> Option<ParsedUrl>, user: Uuid, pid: Uuid, req: SettingsRequest, env: Env)
        returns (status: Status)
      requires Valid()
      modifies this, db
      ensures db.Idle()
      ensures (Now(), status) == Api.PutSettings(old(Now()), parse, user, pid, req, env)
    {
      if req.ociUrl.Some? && req.proxyUrl.Some? {
        return BadRequest;
      } else if req.ociUrl.Some? {
        if req.port.None? {
          return BadRequest;
        }
      } else if req.proxyUrl.Some? {
        if req.port.Some? {
          return BadRequest;
        }
        var u := parse(req.proxyUrl.value);
        if u.None? || u.value.scheme == "" || u.value.host == "" {
          return BadRequest;
        }
      }
      if ReadFault in env.faults {
        return InternalError;
      }
      if !CanAccess(db.tables, user, pid) {
        return NotFound;
      }
      var tx := db.Begin(BeginTx in env.faults);
      if tx == 0 {
        return InternalError;
      }
      var failed, written := SettingsBody(user, pid, req, env);
      failed := db.Finish(tx, failed, CommitTx in env.faults);
      // a status that the closure has already written cannot be replaced
      status := if written.Some? then written.value else InternalError;
      assert failed || written.Some?;
    }

    /** Fills the new revision field by field from the request and the latest revision. */
    method MergeSettings(ps: ProjectSummary, user: Uuid, pid: Uuid, req: SettingsRequest, ghost env: Env)
        returns (dr: DeploymentRevision)
      ensures dr.(id := env.revisionId, createdAt := env.now) == Merged(ps.latestRevision, user, pid, req, env)
      // what is given is taken, what is not given is kept
      ensures req.ociUrl.Some? ==> dr.ociUrl == req.ociUrl
      ensures req.port.Some? ==> dr.port == req.port
      ensures req.proxyUrl.Some? ==> dr.proxyUrl == req.proxyUrl
      ensures ps.latestRevision.Some? ==>
        var latest := ps.latestRevision.value;
        && (req.ociUrl.None? ==> dr.ociUrl == latest.ociUrl) && (req.port.None? ==> dr.port == latest.port)
        && (req.proxyUrl.None? ==> dr.proxyUrl == latest.proxyUrl)
    {
      dr := DeploymentRevision(0, 0, user, pid, None, None, req.authenticated, None, req.telemetry);
      if req.ociUrl.Some? {
        dr := dr.(ociUrl := req.ociUrl);
      } else if ps.latestRevision.Some? {
        dr := dr.(ociUrl := ps.latestRevision.value.ociUrl);
      }
      if req.port.Some? {
        dr := dr.(port := req.port);
      } else if ps.latestRevision.Some? {
        dr := dr.(port := ps.latestRevision.value.port);
      }
      if req.proxyUrl.Some? {
        dr := dr.(proxyUrl := req.proxyUrl);
      } else if ps.latestRevision.Some? {
        dr := dr.(proxyUrl := ps.latestRevision.value.proxyUrl);
      }
    }

    /** The revision and, for an image, its progress event. */
    method SaveRevision(dr: DeploymentRevision, ghost row: DeploymentRevision, env: Env) returns (ok: bool)
      requires |db.savepoints| == 1 && !db.aborted && dr.projectId in db.tables.projects
      requires row == dr.(id := env.revisionId, createdAt := env.now)
      modifies db
      ensures db.savepoints == old(db.savepoints)
      ensures ok <==> SettingsSaved(old(db.tables), row, env).Some? && env.faults !! SettingsFaults(row)
      ensures ok ==> db.tables == SettingsSaved(old(db.tables), row, env).value && !db.aborted
    {
      var revision := CreateDeploymentRevision(db, dr, env);
      if revision.None? {
        return false;
      }
      ok := true;
      if dr.ociUrl.Some? {
        ok := AddDeploymentRevisionEvent(db, revision.value.id, EventProgressing, env);
      }
    }

    /** The closure of putProjectSettings: it writes the response itself. */
    method SettingsBody(user: Uuid, pid: Uuid, req: SettingsRequest, env: Env)
        returns (failed: bool, written: Option<Status>)
      requires |db.savepoints| == 1 && !db.aborted && Readable(db.tables) && pid in db.tables.projects
      modifies this, db
      ensures db.savepoints == old(db.savepoints)
      ensures var row := Merged(LatestRevision(old(db.tables), pid), user, pid, req, env);
        var saved := SettingsSaved(old(db.tables), row, env);
        if SummaryFault in env.faults then
          failed && written.None? && cluster == old(cluster)
        else if row.ociUrl.None? && row.proxyUrl.None? then
          !failed && written == Some(BadRequest) && cluster == old(cluster) && db.tables == old(db.tables)
        else if saved.None? || !(env.faults !! SettingsFaults(row)) then
          failed && written.None? && cluster == old(cluster)
        else
          !failed && written == Some(Ok) && db.tables == saved.value
          && db.aborted == (ApplyQueryFault in env.faults)
          && Projectable(saved.value)
          && cluster == Applied(old(cluster), saved.value,
              old(db.tables).organizations[old(db.tables).projects[pid].organizationId], env.faults)
    {
      ghost var t := db.tables;
      if SummaryFault in env.faults {
        var _ := db.Exec(Some(db.tables), true);
        return true, None;
      }
      var ps := SummaryOf(db.tables, db.tables.projects[pid]);
      var dr := MergeSettings(ps, user, pid, req, env);
      ghost var row := Merged(LatestRevision(t, pid), user, pid, req, env);
      assert row == dr.(id := env.revisionId, createdAt := env.now);
      if dr.ociUrl.None? && dr.proxyUrl.None? {
        return false, Some(BadRequest);
      }
      var saved := SaveRevision(dr, row, env);
      if !saved {
        return true, None;
      }
      SettingsSavedProjectable(t, row, env);
      SettingsSavedKeys(t, row, env);
      var _ := Apply(ps.organization, env);
      return false, Some(Ok);
    }

    method RemoveProject(user: Uuid, pid: Uuid, env: Env) returns (status: Status)
      requires Valid()
      modifies this, db
      ensures db.Idle()
      ensures (Now(), status) == DeleteProjectStep(old(Now()), user, pid, env)
    {
      if ReadFault in env.faults {
        return InternalError;
      }
      if !CanAccess(db.tables, user, pid) {
        return NotFound;
      }
      if SummaryFault in env.faults {
        return InternalError;
      }
      var org := SummaryOf(db.tables, db.tables.projects[pid]).organization;
      DeleteKeepsInvariant(db.tables, pid);
      var ok := db.Exec(DeleteProject(db.tables, pid), ProjectFault in env.faults);
      if !ok {
        return InternalError;
      }
      var _ := Apply(org, env);
      status := Ok;
    }

    // ----- organizations and members -----

    method PostOrganization(user: Uuid, name: string, env: Env) returns (status: Status)
      requires Valid()
      modifies this, db
      ensures db.Idle()
      ensures (Now(), status) == Api.PostOrganization(old(Now()), user, name, env)
    {
      if !ValidName(name) {
        return BadRequest;
      }
      var org := NewOrganization(name, env);
      var inserted := InsertOrganization(db.tables, org);
      var ok := db.Exec(inserted, OrganizationFault in env.faults);
      if !ok {
        return if OrganizationFault in env.faults then InternalError else BadRequest;
      }
      ok := AddUserToOrganization(db, user, org.id, env);
      status := if ok then Ok else InternalError;
    }

    method PutOrganization(user: Uuid, orgId: Uuid, req: OrganizationRequest, env: Env) returns (status: Status)
      requires Valid()
      modifies this, db
      ensures db.Idle()
      ensures (Now(), status) == Api.PutOrganization(old(Now()), user, orgId, req, env)
    {
      if ReadFault in env.faults || orgId !in db.tables.organizations {
        return InternalError;
      }
      if !IsMember(db.tables, user, orgId) {
        return NotFound;
      }
      var org := db.tables.organizations[orgId];
      var updateNeeded := false;
      if req.customDomain.Some? {
        updateNeeded := true;
        if req.customDomain.value != "" {
          if !ValidDomain(req.customDomain.value) {
            return BadRequest;
          }
          org := org.(settings := org.settings.(customDomain := req.customDomain));
        } else {
          org := org.(settings := org.settings.(customDomain := None));
        }
      }
      if req.dcrPublicClient.Some? {
        updateNeeded := true;
        org := org.(settings := org.settings.(dcrPublicClient := req.dcrPublicClient.value));
      }
      if updateNeeded {
        var ok := db.Exec(UpdateOrganization(db.tables, orgId, org.settings), OrganizationFault in env.faults);
        if !ok {
          return InternalError;
        }
        org := db.tables.organizations[orgId];
      } else {
        assert old(db.tables).organizations[orgId := org] == old(db.tables).organizations;
      }
      var _ := Apply(org, env);
      status := Ok;
    }

    method PutMember(user: Uuid, orgId: Uuid, email: string, env: Env) returns (status: Status)
      requires Valid()
      modifies this, db
      ensures db.Idle()
      ensures (Now(), status) == Api.PutMember(old(Now()), user, orgId, email, env)
    {
      if ReadFault in env.faults || orgId !in db.tables.organizations {
        return InternalError;
      }
      if !IsMember(db.tables, user, orgId) {
        return NotFound;
      }
      var failed := MemberTransaction(orgId, email, env, MemberAdded(db.tables, orgId, email, env));
      status := if failed then InternalError else Ok;
    }

    /** The RunTx call of putOrganizationMember. */
    method MemberTransaction(orgId: Uuid, email: string, env: Env, ghost added: Option<Tables>)
        returns (failed: bool)
      requires db.Idle() && UniqueUsers(db.tables.users) && added == MemberAdded(db.tables, orgId, email, env)
      modifies db
      ensures db.Idle()
      ensures failed <==> added.None? || !(env.faults !! {BeginTx, UserFault, MemberFault, CommitTx})
      ensures db.tables == if failed then old(db.tables) else added.value
    {
      var tx := db.Begin(BeginTx in env.faults);
      if tx == 0 {
        return true;
      }
      failed := MemberStatements(orgId, email, env, added);
      failed := db.Finish(tx, failed, CommitTx in env.faults);
    }

    /** The closure of putOrganizationMember. */
    method MemberStatements(orgId: Uuid, email: string, env: Env, ghost spec: Option<Tables>) returns (failed: bool)
      requires db.savepoints != [] && !db.aborted && UniqueUsers(db.tables.users)
      requires spec == MemberAdded(db.tables, orgId, email, env)
      modifies db
      ensures db.savepoints == old(db.savepoints)
      ensures failed <==> spec.None? || !(env.faults !! {UserFault, MemberFault})
      ensures !failed ==> db.tables == spec.value && !db.aborted
    {
      var added := GetUserByEmailOrCreate(db, email, env);
      if added.None? {
        return true;
      }
      var ok := AddUserToOrganization(db, added.value, orgId, env);
      failed := !ok;
    }

    method RemoveMember(user: Uuid, orgId: Uuid, target: Uuid, env: Env) returns (status: Status)
      requires Valid()
      modifies this, db
      ensures db.Idle()
      ensures (Now(), status) == DeleteMemberStep(old(Now()), user, orgId, target, env)
      // exactly the one membership goes, and the remover's stays
      ensures forall o: Uuid, u: Uuid :: IsMember(db.tables, u, o)
                <==> IsMember(old(db.tables), u, o) && !(status == Ok && target != NIL && o == orgId && u == target)
      ensures status == Ok ==> IsMember(db.tables, user, orgId)
    {
      if ReadFault in env.faults || orgId !in db.tables.organizations {
        return InternalError;
      }
      if !IsMember(db.tables, user, orgId) {
        return NotFound;
      }
      if target == NIL {
        return Ok;
      }
      if user == target {
        return BadRequest;
      }
      var ok := db.Exec(DeleteMember(db.tables, orgId, target), MemberFault in env.faults);
      status := if ok then Ok else InternalError;
    }

    method Authenticate(email: string, env: Env) returns (status: Status)
      requires Valid()
      modifies this, db
      ensures db.Idle()
      ensures (Now(), status) == SignIn(old(Now()), email, env)
    {
      var user := GetUserByEmailOrCreate(db, email, env);
      status := if user.Some? then Ok else InternalError;
    }

    // ----- the gateway webhook -----

    method ReceiveReport(param: string, report: Report, env: Env) returns (status: Status)
      requires Valid()
      modifies this, db
      ensures db.Idle()
      ensures (Now(), status) == PostReport(old(Now()), param, report, env)
    {
      var entry := ServerLog(
        env.logId, None, Some(report.sessionId), report.startedAt, report.duration, 0, 0,
        Some(report.authTokenDigest), report.rpcRequest, report.rpcResponse,
        Some(report.userAgent), Some(report.httpStatusCode), Some(report.httpError));
      var id := UuidText.Parse(param);
      if id.None? {
        return BadRequest;
      }
      entry := entry.(revisionId := id.value);
      if ReadFault in env.faults || !KnowsEmail(db.tables, report.subjectEmail) {
        return Ok;
      }
      entry := entry.(userAccountId := Some(UserIdOf(db.tables, report.subjectEmail)));
      var violation := LogViolationOf(db.tables, entry);
      var ok := db.Exec(InsertLog(db.tables, entry), LogFault in env.faults);
      if ok {
        status := Ok;
      } else if LogFault !in env.faults && violation == Some(UnknownRevision) {
        status := BadRequest;
      } else {
        status := InternalError;
      }
    }

    // ----- any request, and any number of them -----

    method HandleProjectRequest(parse: string -> Option<ParsedUrl>, step: Api.Step) returns (status: Status)
      requires Valid() && ProjectRequested(step.operation)
      modifies this, db
      ensures db.Idle() && (Now(), status) == Respond(old(Now()), parse, step)
    {
      match step.operation {
        case CreateProject(user, project) => status := PostProject(user, project, step.env);
        case SaveSettings(user, pid, settings) => status := PutSettings(parse, user, pid, settings, step.env);
        case RemoveProject(user, pid) => status := RemoveProject(user, pid, step.env);
        case CreateOrganization(user, name) => status := PostOrganization(user, name, step.env);
        case _ => assert false;
      }
    }

    method HandleOtherRequest(parse: string -> Option<ParsedUrl>, step: Api.Step) returns (status: Status)
      requires Valid() && !ProjectRequested(step.operation)
      modifies this, db
      ensures db.Idle() && (Now(), status) == Respond(old(Now()), parse, step)
    {
      match step.operation {
        case SaveOrganization(user, orgId, organization) => status := PutOrganization(user, orgId, organization,
            step.env);
        case AddMember(user, orgId, email) => status := PutMember(user, orgId, email, step.env);
        case RemoveMember(user, orgId, target) => status := RemoveMember(user, orgId, target, step.env);
        case Authenticate(email) => status := Authenticate(email, step.env);
        case ReceiveReport(param, report) => status := ReceiveReport(param, report, step.env);
        case _ => assert false;
      }
    }

    /** Executing the handler of a request is one step of the state machine and leaves the server ready
        for the next request. */
    method Handle(parse: string -> Option<ParsedUrl>, step: Api.Step) returns (status: Status)
      requires Valid()
      modifies this, db
      ensures Valid() && (Now(), status) == Respond(old(Now()), parse, step)
    {
      RespondKeepsInvariant(Now(), parse, step);
      ghost var t' := Respond(Now(), parse, step).0.tables;
      if ProjectRequested(step.operation) {
        status := HandleProjectRequest(parse, step);
      } else {
        status := HandleOtherRequest(parse, step);
      }
      Same(t', db.tables);
    }

    /** Serving requests one after another is a run of the state machine. */
    method Serve(parse: string -> Option<ParsedUrl>, steps: seq<Api.Step>)
      requires Valid()
      modifies this, db
      ensures Valid() && Now() == Run(old(Now()), parse, steps)
    {
      ghost var start := Now();
      var i := 0;
      while i < |steps|
        invariant 0 <= i <= |steps|
        invariant Valid() && Now() == Run(start, parse, steps[..i])
      {
        assert steps[..i + 1][..i] == steps[..i];
        var _ := Handle(parse, steps[i]);
        i := i + 1;
      }
      assert steps[..i] == steps;
    }
  }

  lemma ProjectCreatedKeys(t: Tables, user: Uuid, req: ProjectRequest, env: Env)
    requires ProjectKeys(t.projects, t.organizations, t.users) && ProjectCreated(t, user, req, env).Some?
    ensures var t' := ProjectCreated(t, user, req, env).value;
      ProjectKeys(t'.projects, t'.organizations, t'.users)
  {
    var row := NewProject(req.organizationId, user, req.name, env);
    InsertedProjectKeys(t, row);
    if req.proxyUrl.Some? {
      var r := InsertProject(t, row).value;
      var first := FirstRevision(user, req, env);
      RepointedKeys(r, first.projectId, WithRevision(r, first).projects[first.projectId]);
    }
  }

  lemma InsertedProjectKeys(t: Tables, row: Project)
    requires ProjectKeys(t.projects, t.organizations, t.users) && InsertProject(t, row).Some?
    ensures var t' := InsertProject(t, row).value; ProjectKeys(t'.projects, t'.organizations, t'.users)
  {}

  lemma SettingsSavedKeys(t: Tables, row: DeploymentRevision, env: Env)
    requires ProjectKeys(t.projects, t.organizations, t.users) && row.projectId in t.projects
      && SettingsSaved(t, row, env).Some?
    ensures var t' := SettingsSaved(t, row, env).value;
      ProjectKeys(t'.projects, t'.organizations, t'.users)
  {
    var r := WithRevision(t, row);
    var p := r.projects[row.projectId];
    assert ProjectKeys(r.projects, r.organizations, r.users);
    if row.ociUrl.Some? {
      RepointedKeys(r, row.projectId, p.(latestEventId := Some(env.eventId)));
    }
  }

  lemma RepointedKeys(t: Tables, pid: Uuid, p: Project)
    requires ProjectKeys(t.projects, t.organizations, t.users) && pid in t.projects
    requires p.organizationId == t.projects[pid].organizationId && p.createdBy == t.projects[pid].createdBy
    ensures ProjectKeys(t.projects[pid := p], t.organizations, t.users)
  {}
}
