/** The API as a state machine: what one request does to the store and the cluster. A step is atomic:
    it names the committed tables, the gateway that was applied and the status the client sees. */
module Api {
  import opened Prelude
  import opened Schema
  import UuidText
  import opened Cascade
  import opened Gateway
  import opened Store
  import opened Validation

  datatype Status = Ok | BadRequest | NotFound | InternalError

  datatype World = World(tables: Tables, cluster: map<string, GatewaySpec>)

  // ----- access -----

  predicate IsMember(t: Tables, user: Uuid, orgId: Uuid) { (orgId, user) in t.members }

  predicate CanAccess(t: Tables, user: Uuid, pid: Uuid) {
    pid in t.projects && IsMember(t, user, t.projects[pid].organizationId)
  }

  // ----- the gateway applier -----

  predicate ApplySucceeds(faults: set<Fault>) { ApplyQueryFault !in faults && ApplyClusterFault !in faults }

  function WithGateway(cluster: map<string, GatewaySpec>, name: string,
      gateway: Option<GatewaySpec>): map<string, GatewaySpec> {
    match gateway
    case None => cluster - {name}
    case Some(spec) => cluster[name := spec]
  }

  /** Apply for an organization that reads the tables `t`; a failure is only logged. */
  function Applied(cluster: map<string, GatewaySpec>, t: Tables, org: Organization,
      faults: set<Fault>): map<string, GatewaySpec>
    requires Projectable(t)
  {
    if ApplySucceeds(faults) then WithGateway(cluster, org.name, Projection(t, org)) else cluster
  }

  // ----- POST /projects -----

  datatype ProjectRequest = ProjectRequest(
    name: string, organizationId: Uuid, proxyUrl: Option<string>, telemetry: Option<bool>, authenticated: Option<bool>)

  function FirstRevision(user: Uuid, req: ProjectRequest, env: Env): DeploymentRevision {
    DeploymentRevision(
      env.revisionId, env.now, user, env.projectId, None, None,
      if req.authenticated.Some? then req.authenticated.value else true,
      req.proxyUrl,
      if req.telemetry.Some? then req.telemetry.value else false)
  }

  /** The tables with the new project and, when a proxy URL is given, its first revision. */
  function ProjectCreated(t: Tables, user: Uuid, req: ProjectRequest, env: Env): Option<Tables> {
    var r := InsertProject(t, NewProject(req.organizationId, user, req.name, env));
    if r.None? || req.proxyUrl.None? then r
    else if InsertRevision(r.value, FirstRevision(user, req, env)).None? then None
    else Some(WithRevision(r.value, FirstRevision(user, req, env)))
  }

  function ProjectFaults(req: ProjectRequest): set<Fault> {
    {BeginTx, ProjectFault, CommitTx} + (if req.proxyUrl.Some? then REVISION_FAULTS else {})
  }

  function PostProject(w: World, user: Uuid, req: ProjectRequest, env: Env): (World, Status)
    requires Projectable(w.tables)
  {
    if !ValidName(req.name) then (w, BadRequest)
    else if ReadFault in env.faults || req.organizationId !in w.tables.organizations then (w, InternalError)
    else if !IsMember(w.tables, user, req.organizationId) then (w, BadRequest)
    else
      var created := ProjectCreated(w.tables, user, req, env);
      if created.None? || !(env.faults !! ProjectFaults(req)) then (w, InternalError)
      else if req.proxyUrl.None? then (w.(tables := created.value), Ok)
      else
        ProjectCreatedProjectable(w.tables, user, req, env);
        (World(created.value, Applied(w.cluster, created.value, w.tables.organizations[req.organizationId],
            env.faults)), Ok)
  }

  lemma InsertedProjectUnique(t: Tables, row: Project)
    requires UniqueProjects(t.projects) && InsertProject(t, row).Some?
    ensures UniqueProjects(InsertProject(t, row).value.projects)
  {
    var projects := InsertProject(t, row).value.projects;
    forall i, j | i in projects && j in projects && i != j ensures !Clash(projects[i], projects[j]) {
      if i in t.projects && j in t.projects { assert !Clash(t.projects[i], t.projects[j]); }
    }
  }

  /** Moving the latest pointers of projects does not touch their names. */
  ghost predicate SameNames(projects: map<Uuid, Project>, projects': map<Uuid, Project>) {
    && projects'.Keys == projects.Keys
    && forall i :: i in projects ==>
        projects'[i].organizationId == projects[i].organizationId && projects'[i].name == projects[i].name
  }

  lemma SameNamesUnique(projects: map<Uuid, Project>, projects': map<Uuid, Project>)
    requires UniqueProjects(projects) && SameNames(projects, projects')
    ensures UniqueProjects(projects')
  {
    forall i, j | i in projects' && j in projects' && i != j ensures !Clash(projects'[i], projects'[j]) {
      assert !Clash(projects[i], projects[j]);
    }
  }

  lemma RevisionProjectable(t: Tables, row: DeploymentRevision)
    requires Projectable(t) && row.projectId in t.projects
    ensures Projectable(WithRevision(t, row))
  {
    SameNamesUnique(t.projects, WithRevision(t, row).projects);
  }

  lemma EventProjectable(t: Tables, row: RevisionEvent)
    requires Projectable(t) && row.revisionId in t.revisions && t.revisions[row.revisionId].projectId in t.projects
    ensures Projectable(WithEvent(t, row))
  {
    SameNamesUnique(t.projects, WithEvent(t, row).projects);
  }

  lemma InsertProjectable(t: Tables, row: Project)
    requires Projectable(t) && InsertProject(t, row).Some?
    ensures Projectable(InsertProject(t, row).value)
  {
    InsertedProjectUnique(t, row);
  }

  lemma ProjectCreatedProjectable(t: Tables, user: Uuid, req: ProjectRequest, env: Env)
    requires Projectable(t) && ProjectCreated(t, user, req, env).Some?
    ensures Projectable(ProjectCreated(t, user, req, env).value)
  {
    var row := NewProject(req.organizationId, user, req.name, env);
    InsertProjectable(t, row);
    if req.proxyUrl.Some? { RevisionProjectable(InsertProject(t, row).value, FirstRevision(user, req, env)); }
  }

  // ----- PUT /projects/{id}/settings -----

  datatype ParsedUrl = ParsedUrl(scheme: string, host: string)

  datatype SettingsRequest = SettingsRequest(
    ociUrl: Option<string>, port: Option<int>, authenticated: bool, telemetry: bool, proxyUrl: Option<string>)

  /** The checks made before the project is looked up; `parse` is url.Parse. */
  predicate AcceptableSettings(req: SettingsRequest, parse: string -> Option<ParsedUrl>) {
    if req.ociUrl.Some? && req.proxyUrl.Some? then false
    else if req.ociUrl.Some? then req.port.Some?
    else if req.proxyUrl.Some? then
      req.port.None? && (var u := parse(req.proxyUrl.value); u.Some? && u.value.scheme != "" && u.value.host != "")
    else true
  }

  function Keep<T>(wanted: Option<T>, previous: Option<T>): Option<T> {
    if wanted.Some? then wanted else previous
  }

  /** A request is merged into the latest revision: a URL or port that is not given is kept. */
  function Merged(latest: Option<DeploymentRevision>, user: Uuid, pid: Uuid, req: SettingsRequest,
      env: Env): DeploymentRevision {
    DeploymentRevision(
      env.revisionId, env.now, user, pid,
      Keep(req.port, if latest.Some? then latest.value.port else None),
      Keep(req.ociUrl, if latest.Some? then latest.value.ociUrl else None),
      req.authenticated,
      Keep(req.proxyUrl, if latest.Some? then latest.value.proxyUrl else None),
      req.telemetry)
  }

  function LatestRevision(t: Tables, pid: Uuid): Option<DeploymentRevision>
    requires pid in t.projects
  {
    var p := t.projects[pid];
    if p.latestRevisionId.Some? && p.latestRevisionId.value in t.revisions then
      Some(t.revisions[p.latestRevisionId.value])
    else None
  }

  /** The tables with the new revision and, for an image, its progress event. */
  function SettingsSaved(t: Tables, row: DeploymentRevision, env: Env): Option<Tables>
    requires row.projectId in t.projects
  {
    if InsertRevision(t, row).None? then None
    else
      var r := WithRevision(t, row);
      if row.ociUrl.None? then Some(r)
      else if InsertEvent(r, NewEvent(row.id, EventProgressing, env)).None? then None
      else Some(WithEvent(r, NewEvent(row.id, EventProgressing, env)))
  }

  function SettingsFaults(row: DeploymentRevision): set<Fault> {
    REVISION_FAULTS + (if row.ociUrl.Some? then {EventFault, EventPointerFault} else {})
  }

  lemma SettingsSavedProjectable(t: Tables, row: DeploymentRevision, env: Env)
    requires Projectable(t) && row.projectId in t.projects && SettingsSaved(t, row, env).Some?
    ensures Projectable(SettingsSaved(t, row, env).value)
  {
    RevisionProjectable(t, row);
    if row.ociUrl.Some? { EventProjectable(WithRevision(t, row), NewEvent(row.id, EventProgressing, env)); }
  }

  /** The gateway is applied to the uncommitted tables and the response is written before the commit;
      the commit fails on its own fault, or because the applier's query aborted the transaction. */
  function PutSettings(w: World, parse: string -> Option<ParsedUrl>, user: Uuid, pid: Uuid, req: SettingsRequest,
      env: Env): (World, Status)
    requires Projectable(w.tables) && ProjectKeys(w.tables.projects, w.tables.organizations, w.tables.users)
  {
    if !AcceptableSettings(req, parse) then (w, BadRequest)
    else if ReadFault in env.faults then (w, InternalError)
    else if !CanAccess(w.tables, user, pid) then (w, NotFound)
    else if BeginTx in env.faults || SummaryFault in env.faults then (w, InternalError)
    else
      var row := Merged(LatestRevision(w.tables, pid), user, pid, req, env);
      if row.ociUrl.None? && row.proxyUrl.None? then (w, BadRequest)
      else
        var saved := SettingsSaved(w.tables, row, env);
        if saved.None? || !(env.faults !! SettingsFaults(row)) then (w, InternalError)
        else
          SettingsSavedProjectable(w.tables, row, env);
          var org := w.tables.organizations[w.tables.projects[pid].organizationId];
          var committed := CommitTx !in env.faults && ApplyQueryFault !in env.faults;
          (World(if committed then saved.value else w.tables, Applied(w.cluster, saved.value, org, env.faults)), Ok)
  }

  // ----- DELETE /projects/{id} -----

  lemma DeletedProjectable(t: Tables, pid: Uuid)
    requires Projectable(t) && EventKeys(t.events, t.revisions)
    ensures Projectable(WithoutProject(t, pid))
  {
    var t' := WithoutProject(t, pid);
    DeleteKeepsPointers(t, pid);
    forall i, j | i in t'.projects && j in t'.projects && i != j ensures !Clash(t'.projects[i], t'.projects[j]) {
      assert !Clash(t.projects[i], t.projects[j]);
    }
  }

  function DeleteProjectStep(w: World, user: Uuid, pid: Uuid, env: Env): (World, Status)
    requires Projectable(w.tables) && ProjectKeys(w.tables.projects, w.tables.organizations, w.tables.users)
    requires EventKeys(w.tables.events, w.tables.revisions)
  {
    if ReadFault in env.faults then (w, InternalError)
    else if !CanAccess(w.tables, user, pid) then (w, NotFound)
    else if SummaryFault in env.faults || ProjectFault in env.faults || DeleteProject(w.tables, pid).None? then
      (w, InternalError)
    else
      DeletedProjectable(w.tables, pid);
      var t' := WithoutProject(w.tables, pid);
      var org := w.tables.organizations[w.tables.projects[pid].organizationId];
      (World(t', Applied(w.cluster, t', org, env.faults)), Ok)
  }

  // ----- organizations and members -----

  function NewOrganization(name: string, env: Env): Organization {
    Organization(env.organizationId, env.now, name, Settings(None, true))
  }

  /** Two statements without a transaction: the organization stays when adding its creator fails. */
  function PostOrganization(w: World, user: Uuid, name: string, env: Env): (World, Status) {
    if !ValidName(name) then (w, BadRequest)
    else if OrganizationFault in env.faults then (w, InternalError)
    else
      var created := InsertOrganization(w.tables, NewOrganization(name, env));
      if created.None? then (w, BadRequest)
      else if MemberFault in env.faults || InsertMember(created.value, env.organizationId, user).None? then
        (w.(tables := created.value), InternalError)
      else (w.(tables := InsertMember(created.value, env.organizationId, user).value), Ok)
  }

  datatype OrganizationRequest = OrganizationRequest(customDomain: Option<string>, dcrPublicClient: Option<bool>)

  predicate AcceptableDomain(req: OrganizationRequest) {
    req.customDomain.Some? && req.customDomain.value != "" ==> ValidDomain(req.customDomain.value)
  }

  /** An empty custom domain removes it. */
  function NewSettings(s: Settings, req: OrganizationRequest): Settings {
    Settings(
      if req.customDomain.None? then s.customDomain
      else if req.customDomain.value == "" then None else req.customDomain,
      if req.dcrPublicClient.Some? then req.dcrPublicClient.value else s.dcrPublicClient)
  }

  function PutOrganization(w: World, user: Uuid, orgId: Uuid, req: OrganizationRequest, env: Env): (World, Status)
    requires Projectable(w.tables)
  {
    if ReadFault in env.faults || orgId !in w.tables.organizations then (w, InternalError)
    else if !IsMember(w.tables, user, orgId) then (w, NotFound)
    else if !AcceptableDomain(req) then (w, BadRequest)
    else
      var updateNeeded := req.customDomain.Some? || req.dcrPublicClient.Some?;
      if updateNeeded && OrganizationFault in env.faults then (w, InternalError)
      else
        var org := w.tables.organizations[orgId];
        var org' := org.(settings := NewSettings(org.settings, req));
        var t' := w.tables.(organizations := w.tables.organizations[orgId := org']);
        (World(t', Applied(w.cluster, t', org', env.faults)), Ok)
  }

  /** The user with that e-mail, created when unknown, becomes a member. */
  function MemberAdded(t: Tables, orgId: Uuid, email: string, env: Env): Option<Tables>
    requires UniqueUsers(t.users)
  {
    var r := InsertUserIfNew(t, NewUser(email, env));
    if r.None? then None
    else
      InsertedUserUnique(t, email, env);
      InsertMember(r.value, orgId, UserIdOf(r.value, email))
  }

  function PutMember(w: World, user: Uuid, orgId: Uuid, email: string, env: Env): (World, Status)
    requires UniqueUsers(w.tables.users)
  {
    if ReadFault in env.faults || orgId !in w.tables.organizations then (w, InternalError)
    else if !IsMember(w.tables, user, orgId) then (w, NotFound)
    else
      var added := MemberAdded(w.tables, orgId, email, env);
      if added.None? || !(env.faults !! {BeginTx, UserFault, MemberFault, CommitTx}) then (w, InternalError)
      else (w.(tables := added.value), Ok)
  }

  function DeleteMemberStep(w: World, user: Uuid, orgId: Uuid, target: Uuid, env: Env): (World, Status) {
    if ReadFault in env.faults || orgId !in w.tables.organizations then (w, InternalError)
    else if !IsMember(w.tables, user, orgId) then (w, NotFound)
    else if target == NIL then (w, Ok)
    else if user == target then (w, BadRequest)
    else if MemberFault in env.faults then (w, InternalError)
    else (w.(tables := w.tables.(members := w.tables.members - {(orgId, target)})), Ok)
  }

  /** The authentication middleware creates the user of an unknown e-mail. */
  function SignIn(w: World, email: string, env: Env): (World, Status) {
    var r := InsertUserIfNew(w.tables, NewUser(email, env));
    if UserFault in env.faults || r.None? then (w, InternalError) else (w.(tables := r.value), Ok)
  }

  // ----- POST /webhook/proxy/{deploymentRevisionID} -----

  datatype Report = Report(
    subjectEmail: string, sessionId: string, startedAt: Time, duration: int, authTokenDigest: string,
    rpcRequest: Option<Request>, rpcResponse: Option<Response>, userAgent: string,
    httpStatusCode: int, httpError: string)

  function ReportedLog(revisionId: Uuid, userId: Uuid, report: Report, env: Env): ServerLog {
    ServerLog(
      env.logId, Some(userId), Some(report.sessionId), report.startedAt, report.duration, revisionId, 0,
      Some(report.authTokenDigest), report.rpcRequest, report.rpcResponse,
      Some(report.userAgent), Some(report.httpStatusCode), Some(report.httpError))
  }

  /** A report of an unknown user is dropped with an empty response. */
  function PostReport(w: World, param: string, report: Report, env: Env): (World, Status)
    requires UniqueUsers(w.tables.users)
  {
    var id := UuidText.Parse(param);
    if id.None? then (w, BadRequest)
    else if ReadFault in env.faults || !KnowsEmail(w.tables, report.subjectEmail) then (w, Ok)
    else
      var row := ReportedLog(id.value, UserIdOf(w.tables, report.subjectEmail), report, env);
      if LogFault in env.faults then (w, InternalError)
      else if LogViolationOf(w.tables, row).Some? then
        (w, if LogViolationOf(w.tables, row).value.UnknownRevision? then BadRequest else InternalError)
      else (w.(tables := InsertLog(w.tables, row).value), Ok)
  }

  // ----- steps -----

  datatype Operation =
    | CreateProject(user: Uuid, project: ProjectRequest)
    | SaveSettings(user: Uuid, pid: Uuid, settings: SettingsRequest)
    | RemoveProject(user: Uuid, pid: Uuid)
    | CreateOrganization(user: Uuid, name: string)
    | SaveOrganization(user: Uuid, orgId: Uuid, organization: OrganizationRequest)
    | AddMember(user: Uuid, orgId: Uuid, email: string)
    | RemoveMember(user: Uuid, orgId: Uuid, target: Uuid)
    | Authenticate(email: string)
    | ReceiveReport(param: string, report: Report)

  datatype Step = Step(operation: Operation, env: Env)

  /** The constraints of the schema that the requests read their tables under. */
  ghost predicate Readable(t: Tables) {
    Projectable(t) && ProjectKeys(t.projects, t.organizations, t.users) && EventKeys(t.events, t.revisions)
        && UniqueUsers(t.users)
  }

  function Respond(w: World, parse: string -> Option<ParsedUrl>, step: Step): (World, Status)
    requires Readable(w.tables)
  {
    match step.operation
    case CreateProject(user, project) => PostProject(w, user, project, step.env)
    case SaveSettings(user, pid, settings) => PutSettings(w, parse, user, pid, settings, step.env)
    case RemoveProject(user, pid) => DeleteProjectStep(w, user, pid, step.env)
    case CreateOrganization(user, name) => PostOrganization(w, user, name, step.env)
    case SaveOrganization(user, orgId, organization) => PutOrganization(w, user, orgId, organization, step.env)
    case AddMember(user, orgId, email) => PutMember(w, user, orgId, email, step.env)
    case RemoveMember(user, orgId, target) => DeleteMemberStep(w, user, orgId, target, step.env)
    case Authenticate(email) => SignIn(w, email, step.env)
    case ReceiveReport(param, report) => PostReport(w, param, report, step.env)
  }
}
