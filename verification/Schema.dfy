/** The relational store: one map per table, the constraints the migrations declare, and the SQL
    statements the application issues. A statement that violates a constraint yields None. */
module Schema {
  import opened Prelude
  import UuidText

  type Uuid = UuidText.Uuid

  /** The identifier that the handlers treat as an absent one. */
  const NIL: Uuid := 0
  type Time = int

  datatype Settings = Settings(customDomain: Option<string>, dcrPublicClient: bool)

  datatype Organization = Organization(id: Uuid, createdAt: Time, name: string, settings: Settings)

  datatype UserAccount = UserAccount(id: Uuid, createdAt: Time, email: string)

  datatype Project = Project(
    id: Uuid, createdAt: Time, createdBy: Uuid, organizationId: Uuid, name: string,
    latestRevisionId: Option<Uuid>, latestEventId: Option<Uuid>)

  datatype DeploymentRevision = DeploymentRevision(
    id: Uuid, createdAt: Time, createdBy: Uuid, projectId: Uuid,
    port: Option<int>, ociUrl: Option<string>, authenticated: bool, proxyUrl: Option<string>, telemetry: bool)

  datatype EventType = EventOk | EventError | EventProgressing

  datatype RevisionEvent = RevisionEvent(id: Uuid, createdAt: Time, revisionId: Uuid, eventType: EventType)

  /** JSON-RPC parameters of a tools/call: either they parse as call parameters or they do not. */
  datatype CallParams = Unparsable | Call(name: string, arguments: Option<map<string, string>>)

  datatype Request = Request(rpc: string, params: Option<CallParams>)

  datatype CallResult = UnparsableResult | CallResult(isError: bool)

  datatype Response = Response(hasError: bool, result: Option<CallResult>)

  datatype ServerLog = ServerLog(
    id: Uuid, userAccountId: Option<Uuid>, sessionId: Option<string>, startedAt: Time, duration: int,
    revisionId: Uuid, projectId: Uuid, authTokenDigest: Option<string>,
    request: Option<Request>, response: Option<Response>,
    userAgent: Option<string>, httpStatusCode: Option<int>, httpError: Option<string>)

  datatype ContextProperty = ContextProperty(id: Uuid, projectId: Uuid, name: string)

  datatype ContextValue = ContextValue(id: Uuid, userAccountId: Uuid, propertyId: Uuid)

  datatype Tables = Tables(
    organizations: map<Uuid, Organization>,
    users: map<Uuid, UserAccount>,
    members: set<(Uuid, Uuid)>,  // (organization_id, user_account_id)
    projects: map<Uuid, Project>,
    revisions: map<Uuid, DeploymentRevision>,
    events: map<Uuid, RevisionEvent>,
    logs: map<Uuid, ServerLog>,
    properties: map<Uuid, ContextProperty>,
    contexts: map<Uuid, ContextValue>)

  const EMPTY := Tables(map[], map[], {}, map[], map[], map[], map[], map[], map[])

  // ----- constraints of the migrations -----

  ghost predicate PrimaryKeys(t: Tables) {
    && (forall i :: i in t.organizations ==> t.organizations[i].id == i)
    && (forall i :: i in t.users ==> t.users[i].id == i)
    && (forall i :: i in t.projects ==> t.projects[i].id == i)
    && (forall i :: i in t.revisions ==> t.revisions[i].id == i)
    && (forall i :: i in t.events ==> t.events[i].id == i)
    && (forall i :: i in t.logs ==> t.logs[i].id == i)
  }

  ghost predicate UniqueOrganizations(organizations: map<Uuid, Organization>) {
    forall i, j :: i in organizations && j in organizations && i != j ==> organizations[i].name != organizations[j].name
  }

  ghost predicate UniqueUsers(users: map<Uuid, UserAccount>) {
    forall i, j :: i in users && j in users && i != j ==> users[i].email != users[j].email
  }

  /** Two projects of one organization with one name. */
  predicate Clash(p: Project, q: Project) {
    p.organizationId == q.organizationId && p.name == q.name
  }

  ghost predicate UniqueProjects(projects: map<Uuid, Project>) {
    forall i, j :: i in projects && j in projects && i != j ==> !Clash(projects[i], projects[j])
  }

  ghost predicate MemberKeys(members: set<(Uuid, Uuid)>, organizations: map<Uuid, Organization>,
      users: map<Uuid, UserAccount>) {
    forall m :: m in members ==> m.0 in organizations && m.1 in users
  }

  ghost predicate ProjectKeys(projects: map<Uuid, Project>, organizations: map<Uuid, Organization>,
      users: map<Uuid, UserAccount>) {
    forall i :: i in projects ==> projects[i].organizationId in organizations && projects[i].createdBy in users
  }

  ghost predicate PointerKeys(projects: map<Uuid, Project>, revisions: map<Uuid, DeploymentRevision>,
      events: map<Uuid, RevisionEvent>) {
    && (forall i :: i in projects && projects[i].latestRevisionId.Some? ==>
        projects[i].latestRevisionId.value in revisions)
    && (forall i :: i in projects && projects[i].latestEventId.Some? ==> projects[i].latestEventId.value in events)
  }

  ghost predicate RevisionKeys(revisions: map<Uuid, DeploymentRevision>, projects: map<Uuid, Project>,
      users: map<Uuid, UserAccount>) {
    forall i :: i in revisions ==> revisions[i].projectId in projects && revisions[i].createdBy in users
  }

  ghost predicate EventKeys(events: map<Uuid, RevisionEvent>, revisions: map<Uuid, DeploymentRevision>) {
    forall i :: i in events ==> events[i].revisionId in revisions
  }

  /** The foreign keys a log has before migration 6 adds its project column. */
  ghost predicate LogOwnerKeys(logs: map<Uuid, ServerLog>, revisions: map<Uuid, DeploymentRevision>,
      users: map<Uuid, UserAccount>) {
    forall i :: i in logs ==>
      logs[i].revisionId in revisions && (logs[i].userAccountId.Some? ==> logs[i].userAccountId.value in users)
  }

  ghost predicate LogProjectKeys(logs: map<Uuid, ServerLog>, projects: map<Uuid, Project>) {
    forall i :: i in logs ==> logs[i].projectId in projects
  }

  ghost predicate ContextKeys(t: Tables) {
    && (forall i :: i in t.properties ==> t.properties[i].projectId in t.projects)
    && (forall i :: i in t.contexts ==>
        t.contexts[i].propertyId in t.properties && t.contexts[i].userAccountId in t.users)
  }

  ghost predicate UniqueColumns(t: Tables) {
    UniqueOrganizations(t.organizations) && UniqueUsers(t.users) && UniqueProjects(t.projects)
  }

  /** Every foreign key except the log's project column. */
  ghost predicate BaseForeignKeys(t: Tables) {
    && MemberKeys(t.members, t.organizations, t.users)
    && ProjectKeys(t.projects, t.organizations, t.users)
    && PointerKeys(t.projects, t.revisions, t.events)
    && RevisionKeys(t.revisions, t.projects, t.users)
    && EventKeys(t.events, t.revisions)
    && LogOwnerKeys(t.logs, t.revisions, t.users)
    && ContextKeys(t)
  }

  ghost predicate ForeignKeys(t: Tables) { BaseForeignKeys(t) && LogProjectKeys(t.logs, t.projects) }

  /** Everything the database itself enforces. */
  ghost predicate Constraints(t: Tables) { PrimaryKeys(t) && UniqueColumns(t) && ForeignKeys(t) }

  // ----- what the application maintains on top of the constraints -----

  /** A latest pointer names a row of the project's own. */
  ghost predicate OwnRevision(projects: map<Uuid, Project>, revisions: map<Uuid, DeploymentRevision>) {
    forall i ::
      i in projects && projects[i].latestRevisionId.Some? && projects[i].latestRevisionId.value in revisions ==>
      revisions[projects[i].latestRevisionId.value].projectId == i
  }

  ghost predicate OwnEvent(projects: map<Uuid, Project>, revisions: map<Uuid, DeploymentRevision>,
      events: map<Uuid, RevisionEvent>) {
    forall i :: i in projects && projects[i].latestEventId.Some? && projects[i].latestEventId.value in events
                && events[projects[i].latestEventId.value].revisionId in revisions ==>
      revisions[events[projects[i].latestEventId.value].revisionId].projectId == i
  }

  /** The denormalised project column of a log agrees with the log's revision. */
  ghost predicate LogsDenormalised(logs: map<Uuid, ServerLog>, revisions: map<Uuid, DeploymentRevision>) {
    forall i :: i in logs && logs[i].revisionId in revisions ==>
        logs[i].projectId == revisions[logs[i].revisionId].projectId
  }

  predicate WellShaped(r: DeploymentRevision) {
    (r.ociUrl.Some? ==> r.port.Some?) && (r.ociUrl.Some? || r.proxyUrl.Some?)
  }

  ghost predicate RevisionsShaped(revisions: map<Uuid, DeploymentRevision>) {
    forall i :: i in revisions ==> WellShaped(revisions[i])
  }

  ghost predicate Maintained(t: Tables) {
    && OwnRevision(t.projects, t.revisions)
    && OwnEvent(t.projects, t.revisions, t.events)
    && LogsDenormalised(t.logs, t.revisions)
    && RevisionsShaped(t.revisions)
  }

  ghost predicate Invariant(t: Tables) { Constraints(t) && Maintained(t) }

  // ----- statements -----

  function InsertOrganization(t: Tables, row: Organization): Option<Tables> {
    if row.id in t.organizations || (exists i :: i in t.organizations && t.organizations[i].name == row.name) then None
    else Some(t.(organizations := t.organizations[row.id := row]))
  }

  /** UPDATE Organization SET settings ... WHERE id RETURNING: no row is an error for the caller. */
  function UpdateOrganization(t: Tables, id: Uuid, settings: Settings): Option<Tables> {
    if id !in t.organizations then None
    else Some(t.(organizations := t.organizations[id := t.organizations[id].(settings := settings)]))
  }

  /** INSERT ... ON CONFLICT (email) DO NOTHING. */
  function InsertUserIfNew(t: Tables, row: UserAccount): Option<Tables> {
    if exists i :: i in t.users && t.users[i].email == row.email then Some(t)
    else if row.id in t.users then None
    else Some(t.(users := t.users[row.id := row]))
  }

  /** INSERT ... ON CONFLICT (organization_id, user_account_id) DO NOTHING. */
  function InsertMember(t: Tables, orgId: Uuid, userId: Uuid): Option<Tables> {
    if orgId !in t.organizations || userId !in t.users then None
    else Some(t.(members := t.members + {(orgId, userId)}))
  }

  function DeleteMember(t: Tables, orgId: Uuid, userId: Uuid): Option<Tables> {
    Some(t.(members := t.members - {(orgId, userId)}))
  }

  function InsertProject(t: Tables, row: Project): Option<Tables> {
    if row.id in t.projects || row.organizationId !in t.organizations || row.createdBy !in t.users
       || (exists i ::
             i in t.projects && t.projects[i].organizationId == row.organizationId && t.projects[i].name == row.name)
       || (row.latestRevisionId.Some? && row.latestRevisionId.value !in t.revisions)
       || (row.latestEventId.Some? && row.latestEventId.value !in t.events)
    then None
    else Some(t.(projects := t.projects[row.id := row]))
  }

  function InsertRevision(t: Tables, row: DeploymentRevision): Option<Tables> {
    if row.id in t.revisions || row.projectId !in t.projects || row.createdBy !in t.users then None
    else Some(t.(revisions := t.revisions[row.id := row]))
  }

  /** UPDATE Project SET latest_deployment_revision_id ... WHERE id; no matching row is no error. */
  function SetLatestRevision(t: Tables, projectId: Uuid, revisionId: Uuid): Option<Tables> {
    if projectId !in t.projects then Some(t)
    else if revisionId !in t.revisions then None
    else Some(t.(projects := t.projects[projectId := t.projects[projectId].(latestRevisionId := Some(revisionId))]))
  }

  function InsertEvent(t: Tables, row: RevisionEvent): Option<Tables> {
    if row.id in t.events || row.revisionId !in t.revisions then None
    else Some(t.(events := t.events[row.id := row]))
  }

  /** UPDATE Project SET latest_deployment_revision_event_id ... WHERE id = (project of the revision). */
  function SetLatestEvent(t: Tables, revisionId: Uuid, eventId: Uuid): Option<Tables> {
    if revisionId !in t.revisions || t.revisions[revisionId].projectId !in t.projects then Some(t)
    else if eventId !in t.events then None
    else
      var p := t.revisions[revisionId].projectId;
      Some(t.(projects := t.projects[p := t.projects[p].(latestEventId := Some(eventId))]))
  }

  datatype LogViolation = NullProject | DuplicateLog | UnknownRevision | UnknownProject | UnknownUser

  /** INSERT INTO MCPServerLog reads project_id by a subquery on the revision, which is NULL for an
      unknown revision. NOT NULL and the primary key are checked on insertion, foreign keys after. */
  function LogViolationOf(t: Tables, row: ServerLog): Option<LogViolation> {
    var project := if row.revisionId in t.revisions then Some(t.revisions[row.revisionId].projectId) else None;
    if project.None? then Some(NullProject)
    else if row.id in t.logs then Some(DuplicateLog)
    else if row.revisionId !in t.revisions then Some(UnknownRevision)
    else if project.value !in t.projects then Some(UnknownProject)
    else if row.userAccountId.Some? && row.userAccountId.value !in t.users then Some(UnknownUser)
    else None
  }

  function InsertLog(t: Tables, row: ServerLog): Option<Tables> {
    if LogViolationOf(t, row).Some? then None
    else Some(t.(logs := t.logs[row.id := row.(projectId := t.revisions[row.revisionId].projectId)]))
  }

  // ----- the backfill of migration 6 -----

  /** UPDATE MCPServerLog SET project_id = (SELECT project_id FROM DeploymentRevision ...). */
  function Backfill(t: Tables): Tables
    requires LogOwnerKeys(t.logs, t.revisions, t.users)
  {
    t.(logs := map i | i in t.logs :: t.logs[i].(projectId := t.revisions[t.logs[i].revisionId].projectId))
  }

  /** Before the column exists nothing is known of a log's project; the backfill makes the column a
      valid foreign key that agrees with the revision. */
  lemma BackfillDenormalises(t: Tables)
    requires PrimaryKeys(t) && UniqueColumns(t) && BaseForeignKeys(t)
    ensures Constraints(Backfill(t))
    ensures LogsDenormalised(Backfill(t).logs, Backfill(t).revisions)
  {}

  lemma BackfillChangesOnlyTheColumn(t: Tables)
    requires LogOwnerKeys(t.logs, t.revisions, t.users)
    ensures Backfill(t) == t.(logs := Backfill(t).logs)
    ensures Backfill(t).logs.Keys == t.logs.Keys
    ensures forall i :: i in t.logs ==> Backfill(t).logs[i] == t.logs[i].(projectId := Backfill(t).logs[i].projectId)
  {}
}
