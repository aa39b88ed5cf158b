/** What each request leaves behind, column by column, and exactly when it succeeds: stated on the rows
    before and after, with the members table alone deciding who may do what. */
module Effects {
  import opened Prelude
  import opened Schema
  import opened Cascade
  import opened Gateway
  import Queries
  import opened Store
  import opened Validation
  import opened Api
  import opened Invariants
  import opened Agreement
  import opened Failures
  import opened Histories

  // ----- creating a project -----

  /** Only the tables of a project's creation change: one project, and one revision with a proxy URL. It
      asks for authentication unless the request declines it, and reports telemetry only if asked to. */
  lemma CreatedContents(w: World, user: Uuid, req: ProjectRequest, env: Env)
    requires Readable(w.tables) && PostProject(w, user, req, env).1 == Ok
    ensures var t := w.tables; var t' := PostProject(w, user, req, env).0.tables;
      && t' == t.(projects := t'.projects, revisions := t'.revisions)
      && env.projectId !in t.projects
      && t'.projects == t.projects[env.projectId := Project(
           id := env.projectId, createdAt := env.now, createdBy := user, organizationId := req.organizationId,
           name := req.name, latestRevisionId := if req.proxyUrl.Some? then Some(env.revisionId) else None,
           latestEventId := None)]
      && (req.proxyUrl.Some? ==> env.revisionId !in t.revisions)
      && t'.revisions == if req.proxyUrl.None? then t.revisions else t.revisions[env.revisionId := DeploymentRevision(
           id := env.revisionId, createdAt := env.now, createdBy := user, projectId := env.projectId,
           port := None, ociUrl := None, authenticated := req.authenticated != Some(false),
           proxyUrl := req.proxyUrl, telemetry := req.telemetry == Some(true))]
  {
    assert PostProject(w, user, req, env).0.tables == ProjectCreated(w.tables, user, req, env).value;
    CreatedProjectRow(w.tables, user, req, env);
    CreatedRevisionRow(w.tables, user, req, env);
  }

  lemma CreatedProjectRow(t: Tables, user: Uuid, req: ProjectRequest, env: Env)
    requires ProjectCreated(t, user, req, env).Some?
    ensures var t' := ProjectCreated(t, user, req, env).value;
      && t' == t.(projects := t'.projects, revisions := t'.revisions) && env.projectId !in t.projects
      && t'.projects == t.projects[env.projectId := Project(
           id := env.projectId, createdAt := env.now, createdBy := user, organizationId := req.organizationId,
           name := req.name, latestRevisionId := if req.proxyUrl.Some? then Some(env.revisionId) else None,
           latestEventId := None)]
  {}

  lemma CreatedRevisionRow(t: Tables, user: Uuid, req: ProjectRequest, env: Env)
    requires ProjectCreated(t, user, req, env).Some?
    ensures req.proxyUrl.Some? ==> env.revisionId !in t.revisions
    ensures ProjectCreated(t, user, req, env).value.revisions
      == if req.proxyUrl.None? then t.revisions else t.revisions[env.revisionId := DeploymentRevision(
           id := env.revisionId, createdAt := env.now, createdBy := user, projectId := env.projectId,
           port := None, ociUrl := None, authenticated := req.authenticated != Some(false),
           proxyUrl := req.proxyUrl, telemetry := req.telemetry == Some(true))]
  {}

  /** The gateway of this name has this route, and no other for its project. */
  ghost predicate HasRoute(cluster: map<string, GatewaySpec>, name: string, s: ProjectSpec) {
    && name in cluster
    && (exists i :: 0 <= i < |cluster[name].projects| && cluster[name].projects[i] == s)
    && (forall i :: 0 <= i < |cluster[name].projects| && cluster[name].projects[i].projectId == s.projectId ==>
          cluster[name].projects[i] == s)
  }

  /** After a successful apply the route of a deployed project carries the columns of its latest revision. */
  lemma AppliedRoute(w: World, parse: string -> Option<ParsedUrl>, step: Step, pid: Uuid)
    requires Readable(w.tables) && AppliedView(w, parse, step).Some?
    requires var v := AppliedView(w, parse, step).value;
      && PrimaryKeys(v.tables) && PointerKeys(v.tables.projects, v.tables.revisions, v.tables.events)
      && pid in v.tables.projects && IsDeployed(v.tables.projects[pid])
      && v.tables.projects[pid].organizationId == v.organization.id
    ensures var v := AppliedView(w, parse, step).value; var p := v.tables.projects[pid];
      var r := v.tables.revisions[p.latestRevisionId.value];
      HasRoute(Respond(w, parse, step).0.cluster, v.organization.name,
        ProjectSpec(projectId := pid, projectName := p.name, revisionId := r.id, authenticated := r.authenticated,
                    telemetry := r.telemetry, proxyUrl := r.proxyUrl))
  {
    var v := AppliedView(w, parse, step).value;
    StepLookup(w, parse, step, v.organization.name);
    ProjectedRoute(v.tables, v.organization, pid, Respond(w, parse, step).0.cluster);
  }

  lemma ProjectedRoute(t: Tables, org: Organization, pid: Uuid, cluster: map<string, GatewaySpec>)
    requires Projectable(t) && PrimaryKeys(t) && Lookup(cluster, org.name) == Projection(t, org)
    requires pid in t.projects && IsDeployed(t.projects[pid]) && t.projects[pid].organizationId == org.id
    ensures var p := t.projects[pid]; var r := t.revisions[p.latestRevisionId.value];
      HasRoute(cluster, org.name,
        ProjectSpec(projectId := pid, projectName := p.name, revisionId := r.id, authenticated := r.authenticated,
                    telemetry := r.telemetry, proxyUrl := r.proxyUrl))
  {
    ProjectionEntries(t, org.id);
    var specs := RouteList(t, org.id);
    assert t.projects[pid] in Queries.ProjectsOf(t.projects, org.id);
    var i :| 0 <= i < |specs| && specs[i].projectId == pid;
    forall j | 0 <= j < |specs| && specs[j].projectId == pid ensures EntryOf(t, pid, specs[j]) {}
  }

  /** The route of a new project: its flags are the request's, with the defaults of its first revision. */
  lemma CreatedRoute(w: World, parse: string -> Option<ParsedUrl>, user: Uuid, req: ProjectRequest, env: Env)
    requires Invariant(w.tables) && PostProject(w, user, req, env).1 == Ok && req.proxyUrl.Some?
    requires ApplySucceeds(env.faults)
    ensures req.organizationId in w.tables.organizations
    ensures HasRoute(PostProject(w, user, req, env).0.cluster, w.tables.organizations[req.organizationId].name,
      ProjectSpec(projectId := env.projectId, projectName := req.name, revisionId := env.revisionId,
                  authenticated := req.authenticated != Some(false), telemetry := req.telemetry == Some(true),
                  proxyUrl := req.proxyUrl))
  {
    var step := Step(CreateProject(user, req), env);
    CreatedContents(w, user, req, env);
    PostProjectKeeps(w, user, req, env);
    assert AppliedView(w, parse, step).Some?;
    AppliedRoute(w, parse, step, env.projectId);
  }

  /** A project is created exactly when its name is valid and free in the organization, the user is a
      member, the identifiers are fresh and nothing fails; a stranger's request is a bad one. */
  lemma CreationStatus(w: World, user: Uuid, req: ProjectRequest, env: Env)
    requires Invariant(w.tables)
    ensures var t := w.tables; var r := PostProject(w, user, req, env);
      var allowed := (req.organizationId, user) in t.members;
      && (r.1 == Ok <==>
            && ValidName(req.name) && allowed && ReadFault !in env.faults
            && (forall p :: p in t.projects && t.projects[p].organizationId == req.organizationId ==>
                  t.projects[p].name != req.name)
            && env.projectId !in t.projects && env.faults !! {BeginTx, ProjectFault, CommitTx}
            && (req.proxyUrl.Some? ==>
                  env.revisionId !in t.revisions
                  && env.faults !! {BeginNested, RevisionFault, PointerFault, CommitNested}))
      && (r.1 == BadRequest <==>
            !ValidName(req.name)
            || (req.organizationId in t.organizations && ReadFault !in env.faults && !allowed))
      && r.1 != NotFound && (r.1 != Ok ==> r.0 == w)
  {
    CreationDecision(w, user, req, env);
    CreatableExactly(w.tables, user, req, env);
  }

  lemma CreatableExactly(t: Tables, user: Uuid, req: ProjectRequest, env: Env)
    ensures ProjectCreated(t, user, req, env).Some? <==>
      && req.organizationId in t.organizations && user in t.users && env.projectId !in t.projects
      && (forall p :: p in t.projects && t.projects[p].organizationId == req.organizationId ==>
            t.projects[p].name != req.name)
      && (req.proxyUrl.Some? ==> env.revisionId !in t.revisions)
  {
    var row := NewProject(req.organizationId, user, req.name, env);
    assert InsertProject(t, row).Some? <==>
      && req.organizationId in t.organizations && user in t.users && env.projectId !in t.projects
      && (forall p :: p in t.projects && t.projects[p].organizationId == req.organizationId ==>
            t.projects[p].name != req.name);
  }

  /** The order of the checks. */
  lemma CreationDecision(w: World, user: Uuid, req: ProjectRequest, env: Env)
    requires Projectable(w.tables)
    ensures var t := w.tables; var r := PostProject(w, user, req, env);
      var created := ProjectCreated(t, user, req, env).Some? && env.faults !! {BeginTx, ProjectFault, CommitTx}
                     && (req.proxyUrl.Some? ==> env.faults !! {BeginNested, RevisionFault, PointerFault, CommitNested});
      && r.1 == (if !ValidName(req.name) then BadRequest
                 else if ReadFault in env.faults || req.organizationId !in t.organizations then InternalError
                 else if (req.organizationId, user) !in t.members then BadRequest
                 else if created then Ok else InternalError)
      && (r.1 != Ok ==> r.0 == w)
  {}

  // ----- saving settings -----

  /** The row of the new revision: its flags and author are the request's; a URL or port is the given one,
      otherwise that of the revision the project points to. */
  ghost predicate SavedRow(t: Tables, user: Uuid, pid: Uuid, req: SettingsRequest, env: Env, row: DeploymentRevision)
    requires pid in t.projects
  {
    && row.id == env.revisionId && row.createdAt == env.now && row.createdBy == user && row.projectId == pid
    && row.authenticated == req.authenticated && row.telemetry == req.telemetry
    && match t.projects[pid].latestRevisionId
       case None => row.port == req.port && row.ociUrl == req.ociUrl && row.proxyUrl == req.proxyUrl
       case Some(r) =>
         && r in t.revisions
         && row.port == (if req.port.Some? then req.port else t.revisions[r].port)
         && row.ociUrl == (if req.ociUrl.Some? then req.ociUrl else t.revisions[r].ociUrl)
         && row.proxyUrl == (if req.proxyUrl.Some? then req.proxyUrl else t.revisions[r].proxyUrl)
  }

  lemma MergedIsSavedRow(t: Tables, user: Uuid, pid: Uuid, req: SettingsRequest, env: Env)
    requires PointerKeys(t.projects, t.revisions, t.events) && pid in t.projects
    ensures SavedRow(t, user, pid, req, env, Merged(LatestRevision(t, pid), user, pid, req, env))
  {}

  /** The tables with the revision and, for an image, its progress event; the project points to both. */
  ghost predicate SavedTables(t: Tables, t': Tables, pid: Uuid, row: DeploymentRevision, env: Env)
    requires pid in t.projects
  {
    && row.id !in t.revisions
    && t' == t.(projects := t'.projects, revisions := t.revisions[row.id := row], events := t'.events)
    && t'.projects == t.projects[pid := t.projects[pid].(
         latestRevisionId := Some(row.id),
         latestEventId := if row.ociUrl.Some? then Some(env.eventId) else t.projects[pid].latestEventId)]
    && (row.ociUrl.Some? ==> env.eventId !in t.events)
    && t'.events == if row.ociUrl.None? then t.events else t.events[env.eventId := RevisionEvent(
         id := env.eventId, createdAt := env.now, revisionId := row.id, eventType := EventProgressing)]
  }

  lemma SettingsSavedTables(t: Tables, row: DeploymentRevision, env: Env)
    requires row.projectId in t.projects && SettingsSaved(t, row, env).Some?
    ensures SavedTables(t, SettingsSaved(t, row, env).value, row.projectId, row, env)
  {}

  /** An update that is answered with success and not undone by its commit or the applier's query stores
      exactly the row of the request. */
  lemma SavedContents(w: World, parse: string -> Option<ParsedUrl>, user: Uuid, pid: Uuid, req: SettingsRequest,
      env: Env) returns (row: DeploymentRevision)
    requires Readable(w.tables) && PutSettings(w, parse, user, pid, req, env).1 == Ok
    ensures pid in w.tables.projects && SavedRow(w.tables, user, pid, req, env, row)
    ensures var t' := PutSettings(w, parse, user, pid, req, env).0.tables;
      if env.faults !! {CommitTx, ApplyQueryFault} then SavedTables(w.tables, t', pid, row, env) else t' == w.tables
  {
    AcceptedUpdate(w, parse, user, pid, req, env);
    row := Merged(LatestRevision(w.tables, pid), user, pid, req, env);
    MergedIsSavedRow(w.tables, user, pid, req, env);
    SettingsSavedTables(w.tables, row, env);
  }

  /** Whether or not the update is committed, once applied its route carries the request's flags. */
  lemma SavedRoute(w: World, parse: string -> Option<ParsedUrl>, user: Uuid, pid: Uuid, req: SettingsRequest,
      env: Env) returns (row: DeploymentRevision)
    requires Invariant(w.tables) && PutSettings(w, parse, user, pid, req, env).1 == Ok && ApplySucceeds(env.faults)
    ensures pid in w.tables.projects && SavedRow(w.tables, user, pid, req, env, row)
    ensures var p := w.tables.projects[pid];
      HasRoute(PutSettings(w, parse, user, pid, req, env).0.cluster, w.tables.organizations[p.organizationId].name,
        ProjectSpec(projectId := pid, projectName := p.name, revisionId := env.revisionId,
                    authenticated := req.authenticated, telemetry := req.telemetry, proxyUrl := row.proxyUrl))
  {
    row := Merged(LatestRevision(w.tables, pid), user, pid, req, env);
    SavedGateway(w, parse, user, pid, req, env);
    MergedIsSavedRow(w.tables, user, pid, req, env);
    AppliedRow(w.tables, row, env);
    ProjectedRoute(SettingsSaved(w.tables, row, env).value,
      w.tables.organizations[w.tables.projects[pid].organizationId], pid,
      PutSettings(w, parse, user, pid, req, env).0.cluster);
  }

  lemma SavedGateway(w: World, parse: string -> Option<ParsedUrl>, user: Uuid, pid: Uuid, req: SettingsRequest,
      env: Env)
    requires Readable(w.tables) && PutSettings(w, parse, user, pid, req, env).1 == Ok && ApplySucceeds(env.faults)
    ensures pid in w.tables.projects
    ensures var row := Merged(LatestRevision(w.tables, pid), user, pid, req, env);
      var org := w.tables.organizations[w.tables.projects[pid].organizationId];
      && SettingsSaved(w.tables, row, env).Some? && Projectable(SettingsSaved(w.tables, row, env).value)
      && Lookup(PutSettings(w, parse, user, pid, req, env).0.cluster, org.name)
         == Projection(SettingsSaved(w.tables, row, env).value, org)
  {
    AcceptedView(w, parse, user, pid, req, env);
    StepLookup(w, parse, Step(SaveSettings(user, pid, req), env),
      w.tables.organizations[w.tables.projects[pid].organizationId].name);
  }

  lemma AcceptedView(w: World, parse: string -> Option<ParsedUrl>, user: Uuid, pid: Uuid, req: SettingsRequest,
      env: Env)
    requires Readable(w.tables) && PutSettings(w, parse, user, pid, req, env).1 == Ok && ApplySucceeds(env.faults)
    ensures pid in w.tables.projects
    ensures var row := Merged(LatestRevision(w.tables, pid), user, pid, req, env);
      var org := w.tables.organizations[w.tables.projects[pid].organizationId];
      && SettingsSaved(w.tables, row, env).Some?
      && AppliedView(w, parse, Step(SaveSettings(user, pid, req), env))
         == Some(View(org, SettingsSaved(w.tables, row, env).value))
  {
    AcceptedUpdate(w, parse, user, pid, req, env);
  }

  /** What the apply reads of the project. */
  lemma AppliedRow(t: Tables, row: DeploymentRevision, env: Env)
    requires Projectable(t) && PrimaryKeys(t) && UniqueColumns(t)
    requires row.projectId in t.projects && SettingsSaved(t, row, env).Some?
    ensures var t' := SettingsSaved(t, row, env).value; var p := t.projects[row.projectId];
      && Projectable(t') && PrimaryKeys(t') && row.projectId in t'.projects
      && t'.projects[row.projectId].organizationId == p.organizationId && t'.projects[row.projectId].name == p.name
      && t'.projects[row.projectId].latestRevisionId == Some(row.id)
      && row.id in t'.revisions && t'.revisions[row.id] == row
  {
    SettingsSavedTables(t, row, env);
    SettingsSavedProjectable(t, row, env);
    SavedPrimary(t, row, env);
  }

  /** The request names at most one of an image, with a port, and a proxy URL, absolute and without one. */
  ghost predicate WellFormedSettings(req: SettingsRequest, parse: string -> Option<ParsedUrl>) {
    && (req.ociUrl.Some? ==> req.port.Some? && req.proxyUrl.None?)
    && (req.proxyUrl.Some? ==>
          && req.port.None? && parse(req.proxyUrl.value).Some?
          && parse(req.proxyUrl.value).value.scheme != "" && parse(req.proxyUrl.value).value.host != "")
  }

  /** The project's latest revision has an image. */
  ghost predicate HasImage(t: Tables, pid: Uuid) {
    && pid in t.projects && t.projects[pid].latestRevisionId.Some?
    && t.projects[pid].latestRevisionId.value in t.revisions
    && t.revisions[t.projects[pid].latestRevisionId.value].ociUrl.Some?
  }

  /** Exactly when an update succeeds, and for whom: only the members table of the project's own
      organization counts. */
  lemma SettingsStatus(w: World, parse: string -> Option<ParsedUrl>, user: Uuid, pid: Uuid, req: SettingsRequest,
      env: Env)
    requires Invariant(w.tables)
    ensures var t := w.tables; var r := PutSettings(w, parse, user, pid, req, env);
      var allowed := pid in t.projects && (t.projects[pid].organizationId, user) in t.members;
      var image := req.ociUrl.Some? || HasImage(t, pid);
      var someUrl := allowed && (req.ociUrl.Some? || req.proxyUrl.Some? || t.projects[pid].latestRevisionId.Some?);
      && (r.1 == Ok <==>
            && WellFormedSettings(req, parse) && someUrl && env.revisionId !in t.revisions
            && env.faults !! {ReadFault, BeginTx, SummaryFault}
            && env.faults !! {BeginNested, RevisionFault, PointerFault, CommitNested}
            && (image ==> env.eventId !in t.events && env.faults !! {EventFault, EventPointerFault}))
      && (r.1 == NotFound <==> WellFormedSettings(req, parse) && ReadFault !in env.faults && !allowed)
      && (r.1 == BadRequest <==>
            !WellFormedSettings(req, parse)
            || (allowed && !someUrl && env.faults !! {ReadFault, BeginTx, SummaryFault}))
      && (r.1 != Ok ==> r.0 == w)
  {
    SettingsDecision(w, parse, user, pid, req, env);
    AcceptableIff(req, parse);
    if pid in w.tables.projects {
      MergedUrls(w.tables, user, pid, req, env);
      SavableIff(w.tables, Merged(LatestRevision(w.tables, pid), user, pid, req, env), env);
    }
  }

  lemma AcceptableIff(req: SettingsRequest, parse: string -> Option<ParsedUrl>)
    ensures AcceptableSettings(req, parse) <==> WellFormedSettings(req, parse)
  {}

  lemma MergedUrls(t: Tables, user: Uuid, pid: Uuid, req: SettingsRequest, env: Env)
    requires PointerKeys(t.projects, t.revisions, t.events) && RevisionsShaped(t.revisions) && pid in t.projects
    ensures var row := Merged(LatestRevision(t, pid), user, pid, req, env);
      && row.id == env.revisionId && row.createdBy == user && row.projectId == pid
      && (row.ociUrl.Some? <==> req.ociUrl.Some? || HasImage(t, pid))
      && (row.ociUrl.Some? || row.proxyUrl.Some? <==>
            req.ociUrl.Some? || req.proxyUrl.Some? || t.projects[pid].latestRevisionId.Some?)
  {
    LatestShaped(t, pid);
  }

  /** The order of the checks. */
  lemma SettingsDecision(w: World, parse: string -> Option<ParsedUrl>, user: Uuid, pid: Uuid, req: SettingsRequest,
      env: Env)
    requires Readable(w.tables)
    ensures var t := w.tables; var r := PutSettings(w, parse, user, pid, req, env);
      && r.1 == (if !AcceptableSettings(req, parse) then BadRequest
                 else if ReadFault in env.faults then InternalError
                 else if !(pid in t.projects && (t.projects[pid].organizationId, user) in t.members) then NotFound
                 else if !(env.faults !! {BeginTx, SummaryFault}) then InternalError
                 else
                   var row := Merged(LatestRevision(t, pid), user, pid, req, env);
                   if row.ociUrl.None? && row.proxyUrl.None? then BadRequest
                   else if SettingsSaved(t, row, env).Some?
                           && env.faults !! {BeginNested, RevisionFault, PointerFault, CommitNested}
                           && (row.ociUrl.Some? ==> env.faults !! {EventFault, EventPointerFault})
                   then Ok else InternalError)
      && (r.1 != Ok ==> r.0 == w)
  {}

  lemma SavableIff(t: Tables, row: DeploymentRevision, env: Env)
    requires row.projectId in t.projects
    ensures SettingsSaved(t, row, env).Some? <==>
      && row.id !in t.revisions && row.createdBy in t.users && (row.ociUrl.Some? ==> env.eventId !in t.events)
  {}

  // ----- removing a project -----

  /** Only a member of the project's organization can remove it, and succeeds when nothing fails. */
  lemma RemovalStatus(w: World, user: Uuid, pid: Uuid, env: Env)
    requires Invariant(w.tables)
    ensures var t := w.tables; var r := DeleteProjectStep(w, user, pid, env);
      var allowed := pid in t.projects && (t.projects[pid].organizationId, user) in t.members;
      && (r.1 == Ok <==> allowed && env.faults !! {ReadFault, SummaryFault, ProjectFault})
      && (r.1 == NotFound <==> !allowed && ReadFault !in env.faults)
      && r.1 != BadRequest && (r.1 != Ok ==> r.0 == w)
      && (r.1 == Ok ==> r.0.tables.projects == t.projects - {pid})
  {
    DeleteKeepsInvariant(w.tables, pid);
    SurvivorsUnchanged(w.tables, pid);
  }

  // ----- the gateway an apply leaves -----

  /** After a successful apply the organization has a gateway exactly when it has a project, and the gateway
      shows the settings that were read. */
  lemma AppliedGateway(w: World, parse: string -> Option<ParsedUrl>, step: Step)
    requires Readable(w.tables) && AppliedView(w, parse, step).Some?
    ensures var v := AppliedView(w, parse, step).value; var cluster := Respond(w, parse, step).0.cluster;
      var org := v.organization;
      && (org.name in cluster <==> exists p :: p in v.tables.projects && v.tables.projects[p].organizationId == org.id)
      && (org.name in cluster ==>
            && cluster[org.name].organizationId == org.id && cluster[org.name].organizationName == org.name
            && cluster[org.name].customDomain == org.settings.customDomain
            && cluster[org.name].dcrPublicClient == org.settings.dcrPublicClient)
  {
    var v := AppliedView(w, parse, step).value;
    StepLookup(w, parse, step, v.organization.name);
    if p :| p in v.tables.projects && v.tables.projects[p].organizationId == v.organization.id {
      assert v.tables.projects[p] in Queries.ProjectsOf(v.tables.projects, v.organization.id);
    }
  }

  // ----- organizations and their members -----

  /** An organization is founded with a valid, free name, without a custom domain, as a public client, and
      with its founder as a member unless that last statement fails. */
  lemma FoundingContents(w: World, user: Uuid, name: string, env: Env)
    ensures var t := w.tables; var r := PostOrganization(w, user, name, env); var t' := r.0.tables;
      var free := forall o :: o in t.organizations ==> t.organizations[o].name != name;
      var stored := ValidName(name) && free && env.organizationId !in t.organizations
                    && OrganizationFault !in env.faults;
      var joined := stored && MemberFault !in env.faults && user in t.users;
      && r.0.cluster == w.cluster && t' == t.(organizations := t'.organizations, members := t'.members)
      && t'.organizations == (if stored then t.organizations[env.organizationId := Organization(
           id := env.organizationId, createdAt := env.now, name := name,
           settings := Settings(customDomain := None, dcrPublicClient := true))] else t.organizations)
      && t'.members == t.members + (if joined then {(env.organizationId, user)} else {})
      && (r.1 == Ok <==> joined) && r.1 != NotFound
      && (r.1 == InternalError <==> ValidName(name) && (OrganizationFault in env.faults || (stored && !joined)))
  {
    FoundableIff(w.tables, name, env);
    if InsertOrganization(w.tables, NewOrganization(name, env)).Some? { FoundedRow(w.tables, name, env); }
  }

  lemma FoundableIff(t: Tables, name: string, env: Env)
    ensures InsertOrganization(t, NewOrganization(name, env)).Some? <==>
      env.organizationId !in t.organizations && forall o :: o in t.organizations ==> t.organizations[o].name != name
  {}

  lemma FoundedRow(t: Tables, name: string, env: Env)
    requires InsertOrganization(t, NewOrganization(name, env)).Some?
    ensures InsertOrganization(t, NewOrganization(name, env)).value
         == t.(organizations := t.organizations[env.organizationId := Organization(
              id := env.organizationId, createdAt := env.now, name := name,
              settings := Settings(customDomain := None, dcrPublicClient := true))])
  {}

  /** An organization's update keeps what is not given, removes the domain for an empty one, sets a valid
      one, and is refused to everybody but members. */
  lemma OrganizationContents(w: World, user: Uuid, orgId: Uuid, req: OrganizationRequest, env: Env)
    requires Readable(w.tables) && orgId in w.tables.organizations
    ensures var t := w.tables; var r := PutOrganization(w, user, orgId, req, env); var t' := r.0.tables;
      var allowed := (orgId, user) in t.members;
      var valid := req.customDomain.None? || req.customDomain.value == "" || ValidDomain(req.customDomain.value);
      && orgId in t'.organizations
      && (r.1 == Ok <==>
            && allowed && valid && ReadFault !in env.faults
            && ((req.customDomain.None? && req.dcrPublicClient.None?) || OrganizationFault !in env.faults))
      && (r.1 == NotFound <==> ReadFault !in env.faults && !allowed)
      && (r.1 == BadRequest <==> ReadFault !in env.faults && allowed && !valid)
      && (r.1 != Ok ==> r.0 == w)
      && t' == t.(organizations := t.organizations[orgId :=
           t.organizations[orgId].(settings := t'.organizations[orgId].settings)])
      && (r.1 == Ok ==> SettingsAfter(t.organizations[orgId].settings, req, t'.organizations[orgId].settings))
  {
    var t' := PutOrganization(w, user, orgId, req, env).0.tables;
    var organizations := w.tables.organizations;
    if t' == w.tables { assert organizations[orgId := organizations[orgId]] == organizations; }
  }

  ghost predicate SettingsAfter(before: Settings, req: OrganizationRequest, after: Settings) {
    && (req.customDomain.None? ==> after.customDomain == before.customDomain)
    && (req.customDomain == Some("") ==> after.customDomain == None)
    && (req.customDomain.Some? && req.customDomain.value != "" ==> after.customDomain == req.customDomain)
    && (req.dcrPublicClient.None? ==> after.dcrPublicClient == before.dcrPublicClient)
    && (req.dcrPublicClient.Some? ==> Some(after.dcrPublicClient) == req.dcrPublicClient)
  }

  /** After an applied update the gateway, which exists exactly when the organization has a project, shows
      the settings that are stored. */
  lemma OrganizationApplied(w: World, parse: string -> Option<ParsedUrl>, user: Uuid, orgId: Uuid,
      req: OrganizationRequest, env: Env)
    requires Invariant(w.tables) && PutOrganization(w, user, orgId, req, env).1 == Ok && ApplySucceeds(env.faults)
    ensures orgId in w.tables.organizations
    ensures var r := PutOrganization(w, user, orgId, req, env).0; var name := w.tables.organizations[orgId].name;
      && (name in r.cluster <==> exists p :: p in w.tables.projects && w.tables.projects[p].organizationId == orgId)
      && (name in r.cluster ==>
            && r.cluster[name].organizationId == orgId && r.cluster[name].organizationName == name
            && r.cluster[name].customDomain == r.tables.organizations[orgId].settings.customDomain
            && r.cluster[name].dcrPublicClient == r.tables.organizations[orgId].settings.dcrPublicClient)
  {
    OrganizationContents(w, user, orgId, req, env);
    AppliedGateway(w, parse, Step(SaveOrganization(user, orgId, req), env));
  }

  /** The invited person's account, created for a new e-mail, becomes a member and nobody else does. */
  lemma InvitationContents(w: World, user: Uuid, orgId: Uuid, email: string, env: Env)
    requires UniqueUsers(w.tables.users) && orgId in w.tables.organizations
    ensures var t := w.tables; var r := PutMember(w, user, orgId, email, env); var t' := r.0.tables;
      var allowed := (orgId, user) in t.members;
      var known := exists u :: u in t.users && t.users[u].email == email;
      && (r.1 == Ok <==>
            && allowed && (known || env.userId !in t.users)
            && env.faults !! {ReadFault, BeginTx, UserFault, MemberFault, CommitTx})
      && (r.1 == NotFound <==> ReadFault !in env.faults && !allowed) && r.1 != BadRequest && (r.1 != Ok ==> r.0 == w)
      && (r.1 == Ok ==>
            && t' == t.(users := t'.users, members := t'.members)
            && t'.users == (if known then t.users else t.users[env.userId := UserAccount(
                 id := env.userId, createdAt := env.now, email := email)])
            && exists u :: u in t'.users && t'.users[u].email == email && t'.members == t.members + {(orgId, u)})
  {
    if env.userId !in w.tables.users || KnowsEmail(w.tables, email) {
      InsertedUserUnique(w.tables, email, env);
    }
  }

  /** Signing in creates the account of a new e-mail and changes nothing else. */
  lemma SignInContents(w: World, email: string, env: Env)
    ensures var t := w.tables; var r := SignIn(w, email, env);
      var known := exists u :: u in t.users && t.users[u].email == email;
      && (r.1 == Ok <==> UserFault !in env.faults && (known || env.userId !in t.users))
      && (r.1 != Ok ==> r.0 == w)
      && (r.1 == Ok ==> r.0 == w.(tables := t.(users := if known then t.users else t.users[env.userId := UserAccount(
           id := env.userId, createdAt := env.now, email := email)])))
  {}
}
