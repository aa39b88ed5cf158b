/** What is left when an apply or a commit fails: the gateways lag behind or run ahead of the store,
    and one successful apply repairs them. */
module Failures {
  import opened Prelude
  import opened Schema
  import opened Gateway
  import opened Store
  import opened Api
  import opened Invariants
  import opened Agreement
  import opened Reconciler

  /** What a successful apply read: the organization and the tables its connection saw. */
  datatype View = View(organization: Organization, tables: Tables)

  function AppliedView(w: World, parse: string -> Option<ParsedUrl>, step: Step): Option<View>
    requires Readable(w.tables)
  {
    var r := Respond(w, parse, step);
    if r.1 != Ok || !ApplySucceeds(step.env.faults) then None
    else
      match step.operation
      case CreateProject(user, project) =>
        if project.proxyUrl.Some? then Some(View(w.tables.organizations[project.organizationId], r.0.tables)) else None
      case SaveSettings(user, pid, settings) =>
        var row := Merged(LatestRevision(w.tables, pid), user, pid, settings, step.env);
        Some(View(w.tables.organizations[w.tables.projects[pid].organizationId],
            SettingsSaved(w.tables, row, step.env).value))
      case RemoveProject(user, pid) =>
        Some(View(w.tables.organizations[w.tables.projects[pid].organizationId], r.0.tables))
      case SaveOrganization(user, orgId, organization) =>
        Some(View(r.0.tables.organizations[orgId], r.0.tables))
      case _ => None
  }

  lemma CreatedView(w: World, parse: string -> Option<ParsedUrl>, step: Step)
    requires Readable(w.tables) && step.operation.CreateProject? && AppliedView(w, parse, step).Some?
    ensures Projectable(AppliedView(w, parse, step).value.tables)
  {
    ProjectCreatedProjectable(w.tables, step.operation.user, step.operation.project, step.env);
  }

  lemma SavedView(w: World, parse: string -> Option<ParsedUrl>, step: Step)
    requires Readable(w.tables) && step.operation.SaveSettings? && AppliedView(w, parse, step).Some?
    ensures Projectable(AppliedView(w, parse, step).value.tables)
  {
    var pid := step.operation.pid;
    var row := Merged(LatestRevision(w.tables, pid), step.operation.user, pid, step.operation.settings, step.env);
    SettingsSavedProjectable(w.tables, row, step.env);
  }

  lemma RemovedView(w: World, parse: string -> Option<ParsedUrl>, step: Step)
    requires Readable(w.tables) && step.operation.RemoveProject? && AppliedView(w, parse, step).Some?
    ensures Projectable(AppliedView(w, parse, step).value.tables)
  {
    DeletedProjectable(w.tables, step.operation.pid);
  }

  lemma OrganizationView(w: World, parse: string -> Option<ParsedUrl>, step: Step)
    requires Readable(w.tables) && step.operation.SaveOrganization? && AppliedView(w, parse, step).Some?
    ensures Projectable(AppliedView(w, parse, step).value.tables)
  {}

  lemma ViewProjectable(w: World, parse: string -> Option<ParsedUrl>, step: Step)
    requires Readable(w.tables) && AppliedView(w, parse, step).Some?
    ensures Projectable(AppliedView(w, parse, step).value.tables)
  {
    match step.operation
    case CreateProject(_, _) => CreatedView(w, parse, step);
    case SaveSettings(_, _, _) => SavedView(w, parse, step);
    case RemoveProject(_, _) => RemovedView(w, parse, step);
    case SaveOrganization(_, _, _) => OrganizationView(w, parse, step);
    case _ => assert false;
  }

  ghost predicate ClusterFollows(w: World, v: Option<View>, w': World) {
    match v
    case None => w'.cluster == w.cluster
    case Some(view) =>
      Projectable(view.tables)
      && w'.cluster == WithGateway(w.cluster, view.organization.name, Projection(view.tables, view.organization))
  }

  /** A step changes the cluster only by its successful apply. */
  lemma StepCluster(w: World, parse: string -> Option<ParsedUrl>, step: Step)
    requires Readable(w.tables)
    ensures ClusterFollows(w, AppliedView(w, parse, step), Respond(w, parse, step).0)
  {
    if AppliedView(w, parse, step).Some? { ViewProjectable(w, parse, step); }
    if Bystander(step.operation) {
      BystanderChanges(w, parse, step);
    } else {
      match step.operation
      case CreateProject(user, project) => CreateCluster(w, parse, step, user, project);
      case SaveSettings(user, pid, settings) => SaveCluster(w, parse, step, user, pid, settings);
      case RemoveProject(user, pid) => RemoveCluster(w, parse, step, user, pid);
      case SaveOrganization(user, orgId, organization) => OrganizationCluster(w, parse, step, user, orgId,
          organization);
      case _ => assert false;
    }
  }

  lemma CreateCluster(w: World, parse: string -> Option<ParsedUrl>, step: Step, user: Uuid, req: ProjectRequest)
    requires Readable(w.tables) && step.operation == CreateProject(user, req)
    requires AppliedView(w, parse, step).Some? ==> Projectable(AppliedView(w, parse, step).value.tables)
    ensures ClusterFollows(w, AppliedView(w, parse, step), PostProject(w, user, req, step.env).0)
  {}

  lemma SaveCluster(w: World, parse: string -> Option<ParsedUrl>, step: Step, user: Uuid, pid: Uuid,
      req: SettingsRequest)
    requires Readable(w.tables) && step.operation == SaveSettings(user, pid, req)
    requires AppliedView(w, parse, step).Some? ==> Projectable(AppliedView(w, parse, step).value.tables)
    ensures ClusterFollows(w, AppliedView(w, parse, step), PutSettings(w, parse, user, pid, req, step.env).0)
  {}

  lemma RemoveCluster(w: World, parse: string -> Option<ParsedUrl>, step: Step, user: Uuid, pid: Uuid)
    requires Readable(w.tables) && step.operation == RemoveProject(user, pid)
    requires AppliedView(w, parse, step).Some? ==> Projectable(AppliedView(w, parse, step).value.tables)
    ensures ClusterFollows(w, AppliedView(w, parse, step), DeleteProjectStep(w, user, pid, step.env).0)
  {}

  lemma OrganizationCluster(w: World, parse: string -> Option<ParsedUrl>, step: Step, user: Uuid, orgId: Uuid,
      req: OrganizationRequest)
    requires Readable(w.tables) && step.operation == SaveOrganization(user, orgId, req)
    requires AppliedView(w, parse, step).Some? ==> Projectable(AppliedView(w, parse, step).value.tables)
    ensures ClusterFollows(w, AppliedView(w, parse, step), PutOrganization(w, user, orgId, req, step.env).0)
  {}

  // ----- any history of failures -----

  /** The last successful apply of a run for the organization with this name. */
  function LastView(w: World, parse: string -> Option<ParsedUrl>, steps: seq<Step>, name: string): Option<View>
    requires Invariant(w.tables)
    decreases |steps|
  {
    if steps == [] then None
    else
      var v := AppliedView(Run(w, parse, steps[..|steps| - 1]), parse, steps[|steps| - 1]);
      if v.Some? && v.value.organization.name == name then v else LastView(w, parse, steps[..|steps| - 1], name)
  }

  /** After any run, whatever failed in it, a gateway is exactly the projection of what its last
      successful apply read. */
  lemma {:induction false} GatewayIsLastView(w: World, parse: string -> Option<ParsedUrl>, steps: seq<Step>,
      name: string)
    requires Invariant(w.tables)
    ensures LastView(w, parse, steps, name).Some? ==> Projectable(LastView(w, parse, steps, name).value.tables)
    ensures Lookup(Run(w, parse, steps).cluster, name)
         == match LastView(w, parse, steps, name)
            case None => Lookup(w.cluster, name)
            case Some(v) => Projection(v.tables, v.organization)
    decreases |steps|
  {
    if steps != [] {
      var init, last := steps[..|steps| - 1], steps[|steps| - 1];
      var before := Run(w, parse, init);
      GatewayIsLastView(w, parse, init, name);
      assert Run(w, parse, steps) == Respond(before, parse, last).0;
      StepLookup(before, parse, last, name);
    }
  }

  lemma LookupFollows(w: World, v: Option<View>, w': World, name: string)
    requires ClusterFollows(w, v, w')
    ensures if v.Some? && v.value.organization.name == name
            then Projectable(v.value.tables)
                && Lookup(w'.cluster, name) == Projection(v.value.tables, v.value.organization)
            else Lookup(w'.cluster, name) == Lookup(w.cluster, name)
  {}

  lemma StepLookup(w: World, parse: string -> Option<ParsedUrl>, step: Step, name: string)
    requires Readable(w.tables)
    ensures var v := AppliedView(w, parse, step); var w' := Respond(w, parse, step).0;
      if v.Some? && v.value.organization.name == name
      then Projectable(v.value.tables) && Lookup(w'.cluster, name) == Projection(v.value.tables, v.value.organization)
      else Lookup(w'.cluster, name) == Lookup(w.cluster, name)
  {
    StepCluster(w, parse, step);
    LookupFollows(w, AppliedView(w, parse, step), Respond(w, parse, step).0, name);
  }

  /** No step touches the gateway of another organization than the one it applies. */
  lemma OtherGatewaysUntouched(w: World, parse: string -> Option<ParsedUrl>, step: Step, name: string)
    requires Readable(w.tables)
    requires AppliedView(w, parse, step).Some? ==> AppliedView(w, parse, step).value.organization.name != name
    ensures Lookup(Respond(w, parse, step).0.cluster, name) == Lookup(w.cluster, name)
  {
    StepLookup(w, parse, step, name);
  }

  /** The applied view is the committed store except when the settings transaction fails to commit. */
  lemma ViewIsCommitted(w: World, parse: string -> Option<ParsedUrl>, step: Step)
    requires Readable(w.tables) && AppliedView(w, parse, step).Some?
    requires step.operation.SaveSettings? ==> CommitTx !in step.env.faults
    ensures AppliedView(w, parse, step).value.tables == Respond(w, parse, step).0.tables
  {}

  /** Whatever the cluster holds, a step whose apply succeeds and whose tables are committed makes its
      organization agree with the store. */
  lemma SuccessRestoresAgreement(w: World, parse: string -> Option<ParsedUrl>, step: Step)
    requires Readable(w.tables) && AppliedView(w, parse, step).Some?
    requires step.operation.SaveSettings? ==> CommitTx !in step.env.faults
    ensures Projectable(Respond(w, parse, step).0.tables)
    ensures Agrees(Respond(w, parse, step).0, AppliedView(w, parse, step).value.organization)
  {
    var v := AppliedView(w, parse, step).value;
    ViewProjectable(w, parse, step);
    ViewIsCommitted(w, parse, step);
    StepCluster(w, parse, step);
    ApplyAgrees(w.cluster, v.tables, v.organization, {});
  }

  /** A member can always repair the gateway: saving an organization without changing anything leaves
      the store alone and restores agreement. */
  lemma EmptySaveRepairs(w: World, parse: string -> Option<ParsedUrl>, user: Uuid, orgId: Uuid, env: Env)
    requires Readable(w.tables) && orgId in w.tables.organizations && IsMember(w.tables, user, orgId)
    requires ReadFault !in env.faults && ApplySucceeds(env.faults)
    ensures var w' := Respond(w, parse, Step(SaveOrganization(user, orgId, OrganizationRequest(None, None)), env)).0;
      w'.tables == w.tables && Agrees(w', w.tables.organizations[orgId])
  {
    var step := Step(SaveOrganization(user, orgId, OrganizationRequest(None, None)), env);
    var org := w.tables.organizations[orgId];
    assert org.(settings := NewSettings(org.settings, OrganizationRequest(None, None))) == org;
    assert w.tables.organizations[orgId := org] == w.tables.organizations;
    SuccessRestoresAgreement(w, parse, step);
  }

  // ----- a commit that fails after the apply -----

  lemma RouteNamesLatest(t: Tables, pid: Uuid) returns (i: nat)
    requires Projectable(t) && PrimaryKeys(t) && pid in t.projects && IsDeployed(t.projects[pid])
    ensures i < |RouteList(t, t.projects[pid].organizationId)|
    ensures Some(RouteList(t, t.projects[pid].organizationId)[i].revisionId) == t.projects[pid].latestRevisionId
    ensures RouteList(t, t.projects[pid].organizationId)[i].projectId == pid
  {
    var specs := RouteList(t, t.projects[pid].organizationId);
    ProjectionEntries(t, t.projects[pid].organizationId);
    i :| 0 <= i < |specs| && specs[i].projectId == pid;
    assert EntryOf(t, pid, specs[i]);
  }

  lemma RouteNamesStored(t: Tables, orgId: Uuid, i: nat)
    requires Projectable(t) && PrimaryKeys(t) && i < |RouteList(t, orgId)|
    ensures RouteList(t, orgId)[i].revisionId in t.revisions
  {
    ProjectionEntries(t, orgId);
    assert EntryOf(t, RouteList(t, orgId)[i].projectId, RouteList(t, orgId)[i]);
  }

  lemma SavedPointer(t: Tables, row: DeploymentRevision, env: Env)
    requires row.projectId in t.projects && SettingsSaved(t, row, env).Some?
    ensures var t' := SettingsSaved(t, row, env).value;
      row.id !in t.revisions
      && t'.projects.Keys == t.projects.Keys
      && t'.projects[row.projectId].latestRevisionId == Some(row.id)
      && t'.projects[row.projectId].organizationId == t.projects[row.projectId].organizationId
  {}

  /** The saved tables route to a revision the old tables do not have. */
  lemma SavedRouteIsNew(t: Tables, row: DeploymentRevision, env: Env)
    requires Invariant(t) && WellShaped(row) && row.projectId in t.projects && SettingsSaved(t, row, env).Some?
    ensures var t' := SettingsSaved(t, row, env).value;
      var orgId := t.projects[row.projectId].organizationId;
      Projectable(t') && RouteList(t', orgId) != RouteList(t, orgId) && RouteList(t', orgId) != []
  {
    var t' := SettingsSaved(t, row, env).value;
    var orgId := t.projects[row.projectId].organizationId;
    SettingsSavedProjectable(t, row, env);
    SavedPrimary(t, row, env);
    SavedPointer(t, row, env);
    var i := RouteNamesLatest(t', row.projectId);
    if RouteList(t', orgId) == RouteList(t, orgId) { RouteNamesStored(t, orgId, i); }
  }

  lemma SavedPrimary(t: Tables, row: DeploymentRevision, env: Env)
    requires PrimaryKeys(t) && UniqueColumns(t) && row.projectId in t.projects && SettingsSaved(t, row, env).Some?
    ensures PrimaryKeys(SettingsSaved(t, row, env).value)
  {
    RevisionKeepsKeys(t, row);
    if row.ociUrl.Some? { EventKeepsKeys(WithRevision(t, row), NewEvent(row.id, EventProgressing, env)); }
  }

  lemma UncommittedDisagrees(w: World, t': Tables, org: Organization, faults: set<Fault>)
    requires Projectable(w.tables) && Projectable(t') && ApplySucceeds(faults)
    requires RouteList(t', org.id) != RouteList(w.tables, org.id) && RouteList(t', org.id) != []
    ensures !Agrees(World(w.tables, Applied(w.cluster, t', org, faults)), org)
  {
    NoProjectsNoRoutes(t', org.id);
  }

  /** The gateway of this name has a route to a revision that is not stored. */
  ghost predicate RoutesToMissing(w: World, name: string) {
    name in w.cluster
    && exists i :: 0 <= i < |w.cluster[name].projects| && w.cluster[name].projects[i].revisionId !in w.tables.revisions
  }

  lemma UncommittedRoutesToMissing(w: World, row: DeploymentRevision, env: Env, org: Organization, faults: set<Fault>)
    requires Invariant(w.tables) && WellShaped(row) && row.projectId in w.tables.projects
    requires SettingsSaved(w.tables, row, env).Some? && ApplySucceeds(faults)
    requires org.id == w.tables.projects[row.projectId].organizationId
    ensures var t' := SettingsSaved(w.tables, row, env).value;
      Projectable(t') && RoutesToMissing(World(w.tables, Applied(w.cluster, t', org, faults)), org.name)
  {
    var t' := SettingsSaved(w.tables, row, env).value;
    SettingsSavedProjectable(w.tables, row, env);
    SavedPrimary(w.tables, row, env);
    SavedPointer(w.tables, row, env);
    NoProjectsNoRoutes(t', org.id);
    var i := RouteNamesLatest(t', row.projectId);
    assert RouteList(t', org.id)[i].revisionId == row.id;
  }

  /** The gateway is applied before the commit: after a settings update that was answered with
      success and applied, the gateway agrees with the store exactly when the commit succeeded. When
      it failed, the gateway routes to a revision that does not exist. */
  lemma SettingsAgreeIffCommitted(w: World, parse: string -> Option<ParsedUrl>, user: Uuid, pid: Uuid,
      req: SettingsRequest, env: Env)
    requires Invariant(w.tables)
    requires PutSettings(w, parse, user, pid, req, env).1 == Ok && ApplySucceeds(env.faults)
    ensures var w' := PutSettings(w, parse, user, pid, req, env).0;
      Projectable(w'.tables)
      && (Agrees(w', w.tables.organizations[w.tables.projects[pid].organizationId]) <==> CommitTx !in env.faults)
    ensures CommitTx in env.faults ==>
      RoutesToMissing(PutSettings(w, parse, user, pid, req, env).0,
          w.tables.organizations[w.tables.projects[pid].organizationId].name)
  {
    var step := Step(SaveSettings(user, pid, req), env);
    var org := w.tables.organizations[w.tables.projects[pid].organizationId];
    var w' := PutSettings(w, parse, user, pid, req, env).0;
    assert Respond(w, parse, step).0 == w' && AppliedView(w, parse, step).Some?;
    if CommitTx !in env.faults {
      SuccessRestoresAgreement(w, parse, step);
    } else {
      var row := Merged(LatestRevision(w.tables, pid), user, pid, req, env);
      MergedShape(LatestRevision(w.tables, pid), parse, user, pid, req, env);
      SavedRouteIsNew(w.tables, row, env);
      UncommittedDisagrees(w, SettingsSaved(w.tables, row, env).value, org, env.faults);
      UncommittedRoutesToMissing(w, row, env, org, env.faults);
    }
  }

  /** An accepted update commits the saved tables or leaves the old ones. */
  lemma AcceptedUpdate(w: World, parse: string -> Option<ParsedUrl>, user: Uuid, pid: Uuid, req: SettingsRequest,
      env: Env)
    requires Readable(w.tables)
    requires PutSettings(w, parse, user, pid, req, env).1 == Ok
    ensures pid in w.tables.projects
    ensures var row := Merged(LatestRevision(w.tables, pid), user, pid, req, env);
      SettingsSaved(w.tables, row, env).Some?
      && PutSettings(w, parse, user, pid, req, env).0.tables
         == if env.faults !! {CommitTx, ApplyQueryFault} then SettingsSaved(w.tables, row, env).value else w.tables
  {}

  lemma SavedStoresRevision(t: Tables, row: DeploymentRevision, env: Env)
    requires row.projectId in t.projects && SettingsSaved(t, row, env).Some?
    ensures row.id !in t.revisions && row.id in SettingsSaved(t, row, env).value.revisions
  {}

  /** The response is written before the commit: an update answered with success is in the store
      exactly when the transaction was neither aborted by the applier's query nor failed to commit. */
  lemma SettingsOkIsSavedIff(w: World, parse: string -> Option<ParsedUrl>, user: Uuid, pid: Uuid, req: SettingsRequest,
      env: Env)
    requires Readable(w.tables)
    requires PutSettings(w, parse, user, pid, req, env).1 == Ok
    ensures var t' := PutSettings(w, parse, user, pid, req, env).0.tables;
      (env.revisionId in t'.revisions <==> env.faults !! {CommitTx, ApplyQueryFault})
      && (t' == w.tables <==> !(env.faults !! {CommitTx, ApplyQueryFault}))
  {
    AcceptedUpdate(w, parse, user, pid, req, env);
    SavedStoresRevision(w.tables, Merged(LatestRevision(w.tables, pid), user, pid, req, env), env);
  }

  /** Project creation answers after its commit: success means created, anything else leaves the
      store and the cluster unchanged. */
  lemma CreateOkIffCreated(w: World, user: Uuid, req: ProjectRequest, env: Env)
    requires Readable(w.tables)
    ensures var r := PostProject(w, user, req, env);
      && (r.1 == Ok <==> r.0.tables != w.tables)
      && (r.1 == Ok ==> env.projectId in r.0.tables.projects && env.projectId !in w.tables.projects)
      && (r.1 != Ok ==> r.0 == w)
  {}

  /** A rejected or failed settings update changes neither the store nor the cluster. */
  lemma RejectedSettingsChangeNothing(w: World, parse: string -> Option<ParsedUrl>, user: Uuid, pid: Uuid,
      req: SettingsRequest, env: Env)
    requires Readable(w.tables)
    ensures PutSettings(w, parse, user, pid, req, env).1 != Ok ==> PutSettings(w, parse, user, pid, req, env).0 == w
  {}
}
