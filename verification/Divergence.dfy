/** One step from an agreeing state whose apply fails: exactly when all gateways still agree. */
module Divergence {
  import opened Prelude
  import opened Schema
  import opened Cascade
  import opened Gateway
  import opened Store
  import opened Api
  import opened Invariants
  import opened Agreement
  import opened Reconciler
  import opened Failures

  /** With an unchanged cluster only the gateway of the changed organization can stop agreeing. */
  lemma UnappliedAgreesIff(w: World, t': Tables, orgId: Uuid)
    requires Projectable(w.tables) && Projectable(t') && PrimaryKeys(w.tables)
    requires AllAgree(w) && orgId in w.tables.organizations && OthersKept(w.tables, t', orgId)
    ensures AllAgree(World(t', w.cluster)) <==> Agrees(World(t', w.cluster), t'.organizations[orgId])
  {
    forall o | o in t'.organizations && o != orgId ensures Agrees(World(t', w.cluster), t'.organizations[o]) {
      assert w.tables.organizations[o].id == o && Agrees(w, w.tables.organizations[o]);
      RoutesFrame(w.tables, t', o);
    }
    forall name | name in w.cluster ensures NameTaken(t'.organizations, name) {
      assert NameTaken(w.tables.organizations, name);
      var o :| o in w.tables.organizations && w.tables.organizations[o].name == name;
      assert t'.organizations[o].name == name;
    }
  }

  /** And with unchanged settings it does exactly when its routes change. */
  lemma SameRoutesIff(w: World, t': Tables, org: Organization)
    requires Projectable(w.tables) && Projectable(t') && Agrees(w, org)
    ensures Agrees(World(t', w.cluster), org) <==> RouteList(t', org.id) == RouteList(w.tables, org.id)
  {}

  /** When the apply after a removal fails, all gateways still agree exactly when the removed project was
      not deployed. */
  lemma FailedRemovalAgreesIff(w: World, user: Uuid, pid: Uuid, env: Env)
    requires Invariant(w.tables) && AllAgree(w) && !ApplySucceeds(env.faults)
    requires DeleteProjectStep(w, user, pid, env).1 == Ok
    ensures pid in w.tables.projects && Projectable(DeleteProjectStep(w, user, pid, env).0.tables)
    ensures AllAgree(DeleteProjectStep(w, user, pid, env).0) <==> !IsDeployed(w.tables.projects[pid])
  {
    var t', orgId := WithoutProject(w.tables, pid), w.tables.projects[pid].organizationId;
    DeleteKeepsInvariant(w.tables, pid);
    assert DeleteProjectStep(w, user, pid, env).0 == World(t', w.cluster);
    DeletedOthersKept(w.tables, pid);
    UnappliedAgreesIff(w, t', orgId);
    SameRoutesIff(w, t', w.tables.organizations[orgId]);
    RemovalRoutesIff(w.tables, pid);
  }

  lemma RoutedProjectsStored(t: Tables, orgId: Uuid)
    requires Projectable(t) && PrimaryKeys(t)
    ensures forall s :: s in RouteList(t, orgId) ==> s.projectId in t.projects
  {
    ProjectionEntries(t, orgId);
  }

  lemma RemovalRoutesIff(t: Tables, pid: Uuid)
    requires Invariant(t) && pid in t.projects && Projectable(WithoutProject(t, pid))
    ensures var orgId := t.projects[pid].organizationId;
      RouteList(WithoutProject(t, pid), orgId) == RouteList(t, orgId) <==> !IsDeployed(t.projects[pid])
  {
    var t', orgId := WithoutProject(t, pid), t.projects[pid].organizationId;
    SurvivorsUnchanged(t, pid);
    if IsDeployed(t.projects[pid]) {
      var i := RouteNamesLatest(t, pid);
      DeleteKeepsPrimary(t, pid);
      RoutedProjectsStored(t', orgId);
      assert RouteList(t, orgId)[i] in RouteList(t, orgId);
    } else {
      UndeployedRemoval(t.projects, pid);
      RoutesFrame(t, t', orgId);
    }
  }

  lemma UndeployedRemoval(projects: map<Uuid, Project>, pid: Uuid)
    requires pid in projects && !IsDeployed(projects[pid])
    ensures var o := projects[pid].organizationId;
      DeployedProjects(projects - {pid}, o) == DeployedProjects(projects, o)
  {
    var o := projects[pid].organizationId;
    forall q ensures q in DeployedProjects(projects - {pid}, o) <==> q in DeployedProjects(projects, o) {
      if q in DeployedProjects(projects, o) {
        var i :| i in projects && projects[i] == q && projects[i].organizationId == o && IsDeployed(projects[i]);
        assert (projects - {pid})[i] == q;
      }
    }
  }

  /** When the apply after a project creation fails, all gateways still agree exactly when the project was
      created without a proxy URL. */
  lemma FailedCreationAgreesIff(w: World, user: Uuid, req: ProjectRequest, env: Env)
    requires Invariant(w.tables) && AllAgree(w) && !ApplySucceeds(env.faults)
    requires PostProject(w, user, req, env).1 == Ok
    ensures Projectable(PostProject(w, user, req, env).0.tables)
    ensures AllAgree(PostProject(w, user, req, env).0) <==> req.proxyUrl.None?
  {
    var t' := ProjectCreated(w.tables, user, req, env).value;
    ProjectCreatedKeeps(w.tables, user, req, env);
    assert PostProject(w, user, req, env).0 == World(t', w.cluster);
    CreatedOthersKept(w.tables, user, req, env);
    if req.proxyUrl.Some? {
      UnroutedCreation(w, t', user, req, env);
    } else {
      UnappliedStepAgrees(w, t');
    }
  }

  lemma UnroutedCreation(w: World, t': Tables, user: Uuid, req: ProjectRequest, env: Env)
    requires Projectable(w.tables) && PrimaryKeys(w.tables) && Projectable(t') && PrimaryKeys(t')
    requires AllAgree(w) && req.organizationId in w.tables.organizations
    requires ProjectCreated(w.tables, user, req, env) == Some(t') && req.proxyUrl.Some?
    ensures !AllAgree(World(t', w.cluster))
  {
    var org := w.tables.organizations[req.organizationId];
    CreatedOrganizationsSame(w.tables, user, req, env);
    SameRoutesIff(w, t', org);
    CreatedRouteIsNew(w.tables, t', user, req, env);
    assert t'.organizations[req.organizationId] == org;
  }

  lemma CreatedProject(t: Tables, user: Uuid, req: ProjectRequest, env: Env)
    requires ProjectCreated(t, user, req, env).Some? && req.proxyUrl.Some?
    ensures var t' := ProjectCreated(t, user, req, env).value;
      env.projectId !in t.projects && env.projectId in t'.projects && IsDeployed(t'.projects[env.projectId])
      && t'.projects[env.projectId].organizationId == req.organizationId
  {}

  lemma CreatedRouteIsNew(t: Tables, t': Tables, user: Uuid, req: ProjectRequest, env: Env)
    requires Projectable(t) && PrimaryKeys(t) && Projectable(t') && PrimaryKeys(t')
    requires ProjectCreated(t, user, req, env) == Some(t') && req.proxyUrl.Some?
    ensures RouteList(t', req.organizationId) != RouteList(t, req.organizationId)
  {
    CreatedProject(t, user, req, env);
    var i := RouteNamesLatest(t', env.projectId);
    RoutedProjectsStored(t, req.organizationId);
    assert RouteList(t', req.organizationId)[i] in RouteList(t', req.organizationId);
  }

  /** When the apply after an organization update fails, all gateways still agree exactly when the
      organization has no gateway or the update changes no setting. */
  lemma FailedOrganizationAgreesIff(w: World, user: Uuid, orgId: Uuid, req: OrganizationRequest, env: Env)
    requires Invariant(w.tables) && AllAgree(w) && !ApplySucceeds(env.faults)
    requires PutOrganization(w, user, orgId, req, env).1 == Ok
    ensures orgId in w.tables.organizations && Projectable(PutOrganization(w, user, orgId, req, env).0.tables)
    ensures var org := w.tables.organizations[orgId];
      AllAgree(PutOrganization(w, user, orgId, req, env).0) <==>
        org.name !in w.cluster || NewSettings(org.settings, req) == org.settings
  {
    var org := w.tables.organizations[orgId];
    var org' := org.(settings := NewSettings(org.settings, req));
    var t' := w.tables.(organizations := w.tables.organizations[orgId := org']);
    assert PutOrganization(w, user, orgId, req, env).0 == World(t', w.cluster);
    OrganizationOthersKept(w.tables, orgId, org');
    UnappliedAgreesIff(w, t', orgId);
    RoutesFrame(w.tables, t', orgId);
    assert org.id == orgId && Agrees(w, org);
  }

  /** When the apply within a settings update fails, all gateways still agree exactly when the update is
      not stored, because the applier's query aborted it or its commit failed. */
  lemma FailedSettingsAgreeIff(w: World, parse: string -> Option<ParsedUrl>, user: Uuid, pid: Uuid,
      req: SettingsRequest, env: Env)
    requires Invariant(w.tables) && AllAgree(w) && !ApplySucceeds(env.faults)
    requires PutSettings(w, parse, user, pid, req, env).1 == Ok
    ensures Projectable(PutSettings(w, parse, user, pid, req, env).0.tables)
    ensures AllAgree(PutSettings(w, parse, user, pid, req, env).0) <==> !(env.faults !! {CommitTx, ApplyQueryFault})
  {
    var row := Merged(LatestRevision(w.tables, pid), user, pid, req, env);
    var w' := PutSettings(w, parse, user, pid, req, env).0;
    AcceptedUpdate(w, parse, user, pid, req, env);
    UnappliedSettings(w, parse, user, pid, req, env);
    if env.faults !! {CommitTx, ApplyQueryFault} {
      var org := w.tables.organizations[w.tables.projects[pid].organizationId];
      MergedShape(LatestRevision(w.tables, pid), parse, user, pid, req, env);
      SavedRouteIsNew(w.tables, row, env);
      SavedOrganizationsSame(w.tables, row, env);
      SameRoutesIff(w, w'.tables, org);
    } else {
      assert w' == w;
    }
  }

  lemma UnappliedSettings(w: World, parse: string -> Option<ParsedUrl>, user: Uuid, pid: Uuid, req: SettingsRequest,
      env: Env)
    requires Readable(w.tables) && !ApplySucceeds(env.faults) && PutSettings(w, parse, user, pid, req, env).1 == Ok
    ensures AcceptableSettings(req, parse)
    ensures PutSettings(w, parse, user, pid, req, env).0.cluster == w.cluster
    ensures var row := Merged(LatestRevision(w.tables, pid), user, pid, req, env);
      row.ociUrl.Some? || row.proxyUrl.Some?
  {}
}
