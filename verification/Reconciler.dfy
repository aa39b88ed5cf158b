/** Gateway agreement over whole runs: with every apply and settings commit succeeding it is never
    broken. */
module Reconciler {
  import opened Prelude
  import opened Schema
  import UuidText
  import opened Cascade
  import opened Gateway
  import opened Store
  import opened Api
  import opened Invariants
  import opened Agreement

  // ----- what each request leaves alone -----

  lemma RevisionOthersKept(t: Tables, row: DeploymentRevision)
    requires PrimaryKeys(t) && ProjectKeys(t.projects, t.organizations, t.users) && InsertRevision(t, row).Some?
    ensures OthersKept(t, WithRevision(t, row), t.projects[row.projectId].organizationId)
  {
    var t' := WithRevision(t, row);
    forall o | o in t.organizations && o != t.projects[row.projectId].organizationId
      ensures DeployedProjects(t'.projects, o) == DeployedProjects(t.projects, o)
    {
      RepointedDeployed(t.projects, row.projectId, t'.projects[row.projectId], o);
    }
  }

  lemma RepointedDeployed(projects: map<Uuid, Project>, pid: Uuid, p: Project, o: Uuid)
    requires pid in projects && projects[pid].organizationId != o && p.organizationId != o
    ensures DeployedProjects(projects[pid := p], o) == DeployedProjects(projects, o)
  {
    forall q ensures q in DeployedProjects(projects[pid := p], o) <==> q in DeployedProjects(projects, o) {
      if q in DeployedProjects(projects, o) {
        var i :| i in projects && projects[i] == q && projects[i].organizationId == o && IsDeployed(projects[i]);
        assert projects[pid := p][i] == q;
      }
    }
  }

  lemma EventOthersKept(t: Tables, row: RevisionEvent)
    requires row.revisionId in t.revisions && t.revisions[row.revisionId].projectId in t.projects
    ensures OthersKept(t, WithEvent(t, row), t.projects[t.revisions[row.revisionId].projectId].organizationId)
  {
    var pid := t.revisions[row.revisionId].projectId;
    var t' := WithEvent(t, row);
    forall o | o in t.organizations && o != t.projects[pid].organizationId
      ensures DeployedProjects(t'.projects, o) == DeployedProjects(t.projects, o)
    {
      RepointedDeployed(t.projects, pid, t'.projects[pid], o);
    }
  }

  lemma OthersKeptTransitive(t: Tables, r: Tables, t': Tables, orgId: Uuid)
    requires OthersKept(t, r, orgId) && OthersKept(r, t', orgId) && t.revisions.Keys <= r.revisions.Keys
    ensures OthersKept(t, t', orgId)
  {}

  lemma SettingsOthersKept(t: Tables, row: DeploymentRevision, env: Env)
    requires PrimaryKeys(t) && ProjectKeys(t.projects, t.organizations, t.users)
    requires row.projectId in t.projects && SettingsSaved(t, row, env).Some?
    ensures OthersKept(t, SettingsSaved(t, row, env).value, t.projects[row.projectId].organizationId)
  {
    var r := WithRevision(t, row);
    var orgId := t.projects[row.projectId].organizationId;
    RevisionOthersKept(t, row);
    if row.ociUrl.Some? {
      var event := NewEvent(row.id, EventProgressing, env);
      EventOthersKept(r, event);
      OthersKeptTransitive(t, r, WithEvent(r, event), orgId);
    }
  }

  lemma NewProjectDeployed(projects: map<Uuid, Project>, row: Project, o: Uuid)
    requires row.id !in projects && (row.organizationId != o || !IsDeployed(row))
    ensures DeployedProjects(projects[row.id := row], o) == DeployedProjects(projects, o)
  {
    forall q ensures q in DeployedProjects(projects[row.id := row], o) <==> q in DeployedProjects(projects, o) {
      if q in DeployedProjects(projects, o) {
        var i :| i in projects && projects[i] == q && projects[i].organizationId == o && IsDeployed(projects[i]);
        assert projects[row.id := row][i] == q;
      }
    }
  }

  lemma ProjectRoutesKept(t: Tables, row: Project)
    requires InsertProject(t, row).Some? && !IsDeployed(row)
    ensures RoutesKept(t, InsertProject(t, row).value)
    ensures OthersKept(t, InsertProject(t, row).value, row.organizationId)
  {
    forall o | o in t.organizations
      ensures DeployedProjects(t.projects[row.id := row], o) == DeployedProjects(t.projects, o)
    {
      NewProjectDeployed(t.projects, row, o);
    }
  }

  lemma CreatedOthersKept(t: Tables, user: Uuid, req: ProjectRequest, env: Env)
    requires PrimaryKeys(t) && ProjectKeys(t.projects, t.organizations, t.users)
      && ProjectCreated(t, user, req, env).Some?
    ensures var t' := ProjectCreated(t, user, req, env).value;
      if req.proxyUrl.Some? then OthersKept(t, t', req.organizationId) else RoutesKept(t, t')
  {
    var row := NewProject(req.organizationId, user, req.name, env);
    var r := InsertProject(t, row).value;
    ProjectRoutesKept(t, row);
    if req.proxyUrl.Some? {
      var first := FirstRevision(user, req, env);
      RevisionOthersKept(r, first);
      OthersKeptTransitive(t, r, WithRevision(r, first), req.organizationId);
    }
  }

  lemma DeletedOthersKept(t: Tables, pid: Uuid)
    requires ForeignKeys(t) && OwnRevision(t.projects, t.revisions) && OwnEvent(t.projects, t.revisions, t.events)
    requires pid in t.projects
    ensures OthersKept(t, WithoutProject(t, pid), t.projects[pid].organizationId)
  {
    SurvivorsUnchanged(t, pid);
    forall o | o in t.organizations && o != t.projects[pid].organizationId
      ensures DeployedProjects(t.projects - {pid}, o) == DeployedProjects(t.projects, o)
    {
      forall q ensures q in DeployedProjects(t.projects - {pid}, o) <==> q in DeployedProjects(t.projects, o) {
        if q in DeployedProjects(t.projects, o) {
          var i :| i in t.projects && t.projects[i] == q && t.projects[i].organizationId == o
              && IsDeployed(t.projects[i]);
          assert (t.projects - {pid})[i] == q;
        }
      }
    }
  }

  // ----- one step -----

  /** Every apply the step makes succeeds, and the settings transaction commits. */
  predicate Clean(step: Step) {
    ApplySucceeds(step.env.faults) && (step.operation.SaveSettings? ==> CommitTx !in step.env.faults)
  }

  lemma CreateProjectAgrees(w: World, user: Uuid, req: ProjectRequest, env: Env)
    requires Invariant(w.tables) && AllAgree(w) && ApplySucceeds(env.faults)
    requires PostProject(w, user, req, env).0 != w
    ensures Invariant(PostProject(w, user, req, env).0.tables) && AllAgree(PostProject(w, user, req, env).0)
  {
    PostProjectKeeps(w, user, req, env);
    CreatedOthersKept(w.tables, user, req, env);
    var t' := ProjectCreated(w.tables, user, req, env).value;
    assert PostProject(w, user, req, env).0.tables == t';
    if req.proxyUrl.Some? {
      AppliedStepAgrees(w, t', req.organizationId, env.faults);
      CreatedOrganizationsSame(w.tables, user, req, env);
    } else {
      UnappliedStepAgrees(w, t');
    }
  }

  lemma CreatedOrganizationsSame(t: Tables, user: Uuid, req: ProjectRequest, env: Env)
    requires ProjectCreated(t, user, req, env).Some?
    ensures ProjectCreated(t, user, req, env).value.organizations == t.organizations
  {}

  lemma SavedOrganizationsSame(t: Tables, row: DeploymentRevision, env: Env)
    requires row.projectId in t.projects && SettingsSaved(t, row, env).Some?
    ensures SettingsSaved(t, row, env).value.organizations == t.organizations
  {}

  lemma SettingsAgree(w: World, row: DeploymentRevision, env: Env)
    requires Invariant(w.tables) && AllAgree(w) && ApplySucceeds(env.faults)
    requires row.projectId in w.tables.projects && SettingsSaved(w.tables, row, env).Some?
    ensures Projectable(SettingsSaved(w.tables, row, env).value)
    ensures var t' := SettingsSaved(w.tables, row, env).value;
      AllAgree(World(t', Applied(w.cluster, t',
          w.tables.organizations[w.tables.projects[row.projectId].organizationId], env.faults)))
  {
    var t' := SettingsSaved(w.tables, row, env).value;
    SettingsOthersKept(w.tables, row, env);
    SettingsSavedProjectable(w.tables, row, env);
    SavedOrganizationsSame(w.tables, row, env);
    AppliedStepAgrees(w, t', w.tables.projects[row.projectId].organizationId, env.faults);
  }

  lemma SaveSettingsAgrees(w: World, parse: string -> Option<ParsedUrl>, user: Uuid, pid: Uuid, req: SettingsRequest,
      env: Env)
    requires Invariant(w.tables) && AllAgree(w) && ApplySucceeds(env.faults) && CommitTx !in env.faults
    requires PutSettings(w, parse, user, pid, req, env).0 != w
    ensures Invariant(PutSettings(w, parse, user, pid, req, env).0.tables)
      && AllAgree(PutSettings(w, parse, user, pid, req, env).0)
  {
    PutSettingsKeeps(w, parse, user, pid, req, env);
    SettingsAgree(w, Merged(LatestRevision(w.tables, pid), user, pid, req, env), env);
  }

  lemma RemoveProjectAgrees(w: World, user: Uuid, pid: Uuid, env: Env)
    requires Invariant(w.tables) && AllAgree(w) && ApplySucceeds(env.faults)
    requires DeleteProjectStep(w, user, pid, env).0 != w
    ensures Invariant(DeleteProjectStep(w, user, pid, env).0.tables) && AllAgree(DeleteProjectStep(w, user, pid, env).0)
  {
    DeleteProjectKeeps(w, user, pid, env);
    var t' := WithoutProject(w.tables, pid);
    DeleteKeepsInvariant(w.tables, pid);
    DeletedOthersKept(w.tables, pid);
    AppliedStepAgrees(w, t', w.tables.projects[pid].organizationId, env.faults);
  }

  lemma OrganizationOthersKept(t: Tables, orgId: Uuid, org: Organization)
    requires orgId in t.organizations && org.name == t.organizations[orgId].name
    ensures OthersKept(t, t.(organizations := t.organizations[orgId := org]), orgId)
  {}

  lemma SavedOrganization(w: World, user: Uuid, orgId: Uuid, req: OrganizationRequest, env: Env)
    requires Projectable(w.tables) && PutOrganization(w, user, orgId, req, env).0 != w
    ensures orgId in w.tables.organizations
    ensures var org := w.tables.organizations[orgId];
      var org' := org.(settings := NewSettings(org.settings, req));
      var t' := w.tables.(organizations := w.tables.organizations[orgId := org']);
      Projectable(t') && PutOrganization(w, user, orgId, req, env).0
          == World(t', Applied(w.cluster, t', org', env.faults))
  {}

  lemma SaveOrganizationAgrees(w: World, user: Uuid, orgId: Uuid, req: OrganizationRequest, env: Env)
    requires Invariant(w.tables) && AllAgree(w) && ApplySucceeds(env.faults)
    requires PutOrganization(w, user, orgId, req, env).0 != w
    ensures Invariant(PutOrganization(w, user, orgId, req, env).0.tables)
      && AllAgree(PutOrganization(w, user, orgId, req, env).0)
  {
    PutOrganizationKeeps(w, user, orgId, req, env);
    SavedOrganization(w, user, orgId, req, env);
    var org := w.tables.organizations[orgId];
    var org' := org.(settings := NewSettings(org.settings, req));
    OrganizationOthersKept(w.tables, orgId, org');
    AppliedStepAgrees(w, w.tables.(organizations := w.tables.organizations[orgId := org']), orgId, env.faults);
  }

  /** Requests that touch neither projects, revisions nor settings. */
  predicate Bystander(op: Operation) {
    !op.CreateProject? && !op.SaveSettings? && !op.RemoveProject? && !op.SaveOrganization?
  }

  ghost predicate OnlyAddsOrganizations(t: Tables, t': Tables) {
    && t'.projects == t.projects && t'.revisions == t.revisions
    && forall o :: o in t.organizations ==> o in t'.organizations && t'.organizations[o] == t.organizations[o]
  }

  ghost predicate ByStands(w: World, w': World) {
    OnlyAddsOrganizations(w.tables, w'.tables) && w'.cluster == w.cluster
  }

  lemma PostOrganizationChanges(w: World, user: Uuid, name: string, env: Env)
    ensures ByStands(w, PostOrganization(w, user, name, env).0)
  {}

  lemma MemberAddedChanges(t: Tables, orgId: Uuid, email: string, env: Env)
    requires UniqueUsers(t.users) && MemberAdded(t, orgId, email, env).Some?
    ensures OnlyAddsOrganizations(t, MemberAdded(t, orgId, email, env).value)
  {
    InsertedUserUnique(t, email, env);
  }

  lemma PutMemberChanges(w: World, user: Uuid, orgId: Uuid, email: string, env: Env)
    requires UniqueUsers(w.tables.users)
    ensures ByStands(w, PutMember(w, user, orgId, email, env).0)
  {
    var w' := PutMember(w, user, orgId, email, env).0;
    if w' != w {
      MemberAddedChanges(w.tables, orgId, email, env);
    }
  }

  /** A report leaves the world alone or inserts one log. */
  lemma ReportOutcome(w: World, param: string, report: Report, env: Env)
    requires UniqueUsers(w.tables.users)
    ensures var w' := PostReport(w, param, report, env).0;
      w' == w || exists row :: InsertLog(w.tables, row).Some? && w' == w.(tables := InsertLog(w.tables, row).value)
  {
    if PostReport(w, param, report, env).0 != w {
      var row := ReportedLog(UuidText.Parse(param).value, UserIdOf(w.tables, report.subjectEmail), report, env);
      assert InsertLog(w.tables, row).Some?;
    }
  }

  lemma PostReportChanges(w: World, param: string, report: Report, env: Env)
    requires UniqueUsers(w.tables.users)
    ensures ByStands(w, PostReport(w, param, report, env).0)
  {
    ReportOutcome(w, param, report, env);
  }

  lemma SignInChanges(w: World, email: string, env: Env)
    ensures ByStands(w, SignIn(w, email, env).0)
  {}

  lemma DeleteMemberChanges(w: World, user: Uuid, orgId: Uuid, target: Uuid, env: Env)
    ensures ByStands(w, DeleteMemberStep(w, user, orgId, target, env).0)
  {}

  lemma BystanderChanges(w: World, parse: string -> Option<ParsedUrl>, step: Step)
    requires Readable(w.tables) && Bystander(step.operation)
    ensures ByStands(w, Respond(w, parse, step).0)
  {
    match step.operation
    case CreateOrganization(user, name) => PostOrganizationChanges(w, user, name, step.env);
    case AddMember(user, orgId, email) => PutMemberChanges(w, user, orgId, email, step.env);
    case RemoveMember(user, orgId, target) => DeleteMemberChanges(w, user, orgId, target, step.env);
    case Authenticate(email) => SignInChanges(w, email, step.env);
    case ReceiveReport(param, report) => PostReportChanges(w, param, report, step.env);
    case _ => assert false;
  }

  lemma AddedOrganizationsRoutes(t: Tables, t': Tables)
    requires ProjectKeys(t.projects, t.organizations, t.users) && OnlyAddsOrganizations(t, t')
    ensures RoutesKept(t, t')
  {
    forall o | o in t'.organizations && o !in t.organizations ensures DeployedProjects(t.projects, o) == {} {}
  }

  lemma OtherRequestAgrees(w: World, parse: string -> Option<ParsedUrl>, step: Step)
    requires Invariant(w.tables) && AllAgree(w) && Bystander(step.operation)
    ensures Invariant(Respond(w, parse, step).0.tables) && AllAgree(Respond(w, parse, step).0)
  {
    RespondKeepsInvariant(w, parse, step);
    var w' := Respond(w, parse, step).0;
    BystanderChanges(w, parse, step);
    AddedOrganizationsRoutes(w.tables, w'.tables);
    UnappliedStepAgrees(w, w'.tables);
  }

  /** A clean request keeps every gateway in agreement with the store. */
  lemma CleanStepAgrees(w: World, parse: string -> Option<ParsedUrl>, step: Step)
    requires Invariant(w.tables) && AllAgree(w) && Clean(step)
    ensures Invariant(Respond(w, parse, step).0.tables) && AllAgree(Respond(w, parse, step).0)
  {
    var env := step.env;
    var w' := Respond(w, parse, step).0;
    if w' != w {
      match step.operation {
        case CreateProject(user, project) => CreateProjectAgrees(w, user, project, env);
        case SaveSettings(user, pid, settings) => SaveSettingsAgrees(w, parse, user, pid, settings, env);
        case RemoveProject(user, pid) => RemoveProjectAgrees(w, user, pid, env);
        case SaveOrganization(user, orgId, organization) => SaveOrganizationAgrees(w, user, orgId, organization, env);
        case _ => OtherRequestAgrees(w, parse, step);
      }
    }
  }

  // ----- runs without apply or commit failures -----

  /** After every step of a run in which each apply and each settings commit succeeds, all gateways
      agree with the store; other sub-steps may fail. */
  lemma {:induction false} CleanRunAgrees(parse: string -> Option<ParsedUrl>, steps: seq<Step>)
    requires forall i :: 0 <= i < |steps| ==> Clean(steps[i])
    ensures Invariant(START.tables) && Invariant(Run(START, parse, steps).tables) && AllAgree(Run(START, parse, steps))
    decreases |steps|
  {
    if steps != [] {
      var init := steps[..|steps| - 1];
      CleanRunAgrees(parse, init);
      CleanStepAgrees(Run(START, parse, init), parse, steps[|steps| - 1]);
    }
  }
}
