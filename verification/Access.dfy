/** Strangers change nothing: over any run, an organization whose members send no request keeps its
    projects, revisions, members, settings and gateway. */
module Access {
  import opened Prelude
  import opened Schema
  import opened Cascade
  import opened Store
  import opened Api
  import opened Invariants
  import opened Agreement
  import opened Reconciler
  import opened Failures
  import opened Histories
  import opened Ask
  import opened Isolation
  import opened Effects

  /** The user that a request is made for; reports and sign-ins are made for none. */
  function Actor(op: Operation): Option<Uuid> {
    match op
    case CreateProject(user, _) => Some(user)
    case SaveSettings(user, _, _) => Some(user)
    case RemoveProject(user, _) => Some(user)
    case CreateOrganization(user, _) => Some(user)
    case SaveOrganization(user, _, _) => Some(user)
    case AddMember(user, _, _) => Some(user)
    case RemoveMember(user, _, _) => Some(user)
    case Authenticate(_) => None
    case ReceiveReport(_, _) => None
  }

  ghost predicate ByStranger(t: Tables, orgId: Uuid, op: Operation) {
    Actor(op).Some? ==> (orgId, Actor(op).value) !in t.members
  }

  /** The project is one of the organization's. */
  ghost predicate Owns(t: Tables, orgId: Uuid, pid: Uuid) {
    pid in t.projects && t.projects[pid].organizationId == orgId
  }

  ghost predicate OwnsRevision(t: Tables, orgId: Uuid, r: Uuid) {
    r in t.revisions && Owns(t, orgId, t.revisions[r].projectId)
  }

  ghost predicate OrganizationUntouched(t: Tables, t': Tables, orgId: Uuid) {
    && orgId in t.organizations && orgId in t'.organizations && t'.organizations[orgId] == t.organizations[orgId]
    && (forall u: Uuid :: (orgId, u) in t'.members <==> (orgId, u) in t.members)
  }

  ghost predicate ProjectsUntouched(t: Tables, t': Tables, orgId: Uuid) {
    && (forall p :: Owns(t', orgId, p) <==> Owns(t, orgId, p))
    && (forall p :: Owns(t, orgId, p) ==> t'.projects[p] == t.projects[p])
  }

  ghost predicate RevisionsUntouched(t: Tables, t': Tables, orgId: Uuid) {
    && (forall r :: OwnsRevision(t', orgId, r) <==> OwnsRevision(t, orgId, r))
    && (forall r :: OwnsRevision(t, orgId, r) ==> t'.revisions[r] == t.revisions[r])
  }

  /** The organization's row, members, projects and their revisions are the same. */
  ghost predicate RowsUntouched(t: Tables, t': Tables, orgId: Uuid) {
    OrganizationUntouched(t, t', orgId) && ProjectsUntouched(t, t', orgId) && RevisionsUntouched(t, t', orgId)
  }

  lemma SameRowsUntouched(t: Tables, t': Tables, orgId: Uuid)
    requires orgId in t.organizations && orgId in t'.organizations && t'.organizations[orgId] == t.organizations[orgId]
    requires t'.projects == t.projects && t'.revisions == t.revisions
    requires forall u: Uuid :: (orgId, u) in t'.members <==> (orgId, u) in t.members
    ensures RowsUntouched(t, t', orgId)
  {}

  /** One new project of another organization, with at most one revision. */
  lemma ProjectAdded(t: Tables, t': Tables, p: Project, r: Uuid, row: DeploymentRevision, orgId: Uuid)
    requires RevisionKeys(t.revisions, t.projects, t.users) && orgId in t.organizations
    requires t' == t.(projects := t.projects[p.id := p], revisions := t'.revisions)
    requires p.id !in t.projects && p.organizationId != orgId
    requires t'.revisions == t.revisions || (r !in t.revisions && t'.revisions == t.revisions[r := row])
    requires row.projectId == p.id
    ensures RowsUntouched(t, t', orgId)
  {
    assert ProjectsUntouched(t, t', orgId);
    forall x ensures OwnsRevision(t', orgId, x) <==> OwnsRevision(t, orgId, x) {
      if x in t.revisions { assert t.revisions[x].projectId != p.id && t'.revisions[x] == t.revisions[x]; }
    }
  }

  /** One more revision of a project of another organization, which points to new rows. */
  lemma RevisionAdded(t: Tables, t': Tables, p: Project, r: Uuid, row: DeploymentRevision, orgId: Uuid)
    requires RevisionKeys(t.revisions, t.projects, t.users) && orgId in t.organizations
    requires t' == t.(projects := t.projects[row.projectId := p], revisions := t.revisions[r := row],
                      events := t'.events)
    requires row.projectId in t.projects && t.projects[row.projectId].organizationId != orgId
    requires r !in t.revisions && p.organizationId == t.projects[row.projectId].organizationId
    ensures RowsUntouched(t, t', orgId)
  {
    ProjectRepointed(t, t', row.projectId, orgId);
    forall x ensures OwnsRevision(t', orgId, x) <==> OwnsRevision(t, orgId, x) {
      if x in t.revisions { assert t'.revisions[x] == t.revisions[x]; }
    }
  }

  lemma ProjectRepointed(t: Tables, t': Tables, pid: Uuid, orgId: Uuid)
    requires pid in t.projects && t'.projects.Keys == t.projects.Keys
    requires forall q :: q in t.projects && q != pid ==> t'.projects[q] == t.projects[q]
    requires t.projects[pid].organizationId != orgId
    requires t'.projects[pid].organizationId == t.projects[pid].organizationId
    ensures ProjectsUntouched(t, t', orgId)
  {}

  lemma ProjectRemoved(t: Tables, t': Tables, pid: Uuid, orgId: Uuid)
    requires RevisionKeys(t.revisions, t.projects, t.users) && orgId in t.organizations
    requires t'.organizations == t.organizations && t'.members == t.members && t'.projects == t.projects - {pid}
    requires pid in t.projects ==> t.projects[pid].organizationId != orgId
    requires t'.revisions.Keys == t.revisions.Keys - RevisionsOf(t, pid)
    requires forall r :: r in t'.revisions ==> t'.revisions[r] == t.revisions[r]
    ensures RowsUntouched(t, t', orgId)
  {
    assert ProjectsUntouched(t, t', orgId);
    forall x ensures OwnsRevision(t', orgId, x) <==> OwnsRevision(t, orgId, x) {
      if x in t.revisions { assert x in t'.revisions || x in RevisionsOf(t, pid); }
    }
  }

  lemma CreationUntouched(w: World, user: Uuid, req: ProjectRequest, env: Env, orgId: Uuid)
    requires Invariant(w.tables) && orgId in w.tables.organizations && (orgId, user) !in w.tables.members
    ensures RowsUntouched(w.tables, PostProject(w, user, req, env).0.tables, orgId)
  {
    var t, t' := w.tables, PostProject(w, user, req, env).0.tables;
    CreationStatus(w, user, req, env);
    if PostProject(w, user, req, env).1 == Ok {
      CreatedContents(w, user, req, env);
      ProjectAdded(t, t', t'.projects[env.projectId], env.revisionId, FirstRevision(user, req, env), orgId);
    } else {
      SameRowsUntouched(t, t', orgId);
    }
  }

  lemma SaveUntouched(w: World, parse: string -> Option<ParsedUrl>, user: Uuid, pid: Uuid, req: SettingsRequest,
      env: Env, orgId: Uuid)
    requires Invariant(w.tables) && orgId in w.tables.organizations && (orgId, user) !in w.tables.members
    ensures RowsUntouched(w.tables, PutSettings(w, parse, user, pid, req, env).0.tables, orgId)
  {
    var t, t' := w.tables, PutSettings(w, parse, user, pid, req, env).0.tables;
    SettingsStatus(w, parse, user, pid, req, env);
    if t' != t {
      var row := SavedContents(w, parse, user, pid, req, env);
      RevisionAdded(t, t', t'.projects[pid], row.id, row, orgId);
    } else {
      SameRowsUntouched(t, t', orgId);
    }
  }

  lemma RemovalUntouched(w: World, user: Uuid, pid: Uuid, env: Env, orgId: Uuid)
    requires Invariant(w.tables) && orgId in w.tables.organizations && (orgId, user) !in w.tables.members
    ensures RowsUntouched(w.tables, DeleteProjectStep(w, user, pid, env).0.tables, orgId)
  {
    var t, t' := w.tables, DeleteProjectStep(w, user, pid, env).0.tables;
    RemovalStatus(w, user, pid, env);
    SurvivorsUnchanged(t, pid);
    if t' != t { ProjectRemoved(t, t', pid, orgId); } else { SameRowsUntouched(t, t', orgId); }
  }

  lemma FoundingUntouched(w: World, user: Uuid, name: string, env: Env, orgId: Uuid)
    requires orgId in w.tables.organizations
    ensures RowsUntouched(w.tables, PostOrganization(w, user, name, env).0.tables, orgId)
  {
    FoundingContents(w, user, name, env);
    SameRowsUntouched(w.tables, PostOrganization(w, user, name, env).0.tables, orgId);
  }

  lemma UpdateUntouched(w: World, user: Uuid, o: Uuid, req: OrganizationRequest, env: Env, orgId: Uuid)
    requires Readable(w.tables) && orgId in w.tables.organizations && (orgId, user) !in w.tables.members
    ensures RowsUntouched(w.tables, PutOrganization(w, user, o, req, env).0.tables, orgId)
  {
    var t' := PutOrganization(w, user, o, req, env).0.tables;
    if o in w.tables.organizations { OrganizationContents(w, user, o, req, env); }
    assert o == orgId ==> t' == w.tables;
    SameRowsUntouched(w.tables, t', orgId);
  }

  lemma InvitationUntouched(w: World, user: Uuid, o: Uuid, email: string, env: Env, orgId: Uuid)
    requires UniqueUsers(w.tables.users) && orgId in w.tables.organizations && (orgId, user) !in w.tables.members
    ensures RowsUntouched(w.tables, PutMember(w, user, o, email, env).0.tables, orgId)
  {
    var t' := PutMember(w, user, o, email, env).0.tables;
    if t' == w.tables {
      SameRowsUntouched(w.tables, t', orgId);
    } else {
      InvitationContents(w, user, o, email, env);
      var u: Uuid :| t'.members == w.tables.members + {(o, u)};
      SameRowsUntouched(w.tables, t', orgId);
    }
  }

  lemma MemberLeft(members: set<(Uuid, Uuid)>, members': set<(Uuid, Uuid)>, o: Uuid, target: Uuid, orgId: Uuid)
    requires o != orgId && members' == members - {(o, target)}
    ensures forall u: Uuid :: (orgId, u) in members' <==> (orgId, u) in members
  {}

  lemma DismissalUntouched(w: World, user: Uuid, o: Uuid, target: Uuid, env: Env, orgId: Uuid)
    requires orgId in w.tables.organizations && (orgId, user) !in w.tables.members
    ensures RowsUntouched(w.tables, DeleteMemberStep(w, user, o, target, env).0.tables, orgId)
  {
    var t' := DeleteMemberStep(w, user, o, target, env).0.tables;
    RemovalFrame(w, user, o, target, env);
    if t' != w.tables { MemberLeft(w.tables.members, t'.members, o, target, orgId); }
    SameRowsUntouched(w.tables, t', orgId);
  }

  lemma SignInUntouched(w: World, email: string, env: Env, orgId: Uuid)
    requires orgId in w.tables.organizations
    ensures RowsUntouched(w.tables, SignIn(w, email, env).0.tables, orgId)
  {
    SignInContents(w, email, env);
    SameRowsUntouched(w.tables, SignIn(w, email, env).0.tables, orgId);
  }

  lemma ReportUntouched(w: World, param: string, report: Report, env: Env, orgId: Uuid)
    requires UniqueUsers(w.tables.users) && orgId in w.tables.organizations
    ensures RowsUntouched(w.tables, PostReport(w, param, report, env).0.tables, orgId)
  {
    ReportFrame(w, param, report, env);
    ReportOutcome(w, param, report, env);
    SameRowsUntouched(w.tables, PostReport(w, param, report, env).0.tables, orgId);
  }

  lemma StepRowsUntouched(w: World, parse: string -> Option<ParsedUrl>, step: Step, orgId: Uuid)
    requires Invariant(w.tables) && orgId in w.tables.organizations && ByStranger(w.tables, orgId, step.operation)
    ensures RowsUntouched(w.tables, Respond(w, parse, step).0.tables, orgId)
  {
    if ProjectRequested(step.operation) {
      ProjectStepUntouched(w, parse, step, orgId);
    } else {
      OtherStepUntouched(w, parse, step, orgId);
    }
  }

  lemma ProjectStepUntouched(w: World, parse: string -> Option<ParsedUrl>, step: Step, orgId: Uuid)
    requires Invariant(w.tables) && orgId in w.tables.organizations && ByStranger(w.tables, orgId, step.operation)
    requires ProjectRequested(step.operation)
    ensures RowsUntouched(w.tables, Respond(w, parse, step).0.tables, orgId)
  {
    match step.operation
    case CreateProject(user, project) => CreationUntouched(w, user, project, step.env, orgId);
    case SaveSettings(user, pid, settings) => SaveUntouched(w, parse, user, pid, settings, step.env, orgId);
    case RemoveProject(user, pid) => RemovalUntouched(w, user, pid, step.env, orgId);
    case CreateOrganization(user, name) => FoundingUntouched(w, user, name, step.env, orgId);
    case _ => assert false;
  }

  lemma OtherStepUntouched(w: World, parse: string -> Option<ParsedUrl>, step: Step, orgId: Uuid)
    requires Invariant(w.tables) && orgId in w.tables.organizations && ByStranger(w.tables, orgId, step.operation)
    requires !ProjectRequested(step.operation)
    ensures RowsUntouched(w.tables, Respond(w, parse, step).0.tables, orgId)
  {
    match step.operation
    case SaveOrganization(user, o, organization) => UpdateUntouched(w, user, o, organization, step.env, orgId);
    case AddMember(user, o, email) => InvitationUntouched(w, user, o, email, step.env, orgId);
    case RemoveMember(user, o, target) => DismissalUntouched(w, user, o, target, step.env, orgId);
    case Authenticate(email) => SignInUntouched(w, email, step.env, orgId);
    case ReceiveReport(param, report) => ReportUntouched(w, param, report, step.env, orgId);
    case _ => assert false;
  }

  /** An apply is for an organization of which the actor is a member. */
  lemma ViewIsMembers(w: World, parse: string -> Option<ParsedUrl>, step: Step)
    requires Invariant(w.tables) && AppliedView(w, parse, step).Some?
    ensures var org := AppliedView(w, parse, step).value.organization;
      && Actor(step.operation).Some? && (org.id, Actor(step.operation).value) in w.tables.members
      && org.id in w.tables.organizations && w.tables.organizations[org.id].name == org.name
  {
    match step.operation
    case CreateProject(user, project) => CreationStatus(w, user, project, step.env);
    case SaveSettings(user, pid, settings) => SettingsStatus(w, parse, user, pid, settings, step.env);
    case RemoveProject(user, pid) => RemovalStatus(w, user, pid, step.env);
    case SaveOrganization(user, o, organization) => OrganizationContents(w, user, o, organization, step.env);
    case _ =>
  }

  /** A request by anybody who is not a member of the organization changes neither its row, members,
      projects and revisions nor its gateway, whatever fails in it. */
  lemma StrangerChangesNothing(w: World, parse: string -> Option<ParsedUrl>, step: Step, orgId: Uuid)
    requires Invariant(w.tables) && orgId in w.tables.organizations && ByStranger(w.tables, orgId, step.operation)
    ensures var w' := Respond(w, parse, step).0; var name := w.tables.organizations[orgId].name;
      RowsUntouched(w.tables, w'.tables, orgId) && Lookup(w'.cluster, name) == Lookup(w.cluster, name)
  {
    StepRowsUntouched(w, parse, step, orgId);
    if AppliedView(w, parse, step).Some? { ViewIsMembers(w, parse, step); }
    OtherGatewaysUntouched(w, parse, step, w.tables.organizations[orgId].name);
  }

  lemma UntouchedTransitive(t: Tables, r: Tables, t': Tables, orgId: Uuid)
    requires RowsUntouched(t, r, orgId) && RowsUntouched(r, t', orgId)
    ensures RowsUntouched(t, t', orgId)
  {}

  /** Over any run with any failures: as long as none of its members sends a request, the organization is
      as it was. Nobody can become a member meanwhile, so membership counts at the start only. */
  lemma {:induction false} StrangersChangeNothing(w: World, parse: string -> Option<ParsedUrl>, steps: seq<Step>,
      orgId: Uuid)
    requires Invariant(w.tables) && orgId in w.tables.organizations
    requires forall i :: 0 <= i < |steps| ==> ByStranger(w.tables, orgId, steps[i].operation)
    ensures var w' := Run(w, parse, steps); var name := w.tables.organizations[orgId].name;
      RowsUntouched(w.tables, w'.tables, orgId) && Lookup(w'.cluster, name) == Lookup(w.cluster, name)
    decreases |steps|
  {
    if steps != [] {
      var init, last := steps[..|steps| - 1], steps[|steps| - 1];
      var before := Run(w, parse, init);
      StrangersChangeNothing(w, parse, init, orgId);
      assert ByStranger(w.tables, orgId, last.operation);
      StrangerChangesNothing(before, parse, last, orgId);
      UntouchedTransitive(w.tables, before.tables, Run(w, parse, steps).tables, orgId);
    }
  }
}
