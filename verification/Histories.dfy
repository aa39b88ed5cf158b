/** Properties of whole runs of requests: latest pointers, URLs that are never lost, membership. */
module Histories {
  import opened Prelude
  import opened Schema
  import opened Cascade
  import opened Store
  import opened Api
  import opened Invariants
  import opened Reconciler
  import opened Validation

  // ----- what a step can do to the tables -----

  ghost predicate CreateChange(t: Tables, t': Tables, user: Uuid, req: ProjectRequest, env: Env) {
    t' == t || (ProjectCreated(t, user, req, env).Some? && t' == ProjectCreated(t, user, req, env).value)
  }

  ghost predicate SaveChange(t: Tables, t': Tables, parse: string -> Option<ParsedUrl>, user: Uuid, pid: Uuid,
      req: SettingsRequest, env: Env) {
    t' == t ||
    (pid in t.projects && AcceptableSettings(req, parse)
     && var row := Merged(LatestRevision(t, pid), user, pid, req, env);
        SettingsSaved(t, row, env).Some? && t' == SettingsSaved(t, row, env).value)
  }

  ghost predicate RemoveChange(t: Tables, t': Tables, pid: Uuid) {
    t' == t || (pid in t.projects && t' == WithoutProject(t, pid))
  }

  ghost predicate OrganizationChange(t: Tables, t': Tables, orgId: Uuid, req: OrganizationRequest) {
    t' == t ||
    (orgId in t.organizations
     && var org := t.organizations[orgId];
        t' == t.(organizations := t.organizations[orgId := org.(settings := NewSettings(org.settings, req))]))
  }

  /** The committed effect of a step, if it has any. */
  ghost predicate Change(t: Tables, t': Tables, parse: string -> Option<ParsedUrl>, step: Step) {
    match step.operation
    case CreateProject(user, project) => CreateChange(t, t', user, project, step.env)
    case SaveSettings(user, pid, settings) => SaveChange(t, t', parse, user, pid, settings, step.env)
    case RemoveProject(user, pid) => RemoveChange(t, t', pid)
    case SaveOrganization(user, orgId, organization) => OrganizationChange(t, t', orgId, organization)
    case _ => OnlyAddsOrganizations(t, t')
  }

  lemma StepChange(w: World, parse: string -> Option<ParsedUrl>, step: Step)
    requires Readable(w.tables)
    ensures Change(w.tables, Respond(w, parse, step).0.tables, parse, step)
  {
    if Bystander(step.operation) { BystanderChanges(w, parse, step); }
  }

  // ----- the latest pointer -----

  ghost predicate Inserted(t: Tables, t': Tables, pid: Uuid, r: Uuid) {
    r in t'.revisions && r !in t.revisions && t'.revisions[r].projectId == pid
  }

  /** A step that inserts a revision of a project points the project to it; any other step leaves the
      pointer of a surviving project alone and creates projects without one. */
  ghost predicate PointerFollows(t: Tables, t': Tables, pid: Uuid)
    requires pid in t'.projects
  {
    && (forall r: Uuid :: Inserted(t, t', pid, r) ==> t'.projects[pid].latestRevisionId == Some(r))
    && ((forall r: Uuid :: !Inserted(t, t', pid, r)) ==>
          t'.projects[pid].latestRevisionId == if pid in t.projects then t.projects[pid].latestRevisionId else None)
  }

  lemma UnchangedFollows(t: Tables, t': Tables, pid: Uuid)
    requires pid in t'.projects && t'.projects == t.projects && t'.revisions == t.revisions
    ensures PointerFollows(t, t', pid)
  {}

  /** Creating a project adds one project row and, when a proxy URL is given, one revision of it. */
  lemma CreatedRows(t: Tables, user: Uuid, req: ProjectRequest, env: Env)
    requires ProjectCreated(t, user, req, env).Some?
    ensures var t' := ProjectCreated(t, user, req, env).value;
      && env.projectId !in t.projects && t'.projects.Keys == t.projects.Keys + {env.projectId}
      && t'.projects[env.projectId].name == req.name
      && (forall pid :: pid in t.projects ==> t'.projects[pid] == t.projects[pid])
      && t'.projects[env.projectId].latestRevisionId == (if req.proxyUrl.Some? then Some(env.revisionId) else None)
      && (if req.proxyUrl.Some? then
            env.revisionId !in t.revisions
                && t'.revisions == t.revisions[env.revisionId := FirstRevision(user, req, env)]
          else t'.revisions == t.revisions)
  {}

  lemma AddedFollows(t: Tables, t': Tables, project: Uuid, row: Option<DeploymentRevision>, r: Uuid, pid: Uuid)
    requires RevisionKeys(t.revisions, t.projects, t.users)
    requires project !in t.projects && t'.projects.Keys == t.projects.Keys + {project}
    requires forall p :: p in t.projects ==> t'.projects[p] == t.projects[p]
    requires t'.projects[project].latestRevisionId == if row.Some? then Some(r) else None
    requires row.Some? ==> r !in t.revisions && row.value.projectId == project
    requires t'.revisions == if row.Some? then t.revisions[r := row.value] else t.revisions
    requires pid in t'.projects
    ensures PointerFollows(t, t', pid)
  {
    if row.Some? {
      assert Inserted(t, t', project, r);
    }
  }

  lemma CreatedFollows(t: Tables, t': Tables, user: Uuid, req: ProjectRequest, env: Env, pid: Uuid)
    requires CreateChange(t, t', user, req, env) && RevisionKeys(t.revisions, t.projects, t.users) && pid in t'.projects
    ensures PointerFollows(t, t', pid)
  {
    if t' == t {
      UnchangedFollows(t, t', pid);
    } else {
      CreatedRows(t, user, req, env);
      var row := if req.proxyUrl.Some? then Some(FirstRevision(user, req, env)) else None;
      AddedFollows(t, t', env.projectId, row, env.revisionId, pid);
    }
  }

  lemma SavedLatest(t: Tables, row: DeploymentRevision, env: Env)
    requires row.projectId in t.projects && SettingsSaved(t, row, env).Some?
    ensures var t' := SettingsSaved(t, row, env).value;
      && t'.projects.Keys == t.projects.Keys
      && t'.projects[row.projectId].latestRevisionId == Some(row.id)
      && row.id !in t.revisions && t'.revisions == t.revisions[row.id := row]
    ensures LatestRevision(SettingsSaved(t, row, env).value, row.projectId) == Some(row)
  {}

  lemma SavedOthers(t: Tables, row: DeploymentRevision, env: Env, pid: Uuid)
    requires row.projectId in t.projects && SettingsSaved(t, row, env).Some?
    requires pid in t.projects && pid != row.projectId
    ensures pid in SettingsSaved(t, row, env).value.projects
      && SettingsSaved(t, row, env).value.projects[pid] == t.projects[pid]
  {}

  lemma RevisedFollows(t: Tables, t': Tables, row: DeploymentRevision, pid: Uuid)
    requires pid in t'.projects && t'.projects.Keys == t.projects.Keys && row.projectId in t'.projects
    requires t'.projects[row.projectId].latestRevisionId == Some(row.id)
    requires pid != row.projectId ==> t'.projects[pid] == t.projects[pid]
    requires row.id !in t.revisions && t'.revisions == t.revisions[row.id := row]
    ensures PointerFollows(t, t', pid)
  {
    assert Inserted(t, t', row.projectId, row.id);
  }

  lemma SavedFollows(t: Tables, t': Tables, parse: string -> Option<ParsedUrl>, user: Uuid, p: Uuid,
      req: SettingsRequest, env: Env, pid: Uuid)
    requires SaveChange(t, t', parse, user, p, req, env) && pid in t'.projects
    ensures PointerFollows(t, t', pid)
  {
    if t' == t {
      UnchangedFollows(t, t', pid);
    } else {
      var row := Merged(LatestRevision(t, p), user, p, req, env);
      SavedLatest(t, row, env);
      if pid != p { SavedOthers(t, row, env, pid); }
      RevisedFollows(t, t', row, pid);
    }
  }

  lemma ShrunkFollows(t: Tables, t': Tables, gone: Uuid, pid: Uuid)
    requires t'.projects == t.projects - {gone} && t'.revisions.Keys <= t.revisions.Keys && pid in t'.projects
    ensures PointerFollows(t, t', pid)
  {}

  lemma DeletedFollows(t: Tables, t': Tables, gone: Uuid, pid: Uuid)
    requires ForeignKeys(t) && OwnRevision(t.projects, t.revisions) && OwnEvent(t.projects, t.revisions, t.events)
    requires RemoveChange(t, t', gone) && pid in t'.projects
    ensures PointerFollows(t, t', pid)
  {
    if t' == t {
      UnchangedFollows(t, t', pid);
    } else {
      SurvivorsUnchanged(t, gone);
      ShrunkFollows(t, t', gone, pid);
    }
  }

  lemma ChangePointer(t: Tables, t': Tables, parse: string -> Option<ParsedUrl>, step: Step, pid: Uuid)
    requires ForeignKeys(t) && OwnRevision(t.projects, t.revisions) && OwnEvent(t.projects, t.revisions, t.events)
    requires Change(t, t', parse, step) && pid in t'.projects
    ensures PointerFollows(t, t', pid)
  {
    match step.operation
    case CreateProject(user, project) => CreatedFollows(t, t', user, project, step.env, pid);
    case SaveSettings(user, p, settings) => SavedFollows(t, t', parse, user, p, settings, step.env, pid);
    case RemoveProject(user, gone) => DeletedFollows(t, t', gone, pid);
    case _ => UnchangedFollows(t, t', pid);
  }

  /** The revision that the run inserted last for the project now stored under this id. */
  ghost function LastInserted(w: World, parse: string -> Option<ParsedUrl>, steps: seq<Step>, pid: Uuid): Option<Uuid>
    requires Invariant(w.tables)
    decreases |steps|
  {
    if steps == [] then None
    else
      var init := steps[..|steps| - 1];
      NewestInserted(Run(w, parse, init).tables, Run(w, parse, steps).tables, pid, LastInserted(w, parse, init, pid))
  }

  /** The revision a step inserts for the project, or what was last inserted before. */
  ghost function NewestInserted(t: Tables, t': Tables, pid: Uuid, previous: Option<Uuid>): Option<Uuid> {
    if exists r: Uuid :: Inserted(t, t', pid, r) then
      var r: Uuid :| Inserted(t, t', pid, r); Some(r)
    else if pid in t.projects then previous
    else None
  }

  /** In every reachable state a project's latest pointer names the last revision inserted for it,
      and that revision is its own. */
  lemma {:induction false} PointerNamesLastInserted(parse: string -> Option<ParsedUrl>, steps: seq<Step>, pid: Uuid)
    requires Invariant(START.tables) && pid in Run(START, parse, steps).tables.projects
    ensures Run(START, parse, steps).tables.projects[pid].latestRevisionId == LastInserted(START, parse, steps, pid)
    ensures LastInserted(START, parse, steps, pid).Some? ==>
      LastInserted(START, parse, steps, pid).value in RevisionsOf(Run(START, parse, steps).tables, pid)
    decreases |steps|
  {
    if steps != [] {
      var init, last := steps[..|steps| - 1], steps[|steps| - 1];
      var before := Run(START, parse, init);
      StepChange(before, parse, last);
      ChangePointer(before.tables, Run(START, parse, steps).tables, parse, last, pid);
      if pid in before.tables.projects { PointerNamesLastInserted(parse, init, pid); }
      OwnLatest(Run(START, parse, steps).tables, pid);
      FollowedPointer(before.tables, Run(START, parse, steps).tables, pid, LastInserted(START, parse, init, pid));
    }
  }

  lemma FollowedPointer(t: Tables, t': Tables, pid: Uuid, previous: Option<Uuid>)
    requires pid in t'.projects && PointerFollows(t, t', pid)
    requires pid in t.projects ==> t.projects[pid].latestRevisionId == previous
    ensures t'.projects[pid].latestRevisionId == NewestInserted(t, t', pid, previous)
  {}

  lemma OwnLatest(t: Tables, pid: Uuid)
    requires PointerKeys(t.projects, t.revisions, t.events) && OwnRevision(t.projects, t.revisions) && pid in t.projects
    ensures t.projects[pid].latestRevisionId.Some? ==> t.projects[pid].latestRevisionId.value in RevisionsOf(t, pid)
  {}

  // ----- a URL once set is never lost -----

  /** The second revision keeps every URL of the first. */
  predicate KeepsUrls(earlier: Option<DeploymentRevision>, later: Option<DeploymentRevision>) {
    earlier.Some? ==>
      later.Some?
      && (earlier.value.ociUrl.Some? ==> later.value.ociUrl.Some? && later.value.port.Some?)
      && (earlier.value.proxyUrl.Some? ==> later.value.proxyUrl.Some?)
  }

  lemma SameLatest(t: Tables, t': Tables, pid: Uuid)
    requires pid in t.projects && pid in t'.projects
    requires t'.projects[pid].latestRevisionId == t.projects[pid].latestRevisionId
    requires t.projects[pid].latestRevisionId.Some? ==>
      var r := t.projects[pid].latestRevisionId.value;
      r in t.revisions && r in t'.revisions && t'.revisions[r] == t.revisions[r]
    ensures LatestRevision(t', pid) == LatestRevision(t, pid)
  {}

  lemma CreatedKeepsUrls(t: Tables, t': Tables, user: Uuid, req: ProjectRequest, env: Env, pid: Uuid)
    requires PointerKeys(t.projects, t.revisions, t.events) && RevisionsShaped(t.revisions)
    requires CreateChange(t, t', user, req, env) && pid in t.projects
    ensures pid in t'.projects && KeepsUrls(LatestRevision(t, pid), LatestRevision(t', pid))
  {
    LatestShaped(t, pid);
    if t' != t {
      CreatedRows(t, user, req, env);
      SameLatest(t, t', pid);
    }
  }

  lemma SavedKeepsUrls(t: Tables, t': Tables, parse: string -> Option<ParsedUrl>, user: Uuid, p: Uuid,
      req: SettingsRequest, env: Env, pid: Uuid)
    requires PointerKeys(t.projects, t.revisions, t.events) && RevisionsShaped(t.revisions)
    requires SaveChange(t, t', parse, user, p, req, env) && pid in t.projects
    ensures pid in t'.projects && KeepsUrls(LatestRevision(t, pid), LatestRevision(t', pid))
  {
    LatestShaped(t, pid);
    if t' != t {
      var row := Merged(LatestRevision(t, p), user, p, req, env);
      SavedLatest(t, row, env);
      if p != pid {
        SavedOthers(t, row, env, pid);
        SameLatest(t, t', pid);
      }
    }
  }

  lemma DeletedKeepsUrls(t: Tables, t': Tables, gone: Uuid, pid: Uuid)
    requires ForeignKeys(t) && OwnRevision(t.projects, t.revisions) && OwnEvent(t.projects, t.revisions, t.events)
    requires RevisionsShaped(t.revisions) && RemoveChange(t, t', gone) && pid in t.projects && pid in t'.projects
    ensures KeepsUrls(LatestRevision(t, pid), LatestRevision(t', pid))
  {
    LatestShaped(t, pid);
    if t' != t {
      SurvivorsUnchanged(t, gone);
      SameLatest(t, t', pid);
    }
  }

  lemma ChangeKeepsUrls(t: Tables, t': Tables, parse: string -> Option<ParsedUrl>, step: Step, pid: Uuid)
    requires ForeignKeys(t) && Maintained(t)
    requires Change(t, t', parse, step) && pid in t.projects && pid in t'.projects
    ensures KeepsUrls(LatestRevision(t, pid), LatestRevision(t', pid))
  {
    match step.operation
    case CreateProject(user, project) => CreatedKeepsUrls(t, t', user, project, step.env, pid);
    case SaveSettings(user, p, settings) => SavedKeepsUrls(t, t', parse, user, p, settings, step.env, pid);
    case RemoveProject(user, gone) => DeletedKeepsUrls(t, t', gone, pid);
    case _ =>
      LatestShaped(t, pid);
      SameLatest(t, t', pid);
  }

  lemma LatestShaped(t: Tables, pid: Uuid)
    requires RevisionsShaped(t.revisions) && PointerKeys(t.projects, t.revisions, t.events) && pid in t.projects
    ensures LatestRevision(t, pid).Some? ==> WellShaped(LatestRevision(t, pid).value)
    ensures t.projects[pid].latestRevisionId.Some? ==> LatestRevision(t, pid).Some?
  {}

  /** The project is there at the start, at the end and after every step between. */
  ghost predicate Survives(w: World, parse: string -> Option<ParsedUrl>, steps: seq<Step>, pid: Uuid)
    requires Invariant(w.tables)
    decreases |steps|
  {
    pid in Run(w, parse, steps).tables.projects && (steps != [] ==> Survives(w, parse, steps[..|steps| - 1], pid))
  }

  /** Along any run in which a project exists throughout, its latest revision keeps every URL an
      earlier latest revision had, and an image keeps a port. */
  lemma {:induction false} UrlsAreNeverLost(w: World, parse: string -> Option<ParsedUrl>, steps: seq<Step>, pid: Uuid)
    requires Invariant(w.tables) && Survives(w, parse, steps, pid)
    ensures pid in w.tables.projects && pid in Run(w, parse, steps).tables.projects
    ensures KeepsUrls(LatestRevision(w.tables, pid), LatestRevision(Run(w, parse, steps).tables, pid))
    decreases |steps|
  {
    if steps == [] {
      LatestShaped(w.tables, pid);
    } else {
      var init, last := steps[..|steps| - 1], steps[|steps| - 1];
      var before := Run(w, parse, init).tables;
      UrlsAreNeverLost(w, parse, init, pid);
      StepChange(Run(w, parse, init), parse, last);
      ChangeKeepsUrls(before, Run(w, parse, steps).tables, parse, last, pid);
    }
  }

  // ----- membership -----

  ghost predicate HasMember(t: Tables, orgId: Uuid) {
    exists u :: (orgId, u) in t.members
  }

  /** The organization still exists, with a member exactly when it had one. */
  ghost predicate MembershipKept(t: Tables, t': Tables, orgId: Uuid) {
    orgId in t'.organizations && (HasMember(t', orgId) <==> HasMember(t, orgId))
  }

  /** Membership of an existing organization can be handed on but neither lost nor found: after any
      request it has a member exactly when it had one before. */
  lemma StepKeepsMembership(w: World, parse: string -> Option<ParsedUrl>, step: Step, orgId: Uuid)
    requires Readable(w.tables) && orgId in w.tables.organizations
    ensures MembershipKept(w.tables, Respond(w, parse, step).0.tables, orgId)
  {
    if ChangesMembers(step.operation) {
      MemberRequestKeeps(w, parse, step, orgId);
    } else {
      OtherMembers(w, parse, step);
      SameMembership(w.tables, Respond(w, parse, step).0.tables, orgId);
    }
  }

  lemma MemberRequestKeeps(w: World, parse: string -> Option<ParsedUrl>, step: Step, orgId: Uuid)
    requires Readable(w.tables) && orgId in w.tables.organizations && ChangesMembers(step.operation)
    ensures MembershipKept(w.tables, Respond(w, parse, step).0.tables, orgId)
  {
    match step.operation
    case CreateOrganization(user, name) => OrganizationMembership(w, user, name, step.env, orgId);
    case AddMember(user, o, email) => AddMembership(w, user, o, email, step.env, orgId);
    case RemoveMember(user, o, target) => RemoveMembership(w, user, o, target, step.env, orgId);
    case _ => assert false;
  }

  predicate ChangesMembers(op: Operation) { op.CreateOrganization? || op.AddMember? || op.RemoveMember? }

  lemma SameMembership(t: Tables, t': Tables, orgId: Uuid)
    requires t'.members == t.members && orgId in t'.organizations
    ensures MembershipKept(t, t', orgId)
  {}

  lemma OtherMembers(w: World, parse: string -> Option<ParsedUrl>, step: Step)
    requires Readable(w.tables) && !ChangesMembers(step.operation)
    ensures var t' := Respond(w, parse, step).0.tables;
      t'.members == w.tables.members && t'.organizations.Keys == w.tables.organizations.Keys
  {
    if Bystander(step.operation) {
      match step.operation
      case Authenticate(email) => SignInFrame(w, email, step.env);
      case ReceiveReport(param, report) => ReportFrame(w, param, report, step.env);
      case _ => assert false;
    } else {
      StepChange(w, parse, step);
      ChangeKeepsMembers(w.tables, Respond(w, parse, step).0.tables, parse, step);
    }
  }

  lemma InsertUserFrame(t: Tables, row: UserAccount)
    requires InsertUserIfNew(t, row).Some?
    ensures InsertUserIfNew(t, row).value == t.(users := InsertUserIfNew(t, row).value.users)
  {}

  lemma SignInFrame(w: World, email: string, env: Env)
    ensures var t' := SignIn(w, email, env).0.tables;
      t'.organizations == w.tables.organizations && t'.members == w.tables.members && t'.projects == w.tables.projects
  {
    var row := NewUser(email, env);
    if InsertUserIfNew(w.tables, row).Some? { InsertUserFrame(w.tables, row); }
  }

  lemma ReportFrame(w: World, param: string, report: Report, env: Env)
    requires UniqueUsers(w.tables.users)
    ensures var t' := PostReport(w, param, report, env).0.tables;
      t'.organizations == w.tables.organizations && t'.members == w.tables.members && t'.projects == w.tables.projects
  {
    ReportOutcome(w, param, report, env);
  }

  lemma CreatedFrame(t: Tables, user: Uuid, req: ProjectRequest, env: Env)
    requires ProjectCreated(t, user, req, env).Some?
    ensures var t' := ProjectCreated(t, user, req, env).value;
      t' == t.(projects := t'.projects, revisions := t'.revisions)
  {}

  lemma SavedFrame(t: Tables, row: DeploymentRevision, env: Env)
    requires row.projectId in t.projects && SettingsSaved(t, row, env).Some?
    ensures var t' := SettingsSaved(t, row, env).value;
      t' == t.(projects := t'.projects, revisions := t'.revisions, events := t'.events)
  {}

  lemma CreatedKeepsMembers(t: Tables, t': Tables, user: Uuid, req: ProjectRequest, env: Env)
    requires CreateChange(t, t', user, req, env)
    ensures t'.members == t.members && t'.organizations == t.organizations
  {
    if t' != t { CreatedFrame(t, user, req, env); }
  }

  lemma SavedKeepsMembers(t: Tables, t': Tables, parse: string -> Option<ParsedUrl>, user: Uuid, pid: Uuid,
      req: SettingsRequest, env: Env)
    requires SaveChange(t, t', parse, user, pid, req, env)
    ensures t'.members == t.members && t'.organizations == t.organizations
  {
    if t' != t { SavedFrame(t, Merged(LatestRevision(t, pid), user, pid, req, env), env); }
  }

  lemma RemovedKeepsMembers(t: Tables, t': Tables, pid: Uuid)
    requires RemoveChange(t, t', pid)
    ensures t'.members == t.members && t'.organizations == t.organizations
  {}

  lemma OrganizationKeepsMembers(t: Tables, t': Tables, orgId: Uuid, req: OrganizationRequest)
    requires OrganizationChange(t, t', orgId, req)
    ensures t'.members == t.members && t'.organizations.Keys == t.organizations.Keys
    ensures forall o :: o in t.organizations ==> t'.organizations[o].name == t.organizations[o].name
  {}

  /** Members are kept, and organizations keep their names. */
  lemma ChangeKeepsMembers(t: Tables, t': Tables, parse: string -> Option<ParsedUrl>, step: Step)
    requires Change(t, t', parse, step) && !Bystander(step.operation)
    ensures t'.members == t.members && t'.organizations.Keys == t.organizations.Keys
    ensures forall o :: o in t.organizations ==> t'.organizations[o].name == t.organizations[o].name
  {
    match step.operation
    case CreateProject(user, project) => CreatedKeepsMembers(t, t', user, project, step.env);
    case SaveSettings(user, pid, settings) => SavedKeepsMembers(t, t', parse, user, pid, settings, step.env);
    case RemoveProject(user, pid) => RemovedKeepsMembers(t, t', pid);
    case SaveOrganization(user, orgId, organization) => OrganizationKeepsMembers(t, t', orgId, organization);
    case _ => assert false;
  }

  lemma NewOrganizationMembers(w: World, user: Uuid, name: string, env: Env)
    ensures var members := PostOrganization(w, user, name, env).0.tables.members;
      w.tables.members <= members <= w.tables.members + {(env.organizationId, user)}
    ensures env.organizationId in w.tables.organizations ==> PostOrganization(w, user, name, env).0 == w
  {}

  lemma OrganizationMembership(w: World, user: Uuid, name: string, env: Env, orgId: Uuid)
    requires orgId in w.tables.organizations
    ensures MembershipKept(w.tables, PostOrganization(w, user, name, env).0.tables, orgId)
  {
    var members := PostOrganization(w, user, name, env).0.tables.members;
    NewOrganizationMembers(w, user, name, env);
    if u: Uuid :| (orgId, u) in w.tables.members { assert (orgId, u) in members; }
  }

  lemma MemberAddedMembers(t: Tables, o: Uuid, email: string, env: Env)
    requires UniqueUsers(t.users) && MemberAdded(t, o, email, env).Some?
    ensures t.members <= MemberAdded(t, o, email, env).value.members
    ensures forall m :: m in MemberAdded(t, o, email, env).value.members && m !in t.members ==> m.0 == o
    ensures MemberAdded(t, o, email, env).value.organizations == t.organizations
  {
    InsertedUserUnique(t, email, env);
  }

  lemma AddMembership(w: World, user: Uuid, o: Uuid, email: string, env: Env, orgId: Uuid)
    requires UniqueUsers(w.tables.users) && orgId in w.tables.organizations
    ensures MembershipKept(w.tables, PutMember(w, user, o, email, env).0.tables, orgId)
  {
    var t' := PutMember(w, user, o, email, env).0.tables;
    if t' != w.tables {
      MemberAddedMembers(w.tables, o, email, env);
      assert (o, user) in w.tables.members;
      if u :| (orgId, u) in w.tables.members { assert (orgId, u) in t'.members; }
    }
  }

  lemma RemoveMembership(w: World, user: Uuid, o: Uuid, target: Uuid, env: Env, orgId: Uuid)
    requires orgId in w.tables.organizations
    ensures MembershipKept(w.tables, DeleteMemberStep(w, user, o, target, env).0.tables, orgId)
  {
    var t' := DeleteMemberStep(w, user, o, target, env).0.tables;
    if t' != w.tables {
      assert (o, user) in t'.members;
      if u :| (orgId, u) in w.tables.members {
        assert o != orgId ==> (orgId, u) in t'.members;
      }
    }
  }

  /** A removal succeeds exactly when a member of the organization asks for somebody else and nothing
      fails, or asks for the nil identifier, which removes nothing. Otherwise success means that exactly
      that membership is gone, and without success nothing has changed. */
  lemma RemovalIff(w: World, user: Uuid, orgId: Uuid, target: Uuid, env: Env)
    requires MemberKeys(w.tables.members, w.tables.organizations, w.tables.users)
    ensures var r := DeleteMemberStep(w, user, orgId, target, env);
      && (r.1 == Ok <==>
            IsMember(w.tables, user, orgId) && ReadFault !in env.faults
            && (target == NIL || (user != target && MemberFault !in env.faults)))
      && (r.1 != Ok || target == NIL ==> r.0 == w)
      && (forall o: Uuid, u: Uuid :: IsMember(r.0.tables, u, o)
            <==> IsMember(w.tables, u, o) && !(r.1 == Ok && target != NIL && o == orgId && u == target))
  {}

  /** Inviting a removed member again restores the store as it was before the removal, up to the creation
      time of the membership row, which the model leaves out. */
  lemma ReinviteRestores(w: World, user: Uuid, orgId: Uuid, target: Uuid, env: Env, env': Env)
    requires UniqueUsers(w.tables.users) && MemberKeys(w.tables.members, w.tables.organizations, w.tables.users)
    requires IsMember(w.tables, target, orgId) && DeleteMemberStep(w, user, orgId, target, env).1 == Ok
      && env'.faults == {}
    ensures PutMember(DeleteMemberStep(w, user, orgId, target, env).0, user, orgId, w.tables.users[target].email, env')
      == (w, Ok)
  {
    var w' := DeleteMemberStep(w, user, orgId, target, env).0;
    RemovalIff(w, user, orgId, target, env);
    MemberAddedBack(w.tables, w'.tables, orgId, target, env');
  }

  lemma MemberAddedBack(t: Tables, t': Tables, orgId: Uuid, target: Uuid, env: Env)
    requires UniqueUsers(t.users) && MemberKeys(t.members, t.organizations, t.users) && IsMember(t, target, orgId)
    requires t' == t.(members := t'.members) && t'.members + {(orgId, target)} == t.members
    ensures MemberAdded(t', orgId, t.users[target].email, env) == Some(t)
  {
    var email := t.users[target].email;
    InsertedUserUnique(t', email, env);
    assert UserIdOf(t', email) == target;
  }

  /** Over any run an organization with a member keeps one, and one without stays without. */
  lemma {:induction false} RunKeepsMembership(w: World, parse: string -> Option<ParsedUrl>, steps: seq<Step>,
      orgId: Uuid)
    requires Invariant(w.tables) && orgId in w.tables.organizations
    ensures orgId in Run(w, parse, steps).tables.organizations
    ensures HasMember(Run(w, parse, steps).tables, orgId) <==> HasMember(w.tables, orgId)
    decreases |steps|
  {
    if steps != [] {
      var init := steps[..|steps| - 1];
      RunKeepsMembership(w, parse, init, orgId);
      StepKeepsMembership(Run(w, parse, init), parse, steps[|steps| - 1], orgId);
    }
  }

  /** Creating an organization and adding its creator are two separate statements: the organization is
      stored with a member exactly when both succeed, and stored without one when only the second
      fails. */
  lemma OrphanedIff(w: World, user: Uuid, name: string, env: Env)
    requires ValidName(name) && OrganizationFault !in env.faults
      && InsertOrganization(w.tables, NewOrganization(name, env)).Some?
    requires !HasMember(w.tables, env.organizationId)
    ensures var r := PostOrganization(w, user, name, env);
      && env.organizationId in r.0.tables.organizations && r.0.tables.organizations[env.organizationId].name == name
      && (HasMember(r.0.tables, env.organizationId) <==> MemberFault !in env.faults && user in w.tables.users)
      && (r.1 == Ok <==> HasMember(r.0.tables, env.organizationId))
  {
    var r := PostOrganization(w, user, name, env);
    if MemberFault !in env.faults && user in w.tables.users {
      assert (env.organizationId, user) in r.0.tables.members;
    }
  }

  /** An organization left without a member stays so for ever, and its name stays taken. */
  lemma OrphanStays(w: World, parse: string -> Option<ParsedUrl>, steps: seq<Step>, orgId: Uuid, user: Uuid,
      name: string, env: Env)
    requires Invariant(w.tables) && orgId in w.tables.organizations && !HasMember(w.tables, orgId)
    requires w.tables.organizations[orgId].name == name
    ensures !IsMember(Run(w, parse, steps).tables, user, orgId)
    ensures PostOrganization(Run(w, parse, steps), user, name, env).0 == Run(w, parse, steps)
  {
    var w' := Run(w, parse, steps);
    RunKeepsMembership(w, parse, steps, orgId);
    RunKeepsName(w, parse, steps, orgId);
    TakenNameFails(w', user, orgId, env);
  }

  lemma TakenNameFails(w: World, user: Uuid, orgId: Uuid, env: Env)
    requires orgId in w.tables.organizations
    ensures PostOrganization(w, user, w.tables.organizations[orgId].name, env).0 == w
  {}

  lemma {:induction false} RunKeepsName(w: World, parse: string -> Option<ParsedUrl>, steps: seq<Step>, orgId: Uuid)
    requires Invariant(w.tables) && orgId in w.tables.organizations
    ensures orgId in Run(w, parse, steps).tables.organizations
    ensures Run(w, parse, steps).tables.organizations[orgId].name == w.tables.organizations[orgId].name
    decreases |steps|
  {
    if steps != [] {
      var init, last := steps[..|steps| - 1], steps[|steps| - 1];
      RunKeepsName(w, parse, init, orgId);
      StepKeepsName(Run(w, parse, init), parse, last, orgId);
    }
  }

  lemma StepKeepsName(w: World, parse: string -> Option<ParsedUrl>, step: Step, orgId: Uuid)
    requires Readable(w.tables) && orgId in w.tables.organizations
    ensures orgId in Respond(w, parse, step).0.tables.organizations
    ensures Respond(w, parse, step).0.tables.organizations[orgId].name == w.tables.organizations[orgId].name
  {
    StepChange(w, parse, step);
    ChangeKeepsName(w.tables, Respond(w, parse, step).0.tables, parse, step, orgId);
  }

  lemma ChangeKeepsName(t: Tables, t': Tables, parse: string -> Option<ParsedUrl>, step: Step, orgId: Uuid)
    requires Change(t, t', parse, step) && orgId in t.organizations
    ensures orgId in t'.organizations && t'.organizations[orgId].name == t.organizations[orgId].name
  {
    if !Bystander(step.operation) { ChangeKeepsMembers(t, t', parse, step); }
  }
}
