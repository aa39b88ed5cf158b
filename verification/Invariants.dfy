/** Every request keeps the constraints of the schema and what the application maintains on top of
    them, whichever sub-steps fail. */
module Invariants {
  import opened Prelude
  import opened Schema
  import opened Cascade
  import opened Store
  import opened Api
  import UuidText

  /** Equal tables are equally sound; naming them keeps the proofs below small. */
  lemma Same(t: Tables, t': Tables)
    requires Invariant(t) && t' == t
    ensures Invariant(t')
  {}

  // ----- statements -----

  lemma InsertProjectKeepsKeys(t: Tables, row: Project)
    requires PrimaryKeys(t) && UniqueColumns(t) && InsertProject(t, row).Some?
    ensures PrimaryKeys(InsertProject(t, row).value) && UniqueColumns(InsertProject(t, row).value)
  {
    InsertedProjectUnique(t, row);
  }

  lemma InsertProjectKeepsReferences(t: Tables, row: Project)
    requires ForeignKeys(t) && InsertProject(t, row).Some?
    requires row.latestRevisionId.None? && row.latestEventId.None?
    ensures ForeignKeys(InsertProject(t, row).value)
  {}

  lemma InsertProjectKeepsMaintained(t: Tables, row: Project)
    requires Maintained(t) && InsertProject(t, row).Some?
    requires row.latestRevisionId.None? && row.latestEventId.None?
    ensures Maintained(InsertProject(t, row).value)
  {}

  lemma InsertProjectKeeps(t: Tables, row: Project)
    requires Invariant(t) && InsertProject(t, row).Some?
    requires row.latestRevisionId.None? && row.latestEventId.None?
    ensures Invariant(InsertProject(t, row).value)
  {
    InsertProjectKeepsKeys(t, row);
    InsertProjectKeepsReferences(t, row);
    InsertProjectKeepsMaintained(t, row);
  }

  lemma RevisionKeepsKeys(t: Tables, row: DeploymentRevision)
    requires PrimaryKeys(t) && UniqueColumns(t) && row.projectId in t.projects
    ensures PrimaryKeys(WithRevision(t, row)) && UniqueColumns(WithRevision(t, row))
  {
    SameNamesUnique(t.projects, WithRevision(t, row).projects);
  }

  lemma RevisionKeepsReferences(t: Tables, row: DeploymentRevision)
    requires ForeignKeys(t) && InsertRevision(t, row).Some?
    ensures ForeignKeys(WithRevision(t, row))
  {}

  lemma RevisionKeepsMaintained(t: Tables, row: DeploymentRevision)
    requires ForeignKeys(t) && Maintained(t) && InsertRevision(t, row).Some? && WellShaped(row)
    ensures Maintained(WithRevision(t, row))
  {}

  lemma RevisionKeeps(t: Tables, row: DeploymentRevision)
    requires Invariant(t) && InsertRevision(t, row).Some? && WellShaped(row)
    ensures Invariant(WithRevision(t, row))
  {
    RevisionKeepsKeys(t, row);
    RevisionKeepsReferences(t, row);
    RevisionKeepsMaintained(t, row);
  }

  lemma EventKeepsKeys(t: Tables, row: RevisionEvent)
    requires PrimaryKeys(t) && UniqueColumns(t)
    requires row.revisionId in t.revisions && t.revisions[row.revisionId].projectId in t.projects
    ensures PrimaryKeys(WithEvent(t, row)) && UniqueColumns(WithEvent(t, row))
  {
    SameNamesUnique(t.projects, WithEvent(t, row).projects);
  }

  lemma EventKeepsReferences(t: Tables, row: RevisionEvent)
    requires ForeignKeys(t) && InsertEvent(t, row).Some?
    ensures ForeignKeys(WithEvent(t, row))
  {}

  lemma EventKeepsMaintained(t: Tables, row: RevisionEvent)
    requires ForeignKeys(t) && Maintained(t) && InsertEvent(t, row).Some?
    ensures Maintained(WithEvent(t, row))
  {}

  lemma EventKeeps(t: Tables, row: RevisionEvent)
    requires Invariant(t) && InsertEvent(t, row).Some?
    ensures Invariant(WithEvent(t, row))
  {
    EventKeepsKeys(t, row);
    EventKeepsReferences(t, row);
    EventKeepsMaintained(t, row);
  }

  lemma InsertOrganizationKeeps(t: Tables, row: Organization)
    requires Invariant(t) && InsertOrganization(t, row).Some?
    ensures Invariant(InsertOrganization(t, row).value)
  {}

  lemma UpdateOrganizationKeeps(t: Tables, id: Uuid, settings: Settings)
    requires Invariant(t) && UpdateOrganization(t, id, settings).Some?
    ensures Invariant(UpdateOrganization(t, id, settings).value)
  {}

  lemma NewUserUnique(users: map<Uuid, UserAccount>, row: UserAccount)
    requires UniqueUsers(users) && row.id !in users
    requires forall i :: i in users ==> users[i].email != row.email
    ensures UniqueUsers(users[row.id := row])
  {}

  lemma InsertUserKeepsKeys(t: Tables, row: UserAccount)
    requires PrimaryKeys(t) && UniqueColumns(t) && row.id !in t.users
    requires forall i :: i in t.users ==> t.users[i].email != row.email
    ensures PrimaryKeys(t.(users := t.users[row.id := row])) && UniqueColumns(t.(users := t.users[row.id := row]))
  {
    NewUserUnique(t.users, row);
  }

  lemma InsertUserKeepsReferences(t: Tables, row: UserAccount)
    requires ForeignKeys(t) && row.id !in t.users
    ensures ForeignKeys(t.(users := t.users[row.id := row]))
  {}

  lemma InsertUserKeeps(t: Tables, row: UserAccount)
    requires Invariant(t) && InsertUserIfNew(t, row).Some?
    ensures Invariant(InsertUserIfNew(t, row).value)
  {
    var t' := InsertUserIfNew(t, row).value;
    if t' == t {
      Same(t, t');
    } else {
      InsertUserKeepsKeys(t, row);
      InsertUserKeepsReferences(t, row);
      Same(t.(users := t.users[row.id := row]), t');
    }
  }

  lemma InsertMemberKeeps(t: Tables, orgId: Uuid, userId: Uuid)
    requires Invariant(t) && InsertMember(t, orgId, userId).Some?
    ensures Invariant(InsertMember(t, orgId, userId).value)
  {}

  lemma InsertLogKeepsKeys(t: Tables, row: ServerLog)
    requires PrimaryKeys(t) && UniqueColumns(t) && InsertLog(t, row).Some?
    ensures PrimaryKeys(InsertLog(t, row).value) && UniqueColumns(InsertLog(t, row).value)
  {}

  lemma InsertLogKeepsReferences(t: Tables, row: ServerLog)
    requires ForeignKeys(t) && InsertLog(t, row).Some?
    ensures ForeignKeys(InsertLog(t, row).value)
  {}

  lemma InsertLogKeepsMaintained(t: Tables, row: ServerLog)
    requires Maintained(t) && InsertLog(t, row).Some?
    ensures Maintained(InsertLog(t, row).value)
  {}

  lemma InsertLogKeeps(t: Tables, row: ServerLog)
    requires Invariant(t) && InsertLog(t, row).Some?
    ensures Invariant(InsertLog(t, row).value)
  {
    InsertLogKeepsKeys(t, row);
    InsertLogKeepsReferences(t, row);
    InsertLogKeepsMaintained(t, row);
  }

  // ----- requests -----

  lemma ProjectCreatedKeeps(t: Tables, user: Uuid, req: ProjectRequest, env: Env)
    requires Invariant(t) && ProjectCreated(t, user, req, env).Some?
    ensures Invariant(ProjectCreated(t, user, req, env).value)
  {
    var row := NewProject(req.organizationId, user, req.name, env);
    var r := InsertProject(t, row).value;
    InsertProjectKeeps(t, row);
    Same(InsertProject(t, row).value, r);
    if req.proxyUrl.Some? {
      RevisionKeeps(r, FirstRevision(user, req, env));
    }
  }

  lemma PostProjectKeeps(w: World, user: Uuid, req: ProjectRequest, env: Env)
    requires Invariant(w.tables)
    ensures Invariant(PostProject(w, user, req, env).0.tables)
  {
    var t' := PostProject(w, user, req, env).0.tables;
    if t' == w.tables {
      Same(w.tables, t');
    } else {
      ProjectCreatedKeeps(w.tables, user, req, env);
      Same(ProjectCreated(w.tables, user, req, env).value, t');
    }
  }

  /** The single update that two updates in a row amount to: the later values win. */
  function Then(first: SettingsRequest, second: SettingsRequest): SettingsRequest {
    second.(ociUrl := Keep(second.ociUrl, first.ociUrl), port := Keep(second.port, first.port),
            proxyUrl := Keep(second.proxyUrl, first.proxyUrl))
  }

  /** Merging is an action of the requests on the revisions: merging one after the other is merging
      their combination, and a request without URLs or port keeps all three. */
  lemma MergeComposes(latest: Option<DeploymentRevision>, author: Uuid, user: Uuid, pid: Uuid,
                      first: SettingsRequest, second: SettingsRequest, env: Env, env': Env)
    ensures Merged(Some(Merged(latest, author, pid, first, env)), user, pid, second, env')
         == Merged(latest, user, pid, Then(first, second), env')
    ensures first.ociUrl.None? && first.port.None? && first.proxyUrl.None? && latest.Some? ==>
      var r := Merged(latest, author, pid, first, env);
      r.ociUrl == latest.value.ociUrl && r.port == latest.value.port && r.proxyUrl == latest.value.proxyUrl
  {}

  /** Merging an acceptable request into a well-shaped revision is well-shaped once it has a URL: an
      image always comes with a port, either its own or the one it was saved with. */
  lemma MergedShape(latest: Option<DeploymentRevision>, parse: string -> Option<ParsedUrl>, user: Uuid, pid: Uuid,
      req: SettingsRequest, env: Env)
    requires AcceptableSettings(req, parse)
    requires latest.Some? ==> WellShaped(latest.value)
    ensures var row := Merged(latest, user, pid, req, env);
      WellShaped(row) <==> row.ociUrl.Some? || row.proxyUrl.Some?
  {}

  lemma SettingsSavedKeeps(t: Tables, row: DeploymentRevision, env: Env)
    requires Invariant(t) && WellShaped(row) && row.projectId in t.projects && SettingsSaved(t, row, env).Some?
    ensures Invariant(SettingsSaved(t, row, env).value)
  {
    var r := WithRevision(t, row);
    RevisionKeeps(t, row);
    Same(WithRevision(t, row), r);
    if row.ociUrl.Some? {
      EventKeeps(r, NewEvent(row.id, EventProgressing, env));
    }
  }

  lemma PutSettingsKeeps(w: World, parse: string -> Option<ParsedUrl>, user: Uuid, pid: Uuid, req: SettingsRequest,
      env: Env)
    requires Invariant(w.tables)
    ensures Invariant(PutSettings(w, parse, user, pid, req, env).0.tables)
  {
    var t' := PutSettings(w, parse, user, pid, req, env).0.tables;
    if t' == w.tables {
      Same(w.tables, t');
    } else {
      var latest := LatestRevision(w.tables, pid);
      var row := Merged(latest, user, pid, req, env);
      MergedShape(latest, parse, user, pid, req, env);
      SettingsSavedKeeps(w.tables, row, env);
      Same(SettingsSaved(w.tables, row, env).value, t');
    }
  }

  lemma DeleteProjectKeeps(w: World, user: Uuid, pid: Uuid, env: Env)
    requires Invariant(w.tables)
    ensures Invariant(DeleteProjectStep(w, user, pid, env).0.tables)
  {
    var t' := DeleteProjectStep(w, user, pid, env).0.tables;
    DeleteKeepsInvariant(w.tables, pid);
    Same(if t' == w.tables then w.tables else WithoutProject(w.tables, pid), t');
  }

  lemma MemberAddedKeeps(t: Tables, orgId: Uuid, email: string, env: Env)
    requires Invariant(t) && MemberAdded(t, orgId, email, env).Some?
    ensures Invariant(MemberAdded(t, orgId, email, env).value)
  {
    var r := InsertUserIfNew(t, NewUser(email, env)).value;
    InsertUserKeeps(t, NewUser(email, env));
    Same(InsertUserIfNew(t, NewUser(email, env)).value, r);
    InsertedUserUnique(t, email, env);
    InsertMemberKeeps(r, orgId, UserIdOf(r, email));
  }

  lemma PutMemberKeeps(w: World, user: Uuid, orgId: Uuid, email: string, env: Env)
    requires Invariant(w.tables)
    ensures Invariant(PutMember(w, user, orgId, email, env).0.tables)
  {
    var t' := PutMember(w, user, orgId, email, env).0.tables;
    if t' == w.tables {
      Same(w.tables, t');
    } else {
      MemberAddedKeeps(w.tables, orgId, email, env);
      Same(MemberAdded(w.tables, orgId, email, env).value, t');
    }
  }

  lemma PostOrganizationKeeps(w: World, user: Uuid, name: string, env: Env)
    requires Invariant(w.tables)
    ensures Invariant(PostOrganization(w, user, name, env).0.tables)
  {
    var t' := PostOrganization(w, user, name, env).0.tables;
    if t' == w.tables {
      Same(w.tables, t');
    } else {
      var row := NewOrganization(name, env);
      var created := InsertOrganization(w.tables, row).value;
      InsertOrganizationKeeps(w.tables, row);
      Same(InsertOrganization(w.tables, row).value, created);
      if t' == created {
        Same(created, t');
      } else {
        InsertMemberKeeps(created, env.organizationId, user);
        Same(InsertMember(created, env.organizationId, user).value, t');
      }
    }
  }

  lemma PutOrganizationKeeps(w: World, user: Uuid, orgId: Uuid, req: OrganizationRequest, env: Env)
    requires Invariant(w.tables)
    ensures Invariant(PutOrganization(w, user, orgId, req, env).0.tables)
  {
    var t' := PutOrganization(w, user, orgId, req, env).0.tables;
    if t' == w.tables {
      Same(w.tables, t');
    } else {
      var settings := NewSettings(w.tables.organizations[orgId].settings, req);
      UpdateOrganizationKeeps(w.tables, orgId, settings);
      Same(UpdateOrganization(w.tables, orgId, settings).value, t');
    }
  }

  lemma DeleteMemberKeeps(w: World, user: Uuid, orgId: Uuid, target: Uuid, env: Env)
    requires Invariant(w.tables)
    ensures Invariant(DeleteMemberStep(w, user, orgId, target, env).0.tables)
  {}

  lemma SignInKeeps(w: World, email: string, env: Env)
    requires Invariant(w.tables)
    ensures Invariant(SignIn(w, email, env).0.tables)
  {
    var t' := SignIn(w, email, env).0.tables;
    if t' == w.tables {
      Same(w.tables, t');
    } else {
      InsertUserKeeps(w.tables, NewUser(email, env));
      Same(InsertUserIfNew(w.tables, NewUser(email, env)).value, t');
    }
  }

  lemma PostReportKeeps(w: World, param: string, report: Report, env: Env)
    requires Invariant(w.tables)
    ensures Invariant(PostReport(w, param, report, env).0.tables)
  {
    var t' := PostReport(w, param, report, env).0.tables;
    if t' == w.tables {
      Same(w.tables, t');
    } else {
      var row := ReportedLog(UuidText.Parse(param).value, UserIdOf(w.tables, report.subjectEmail), report, env);
      InsertLogKeeps(w.tables, row);
      Same(InsertLog(w.tables, row).value, t');
    }
  }

  /** The requests on projects, and the founding of an organization. */
  predicate ProjectRequested(op: Operation) {
    op.CreateProject? || op.SaveSettings? || op.RemoveProject? || op.CreateOrganization?
  }

  lemma ProjectRequestKeeps(w: World, parse: string -> Option<ParsedUrl>, step: Step)
    requires Invariant(w.tables) && ProjectRequested(step.operation)
    ensures Invariant(Respond(w, parse, step).0.tables)
  {
    var env := step.env;
    var t' := Respond(w, parse, step).0.tables;
    match step.operation {
      case CreateProject(user, project) =>
        PostProjectKeeps(w, user, project, env);
        Same(PostProject(w, user, project, env).0.tables, t');
      case SaveSettings(user, pid, settings) =>
        PutSettingsKeeps(w, parse, user, pid, settings, env);
        Same(PutSettings(w, parse, user, pid, settings, env).0.tables, t');
      case RemoveProject(user, pid) =>
        DeleteProjectKeeps(w, user, pid, env);
        Same(DeleteProjectStep(w, user, pid, env).0.tables, t');
      case CreateOrganization(user, name) =>
        PostOrganizationKeeps(w, user, name, env);
        Same(PostOrganization(w, user, name, env).0.tables, t');
      case _ => assert false;
    }
  }

  lemma OtherRequestKeeps(w: World, parse: string -> Option<ParsedUrl>, step: Step)
    requires Invariant(w.tables) && !ProjectRequested(step.operation)
    ensures Invariant(Respond(w, parse, step).0.tables)
  {
    var env := step.env;
    var t' := Respond(w, parse, step).0.tables;
    match step.operation {
      case SaveOrganization(user, orgId, organization) =>
        PutOrganizationKeeps(w, user, orgId, organization, env);
        Same(PutOrganization(w, user, orgId, organization, env).0.tables, t');
      case AddMember(user, orgId, email) =>
        PutMemberKeeps(w, user, orgId, email, env);
        Same(PutMember(w, user, orgId, email, env).0.tables, t');
      case RemoveMember(user, orgId, target) =>
        DeleteMemberKeeps(w, user, orgId, target, env);
        Same(DeleteMemberStep(w, user, orgId, target, env).0.tables, t');
      case Authenticate(email) =>
        SignInKeeps(w, email, env);
        Same(SignIn(w, email, env).0.tables, t');
      case ReceiveReport(param, report) =>
        PostReportKeeps(w, param, report, env);
        Same(PostReport(w, param, report, env).0.tables, t');
      case _ => assert false;
    }
  }

  /** The invariant is kept by every request with any faults. */
  lemma RespondKeepsInvariant(w: World, parse: string -> Option<ParsedUrl>, step: Step)
    requires Invariant(w.tables)
    ensures Invariant(Respond(w, parse, step).0.tables)
  {
    if ProjectRequested(step.operation) {
      ProjectRequestKeeps(w, parse, step);
    } else {
      OtherRequestKeeps(w, parse, step);
    }
  }

  // ----- runs -----

  /** The world after a sequence of requests. */
  function Run(w: World, parse: string -> Option<ParsedUrl>, steps: seq<Step>): (w': World)
    requires Invariant(w.tables)
    ensures Invariant(w'.tables)
    decreases |steps|
  {
    if steps == [] then w
    else
      var before := Run(w, parse, steps[..|steps| - 1]);
      RespondKeepsInvariant(before, parse, steps[|steps| - 1]);
      Respond(before, parse, steps[|steps| - 1]).0
  }

  /** The tables along a run from the empty system: before its first step and after each of its steps. */
  ghost function Trace(parse: string -> Option<ParsedUrl>, steps: seq<Step>): (ts: seq<Tables>)
    requires Invariant(START.tables)
    ensures |ts| == |steps| + 1 && ts[0] == START.tables
  {
    assert steps[..0] == [];
    seq(|steps| + 1, i requires 0 <= i <= |steps| => Run(START, parse, steps[..i]).tables)
  }

  lemma TraceStep(parse: string -> Option<ParsedUrl>, steps: seq<Step>, i: nat)
    requires Invariant(START.tables) && i < |steps|
    ensures var w := Run(START, parse, steps[..i]);
      && Trace(parse, steps)[i] == w.tables && Trace(parse, steps)[i + 1] == Respond(w, parse, steps[i]).0.tables
  {
    assert steps[..i + 1][..i] == steps[..i];
  }

  lemma TraceEnd(parse: string -> Option<ParsedUrl>, steps: seq<Step>)
    requires Invariant(START.tables)
    ensures Trace(parse, steps)[|steps|] == Run(START, parse, steps).tables
  {
    assert steps[..|steps|] == steps;
  }

  const START := World(EMPTY, map[])

  lemma StartInvariant()
    ensures Invariant(START.tables)
  {}
}
