/** Progress: which requests succeed, and that three of them take the empty system to a routed project. */
module Onboarding {
  import opened Prelude
  import opened Schema
  import opened Gateway
  import opened Store
  import opened Api
  import opened Invariants
  import opened Agreement
  import opened Reconciler
  import opened Validation
  import opened Ask

  /** An agreeing gateway exists as soon as one project of the organization is deployed. */
  lemma DeployedGatewayExists(w: World, pid: Uuid)
    requires Projectable(w.tables) && PrimaryKeys(w.tables) && pid in w.tables.projects
      && IsDeployed(w.tables.projects[pid])
    requires w.tables.projects[pid].organizationId in w.tables.organizations
    requires Agrees(w, w.tables.organizations[w.tables.projects[pid].organizationId])
    ensures w.tables.organizations[w.tables.projects[pid].organizationId].name in w.cluster
  {
    var orgId := w.tables.projects[pid].organizationId;
    if w.tables.organizations[orgId].name !in w.cluster { AbsenceReads(w, orgId); }
  }

  ghost predicate ProjectNameTaken(t: Tables, orgId: Uuid, name: string) {
    exists p :: p in t.projects && t.projects[p].organizationId == orgId && t.projects[p].name == name
  }

  lemma CreatableIff(t: Tables, user: Uuid, req: ProjectRequest, env: Env)
    requires req.organizationId in t.organizations && user in t.users
    requires env.projectId !in t.projects && env.revisionId !in t.revisions
    ensures ProjectCreated(t, user, req, env).Some? <==> !ProjectNameTaken(t, req.organizationId, req.name)
  {
    var row := NewProject(req.organizationId, user, req.name, env);
    assert InsertProject(t, row).Some? <==> !ProjectNameTaken(t, req.organizationId, req.name);
  }

  /** With fresh identifiers and no failing sub-step, a member's request creates the project exactly
      when the name is valid and not taken in the organization. */
  lemma CreationSucceedsIff(w: World, user: Uuid, req: ProjectRequest, env: Env)
    requires Projectable(w.tables) && MemberKeys(w.tables.members, w.tables.organizations, w.tables.users)
    requires env.faults == {} && IsMember(w.tables, user, req.organizationId)
    requires env.projectId !in w.tables.projects && env.revisionId !in w.tables.revisions
    ensures PostProject(w, user, req, env).1 == Ok
       <==> ValidName(req.name) && !ProjectNameTaken(w.tables, req.organizationId, req.name)
  {
    CreatableIff(w.tables, user, req, env);
  }

  lemma FoundingSucceedsIff(w: World, user: Uuid, name: string, env: Env)
    requires env.faults == {} && user in w.tables.users && env.organizationId !in w.tables.organizations
    ensures var r := PostOrganization(w, user, name, env);
      && (r.1 == Ok <==> ValidName(name) && !NameTaken(w.tables.organizations, name))
      && (r.1 == Ok ==>
            && r.0.tables.organizations == w.tables.organizations[env.organizationId := NewOrganization(name, env)]
            && IsMember(r.0.tables, user, env.organizationId)
            && r.0.tables.users == w.tables.users && r.0.tables.projects == w.tables.projects
            && r.0.tables.revisions == w.tables.revisions)
  {
    var row := NewOrganization(name, env);
    assert InsertOrganization(w.tables, row).Some? <==> !NameTaken(w.tables.organizations, name);
  }

  /** The first three requests: sign in, found an organization, create a project with a proxy URL. */
  function FirstRequests(email: string, organization: string, project: string, url: string, a: Env, b: Env,
      c: Env): seq<Step> {
    [Step(Authenticate(email), a),
     Step(CreateOrganization(a.userId, organization), b),
     Step(CreateProject(a.userId, ProjectRequest(project, b.organizationId, Some(url), None, None)), c)]
  }

  lemma RunExtends(w: World, parse: string -> Option<ParsedUrl>, steps: seq<Step>, last: Step)
    requires Invariant(w.tables)
    ensures Readable(Run(w, parse, steps).tables)
    ensures Run(w, parse, steps + [last]) == Respond(Run(w, parse, steps), parse, last).0
  {
    assert (steps + [last])[..|steps + [last]| - 1] == steps;
  }

  /** After signing in, the user is known and nothing else has changed. */
  lemma SignedIn(parse: string -> Option<ParsedUrl>, email: string, a: Env) returns (w: World)
    requires a.faults == {}
    ensures Invariant(START.tables) && w == Run(START, parse, [Step(Authenticate(email), a)])
    ensures w.tables == EMPTY.(users := map[a.userId := NewUser(email, a)])
  {
    StartInvariant();
    RunExtends(START, parse, [], Step(Authenticate(email), a));
    w := Run(START, parse, [] + [Step(Authenticate(email), a)]);
    assert [] + [Step(Authenticate(email), a)] == [Step(Authenticate(email), a)];
    assert InsertUserIfNew(EMPTY, NewUser(email, a)).value == EMPTY.(users := map[a.userId := NewUser(email, a)]);
  }

  /** What the second request finds and leaves. */
  lemma FoundedOn(w: World, parse: string -> Option<ParsedUrl>, user: Uuid, account: UserAccount, name: string,
      env: Env)
    requires w.tables == EMPTY.(users := map[user := account]) && ValidName(name) && env.faults == {}
    ensures Readable(w.tables)
    ensures FreshOrganization(Respond(w, parse, Step(CreateOrganization(user, name), env)).0.tables, user, name, env)
  {
    FoundingSucceedsIff(w, user, name, env);
  }

  ghost predicate FreshOrganization(t: Tables, user: Uuid, name: string, env: Env) {
    && t.projects == map[] && t.revisions == map[]
    && env.organizationId in t.organizations && t.organizations[env.organizationId].name == name
    && IsMember(t, user, env.organizationId)
  }

  lemma Founded(parse: string -> Option<ParsedUrl>, email: string, organization: string, a: Env, b: Env)
    requires ValidName(organization) && a.faults == {} && b.faults == {}
    ensures Invariant(START.tables)
    ensures FreshOrganization(Run(START, parse,
      [Step(Authenticate(email), a), Step(CreateOrganization(a.userId, organization), b)]).tables,
                              a.userId, organization, b)
  {
    var first, y := [Step(Authenticate(email), a)], Step(CreateOrganization(a.userId, organization), b);
    var w := SignedIn(parse, email, a);
    FoundedOn(w, parse, a.userId, NewUser(email, a), organization, b);
    RunExtends(START, parse, first, y);
    assert first + [y] == [Step(Authenticate(email), a), y];
  }

  lemma DeploymentStored(w: World, user: Uuid, req: ProjectRequest, env: Env)
    requires Invariant(w.tables) && env.faults == {} && IsMember(w.tables, user, req.organizationId)
    requires env.projectId !in w.tables.projects && env.revisionId !in w.tables.revisions
    requires ValidName(req.name) && !ProjectNameTaken(w.tables, req.organizationId, req.name) && req.proxyUrl.Some?
    ensures var t' := PostProject(w, user, req, env).0.tables;
      && env.projectId in t'.projects && IsDeployed(t'.projects[env.projectId])
      && t'.projects[env.projectId].organizationId == req.organizationId
      && t'.organizations == w.tables.organizations
  {
    CreationSucceedsIff(w, user, req, env);
    CreatedLatestRevision(w.tables, user, req, env);
    CreatedOrganizationsSame(w.tables, user, req, env);
  }

  /** From the empty system, without faults, these three requests end in a state in which all gateways
      agree with the store and the project has its gateway, whatever the identifiers and names. */
  lemma FirstDeployment(parse: string -> Option<ParsedUrl>, email: string, organization: string, project: string,
      url: string, a: Env, b: Env, c: Env)
    requires ValidName(organization) && ValidName(project)
    requires a.faults == {} && b.faults == {} && c.faults == {}
    ensures Invariant(START.tables)
    ensures var w := Run(START, parse, FirstRequests(email, organization, project, url, a, b, c));
      && Invariant(w.tables) && AllAgree(w)
      && Deployed(w, c.projectId, b.organizationId, organization)
  {
    var steps := FirstRequests(email, organization, project, url, a, b, c);
    Founded(parse, email, organization, a, b);
    assert [steps[0], steps[1]] + [steps[2]] == steps;
    FaultFreeIsClean(steps[0], steps[1], steps[2]);
    CleanRunAgrees(parse, steps);
    RunDeploys(parse, [steps[0], steps[1]], a.userId, steps[2].operation.project, c);
  }

  lemma FaultFreeIsClean(x: Step, y: Step, z: Step)
    requires x.env.faults == {} && y.env.faults == {} && z.env.faults == {}
    ensures forall i :: 0 <= i < 3 ==> Clean([x, y, z][i])
  {}

  /** The project is deployed under this organization, and the organization's gateway exists. */
  ghost predicate Deployed(w: World, pid: Uuid, orgId: Uuid, organization: string) {
    && pid in w.tables.projects && IsDeployed(w.tables.projects[pid]) && w.tables.projects[pid].organizationId == orgId
    && orgId in w.tables.organizations && w.tables.organizations[orgId].name == organization
        && organization in w.cluster
  }

  lemma RunDeploys(parse: string -> Option<ParsedUrl>, init: seq<Step>, user: Uuid, req: ProjectRequest, env: Env)
    requires Invariant(START.tables) && env.faults == {} && req.proxyUrl.Some? && ValidName(req.name)
    requires var w := Run(START, parse, init);
      && req.organizationId in w.tables.organizations && IsMember(w.tables, user, req.organizationId)
      && env.projectId !in w.tables.projects && env.revisionId !in w.tables.revisions
      && !ProjectNameTaken(w.tables, req.organizationId, req.name)
    requires AllAgree(Run(START, parse, init + [Step(CreateProject(user, req), env)]))
    ensures Deployed(Run(START, parse, init + [Step(CreateProject(user, req), env)]), env.projectId, req.organizationId,
                     Run(START, parse, init).tables.organizations[req.organizationId].name)
  {
    var before := Run(START, parse, init);
    var w := Run(START, parse, init + [Step(CreateProject(user, req), env)]);
    RunExtends(START, parse, init, Step(CreateProject(user, req), env));
    DeploymentStored(before, user, req, env);
    DeployedGatewayExists(w, env.projectId);
  }
}
