/** What holds of the routes of every gateway in every reachable cluster, whatever failed before: their
    paths differ, and none leads to a stored project of another organization. */
module Isolation {
  import opened Prelude
  import opened Text
  import opened Schema
  import opened Cascade
  import opened Gateway
  import opened Store
  import opened Api
  import opened Invariants
  import opened Agreement
  import opened Reconciler
  import opened Failures
  import opened Histories
  import opened Ask
  import opened Routing
  import opened Reports

  // ----- the paths of one gateway -----

  ghost predicate NamesDiffer(specs: seq<ProjectSpec>) {
    forall i, j :: 0 <= i < j < |specs| ==> specs[i].projectName != specs[j].projectName
  }

  lemma RouteNamesDiffer(t: Tables, orgId: Uuid)
    requires Projectable(t) && PrimaryKeys(t)
    ensures NamesDiffer(RouteList(t, orgId))
  {
    var specs := RouteList(t, orgId);
    ProjectionEntries(t, orgId);
    forall i, j | 0 <= i < j < |specs| ensures specs[i].projectName != specs[j].projectName {
      LessIrreflexive(specs[i].projectName);
    }
  }

  lemma StepNamesDiffer(w: World, parse: string -> Option<ParsedUrl>, step: Step, name: string)
    requires Invariant(w.tables) && name in Respond(w, parse, step).0.cluster
    requires name in w.cluster ==> NamesDiffer(w.cluster[name].projects)
    ensures NamesDiffer(Respond(w, parse, step).0.cluster[name].projects)
  {
    StepLookup(w, parse, step, name);
    var v := AppliedView(w, parse, step);
    if v.Some? && v.value.organization.name == name {
      ViewIsSound(w, parse, step);
      RouteNamesDiffer(v.value.tables, v.value.organization.id);
    }
  }

  /** In every reachable state, whatever failed on the way, the routes of a gateway have distinct names. */
  lemma {:induction false} GatewayNamesDiffer(parse: string -> Option<ParsedUrl>, steps: seq<Step>, name: string)
    requires Invariant(START.tables) && name in Run(START, parse, steps).cluster
    ensures NamesDiffer(Run(START, parse, steps).cluster[name].projects)
    decreases |steps|
  {
    if steps != [] {
      var init, last := steps[..|steps| - 1], steps[|steps| - 1];
      var w := Run(START, parse, init);
      if name in w.cluster { GatewayNamesDiffer(parse, init, name); }
      StepNamesDiffer(w, parse, last, name);
    }
  }

  /** Hence the routes of its configuration have distinct paths: no path is served by two projects. */
  lemma GatewayPathsDiffer(e: Environment, parse: string -> Option<ParsedUrl>, steps: seq<Step>, name: string,
                           config: Config)
    requires Formats(e) && Invariant(START.tables) && name in Run(START, parse, steps).cluster
    requires IsConfigFor(e, parse, Run(START, parse, steps).cluster[name], Some(config))
    ensures forall i, j :: 0 <= i < j < |config.proxies| ==> config.proxies[i].path != config.proxies[j].path
  {
    var specs := Run(START, parse, steps).cluster[name].projects;
    GatewayNamesDiffer(parse, steps, name);
    forall i, j | 0 <= i < j < |config.proxies| ensures config.proxies[i].path != config.proxies[j].path {
      assert IsProxyFor(e, parse, specs[i], config.proxies[i]) && IsProxyFor(e, parse, specs[j], config.proxies[j]);
      if config.proxies[i].path == config.proxies[j].path {
        SprintfInjective(e.gatewayPathFormat, specs[i].projectName, specs[j].projectName);
      }
    }
  }

  // ----- the organization behind a route -----

  /** The project is stored and its organization has this name. */
  ghost predicate OwnedBy(t: Tables, pid: Uuid, name: string) {
    && pid in t.projects && t.projects[pid].organizationId in t.organizations
    && t.organizations[t.projects[pid].organizationId].name == name
  }

  /** The project of a route, if it is stored, is one of the organization with this name. */
  ghost predicate HomeRoute(t: Tables, name: string, s: ProjectSpec) {
    s.projectId in t.projects ==> OwnedBy(t, s.projectId, name)
  }

  ghost predicate HomeRoutes(w: World) {
    forall name, s: ProjectSpec :: name in w.cluster && s in w.cluster[name].projects ==> HomeRoute(w.tables, name, s)
  }

  /** gen_random_uuid() gives every request of the run another project id. */
  ghost predicate DistinctProjects(steps: seq<Step>) {
    forall i, j :: 0 <= i < j < |steps| ==> steps[i].env.projectId != steps[j].env.projectId
  }

  ghost predicate DrawnProject(steps: seq<Step>, p: Uuid) {
    exists i :: 0 <= i < |steps| && steps[i].env.projectId == p
  }

  /** Every project id in the store or on a route was drawn by a request of the run. */
  ghost predicate OnlyDrawnProjects(w: World, steps: seq<Step>) {
    && (forall p :: p in w.tables.projects ==> DrawnProject(steps, p))
    && (forall name, s: ProjectSpec :: name in w.cluster && s in w.cluster[name].projects ==>
          DrawnProject(steps, s.projectId))
  }

  /** At most the project drawn by the request is new; the others stay in their organization, which
      keeps its name. */
  ghost predicate KeepsOwners(t: Tables, t': Tables, id: Uuid) {
    && (forall p :: p in t'.projects && p != id ==>
          p in t.projects && t'.projects[p].organizationId == t.projects[p].organizationId)
    && (forall o :: o in t.organizations ==>
          o in t'.organizations && t'.organizations[o].name == t.organizations[o].name)
  }

  lemma AddedKeepsOwners(t: Tables, t': Tables, user: Uuid, req: ProjectRequest, env: Env)
    requires ProjectCreated(t, user, req, env) == Some(t')
    ensures KeepsOwners(t, t', env.projectId)
  {
    CreatedRows(t, user, req, env);
    CreatedOrganizationsSame(t, user, req, env);
  }

  lemma SavedKeepsOwners(t: Tables, t': Tables, row: DeploymentRevision, env: Env)
    requires row.projectId in t.projects && SettingsSaved(t, row, env) == Some(t')
    ensures KeepsOwners(t, t', env.projectId)
  {
    SavedSameNames(t, row, env);
  }

  lemma ChangeKeepsOwners(t: Tables, t': Tables, parse: string -> Option<ParsedUrl>, step: Step)
    requires ForeignKeys(t) && OwnRevision(t.projects, t.revisions) && OwnEvent(t.projects, t.revisions, t.events)
    requires Change(t, t', parse, step)
    ensures KeepsOwners(t, t', step.env.projectId)
  {
    if t' != t {
      match step.operation
      case CreateProject(user, project) => AddedKeepsOwners(t, t', user, project, step.env);
      case SaveSettings(user, pid, settings) =>
        SavedKeepsOwners(t, t', Merged(LatestRevision(t, pid), user, pid, settings, step.env), step.env);
      case RemoveProject(user, pid) => SurvivorsUnchanged(t, pid);
      case _ =>
    }
  }

  /** The two tables give every project they share the same organization, under the same name. */
  ghost predicate SameOwners(v: Tables, t: Tables) {
    && (forall p :: p in v.projects && p in t.projects ==>
          v.projects[p].organizationId == t.projects[p].organizationId)
    && (forall o :: o in v.organizations ==>
          o in t.organizations && t.organizations[o].name == v.organizations[o].name)
  }

  /** What a successful apply read: the organization as stored there, tables with at most the request's
      own project added, and the owners that are stored afterwards. */
  lemma ViewOwners(w: World, parse: string -> Option<ParsedUrl>, step: Step)
    requires Invariant(w.tables) && AppliedView(w, parse, step).Some?
    ensures var v := AppliedView(w, parse, step).value;
      && StoredOrganization(v) && SameOwners(v.tables, Respond(w, parse, step).0.tables)
      && KeepsOwners(w.tables, v.tables, step.env.projectId)
  {
    ViewOrganization(w, parse, step);
    if step.operation.SaveSettings? && CommitTx in step.env.faults {
      var user, pid, settings := step.operation.user, step.operation.pid, step.operation.settings;
      AcceptedUpdate(w, parse, user, pid, settings, step.env);
      SavedSameNames(w.tables, Merged(LatestRevision(w.tables, pid), user, pid, settings, step.env), step.env);
    } else {
      ViewIsCommitted(w, parse, step);
      StepChange(w, parse, step);
      ChangeKeepsOwners(w.tables, Respond(w, parse, step).0.tables, parse, step);
    }
  }

  ghost predicate StoredOrganization(v: View) {
    var org := v.organization;
    org.id in v.tables.organizations && v.tables.organizations[org.id] == org
  }

  lemma CreatedViewOrganization(w: World, parse: string -> Option<ParsedUrl>, step: Step)
    requires Readable(w.tables) && PrimaryKeys(w.tables)
    requires step.operation.CreateProject? && AppliedView(w, parse, step).Some?
    ensures StoredOrganization(AppliedView(w, parse, step).value)
  {
    CreatedOrganizationsSame(w.tables, step.operation.user, step.operation.project, step.env);
  }

  lemma SavedViewOrganization(w: World, parse: string -> Option<ParsedUrl>, step: Step)
    requires Readable(w.tables) && PrimaryKeys(w.tables)
    requires step.operation.SaveSettings? && AppliedView(w, parse, step).Some?
    ensures StoredOrganization(AppliedView(w, parse, step).value)
  {
    var pid := step.operation.pid;
    var row := Merged(LatestRevision(w.tables, pid), step.operation.user, pid, step.operation.settings, step.env);
    SavedSameNames(w.tables, row, step.env);
  }

  lemma ViewOrganization(w: World, parse: string -> Option<ParsedUrl>, step: Step)
    requires Readable(w.tables) && PrimaryKeys(w.tables) && AppliedView(w, parse, step).Some?
    ensures StoredOrganization(AppliedView(w, parse, step).value)
  {
    match step.operation
    case CreateProject(_, _) => CreatedViewOrganization(w, parse, step);
    case SaveSettings(_, _, _) => SavedViewOrganization(w, parse, step);
    case _ =>
  }

  lemma ViewRouteHome(v: View, t': Tables, s: ProjectSpec)
    requires Projectable(v.tables) && PrimaryKeys(v.tables) && StoredOrganization(v) && SameOwners(v.tables, t')
    requires s in RouteList(v.tables, v.organization.id)
    ensures s.projectId in v.tables.projects && HomeRoute(t', v.organization.name, s)
  {
    ProjectionEntries(v.tables, v.organization.id);
  }

  lemma OldRouteHome(t: Tables, t': Tables, id: Uuid, name: string, s: ProjectSpec)
    requires KeepsOwners(t, t', id) && s.projectId != id && HomeRoute(t, name, s)
    ensures HomeRoute(t', name, s)
  {}

  lemma StepKeepsHome(w: World, parse: string -> Option<ParsedUrl>, step: Step, name: string, s: ProjectSpec)
    requires Invariant(w.tables)
    requires name in Respond(w, parse, step).0.cluster && s in Respond(w, parse, step).0.cluster[name].projects
    requires name in w.cluster && s in w.cluster[name].projects ==>
      s.projectId != step.env.projectId && HomeRoute(w.tables, name, s)
    ensures HomeRoute(Respond(w, parse, step).0.tables, name, s)
    ensures || s.projectId == step.env.projectId || s.projectId in w.tables.projects
            || (name in w.cluster && s in w.cluster[name].projects)
  {
    var t' := Respond(w, parse, step).0.tables;
    StepLookup(w, parse, step, name);
    var v := AppliedView(w, parse, step);
    if v.Some? && v.value.organization.name == name {
      ViewIsSound(w, parse, step);
      ViewOwners(w, parse, step);
      ViewRouteHome(v.value, t', s);
    } else {
      StepChange(w, parse, step);
      ChangeKeepsOwners(w.tables, t', parse, step);
      OldRouteHome(w.tables, t', step.env.projectId, name, s);
    }
  }

  lemma DrawnProjectMore(init: seq<Step>, last: Step, p: Uuid)
    requires DrawnProject(init, p) || last.env.projectId == p
    ensures DrawnProject(init + [last], p)
  {
    if i :| 0 <= i < |init| && init[i].env.projectId == p {
      assert (init + [last])[i].env.projectId == p;
    } else {
      assert (init + [last])[|init|].env.projectId == p;
    }
  }

  lemma StepHomes(w: World, parse: string -> Option<ParsedUrl>, init: seq<Step>, last: Step)
    requires Invariant(w.tables) && HomeRoutes(w) && OnlyDrawnProjects(w, init)
    requires !DrawnProject(init, last.env.projectId)
    ensures HomeRoutes(Respond(w, parse, last).0) && OnlyDrawnProjects(Respond(w, parse, last).0, init + [last])
  {
    var w' := Respond(w, parse, last).0;
    StepChange(w, parse, last);
    ChangeKeepsOwners(w.tables, w'.tables, parse, last);
    forall p | p in w'.tables.projects ensures DrawnProject(init + [last], p) {
      DrawnProjectMore(init, last, p);
    }
    forall name, s: ProjectSpec | name in w'.cluster && s in w'.cluster[name].projects
      ensures HomeRoute(w'.tables, name, s) && DrawnProject(init + [last], s.projectId)
    {
      StepKeepsHome(w, parse, last, name, s);
      DrawnProjectMore(init, last, s.projectId);
    }
  }

  /** In every reachable state, whatever applies and commits failed on the way, the project of every
      route in the cluster is one of the gateway's own organization or is not stored. */
  lemma {:induction false} RoutesStayHome(parse: string -> Option<ParsedUrl>, steps: seq<Step>)
    requires Invariant(START.tables) && DistinctProjects(steps)
    ensures HomeRoutes(Run(START, parse, steps)) && OnlyDrawnProjects(Run(START, parse, steps), steps)
    decreases |steps|
  {
    if steps != [] {
      var init, last := steps[..|steps| - 1], steps[|steps| - 1];
      LastProjectIsNew(init, last, steps);
      RoutesStayHome(parse, init);
      StepHomes(Run(START, parse, init), parse, init, last);
    }
  }

  lemma LastProjectIsNew(init: seq<Step>, last: Step, steps: seq<Step>)
    requires steps != [] && init == steps[..|steps| - 1] && last == steps[|steps| - 1] && DistinctProjects(steps)
    ensures DistinctProjects(init) && !DrawnProject(init, last.env.projectId) && init + [last] == steps
  {}
}
