/** The desired gateway of an organization: its projection from the store. */
module Gateway {
  import opened Prelude
  import opened Text
  import opened Schema
  import opened Queries

  datatype ProjectSpec = ProjectSpec(
    projectId: Uuid, projectName: string, revisionId: Uuid,
    authenticated: bool, telemetry: bool, proxyUrl: Option<string>)

  datatype GatewaySpec = GatewaySpec(
    organizationId: Uuid, organizationName: string, customDomain: Option<string>, dcrPublicClient: bool,
    projects: seq<ProjectSpec>)

  // ----- projection of the store -----

  predicate IsDeployed(p: Project) { p.latestRevisionId.Some? }

  function DeployedProjects(projects: map<Uuid, Project>, orgId: Uuid): set<Project> {
    set i | i in projects && projects[i].organizationId == orgId && IsDeployed(projects[i]) :: projects[i]
  }

  lemma DeployedNamesDiffer(projects: map<Uuid, Project>, orgId: Uuid)
    requires UniqueProjects(projects)
    ensures DistinctNames(DeployedProjects(projects, orgId))
  {
    ProjectNamesDiffer(projects, orgId);
  }

  ghost predicate PointersIn(l: seq<Project>, revisions: map<Uuid, DeploymentRevision>) {
    forall i :: 0 <= i < |l| && l[i].latestRevisionId.Some? ==> l[i].latestRevisionId.value in revisions
  }

  function SpecFor(p: Project, r: DeploymentRevision): ProjectSpec {
    ProjectSpec(p.id, p.name, r.id, r.authenticated, r.telemetry, r.proxyUrl)
  }

  /** One entry for each deployed project of the list, in the order of the list. */
  function SpecsFor(l: seq<Project>, revisions: map<Uuid, DeploymentRevision>): seq<ProjectSpec>
    requires PointersIn(l, revisions)
  {
    if l == [] then []
    else
      var p := l[|l| - 1];
      SpecsFor(l[..|l| - 1], revisions)
      + (if p.latestRevisionId.Some? then [SpecFor(p, revisions[p.latestRevisionId.value])] else [])
  }

  function DeployedList(projects: map<Uuid, Project>, orgId: Uuid): seq<Project>
    requires UniqueProjects(projects)
  {
    DeployedNamesDiffer(projects, orgId);
    SortByName(DeployedProjects(projects, orgId))
  }

  lemma DeployedListElements(projects: map<Uuid, Project>, orgId: Uuid)
    requires UniqueProjects(projects)
    ensures forall p :: p in DeployedList(projects, orgId) <==> p in DeployedProjects(projects, orgId)
    ensures SortedByName(DeployedList(projects, orgId))
  {
    DeployedNamesDiffer(projects, orgId);
    SortByNameSorts(DeployedProjects(projects, orgId));
  }

  lemma DeployedListPointers(projects: map<Uuid, Project>, revisions: map<Uuid, DeploymentRevision>,
      events: map<Uuid, RevisionEvent>, orgId: Uuid)
    requires UniqueProjects(projects) && PointerKeys(projects, revisions, events)
    ensures PointersIn(DeployedList(projects, orgId), revisions)
  {
    DeployedListElements(projects, orgId);
    var l := DeployedList(projects, orgId);
    forall i | 0 <= i < |l| && l[i].latestRevisionId.Some? ensures l[i].latestRevisionId.value in revisions {
      assert l[i] in l;
    }
  }

  ghost predicate Projectable(t: Tables) {
    UniqueProjects(t.projects) && PointerKeys(t.projects, t.revisions, t.events)
  }

  /** The gateway an organization should have: none without projects, otherwise one entry for each
      deployed project, ordered by name, and the organization's settings. */
  function Projection(t: Tables, org: Organization): Option<GatewaySpec>
    requires Projectable(t)
  {
    if ProjectsOf(t.projects, org.id) == {} then None
    else
      Some(GatewaySpec(org.id, org.name, org.settings.customDomain, org.settings.dcrPublicClient, RouteList(t, org.id)))
  }

  function RouteList(t: Tables, orgId: Uuid): seq<ProjectSpec>
    requires Projectable(t)
  {
    DeployedListPointers(t.projects, t.revisions, t.events, orgId);
    SpecsFor(DeployedList(t.projects, orgId), t.revisions)
  }

  /** Skipping undeployed projects while walking the full list gives the list of deployed ones. */
  function KeepDeployed(l: seq<Project>): seq<Project> {
    if l == [] then []
    else KeepDeployed(l[..|l| - 1]) + (if IsDeployed(l[|l| - 1]) then [l[|l| - 1]] else [])
  }

  lemma {:induction false} KeepDeployedSorted(l: seq<Project>)
    requires SortedByName(l)
    ensures SortedByName(KeepDeployed(l))
    ensures forall p :: p in KeepDeployed(l) <==> p in l && IsDeployed(p)
  {
    if l != [] {
      var init, last := l[..|l| - 1], l[|l| - 1];
      assert l == init + [last];
      KeepDeployedSorted(init);
      forall k | 0 <= k < |KeepDeployed(init)| ensures Less(KeepDeployed(init)[k].name, last.name) {
        var p := KeepDeployed(init)[k];
        assert p in init;
        var j :| 0 <= j < |init| && init[j] == p;
        assert l[j] == p;
      }
    }
  }

  lemma {:induction false} SpecsForKept(l: seq<Project>, revisions: map<Uuid, DeploymentRevision>)
    requires PointersIn(l, revisions)
    ensures PointersIn(KeepDeployed(l), revisions)
    ensures SpecsFor(KeepDeployed(l), revisions) == SpecsFor(l, revisions)
  {
    if l != [] {
      var init := l[..|l| - 1];
      SpecsForKept(init, revisions);
      var kept := KeepDeployed(l);
      if IsDeployed(l[|l| - 1]) {
        assert kept[|kept| - 1] == l[|l| - 1];
        assert kept[..|kept| - 1] == KeepDeployed(init);
        assert PointersIn(kept, revisions);
      } else {
        assert kept == KeepDeployed(init);
      }
    }
  }

  lemma WalkGivesRouteList(t: Tables, orgId: Uuid)
    requires Projectable(t)
    ensures PointersIn(ProjectList(t.projects, orgId), t.revisions)
    ensures SpecsFor(ProjectList(t.projects, orgId), t.revisions) == RouteList(t, orgId)
    ensures (ProjectList(t.projects, orgId) == []) == (ProjectsOf(t.projects, orgId) == {})
  {
    var l := ProjectList(t.projects, orgId);
    ProjectNamesDiffer(t.projects, orgId);
    SortByNameSorts(ProjectsOf(t.projects, orgId));
    forall i | 0 <= i < |l| && l[i].latestRevisionId.Some? ensures l[i].latestRevisionId.value in t.revisions {
      assert l[i] in l;
    }
    KeepDeployedSorted(l);
    DeployedNamesDiffer(t.projects, orgId);
    SortedListUnique(KeepDeployed(l), DeployedProjects(t.projects, orgId));
    SpecsForKept(l, t.revisions);
  }

  // ----- what the entries of a projection are -----

  ghost predicate AllDeployed(l: seq<Project>) { forall i :: 0 <= i < |l| ==> IsDeployed(l[i]) }

  lemma {:induction false} SpecsForAt(l: seq<Project>, revisions: map<Uuid, DeploymentRevision>, k: nat)
    requires PointersIn(l, revisions) && AllDeployed(l) && k < |l|
    ensures |SpecsFor(l, revisions)| == |l|
    ensures SpecsFor(l, revisions)[k] == SpecFor(l[k], revisions[l[k].latestRevisionId.value])
  {
    var init := l[..|l| - 1];
    assert IsDeployed(l[|l| - 1]);
    if k < |init| {
      SpecsForAt(init, revisions, k);
    } else if |init| > 0 {
      SpecsForAt(init, revisions, 0);
    }
  }

  /** The entry of a project: its own identity and the flags of its latest revision. */
  ghost predicate EntryOf(t: Tables, pid: Uuid, s: ProjectSpec)
    requires pid in t.projects
  {
    var p := t.projects[pid];
    p.latestRevisionId.Some? && p.latestRevisionId.value in t.revisions
    && (var r := t.revisions[p.latestRevisionId.value];
        s.projectId == pid && s.projectName == p.name && s.revisionId == p.latestRevisionId.value
        && s.authenticated == r.authenticated && s.telemetry == r.telemetry && s.proxyUrl == r.proxyUrl)
  }

  ghost predicate OneEntryPerDeployedProject(t: Tables, orgId: Uuid, specs: seq<ProjectSpec>) {
    && (forall i :: 0 <= i < |specs| ==>
          && specs[i].projectId in t.projects && t.projects[specs[i].projectId].organizationId == orgId
          && EntryOf(t, specs[i].projectId, specs[i]))
    && (forall pid :: pid in t.projects && t.projects[pid].organizationId == orgId && IsDeployed(t.projects[pid]) ==>
          exists i :: 0 <= i < |specs| && specs[i].projectId == pid)
    && (forall i, j :: 0 <= i < j < |specs| ==> Less(specs[i].projectName, specs[j].projectName))
  }

  lemma RouteAt(t: Tables, orgId: Uuid, i: nat)
    requires Projectable(t) && PrimaryKeys(t)
    requires i < |DeployedList(t.projects, orgId)|
    ensures var p := DeployedList(t.projects, orgId)[i];
      && |RouteList(t, orgId)| == |DeployedList(t.projects, orgId)|
      && p.id in t.projects && t.projects[p.id] == p && p.organizationId == orgId
      && EntryOf(t, p.id, RouteList(t, orgId)[i])
  {
    var l := DeployedList(t.projects, orgId);
    DeployedListElements(t.projects, orgId);
    DeployedListPointers(t.projects, t.revisions, t.events, orgId);
    forall j | 0 <= j < |l| ensures l[j] in DeployedProjects(t.projects, orgId) {
      assert l[j] in l;
    }
    assert AllDeployed(l);
    SpecsForAt(l, t.revisions, i);
  }

  /** The projection holds exactly one entry per deployed project of the organization, ordered by
      project name. */
  lemma ProjectionEntries(t: Tables, orgId: Uuid)
    requires Projectable(t) && PrimaryKeys(t)
    ensures OneEntryPerDeployedProject(t, orgId, RouteList(t, orgId))
  {
    var l, specs := DeployedList(t.projects, orgId), RouteList(t, orgId);
    DeployedListElements(t.projects, orgId);
    forall i | 0 <= i < |l|
      ensures |specs| == |l| && l[i].id in t.projects && t.projects[l[i].id] == l[i] && l[i].organizationId == orgId
      ensures EntryOf(t, l[i].id, specs[i])
    {
      RouteAt(t, orgId, i);
    }
    if l == [] { assert specs == []; }
    forall pid | pid in t.projects && t.projects[pid].organizationId == orgId && IsDeployed(t.projects[pid])
      ensures exists i :: 0 <= i < |specs| && specs[i].projectId == pid
    {
      assert t.projects[pid] in l;
      var i :| 0 <= i < |l| && l[i] == t.projects[pid];
      assert specs[i].projectId == pid;
    }
  }
}
