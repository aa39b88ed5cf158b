/** The level-triggered reconciler: when the gateways in the cluster agree with the store. */
module Agreement {
  import opened Prelude
  import opened Schema
  import opened Queries
  import opened Gateway
  import opened Store
  import opened Api

  function Lookup(cluster: map<string, GatewaySpec>, name: string): Option<GatewaySpec> {
    if name in cluster then Some(cluster[name]) else None
  }

  function FullSpec(t: Tables, org: Organization): GatewaySpec
    requires Projectable(t)
  {
    GatewaySpec(org.id, org.name, org.settings.customDomain, org.settings.dcrPublicClient, RouteList(t, org.id))
  }

  /** An existing gateway carries the organization's current settings and one route per deployed
      project; an absent gateway is right for an organization without deployed projects. */
  ghost predicate Agrees(w: World, org: Organization)
    requires Projectable(w.tables)
  {
    match Lookup(w.cluster, org.name)
    case None => RouteList(w.tables, org.id) == []
    case Some(spec) => spec == FullSpec(w.tables, org)
  }

  /** What agreement says of an existing gateway: the organization's identity and current settings, and
      exactly one route per deployed project with the identity and flags of its latest revision. */
  lemma AgreementReads(w: World, orgId: Uuid)
    requires Projectable(w.tables) && PrimaryKeys(w.tables) && orgId in w.tables.organizations
    requires Agrees(w, w.tables.organizations[orgId]) && w.tables.organizations[orgId].name in w.cluster
    ensures var org := w.tables.organizations[orgId]; var spec := w.cluster[org.name];
      && spec.organizationId == orgId && spec.organizationName == org.name
      && spec.customDomain == org.settings.customDomain && spec.dcrPublicClient == org.settings.dcrPublicClient
      && OneEntryPerDeployedProject(w.tables, orgId, spec.projects)
  {
    ProjectionEntries(w.tables, orgId);
  }

  /** And of an absent one: the organization has no deployed project. */
  lemma AbsenceReads(w: World, orgId: Uuid)
    requires Projectable(w.tables) && PrimaryKeys(w.tables) && orgId in w.tables.organizations
    requires Agrees(w, w.tables.organizations[orgId]) && w.tables.organizations[orgId].name !in w.cluster
    ensures forall pid :: pid in w.tables.projects && w.tables.projects[pid].organizationId == orgId ==>
      !IsDeployed(w.tables.projects[pid])
  {
    ProjectionEntries(w.tables, orgId);
  }

  ghost predicate AllAgree(w: World)
    requires Projectable(w.tables)
  {
    && (forall o :: o in w.tables.organizations ==> Agrees(w, w.tables.organizations[o]))
    && GatewaysOwned(w)
  }

  // ----- which tables determine an organization's routes -----

  lemma {:induction false} SpecsForFrame(l: seq<Project>, revisions: map<Uuid, DeploymentRevision>,
      revisions': map<Uuid, DeploymentRevision>)
    requires PointersIn(l, revisions) && PointersIn(l, revisions')
    requires forall r :: r in revisions && r in revisions' ==> revisions[r] == revisions'[r]
    ensures SpecsFor(l, revisions) == SpecsFor(l, revisions')
  {
    if l != [] { SpecsForFrame(l[..|l| - 1], revisions, revisions'); }
  }

  /** Routes depend only on the organization's deployed projects and on their revisions. */
  lemma RoutesFrame(t: Tables, t': Tables, orgId: Uuid)
    requires Projectable(t) && Projectable(t')
    requires DeployedProjects(t'.projects, orgId) == DeployedProjects(t.projects, orgId)
    requires forall r :: r in t.revisions && r in t'.revisions ==> t.revisions[r] == t'.revisions[r]
    ensures RouteList(t', orgId) == RouteList(t, orgId)
  {
    DeployedListPointers(t.projects, t.revisions, t.events, orgId);
    DeployedListPointers(t'.projects, t'.revisions, t'.events, orgId);
    assert DeployedList(t'.projects, orgId) == DeployedList(t.projects, orgId);
    SpecsForFrame(DeployedList(t.projects, orgId), t.revisions, t'.revisions);
  }

  lemma NoDeployedNoRoutes(t: Tables, orgId: Uuid)
    requires Projectable(t)
    ensures DeployedProjects(t.projects, orgId) == {} <==> RouteList(t, orgId) == []
  {
    DeployedListElements(t.projects, orgId);
    var l := DeployedList(t.projects, orgId);
    DeployedListPointers(t.projects, t.revisions, t.events, orgId);
    if l != [] {
      forall i | 0 <= i < |l| ensures IsDeployed(l[i]) { assert l[i] in l; }
      assert AllDeployed(l);
      SpecsForAt(l, t.revisions, 0);
      assert l[0] in l;
    } else {
      assert forall p :: p in DeployedProjects(t.projects, orgId) <==> p in l;
    }
  }

  lemma NoProjectsNoRoutes(t: Tables, orgId: Uuid)
    requires Projectable(t)
    ensures ProjectsOf(t.projects, orgId) == {} ==> RouteList(t, orgId) == []
  {
    NoDeployedNoRoutes(t, orgId);
    assert DeployedProjects(t.projects, orgId) <= ProjectsOf(t.projects, orgId);
  }

  // ----- one successful apply -----

  /** A successful apply to the committed tables makes the organization agree, whatever the cluster
      held before. */
  lemma ApplyAgrees(cluster: map<string, GatewaySpec>, t: Tables, org: Organization, faults: set<Fault>)
    requires Projectable(t) && ApplySucceeds(faults)
    ensures Agrees(World(t, Applied(cluster, t, org, faults)), org)
  {
    NoProjectsNoRoutes(t, org.id);
  }

  /** An apply for one organization does not touch the gateway of another. */
  lemma ApplyTouchesOneGateway(cluster: map<string, GatewaySpec>, t: Tables, org: Organization, faults: set<Fault>,
      name: string)
    requires Projectable(t) && name != org.name
    ensures Lookup(Applied(cluster, t, org, faults), name) == Lookup(cluster, name)
  {}

  /** What a step must not change for the other organizations. */
  ghost predicate OthersKept(t: Tables, t': Tables, orgId: Uuid) {
    && t'.organizations.Keys == t.organizations.Keys
    && (forall o :: o in t.organizations ==> t'.organizations[o].name == t.organizations[o].name)
    && (forall o :: o in t.organizations && o != orgId ==>
          t'.organizations[o] == t.organizations[o]
              && DeployedProjects(t'.projects, o) == DeployedProjects(t.projects, o))
    && (forall r :: r in t.revisions && r in t'.revisions ==> t.revisions[r] == t'.revisions[r])
  }

  ghost predicate GatewaysOwned(w: World) {
    forall name :: name in w.cluster ==> NameTaken(w.tables.organizations, name)
  }

  ghost predicate NameTaken(organizations: map<Uuid, Organization>, name: string) {
    exists o :: o in organizations && organizations[o].name == name
  }

  /** A step that changes one organization and applies its gateway keeps all gateways in agreement. */
  lemma AppliedStepAgrees(w: World, t': Tables, orgId: Uuid, faults: set<Fault>)
    requires Projectable(w.tables) && Projectable(t') && PrimaryKeys(w.tables)
      && UniqueOrganizations(w.tables.organizations)
    requires AllAgree(w) && ApplySucceeds(faults)
    requires orgId in w.tables.organizations && OthersKept(w.tables, t', orgId)
    ensures AllAgree(World(t', Applied(w.cluster, t', t'.organizations[orgId], faults)))
  {
    var w' := World(t', Applied(w.cluster, t', t'.organizations[orgId], faults));
    ApplyAgrees(w.cluster, t', t'.organizations[orgId], faults);
    forall o | o in t'.organizations ensures Agrees(w', t'.organizations[o]) {
      if o != orgId { OtherAgrees(w, t', orgId, o, faults); }
    }
    AppliedOwned(w, t', orgId, faults);
  }

  lemma AppliedOwned(w: World, t': Tables, orgId: Uuid, faults: set<Fault>)
    requires Projectable(t') && GatewaysOwned(w)
    requires orgId in w.tables.organizations && OthersKept(w.tables, t', orgId)
    ensures GatewaysOwned(World(t', Applied(w.cluster, t', t'.organizations[orgId], faults)))
  {
    var w' := World(t', Applied(w.cluster, t', t'.organizations[orgId], faults));
    forall name | name in w'.cluster ensures NameTaken(t'.organizations, name) {
      if name != t'.organizations[orgId].name {
        assert NameTaken(w.tables.organizations, name);
        var o :| o in w.tables.organizations && w.tables.organizations[o].name == name;
        assert t'.organizations[o].name == name;
      }
    }
  }

  lemma OtherAgrees(w: World, t': Tables, orgId: Uuid, o: Uuid, faults: set<Fault>)
    requires Projectable(w.tables) && Projectable(t') && PrimaryKeys(w.tables)
      && UniqueOrganizations(w.tables.organizations)
    requires orgId in w.tables.organizations && OthersKept(w.tables, t', orgId)
    requires o in w.tables.organizations && o != orgId && Agrees(w, w.tables.organizations[o])
    ensures Agrees(World(t', Applied(w.cluster, t', t'.organizations[orgId], faults)), t'.organizations[o])
  {
    assert w.tables.organizations[o].name != w.tables.organizations[orgId].name;
    assert t'.organizations[o] == w.tables.organizations[o] && w.tables.organizations[o].id == o;
    RoutesFrame(w.tables, t', o);
    ApplyTouchesOneGateway(w.cluster, t', t'.organizations[orgId], faults, w.tables.organizations[o].name);
  }

  /** What a step that applies nothing must not change. */
  ghost predicate RoutesKept(t: Tables, t': Tables) {
    && (forall o :: o in t.organizations ==> o in t'.organizations && t'.organizations[o] == t.organizations[o])
    && (forall o :: o in t'.organizations ==>
          DeployedProjects(t'.projects, o) == if o in t.organizations then DeployedProjects(t.projects, o) else {})
    && (forall r :: r in t.revisions && r in t'.revisions ==> t.revisions[r] == t'.revisions[r])
  }

  /** A step that applies nothing keeps agreement when it changes no routes and no settings. */
  lemma UnappliedStepAgrees(w: World, t': Tables)
    requires Projectable(w.tables) && Projectable(t') && PrimaryKeys(t') && UniqueOrganizations(t'.organizations)
    requires AllAgree(w) && RoutesKept(w.tables, t')
    ensures AllAgree(w.(tables := t'))
  {
    var w' := w.(tables := t');
    forall o | o in t'.organizations ensures Agrees(w', t'.organizations[o]) {
      if o in w.tables.organizations {
        RoutesFrame(w.tables, t', o);
      } else {
        NoDeployedNoRoutes(t', o);
        assert !NameTaken(w.tables.organizations, t'.organizations[o].name);
      }
    }
    forall name | name in w'.cluster ensures NameTaken(t'.organizations, name) {
      assert NameTaken(w.tables.organizations, name);
      var o :| o in w.tables.organizations && w.tables.organizations[o].name == name;
      assert t'.organizations[o].name == name;
    }
  }
}
