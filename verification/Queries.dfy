/** The read-only queries: project lists and summaries, logs of a project, usage of an organization. */
module Queries {
  import opened Prelude
  import opened Text
  import opened Schema
  import opened Cascade

  // ----- ORDER BY name over projects whose names differ -----

  ghost predicate DistinctNames(s: set<Project>) {
    forall p, q :: p in s && q in s && p != q ==> p.name != q.name
  }

  predicate IsFirst(s: set<Project>, p: Project) {
    p in s && forall q :: q in s && q != p ==> Less(p.name, q.name)
  }

  lemma {:induction false} FirstExists(s: set<Project>)
    requires s != {} && DistinctNames(s)
    ensures exists p :: IsFirst(s, p)
    ensures forall p, q :: IsFirst(s, p) && IsFirst(s, q) ==> p == q
    decreases |s|
  {
    forall p, q | IsFirst(s, p) && IsFirst(s, q) ensures p == q {
      if p != q {
        LessTransitive(p.name, q.name, p.name);
        LessIrreflexive(p.name);
      }
    }
    var x :| x in s;
    if s == {x} {
      assert IsFirst(s, x);
    } else {
      assert s == {x} + (s - {x});
      FirstExists(s - {x});
      var y :| IsFirst(s - {x}, y);
      LessTotal(x.name, y.name);
      if Less(x.name, y.name) {
        forall q | q in s && q != x ensures Less(x.name, q.name) {
          if q != y { LessTransitive(x.name, y.name, q.name); }
        }
        assert IsFirst(s, x);
      } else {
        assert IsFirst(s, y);
      }
    }
  }

  function SortByName(s: set<Project>): seq<Project>
    requires DistinctNames(s)
    decreases |s|
  {
    if s == {} then []
    else
      FirstExists(s);
      var p :| IsFirst(s, p);
      [p] + SortByName(s - {p})
  }

  ghost predicate SortedByName(l: seq<Project>) {
    forall i, j :: 0 <= i < j < |l| ==> Less(l[i].name, l[j].name)
  }

  lemma SortByNameUnfolds(s: set<Project>, p: Project)
    requires DistinctNames(s) && IsFirst(s, p)
    ensures SortByName(s) == [p] + SortByName(s - {p})
  {
    FirstExists(s);
  }

  lemma SmallestInFront(s: set<Project>, p: Project, rest: seq<Project>)
    requires IsFirst(s, p) && SortedByName(rest)
    requires forall q :: q in rest <==> q in s - {p}
    ensures SortedByName([p] + rest)
    ensures forall q :: q in [p] + rest <==> q in s
  {
    var l := [p] + rest;
    forall i, j | 0 <= i < j < |l| ensures Less(l[i].name, l[j].name) {
      if i == 0 { assert l[j] == rest[j - 1] && rest[j - 1] in rest; }
    }
    assert forall q :: q in l <==> q == p || q in rest;
  }

  lemma {:induction false} SortByNameSorts(s: set<Project>)
    requires DistinctNames(s)
    ensures SortedByName(SortByName(s))
    ensures forall p :: p in SortByName(s) <==> p in s
    ensures |SortByName(s)| == |s|
    decreases |s|
  {
    if s != {} {
      FirstExists(s);
      var p :| IsFirst(s, p);
      SortByNameSorts(s - {p});
      SortByNameUnfolds(s, p);
      SmallestInFront(s, p, SortByName(s - {p}));
    }
  }

  lemma TailElements(l: seq<Project>, s: set<Project>)
    requires l != [] && SortedByName(l)
    requires forall p :: p in l <==> p in s
    ensures forall p :: p in l[1..] <==> p in s - {l[0]}
  {
    forall p ensures p in l[1..] <==> p in s - {l[0]} {
      assert l == [l[0]] + l[1..];
      if l[0] in l[1..] {
        var j :| 0 <= j < |l[1..]| && l[1..][j] == l[0];
        LessIrreflexive(l[0].name);
      }
    }
  }

  lemma HeadIsFirst(l: seq<Project>, s: set<Project>)
    requires l != [] && SortedByName(l)
    requires forall p :: p in l <==> p in s
    ensures IsFirst(s, l[0])
  {
    assert l[0] in l;
    forall q | q in s && q != l[0] ensures Less(l[0].name, q.name) {
      var j :| 0 <= j < |l| && l[j] == q;
    }
  }

  /** A strictly sorted list is determined by its elements. */
  lemma {:induction false} SortedListUnique(l: seq<Project>, s: set<Project>)
    requires DistinctNames(s) && SortedByName(l)
    requires forall p :: p in l <==> p in s
    ensures l == SortByName(s)
    decreases |l|
  {
    if l == [] {
      assert s == {};
    } else {
      HeadIsFirst(l, s);
      TailElements(l, s);
      SortedListUnique(l[1..], s - {l[0]});
      SortByNameUnfolds(s, l[0]);
      assert l == [l[0]] + l[1..];
    }
  }

  // ----- projects of an organization and their summaries -----

  function ProjectsOf(projects: map<Uuid, Project>, orgId: Uuid): set<Project> {
    set i | i in projects && projects[i].organizationId == orgId :: projects[i]
  }

  lemma ProjectNamesDiffer(projects: map<Uuid, Project>, orgId: Uuid)
    requires UniqueProjects(projects)
    ensures DistinctNames(ProjectsOf(projects, orgId))
  {
    forall p, q | p in ProjectsOf(projects, orgId) && q in ProjectsOf(projects, orgId) && p != q
      ensures p.name != q.name
    {
      var i :| i in projects && projects[i] == p;
      var j :| j in projects && projects[j] == q;
      assert !Clash(projects[i], projects[j]);
    }
  }

  /** SELECT ... FROM Project WHERE organization_id ORDER BY name. */
  function ProjectList(projects: map<Uuid, Project>, orgId: Uuid): seq<Project>
    requires UniqueProjects(projects)
  {
    ProjectNamesDiffer(projects, orgId);
    SortByName(ProjectsOf(projects, orgId))
  }

  datatype ProjectSummary = ProjectSummary(
    project: Project, organization: Organization,
    latestRevision: Option<DeploymentRevision>, buildNumber: nat, latestEvent: Option<RevisionEvent>)

  function SummaryOf(t: Tables, p: Project): ProjectSummary
    requires p.organizationId in t.organizations
  {
    var revision :=
      if p.latestRevisionId.Some? && p.latestRevisionId.value in t.revisions then
        Some(t.revisions[p.latestRevisionId.value])
      else None;
    var event :=
      if p.latestEventId.Some? && p.latestEventId.value in t.events && revision.Some?
         && t.events[p.latestEventId.value].revisionId == revision.value.id then Some(t.events[p.latestEventId.value])
      else None;
    ProjectSummary(p, t.organizations[p.organizationId], revision, |RevisionsOf(t, p.id)|, event)
  }

  /** In every maintained state a summary shows the revision its pointer names, of that project, and
      pairs it with the event its pointer names exactly when that is one of that very revision. */
  lemma SummaryPairsOwnRows(t: Tables, pid: Uuid)
    requires Invariant(t) && pid in t.projects
    ensures var s := SummaryOf(t, t.projects[pid]);
      && (s.latestRevision.Some? <==> t.projects[pid].latestRevisionId.Some?)
      && (s.latestRevision.Some? ==>
          s.latestRevision.value.projectId == pid
              && s.latestRevision.value.id == t.projects[pid].latestRevisionId.value)
      && (s.latestEvent.Some? <==>
            && t.projects[pid].latestRevisionId.Some? && t.projects[pid].latestEventId.Some?
            && t.events[t.projects[pid].latestEventId.value].revisionId == t.projects[pid].latestRevisionId.value)
      && (s.latestEvent.Some? ==>
            s.latestEvent.value.id == t.projects[pid].latestEventId.value
            && s.latestEvent.value.revisionId == s.latestRevision.value.id)
      && (s.latestRevision.Some? ==> s.buildNumber >= 1)
  {
    var s := SummaryOf(t, t.projects[pid]);
    if s.latestRevision.Some? {
      assert s.latestRevision.value.id in RevisionsOf(t, pid);
      assert RevisionsOf(t, pid) != {};
    }
  }

  // ----- logs of a project -----

  /** WHERE project_id = @projectId. */
  function LogsOfProject(t: Tables, pid: Uuid): set<Uuid> {
    set l | l in t.logs && t.logs[l].projectId == pid
  }

  /** Filtering by the denormalised column returns the logs of the join with DeploymentRevision. */
  lemma ColumnFilterIsJoin(t: Tables, pid: Uuid)
    requires Invariant(t)
    ensures LogsOfProject(t, pid) == LogsUnder(t, pid)
  {
    forall l | l in t.logs ensures l in LogsOfProject(t, pid) <==> l in LogsUnder(t, pid) {
      assert t.logs[l].revisionId in t.revisions;
    }
  }

  // ----- usage of an organization -----

  /** MCPServerLog JOIN DeploymentRevision JOIN Project WHERE organization_id. */
  function UsageLogs(t: Tables, orgId: Uuid): set<Uuid> {
    set l | l in t.logs && t.logs[l].revisionId in t.revisions
            && t.revisions[t.logs[l].revisionId].projectId in t.projects
            && t.projects[t.revisions[t.logs[l].revisionId].projectId].organizationId == orgId
  }

  function RequestCount(t: Tables, orgId: Uuid): nat { |UsageLogs(t, orgId)| }

  /** COUNT(DISTINCT mcp_session_id) does not count NULL. */
  function SessionIds(t: Tables, logs: set<Uuid>): set<string> {
    set l | l in logs && l in t.logs && t.logs[l].sessionId.Some? :: t.logs[l].sessionId.value
  }

  function SumOfLogCounts(t: Tables, l: seq<Project>): nat {
    if l == [] then 0 else |LogsOfProject(t, l[0].id)| + SumOfLogCounts(t, l[1..])
  }

  function LogsOfProjects(t: Tables, l: seq<Project>): set<Uuid> {
    set x | x in t.logs && (exists p :: p in l && p.id == t.logs[x].projectId)
  }

  lemma SplitLogs(t: Tables, l: seq<Project>)
    requires l != []
    ensures LogsOfProjects(t, l) == LogsOfProject(t, l[0].id) + LogsOfProjects(t, l[1..])
  {
    assert l == [l[0]] + l[1..];
    forall x | x in t.logs
      ensures x in LogsOfProjects(t, l) <==> x in LogsOfProject(t, l[0].id) || x in LogsOfProjects(t, l[1..])
    {
      if p :| p in l && p.id == t.logs[x].projectId {
        assert p == l[0] || p in l[1..];
      }
    }
  }

  lemma LogsDisjoint(t: Tables, first: Project, rest: seq<Project>)
    requires forall p :: p in rest ==> p.id != first.id
    ensures LogsOfProject(t, first.id) !! LogsOfProjects(t, rest)
  {}

  lemma {:induction false} DisjointLogCounts(t: Tables, l: seq<Project>)
    requires forall i, j :: 0 <= i < j < |l| ==> l[i].id != l[j].id
    ensures |LogsOfProjects(t, l)| == SumOfLogCounts(t, l)
  {
    if l == [] {
      assert LogsOfProjects(t, l) == {};
    } else {
      DisjointLogCounts(t, l[1..]);
      SplitLogs(t, l);
      forall p | p in l[1..] ensures p.id != l[0].id {
        var j :| 0 <= j < |l[1..]| && l[1..][j] == p;
        assert l[j + 1] == p;
      }
      LogsDisjoint(t, l[0], l[1..]);
    }
  }

  lemma ProjectListIds(projects: map<Uuid, Project>, orgId: Uuid)
    requires UniqueProjects(projects) && forall i :: i in projects ==> projects[i].id == i
    ensures var l := ProjectList(projects, orgId);
      && (forall p :: p in l <==> p in ProjectsOf(projects, orgId))
      && (forall i, j :: 0 <= i < j < |l| ==> l[i].id != l[j].id)
  {
    var l := ProjectList(projects, orgId);
    ProjectNamesDiffer(projects, orgId);
    SortByNameSorts(ProjectsOf(projects, orgId));
    forall i, j | 0 <= i < j < |l| ensures l[i].id != l[j].id {
      assert l[i] in l && l[j] in l;
      if l[i].id == l[j].id {
        LessIrreflexive(l[i].name);
      }
    }
  }

  lemma UsageLogsAreListed(t: Tables, orgId: Uuid)
    requires Invariant(t)
    ensures UsageLogs(t, orgId) == LogsOfProjects(t, ProjectList(t.projects, orgId))
  {
    var l := ProjectList(t.projects, orgId);
    ProjectListIds(t.projects, orgId);
    forall x | x in t.logs ensures x in UsageLogs(t, orgId) <==> x in LogsOfProjects(t, l) {
      var pid := t.logs[x].projectId;
      assert t.logs[x].revisionId in t.revisions && pid in t.projects;
      assert t.projects[pid].organizationId == orgId ==> t.projects[pid] in l;
    }
  }

  /** The organization's request count is the sum of its projects' log counts, and its sessions are
      those of its projects' logs. */
  lemma UsageIsSumOverProjects(t: Tables, orgId: Uuid)
    requires Invariant(t)
    ensures RequestCount(t, orgId) == SumOfLogCounts(t, ProjectList(t.projects, orgId))
    ensures SessionIds(t, UsageLogs(t, orgId)) == SessionIds(t, LogsOfProjects(t, ProjectList(t.projects, orgId)))
  {
    UsageLogsAreListed(t, orgId);
    ProjectListIds(t.projects, orgId);
    DisjointLogCounts(t, ProjectList(t.projects, orgId));
  }
}
