/** Deleting a project: the ON DELETE rules of migration 5 and the uncascaded log column of
    migration 6. */
module Cascade {
  import opened Prelude
  import opened Schema

  // ----- the statement, table by table -----

  function RevisionsOf(t: Tables, pid: Uuid): set<Uuid> {
    set r | r in t.revisions && t.revisions[r].projectId == pid
  }

  function EventsUnder(t: Tables, pid: Uuid): set<Uuid> {
    set e | e in t.events && t.events[e].revisionId in RevisionsOf(t, pid)
  }

  function LogsUnder(t: Tables, pid: Uuid): set<Uuid> {
    set l | l in t.logs && t.logs[l].revisionId in RevisionsOf(t, pid)
  }

  function PropertiesOf(t: Tables, pid: Uuid): set<Uuid> {
    set c | c in t.properties && t.properties[c].projectId == pid
  }

  function ContextsUnder(t: Tables, pid: Uuid): set<Uuid> {
    set c | c in t.contexts && t.contexts[c].propertyId in PropertiesOf(t, pid)
  }

  /** ON DELETE SET NULL on the two latest pointers. */
  function Nulled(p: Project, revisions: set<Uuid>, events: set<Uuid>): Project {
    p.(latestRevisionId := if p.latestRevisionId.Some? && p.latestRevisionId.value in revisions then None
        else p.latestRevisionId,
       latestEventId := if p.latestEventId.Some? && p.latestEventId.value in events then None else p.latestEventId)
  }

  function WithoutProject(t: Tables, pid: Uuid): Tables {
    var revisions, events := RevisionsOf(t, pid), EventsUnder(t, pid);
    t.(projects := map p | p in t.projects && p != pid :: Nulled(t.projects[p], revisions, events),
       revisions := t.revisions - revisions,
       events := t.events - events,
       logs := t.logs - LogsUnder(t, pid),
       properties := t.properties - PropertiesOf(t, pid),
       contexts := t.contexts - ContextsUnder(t, pid))
  }

  /** DELETE FROM Project WHERE id: the log's project column has no delete action, so at the end of
      the statement no surviving log may still name the project. */
  function DeleteProject(t: Tables, pid: Uuid): Option<Tables> {
    if exists l :: l in t.logs && l !in LogsUnder(t, pid) && t.logs[l].projectId == pid then None
    else Some(WithoutProject(t, pid))
  }

  // ----- the rules, as a relation between rows -----

  datatype Row =
    | ProjectRow(id: Uuid) | RevisionRow(id: Uuid) | EventRow(id: Uuid)
    | LogRow(id: Uuid) | PropertyRow(id: Uuid) | ContextRow(id: Uuid)
    | OrganizationRow(id: Uuid) | UserRow(id: Uuid) | MemberRow(orgId: Uuid, userId: Uuid)

  predicate Present(t: Tables, row: Row) {
    match row
    case ProjectRow(i) => i in t.projects
    case RevisionRow(i) => i in t.revisions
    case EventRow(i) => i in t.events
    case LogRow(i) => i in t.logs
    case PropertyRow(i) => i in t.properties
    case ContextRow(i) => i in t.contexts
    case OrganizationRow(i) => i in t.organizations
    case UserRow(i) => i in t.users
    case MemberRow(o, u) => (o, u) in t.members
  }

  /** `child` references `parent` through a key declared ON DELETE CASCADE. */
  predicate CascadesTo(t: Tables, parent: Row, child: Row) {
    match (parent, child)
    case (ProjectRow(p), RevisionRow(r)) => r in t.revisions && t.revisions[r].projectId == p
    case (RevisionRow(r), EventRow(e)) => e in t.events && t.events[e].revisionId == r
    case (RevisionRow(r), LogRow(l)) => l in t.logs && t.logs[l].revisionId == r
    case (ProjectRow(p), PropertyRow(c)) => c in t.properties && t.properties[c].projectId == p
    case (PropertyRow(c), ContextRow(v)) => v in t.contexts && t.contexts[v].propertyId == c
    case _ => false
  }

  /** A chain of cascade steps from the first row to the last. */
  ghost predicate Chain(t: Tables, path: seq<Row>) {
    |path| >= 1 && Present(t, path[0])
    && forall i :: 0 <= i < |path| - 1 ==> CascadesTo(t, path[i], path[i + 1])
  }

  ghost predicate Reachable(t: Tables, from: Row, row: Row) {
    exists path :: Chain(t, path) && path[0] == from && path[|path| - 1] == row
  }

  lemma {:induction false} ChainIsRemoved(t: Tables, pid: Uuid, path: seq<Row>)
    requires Chain(t, path) && path[0] == ProjectRow(pid)
    ensures Present(t, path[|path| - 1]) && !Present(WithoutProject(t, pid), path[|path| - 1])
  {
    if |path| > 1 {
      var init := path[..|path| - 1];
      assert Chain(t, init);
      ChainIsRemoved(t, pid, init);
      assert CascadesTo(t, path[|path| - 2], path[|path| - 1]);
    }
  }

  lemma ChildChain(t: Tables, pid: Uuid, row: Row) returns (path: seq<Row>)
    requires pid in t.projects && CascadesTo(t, ProjectRow(pid), row)
    ensures Chain(t, path) && path[0] == ProjectRow(pid) && path[|path| - 1] == row
  {
    path := [ProjectRow(pid), row];
  }

  lemma GrandchildChain(t: Tables, pid: Uuid, child: Row, row: Row) returns (path: seq<Row>)
    requires pid in t.projects && CascadesTo(t, ProjectRow(pid), child) && CascadesTo(t, child, row)
    ensures Chain(t, path) && path[0] == ProjectRow(pid) && path[|path| - 1] == row
  {
    path := [ProjectRow(pid), child, row];
  }

  lemma RemovedHasChain(t: Tables, pid: Uuid, row: Row) returns (path: seq<Row>)
    requires EventKeys(t.events, t.revisions) && LogOwnerKeys(t.logs, t.revisions, t.users) && ContextKeys(t)
    requires pid in t.projects
    requires Present(t, row) && !Present(WithoutProject(t, pid), row)
    ensures Chain(t, path) && path[0] == ProjectRow(pid) && path[|path| - 1] == row
  {
    match row
    case ProjectRow(i) => path := [ProjectRow(pid)];
    case RevisionRow(i) => path := ChildChain(t, pid, row);
    case EventRow(i) => path := GrandchildChain(t, pid, RevisionRow(t.events[i].revisionId), row);
    case LogRow(i) => path := GrandchildChain(t, pid, RevisionRow(t.logs[i].revisionId), row);
    case PropertyRow(i) => path := ChildChain(t, pid, row);
    case ContextRow(i) => path := GrandchildChain(t, pid, PropertyRow(t.contexts[i].propertyId), row);
    case OrganizationRow(i) => assert false;
    case UserRow(i) => assert false;
    case MemberRow(o, u) => assert false;
  }

  /** The delete removes exactly the rows that some chain of cascade rules reaches from the project. */
  lemma DeleteRemovesExactlyReachable(t: Tables, pid: Uuid)
    requires ForeignKeys(t) && pid in t.projects
    ensures forall row :: Present(t, row) ==>
      (!Present(WithoutProject(t, pid), row) <==> Reachable(t, ProjectRow(pid), row))
    ensures forall row :: Present(WithoutProject(t, pid), row) ==> Present(t, row)
  {
    forall row | Present(t, row)
      ensures !Present(WithoutProject(t, pid), row) <==> Reachable(t, ProjectRow(pid), row)
    {
      if Reachable(t, ProjectRow(pid), row) {
        var path :| Chain(t, path) && path[0] == ProjectRow(pid) && path[|path| - 1] == row;
        ChainIsRemoved(t, pid, path);
      }
      if !Present(WithoutProject(t, pid), row) {
        var path := RemovedHasChain(t, pid, row);
      }
    }
    forall row | Present(WithoutProject(t, pid), row) ensures Present(t, row) {
      assert WithoutProject(t, pid).users == t.users;
    }
  }

  /** Rows that survive are not changed: with own pointers no surviving project loses one. */
  lemma SurvivorsUnchanged(t: Tables, pid: Uuid)
    requires ForeignKeys(t) && OwnRevision(t.projects, t.revisions) && OwnEvent(t.projects, t.revisions, t.events)
    ensures WithoutProject(t, pid).projects == t.projects - {pid}
    ensures forall r :: r in WithoutProject(t, pid).revisions ==> WithoutProject(t, pid).revisions[r] == t.revisions[r]
    ensures forall e :: e in WithoutProject(t, pid).events ==> WithoutProject(t, pid).events[e] == t.events[e]
    ensures forall l :: l in WithoutProject(t, pid).logs ==> WithoutProject(t, pid).logs[l] == t.logs[l]
    ensures forall c :: c in WithoutProject(t, pid).properties ==>
      WithoutProject(t, pid).properties[c] == t.properties[c]
    ensures forall c :: c in WithoutProject(t, pid).contexts ==> WithoutProject(t, pid).contexts[c] == t.contexts[c]
    ensures var t' := WithoutProject(t, pid);
      t'.organizations == t.organizations && t'.users == t.users && t'.members == t.members
  {
    forall p | p in t.projects && p != pid
      ensures Nulled(t.projects[p], RevisionsOf(t, pid), EventsUnder(t, pid)) == t.projects[p]
    {}
  }

  /** The statement succeeds exactly when no log of another project's revision names this project. */
  lemma DeleteSucceedsIff(t: Tables, pid: Uuid)
    requires ForeignKeys(t)
    ensures DeleteProject(t, pid).Some?
       <==> forall l :: l in t.logs && t.logs[l].projectId == pid ==> t.revisions[t.logs[l].revisionId].projectId == pid
  {
    forall l | l in t.logs ensures l in LogsUnder(t, pid) <==> t.revisions[t.logs[l].revisionId].projectId == pid {
      assert t.logs[l].revisionId in t.revisions;
    }
  }

  lemma DeleteKeepsUnique(t: Tables, pid: Uuid)
    requires UniqueColumns(t)
    ensures UniqueColumns(WithoutProject(t, pid))
  {
    var t' := WithoutProject(t, pid);
    forall i, j | i in t'.projects && j in t'.projects && i != j ensures !Clash(t'.projects[i], t'.projects[j]) {
      assert !Clash(t.projects[i], t.projects[j]);
    }
  }

  lemma DeleteKeepsPointers(t: Tables, pid: Uuid)
    requires PointerKeys(t.projects, t.revisions, t.events)
    ensures var t' := WithoutProject(t, pid); PointerKeys(t'.projects, t'.revisions, t'.events)
  {}

  lemma DeleteKeepsOwners(t: Tables, pid: Uuid)
    requires ProjectKeys(t.projects, t.organizations, t.users) && RevisionKeys(t.revisions, t.projects, t.users)
    ensures var t' := WithoutProject(t, pid);
      ProjectKeys(t'.projects, t'.organizations, t'.users) && RevisionKeys(t'.revisions, t'.projects, t'.users)
  {}

  lemma DeleteKeepsChildren(t: Tables, pid: Uuid)
    requires EventKeys(t.events, t.revisions) && LogOwnerKeys(t.logs, t.revisions, t.users)
    ensures var t' := WithoutProject(t, pid);
      EventKeys(t'.events, t'.revisions) && LogOwnerKeys(t'.logs, t'.revisions, t'.users)
  {}

  lemma DeleteKeepsBaseKeys(t: Tables, pid: Uuid)
    requires BaseForeignKeys(t)
    ensures BaseForeignKeys(WithoutProject(t, pid))
  {
    DeleteKeepsPointers(t, pid);
    DeleteKeepsOwners(t, pid);
    DeleteKeepsChildren(t, pid);
  }

  lemma DeleteKeepsLogKeys(t: Tables, pid: Uuid)
    requires ForeignKeys(t) && DeleteProject(t, pid).Some?
    ensures LogProjectKeys(WithoutProject(t, pid).logs, WithoutProject(t, pid).projects)
  {
    DeleteSucceedsIff(t, pid);
  }

  /** Whenever the statement succeeds it leaves every key and uniqueness constraint valid, the
      uncascaded log column included. */
  lemma DeleteKeepsConstraints(t: Tables, pid: Uuid)
    requires Constraints(t) && DeleteProject(t, pid).Some?
    ensures Constraints(WithoutProject(t, pid))
  {
    DeleteKeepsUnique(t, pid);
    DeleteKeepsBaseKeys(t, pid);
    DeleteKeepsLogKeys(t, pid);
    DeleteKeepsPrimary(t, pid);
  }

  lemma DeleteKeepsPrimary(t: Tables, pid: Uuid)
    requires PrimaryKeys(t)
    ensures PrimaryKeys(WithoutProject(t, pid))
  {}

  /** In a maintained state the delete succeeds and keeps every constraint and every maintained
      property. */
  lemma DeleteKeepsInvariant(t: Tables, pid: Uuid)
    requires Invariant(t)
    ensures DeleteProject(t, pid) == Some(WithoutProject(t, pid))
    ensures Invariant(WithoutProject(t, pid))
  {
    DeleteSucceedsIff(t, pid);
    DeleteKeepsConstraints(t, pid);
    SurvivorsUnchanged(t, pid);
  }
}
