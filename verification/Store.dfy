/** The functions of the db package that write, as methods on a database connection. Identifiers, the
    clock and the sub-steps that fail are drawn from the request's environment. */
module Store {
  import opened Prelude
  import opened Schema
  import opened Transactions

  /** The sub-steps of a request that can fail for reasons outside the model. */
  datatype Fault =
    | ReadFault | SummaryFault | BeginTx | CommitTx | BeginNested | CommitNested
    | OrganizationFault | UserFault | MemberFault | ProjectFault | RevisionFault | PointerFault
    | EventFault | EventPointerFault | LogFault | ApplyQueryFault | ApplyClusterFault

  /** What one request draws: gen_random_uuid() for each table, the clock, and its faults. */
  datatype Env = Env(
    now: Time, organizationId: Uuid, userId: Uuid, projectId: Uuid, revisionId: Uuid, eventId: Uuid, logId: Uuid,
    faults: set<Fault>)

  const REVISION_FAULTS := {BeginNested, RevisionFault, PointerFault, CommitNested}

  // ----- projects -----

  function NewProject(orgId: Uuid, createdBy: Uuid, name: string, env: Env): Project {
    Project(env.projectId, env.now, createdBy, orgId, name, None, None)
  }

  method CreateProject(db: Database, orgId: Uuid, createdBy: Uuid, name: string, env: Env)
      returns (project: Option<Project>)
    modifies db
    ensures db.savepoints == old(db.savepoints)
    ensures project.Some? <==>
      ProjectFault !in env.faults && !old(db.aborted)
          && InsertProject(old(db.tables), NewProject(orgId, createdBy, name, env)).Some?
    ensures project.Some? ==>
      && project.value == NewProject(orgId, createdBy, name, env) && !db.aborted
      && db.tables == InsertProject(old(db.tables), project.value).value
    ensures project.None? ==> db.tables == old(db.tables) && db.aborted == (db.savepoints != [])
  {
    var row := NewProject(orgId, createdBy, name, env);
    var ok := db.Exec(InsertProject(db.tables, row), ProjectFault in env.faults);
    project := if ok then Some(row) else None;
  }

  // ----- deployment revisions -----

  /** The revision row is there and is the project's latest. */
  function WithRevision(t: Tables, row: DeploymentRevision): Tables
    requires row.projectId in t.projects
  {
    t.(revisions := t.revisions[row.id := row],
       projects := t.projects[row.projectId := t.projects[row.projectId].(latestRevisionId := Some(row.id))])
  }

  /** The tables the two statements produce up to the first one that fails, and whether none does. */
  function AfterStatements(t: Tables, row: DeploymentRevision, faults: set<Fault>): (Tables, bool) {
    if RevisionFault in faults || InsertRevision(t, row).None? then (t, false)
    else if PointerFault in faults then (InsertRevision(t, row).value, false)
    else (WithRevision(t, row), true)
  }

  /** What a call leaves behind, and whether it reports success. In the caller's transaction the
      statements run under the savepoint of RunTx, which a failure or a failing release rolls back; on
      the pool they have already been committed when RunTx ends its own, empty transaction. */
  function RevisionOutcome(t: Tables, row: DeploymentRevision, faults: set<Fault>, inTx: bool): (Tables, bool) {
    if BeginNested in faults then (t, false)
    else
      var r := AfterStatements(t, row, faults);
      var ok := r.1 && CommitNested !in faults;
      (if inTx && !ok then t else r.0, ok)
  }

  /** The connection is taken from the context before RunTx opens its transaction, so the statements
      run on the caller's connection: inside the caller's transaction if there is one, on the pool
      otherwise. */
  method CreateDeploymentRevision(db: Database, draft: DeploymentRevision, env: Env)
      returns (revision: Option<DeploymentRevision>)
    requires db.savepoints == [] ==> !db.aborted
    modifies db
    ensures db.savepoints == old(db.savepoints)
    ensures !old(db.aborted) ==>
      var row := draft.(id := env.revisionId, createdAt := env.now);
      var r := RevisionOutcome(old(db.tables), row, env.faults, db.savepoints != []);
      && db.tables == r.0 && (revision.Some? <==> r.1) && (r.1 ==> revision.value == row)
    ensures old(db.aborted) ==> revision.None? && db.tables == old(db.tables)
    ensures revision.Some? || db.savepoints == [] ==> !db.aborted
  {
    var onPool := db.savepoints == [];
    var row := draft.(id := env.revisionId, createdAt := env.now);
    var tx := db.Begin(BeginNested in env.faults);
    if tx == 0 {
      return None;
    }
    var failed := RevisionStatements(db, onPool, row, env);
    failed := db.Finish(tx, failed, CommitNested in env.faults);
    revision := if failed then None else Some(row);
  }

  /** The closure of CreateDeploymentRevision. */
  method RevisionStatements(db: Database, onPool: bool, row: DeploymentRevision, env: Env) returns (failed: bool)
    requires !db.aborted && db.savepoints != []
    requires onPool ==> |db.savepoints| == 1 && db.savepoints[0] == db.tables
    modifies db
    ensures !onPool ==> db.savepoints == old(db.savepoints)
    ensures !onPool ==>
      var r := AfterStatements(old(db.tables), row, env.faults);
      failed == !r.1 && (r.1 ==> db.tables == r.0 && !db.aborted)
    ensures onPool ==> !db.aborted && db.savepoints == [db.tables]
    ensures onPool ==>
      var r := AfterStatements(old(db.tables), row, env.faults); db.tables == r.0 && failed == !r.1
  {
    var inserted := InsertRevision(db.tables, row);
    var ok;
    if onPool {
      ok := db.ExecOutside(inserted, RevisionFault in env.faults);
    } else {
      ok := db.Exec(inserted, RevisionFault in env.faults);
    }
    if !ok {
      return true;
    }
    var pointed := SetLatestRevision(db.tables, row.projectId, row.id);
    assert pointed == Some(WithRevision(old(db.tables), row));
    if onPool {
      ok := db.ExecOutside(pointed, PointerFault in env.faults);
    } else {
      ok := db.Exec(pointed, PointerFault in env.faults);
    }
    failed := !ok;
  }

  /** Whatever fails, the call stores the revision as the project's latest and reports success, or
      reports an error and leaves no trace. */
  ghost predicate AtomicRevision(t: Tables, row: DeploymentRevision, inTx: bool)
    requires row.projectId in t.projects
  {
    forall faults ::
      var r := RevisionOutcome(t, row, faults, inTx);
      r.0 == if r.1 then WithRevision(t, row) else t
  }

  /** Creating a valid revision is all-or-nothing exactly when the caller already holds a
      transaction: on the pool a failing pointer update leaves the inserted row behind. */
  lemma RevisionAtomicIffInTx(t: Tables, row: DeploymentRevision, inTx: bool)
    requires InsertRevision(t, row).Some?
    ensures AtomicRevision(t, row, inTx) <==> inTx
  {
    if inTx {
      forall faults
        ensures var r := RevisionOutcome(t, row, faults, true); r.0 == if r.1 then WithRevision(t, row) else t
      {}
    } else {
      var r := RevisionOutcome(t, row, {PointerFault}, false);
      assert row.id in r.0.revisions && row.id !in t.revisions;
      assert !r.1 && r.0 != t;
    }
  }

  function NewEvent(revisionId: Uuid, eventType: EventType, env: Env): RevisionEvent {
    RevisionEvent(env.eventId, env.now, revisionId, eventType)
  }

  function WithEvent(t: Tables, row: RevisionEvent): Tables
    requires row.revisionId in t.revisions && t.revisions[row.revisionId].projectId in t.projects
  {
    var p := t.revisions[row.revisionId].projectId;
    t.(events := t.events[row.id := row],
       projects := t.projects[p := t.projects[p].(latestEventId := Some(row.id))])
  }

  method AddDeploymentRevisionEvent(db: Database, revisionId: Uuid, eventType: EventType, env: Env) returns (ok: bool)
    requires revisionId in db.tables.revisions && db.tables.revisions[revisionId].projectId in db.tables.projects
    modifies db
    ensures db.savepoints == old(db.savepoints)
    ensures ok <==> !old(db.aborted) && env.faults !! {EventFault, EventPointerFault}
                    && InsertEvent(old(db.tables), NewEvent(revisionId, eventType, env)).Some?
    ensures ok ==> db.tables == WithEvent(old(db.tables), NewEvent(revisionId, eventType, env)) && !db.aborted
  {
    var row := NewEvent(revisionId, eventType, env);
    ok := db.Exec(InsertEvent(db.tables, row), EventFault in env.faults);
    if ok {
      ok := db.Exec(SetLatestEvent(db.tables, revisionId, row.id), EventPointerFault in env.faults);
    }
  }

  // ----- users and members -----

  predicate KnowsEmail(t: Tables, email: string) {
    exists i :: i in t.users && t.users[i].email == email
  }

  /** SELECT id FROM UserAccount WHERE email. */
  function UserIdOf(t: Tables, email: string): (id: Uuid)
    requires UniqueUsers(t.users) && KnowsEmail(t, email)
    ensures id in t.users && t.users[id].email == email
  {
    var id :| id in t.users && t.users[id].email == email;
    id
  }

  function NewUser(email: string, env: Env): UserAccount { UserAccount(env.userId, env.now, email) }

  lemma InsertedUserUnique(t: Tables, email: string, env: Env)
    requires UniqueUsers(t.users) && InsertUserIfNew(t, NewUser(email, env)).Some?
    ensures UniqueUsers(InsertUserIfNew(t, NewUser(email, env)).value.users)
    ensures KnowsEmail(InsertUserIfNew(t, NewUser(email, env)).value, email)
  {
    var t' := InsertUserIfNew(t, NewUser(email, env)).value;
    if !KnowsEmail(t, email) {
      assert t'.users[env.userId].email == email;
    }
  }

  /** INSERT ... ON CONFLICT DO NOTHING and SELECT in one statement. */
  method GetUserByEmailOrCreate(db: Database, email: string, env: Env) returns (user: Option<Uuid>)
    requires UniqueUsers(db.tables.users)
    modifies db
    ensures db.savepoints == old(db.savepoints)
    ensures UniqueUsers(db.tables.users)
    ensures user.Some? <==>
      UserFault !in env.faults && !old(db.aborted) && InsertUserIfNew(old(db.tables), NewUser(email, env)).Some?
    ensures user.Some? ==>
      && db.tables == InsertUserIfNew(old(db.tables), NewUser(email, env)).value && !db.aborted
      && KnowsEmail(db.tables, email) && user.value == UserIdOf(db.tables, email)
    ensures user.None? ==> db.tables == old(db.tables) && db.aborted == (db.savepoints != [])
  {
    var ok := db.Exec(InsertUserIfNew(db.tables, NewUser(email, env)), UserFault in env.faults);
    if !ok {
      return None;
    }
    InsertedUserUnique(old(db.tables), email, env);
    user := Some(UserIdOf(db.tables, email));
  }

  method AddUserToOrganization(db: Database, userId: Uuid, orgId: Uuid, env: Env) returns (ok: bool)
    modifies db
    ensures db.savepoints == old(db.savepoints)
    ensures ok <==> MemberFault !in env.faults && !old(db.aborted) && InsertMember(old(db.tables), orgId, userId).Some?
    ensures ok ==> db.tables == InsertMember(old(db.tables), orgId, userId).value && !db.aborted
    ensures !ok ==> db.tables == old(db.tables) && db.aborted == (db.savepoints != [])
  {
    ok := db.Exec(InsertMember(db.tables, orgId, userId), MemberFault in env.faults);
  }
}
