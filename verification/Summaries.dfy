/** What the project summary shows in every reachable state. */
module Summaries {
  import opened Prelude
  import opened Schema
  import opened Cascade
  import opened Queries
  import opened Store
  import opened Api
  import opened Invariants
  import opened Reconciler
  import opened Histories
  import opened Ask
  import opened Effects
  import opened Reports

  /** The project points to an event of its latest revision. */
  ghost predicate HasOwnEvent(t: Tables, pid: Uuid) {
    && pid in t.projects && t.projects[pid].latestRevisionId.Some? && t.projects[pid].latestEventId.Some?
    && t.projects[pid].latestEventId.value in t.events
    && Some(t.events[t.projects[pid].latestEventId.value].revisionId) == t.projects[pid].latestRevisionId
  }

  /** It does exactly when that revision has an image, and the event is its progress event. */
  ghost predicate EventFollowsImage(t: Tables, pid: Uuid) {
    && (HasOwnEvent(t, pid) <==> HasImage(t, pid))
    && (HasOwnEvent(t, pid) ==> t.events[t.projects[pid].latestEventId.value].eventType == EventProgressing)
  }

  ghost predicate EventsFollowImages(t: Tables) { forall pid :: pid in t.projects ==> EventFollowsImage(t, pid) }

  lemma SameEventsFollow(t: Tables, t': Tables)
    requires EventsFollowImages(t)
    requires t'.projects == t.projects && t'.revisions == t.revisions && t'.events == t.events
    ensures EventsFollowImages(t')
  {
    forall pid | pid in t'.projects ensures EventFollowsImage(t', pid) {
      assert EventFollowsImage(t, pid);
    }
  }

  lemma CreatedEventsFollow(t: Tables, t': Tables, p: Project, r: Uuid, row: DeploymentRevision)
    requires EventsFollowImages(t) && PointerKeys(t.projects, t.revisions, t.events)
    requires p.id !in t.projects && p.latestEventId.None? && t'.projects == t.projects[p.id := p]
    requires t'.events == t.events
    requires if p.latestRevisionId.None? then t'.revisions == t.revisions
             else p.latestRevisionId == Some(r) && r !in t.revisions && t'.revisions == t.revisions[r := row]
                  && row.ociUrl.None?
    ensures EventsFollowImages(t')
  {
    forall pid | pid in t'.projects ensures EventFollowsImage(t', pid) {
      if pid != p.id { assert EventFollowsImage(t, pid); }
    }
  }

  lemma SavedEventsFollow(t: Tables, t': Tables, pid: Uuid, row: DeploymentRevision, env: Env)
    requires EventsFollowImages(t) && PointerKeys(t.projects, t.revisions, t.events)
    requires EventKeys(t.events, t.revisions) && pid in t.projects && SavedTables(t, t', pid, row, env)
    ensures EventsFollowImages(t')
  {
    forall q | q in t'.projects ensures EventFollowsImage(t', q) {
      assert EventFollowsImage(t, q);
    }
  }

  lemma RemovedEventsFollow(t: Tables, t': Tables, pid: Uuid)
    requires EventsFollowImages(t) && t'.projects == t.projects - {pid}
    requires PointerKeys(t'.projects, t'.revisions, t'.events)
    requires forall r :: r in t'.revisions ==> r in t.revisions && t'.revisions[r] == t.revisions[r]
    requires forall e :: e in t'.events ==> e in t.events && t'.events[e] == t.events[e]
    ensures EventsFollowImages(t')
  {
    forall q | q in t'.projects ensures EventFollowsImage(t', q) {
      assert EventFollowsImage(t, q);
    }
  }

  lemma CreationEvents(w: World, user: Uuid, req: ProjectRequest, env: Env)
    requires Invariant(w.tables) && EventsFollowImages(w.tables)
    ensures EventsFollowImages(PostProject(w, user, req, env).0.tables)
  {
    var t' := PostProject(w, user, req, env).0.tables;
    CreationStatus(w, user, req, env);
    if PostProject(w, user, req, env).1 == Ok {
      CreatedContents(w, user, req, env);
      CreatedEventsFollow(w.tables, t', t'.projects[env.projectId], env.revisionId, FirstRevision(user, req, env));
    }
  }

  lemma SaveEvents(w: World, parse: string -> Option<ParsedUrl>, user: Uuid, pid: Uuid, req: SettingsRequest, env: Env)
    requires Invariant(w.tables) && EventsFollowImages(w.tables)
    ensures EventsFollowImages(PutSettings(w, parse, user, pid, req, env).0.tables)
  {
    var t' := PutSettings(w, parse, user, pid, req, env).0.tables;
    SettingsStatus(w, parse, user, pid, req, env);
    if t' != w.tables {
      var row := SavedContents(w, parse, user, pid, req, env);
      SavedEventsFollow(w.tables, t', pid, row, env);
    }
  }

  lemma RemovalEvents(w: World, user: Uuid, pid: Uuid, env: Env)
    requires Invariant(w.tables) && EventsFollowImages(w.tables)
    ensures EventsFollowImages(DeleteProjectStep(w, user, pid, env).0.tables)
  {
    var t' := DeleteProjectStep(w, user, pid, env).0.tables;
    if t' != w.tables {
      SurvivorsUnchanged(w.tables, pid);
      DeleteKeepsPointers(w.tables, pid);
      RemovedEventsFollow(w.tables, t', pid);
    }
  }

  /** The other requests leave projects, revisions and events alone. */
  lemma OtherEvents(w: World, parse: string -> Option<ParsedUrl>, step: Step)
    requires Invariant(w.tables)
    requires !step.operation.CreateProject? && !step.operation.SaveSettings? && !step.operation.RemoveProject?
    ensures var t' := Respond(w, parse, step).0.tables;
      t'.projects == w.tables.projects && t'.revisions == w.tables.revisions && t'.events == w.tables.events
  {
    match step.operation
    case CreateOrganization(user, name) => FoundingContents(w, user, name, step.env);
    case SaveOrganization(user, o, organization) => UpdateEvents(w, user, o, organization, step.env);
    case AddMember(user, o, email) => InvitationEvents(w, user, o, email, step.env);
    case RemoveMember(user, o, target) => RemovalFrame(w, user, o, target, step.env);
    case Authenticate(email) => SignInContents(w, email, step.env);
    case ReceiveReport(param, report) => ReportOutcome(w, param, report, step.env);
    case _ => assert false;
  }

  lemma UpdateEvents(w: World, user: Uuid, o: Uuid, req: OrganizationRequest, env: Env)
    requires Readable(w.tables)
    ensures var t' := PutOrganization(w, user, o, req, env).0.tables;
      t'.projects == w.tables.projects && t'.revisions == w.tables.revisions && t'.events == w.tables.events
  {
    if o in w.tables.organizations { OrganizationContents(w, user, o, req, env); }
  }

  lemma InvitationEvents(w: World, user: Uuid, o: Uuid, email: string, env: Env)
    requires UniqueUsers(w.tables.users)
    ensures var t' := PutMember(w, user, o, email, env).0.tables;
      t'.projects == w.tables.projects && t'.revisions == w.tables.revisions && t'.events == w.tables.events
  {
    if o in w.tables.organizations { InvitationContents(w, user, o, email, env); }
  }

  lemma StepEvents(w: World, parse: string -> Option<ParsedUrl>, step: Step)
    requires Invariant(w.tables) && EventsFollowImages(w.tables)
    ensures EventsFollowImages(Respond(w, parse, step).0.tables)
  {
    match step.operation
    case CreateProject(user, project) => CreationEvents(w, user, project, step.env);
    case SaveSettings(user, pid, settings) => SaveEvents(w, parse, user, pid, settings, step.env);
    case RemoveProject(user, pid) => RemovalEvents(w, user, pid, step.env);
    case _ =>
      OtherEvents(w, parse, step);
      SameEventsFollow(w.tables, Respond(w, parse, step).0.tables);
  }

  lemma {:induction false} RunEvents(parse: string -> Option<ParsedUrl>, steps: seq<Step>)
    requires Invariant(START.tables)
    ensures EventsFollowImages(Run(START, parse, steps).tables)
    decreases |steps|
  {
    if steps != [] {
      RunEvents(parse, steps[..|steps| - 1]);
      StepEvents(Run(START, parse, steps[..|steps| - 1]), parse, steps[|steps| - 1]);
    }
  }

  /** In every reachable state a summary shows the organization of its project, the revision the project
      points to, and an event exactly when that revision has an image: its own progress event, never one
      of an earlier revision. */
  lemma SummaryShowsEventIffImage(parse: string -> Option<ParsedUrl>, steps: seq<Step>, pid: Uuid)
    requires Invariant(START.tables) && pid in Run(START, parse, steps).tables.projects
    ensures var t := Run(START, parse, steps).tables; var s := SummaryOf(t, t.projects[pid]);
      && s.project == t.projects[pid] && s.organization == t.organizations[t.projects[pid].organizationId]
      && (s.latestRevision.Some? <==> t.projects[pid].latestRevisionId.Some?)
      && (s.latestRevision.Some? ==> s.latestRevision.value == t.revisions[t.projects[pid].latestRevisionId.value])
      && (s.latestEvent.Some? <==> s.latestRevision.Some? && s.latestRevision.value.ociUrl.Some?)
      && (s.latestEvent.Some? ==>
            s.latestEvent.value.revisionId == s.latestRevision.value.id
            && s.latestEvent.value.eventType == EventProgressing)
  {
    RunEvents(parse, steps);
    var t := Run(START, parse, steps).tables;
    assert EventFollowsImage(t, pid);
    SummaryPairsOwnRows(t, pid);
  }
}
