/** Build numbers in reachable states: when creation times advance, the number a summary reports is the
    row number of the latest revision. */
module Clocks {
  import opened Prelude
  import opened Schema
  import opened Cascade
  import opened Queries
  import opened Store
  import opened Api
  import opened Invariants
  import opened Histories
  import opened BuildNumbers

  /** A project's latest revision is its newest, and a project without one has no revisions. */
  ghost predicate NewestOf(t: Tables, pid: Uuid)
    requires pid in t.projects
  {
    if t.projects[pid].latestRevisionId.Some? then StrictlyNewest(t, pid, t.projects[pid].latestRevisionId.value)
    else RevisionsOf(t, pid) == {}
  }

  ghost predicate LatestIsNewest(t: Tables) {
    forall pid :: pid in t.projects ==> NewestOf(t, pid)
  }

  /** A settings update happens later than every stored revision of its project. */
  ghost predicate ClockAdvances(t: Tables, step: Step) {
    step.operation.SaveSettings? ==>
      forall r :: r in RevisionsOf(t, step.operation.pid) ==> t.revisions[r].createdAt < step.env.now
  }

  lemma CreatedNewest(t: Tables, t': Tables, user: Uuid, req: ProjectRequest, env: Env)
    requires LatestIsNewest(t) && RevisionKeys(t.revisions, t.projects, t.users) && CreateChange(t, t', user, req, env)
    ensures LatestIsNewest(t')
  {
    if t' != t {
      CreatedRows(t, user, req, env);
      var row := if req.proxyUrl.Some? then Some(FirstRevision(user, req, env)) else None;
      AddedNewest(t, t', env.projectId, row, env.revisionId);
    }
  }

  lemma AddedNewest(t: Tables, t': Tables, project: Uuid, row: Option<DeploymentRevision>, r: Uuid)
    requires LatestIsNewest(t) && RevisionKeys(t.revisions, t.projects, t.users)
    requires project !in t.projects && t'.projects.Keys == t.projects.Keys + {project}
    requires forall p :: p in t.projects ==> t'.projects[p] == t.projects[p]
    requires t'.projects[project].latestRevisionId == if row.Some? then Some(r) else None
    requires row.Some? ==> r !in t.revisions && row.value.projectId == project
    requires t'.revisions == if row.Some? then t.revisions[r := row.value] else t.revisions
    ensures LatestIsNewest(t')
  {
    forall pid | pid in t'.projects ensures NewestOf(t', pid) {
      if pid == project {
        assert RevisionsOf(t, pid) == {};
        assert RevisionsOf(t', pid) == if row.Some? then {r} else {};
      } else {
        SameNewestOf(t, t', pid);
      }
    }
  }

  lemma SameNewestOf(t: Tables, t': Tables, pid: Uuid)
    requires pid in t.projects && pid in t'.projects
      && t'.projects[pid].latestRevisionId == t.projects[pid].latestRevisionId
    requires NewestOf(t, pid)
    requires forall r :: r in t'.revisions && t'.revisions[r].projectId == pid <==> r in RevisionsOf(t, pid)
    requires forall r :: r in RevisionsOf(t, pid) ==> t'.revisions[r] == t.revisions[r]
    ensures NewestOf(t', pid)
  {
    assert RevisionsOf(t', pid) == RevisionsOf(t, pid);
  }

  lemma RevisedNewest(t: Tables, t': Tables, row: DeploymentRevision)
    requires LatestIsNewest(t) && row.projectId in t.projects && t'.projects.Keys == t.projects.Keys
    requires t'.projects[row.projectId].latestRevisionId == Some(row.id)
    requires forall p :: p in t.projects && p != row.projectId ==> t'.projects[p] == t.projects[p]
    requires row.id !in t.revisions && t'.revisions == t.revisions[row.id := row]
    requires forall r :: r in RevisionsOf(t, row.projectId) ==> t.revisions[r].createdAt < row.createdAt
    ensures LatestIsNewest(t')
  {
    assert RevisionsOf(t', row.projectId) == RevisionsOf(t, row.projectId) + {row.id};
    forall pid | pid in t'.projects && pid != row.projectId ensures NewestOf(t', pid) {
      SameNewestOf(t, t', pid);
    }
  }

  lemma SavedNewest(t: Tables, t': Tables, parse: string -> Option<ParsedUrl>, user: Uuid, p: Uuid,
      req: SettingsRequest, env: Env)
    requires LatestIsNewest(t) && SaveChange(t, t', parse, user, p, req, env)
    requires forall r :: r in RevisionsOf(t, p) ==> t.revisions[r].createdAt < env.now
    ensures LatestIsNewest(t')
  {
    if t' != t {
      var row := Merged(LatestRevision(t, p), user, p, req, env);
      SavedLatest(t, row, env);
      forall pid | pid in t.projects && pid != p ensures t'.projects[pid] == t.projects[pid] {
        SavedOthers(t, row, env, pid);
      }
      RevisedNewest(t, t', row);
    }
  }

  lemma DeletedNewest(t: Tables, t': Tables, gone: Uuid)
    requires LatestIsNewest(t) && ForeignKeys(t) && OwnRevision(t.projects, t.revisions)
      && OwnEvent(t.projects, t.revisions, t.events)
    requires RemoveChange(t, t', gone)
    ensures LatestIsNewest(t')
  {
    if t' != t {
      SurvivorsUnchanged(t, gone);
      forall pid | pid in t'.projects ensures NewestOf(t', pid) {
        SameNewestOf(t, t', pid);
      }
    }
  }

  lemma SameNewest(t: Tables, t': Tables)
    requires LatestIsNewest(t) && t'.projects == t.projects && t'.revisions == t.revisions
    ensures LatestIsNewest(t')
  {
    forall pid | pid in t'.projects ensures NewestOf(t', pid) { SameNewestOf(t, t', pid); }
  }

  lemma ChangeKeepsNewest(t: Tables, t': Tables, parse: string -> Option<ParsedUrl>, step: Step)
    requires LatestIsNewest(t) && ForeignKeys(t) && OwnRevision(t.projects, t.revisions)
      && OwnEvent(t.projects, t.revisions, t.events)
    requires Change(t, t', parse, step) && ClockAdvances(t, step)
    ensures LatestIsNewest(t')
  {
    match step.operation
    case CreateProject(user, project) => CreatedNewest(t, t', user, project, step.env);
    case SaveSettings(user, pid, settings) => SavedNewest(t, t', parse, user, pid, settings, step.env);
    case RemoveProject(user, gone) => DeletedNewest(t, t', gone);
    case _ => SameNewest(t, t');
  }

  /** Creation times advance per project along the run. */
  ghost predicate ClockAdvancesAlong(parse: string -> Option<ParsedUrl>, steps: seq<Step>)
    requires Invariant(START.tables)
  {
    forall i :: 0 <= i < |steps| ==> ClockAdvances(Trace(parse, steps)[i], steps[i])
  }

  lemma StepKeepsNewest(w: World, parse: string -> Option<ParsedUrl>, step: Step)
    requires Invariant(w.tables) && LatestIsNewest(w.tables) && ClockAdvances(w.tables, step)
    ensures LatestIsNewest(Respond(w, parse, step).0.tables)
  {
    StepChange(w, parse, step);
    ChangeKeepsNewest(w.tables, Respond(w, parse, step).0.tables, parse, step);
  }

  lemma {:induction false} NewestAt(ts: seq<Tables>, i: nat)
    requires i < |ts| && LatestIsNewest(ts[0])
    requires forall j :: 0 <= j < |ts| - 1 ==> LatestIsNewest(ts[j]) ==> LatestIsNewest(ts[j + 1])
    ensures LatestIsNewest(ts[i])
    decreases i
  {
    if i > 0 {
      NewestAt(ts, i - 1);
      assert ts[(i - 1) + 1] == ts[i];
    }
  }

  lemma RunKeepsNewest(parse: string -> Option<ParsedUrl>, steps: seq<Step>)
    requires Invariant(START.tables) && ClockAdvancesAlong(parse, steps)
    ensures LatestIsNewest(Run(START, parse, steps).tables)
  {
    var ts := Trace(parse, steps);
    TraceEnd(parse, steps);
    forall j | 0 <= j < |steps| ensures LatestIsNewest(ts[j]) ==> LatestIsNewest(ts[j + 1]) {
      TraceStep(parse, steps, j);
      if LatestIsNewest(ts[j]) { StepKeepsNewest(Run(START, parse, steps[..j]), parse, steps[j]); }
    }
    NewestAt(ts, |steps|);
  }

  // ----- build numbers over runs -----

  lemma CreatedGrows(t: Tables, t': Tables, user: Uuid, req: ProjectRequest, env: Env, pid: Uuid)
    requires RevisionKeys(t.revisions, t.projects, t.users) && CreateChange(t, t', user, req, env) && pid in t'.projects
    ensures GrowsLater(t, t', pid)
  {
    if t' != t { CreatedRows(t, user, req, env); }
  }

  lemma SavedGrows(t: Tables, t': Tables, parse: string -> Option<ParsedUrl>, user: Uuid, p: Uuid,
      req: SettingsRequest, env: Env, pid: Uuid)
    requires SaveChange(t, t', parse, user, p, req, env)
    requires forall r :: r in RevisionsOf(t, p) ==> t.revisions[r].createdAt < env.now
    ensures GrowsLater(t, t', pid)
  {
    if t' != t { SavedLatest(t, Merged(LatestRevision(t, p), user, p, req, env), env); }
  }

  lemma RemovedGrows(t: Tables, t': Tables, gone: Uuid, pid: Uuid)
    requires ForeignKeys(t) && OwnRevision(t.projects, t.revisions) && OwnEvent(t.projects, t.revisions, t.events)
    requires RemoveChange(t, t', gone) && pid in t'.projects
    ensures GrowsLater(t, t', pid)
  {
    if t' != t {
      SurvivorsUnchanged(t, gone);
      SameRevisionsGrow(t, t', pid);
    }
  }

  lemma SameRevisionsGrow(t: Tables, t': Tables, pid: Uuid)
    requires forall r :: r in t'.revisions ==> r in t.revisions && t'.revisions[r] == t.revisions[r]
    requires forall r :: r in RevisionsOf(t, pid) ==> r in t'.revisions
    ensures GrowsLater(t, t', pid)
  {}

  lemma ChangeGrows(t: Tables, t': Tables, parse: string -> Option<ParsedUrl>, step: Step, pid: Uuid)
    requires ForeignKeys(t) && OwnRevision(t.projects, t.revisions) && OwnEvent(t.projects, t.revisions, t.events)
    requires Change(t, t', parse, step) && ClockAdvances(t, step) && pid in t'.projects
    ensures GrowsLater(t, t', pid)
  {
    match step.operation
    case CreateProject(user, project) => CreatedGrows(t, t', user, project, step.env, pid);
    case SaveSettings(user, p, settings) => SavedGrows(t, t', parse, user, p, settings, step.env, pid);
    case RemoveProject(user, gone) => RemovedGrows(t, t', gone, pid);
    case _ =>
  }

  /** What a step does to a project's revisions, whether or not the project was there before. */
  ghost predicate Grows(t: Tables, t': Tables, pid: Uuid) {
    && (pid in t'.projects ==> GrowsLater(t, t', pid))
    && (pid !in t.projects ==> RevisionsOf(t, pid) == {})
  }

  lemma StepGrows(w: World, parse: string -> Option<ParsedUrl>, step: Step, pid: Uuid)
    requires Invariant(w.tables) && ClockAdvances(w.tables, step)
    ensures Grows(w.tables, Respond(w, parse, step).0.tables, pid)
  {
    var t' := Respond(w, parse, step).0.tables;
    StepChange(w, parse, step);
    if pid in t'.projects { ChangeGrows(w.tables, t', parse, step, pid); }
  }

  lemma TraceGrows(parse: string -> Option<ParsedUrl>, steps: seq<Step>, pid: Uuid)
    requires Invariant(START.tables) && ClockAdvancesAlong(parse, steps)
    ensures forall i :: 0 <= i < |steps| ==> Grows(Trace(parse, steps)[i], Trace(parse, steps)[i + 1], pid)
  {
    forall i | 0 <= i < |steps| ensures Grows(Trace(parse, steps)[i], Trace(parse, steps)[i + 1], pid) {
      TraceStep(parse, steps, i);
      StepGrows(Run(START, parse, steps[..i]), parse, steps[i], pid);
    }
  }

  lemma {:induction false} DistinctAt(ts: seq<Tables>, i: nat, pid: Uuid)
    requires i < |ts| && RevisionsOf(ts[0], pid) == {} && forall j :: 0 <= j < |ts| - 1 ==> Grows(ts[j], ts[j + 1], pid)
    ensures pid in ts[i].projects ==> DistinctTimes(ts[i], pid)
    decreases i
  {
    if i > 0 && pid in ts[i].projects {
      DistinctAt(ts, i - 1, pid);
      assert Grows(ts[i - 1], ts[(i - 1) + 1], pid);
      GrowthKeepsDistinct(ts[i - 1], ts[i], pid);
    }
  }

  lemma {:induction false} NumbersKeptTo(ts: seq<Tables>, k: nat, i: nat, pid: Uuid, r: Uuid, n: nat)
    requires k <= i < |ts| && forall j :: k <= j < i ==> GrowsLater(ts[j], ts[j + 1], pid)
    requires DistinctTimes(ts[k], pid) && r in RevisionsOf(ts[k], pid)
    ensures DistinctTimes(ts[i], pid) && r in RevisionsOf(ts[i], pid)
    ensures RowNumber(ts[i], pid, r, n) <==> RowNumber(ts[k], pid, r, n)
    decreases i
  {
    if i > k {
      NumbersKeptTo(ts, k, i - 1, pid, r, n);
      assert GrowsLater(ts[i - 1], ts[(i - 1) + 1], pid);
      NumberThrough(ts[i - 1], ts[i], pid, r, n);
    }
  }

  lemma NumberThrough(t: Tables, t': Tables, pid: Uuid, r: Uuid, n: nat)
    requires DistinctTimes(t, pid) && r in RevisionsOf(t, pid) && GrowsLater(t, t', pid)
    ensures DistinctTimes(t', pid) && r in RevisionsOf(t', pid)
    ensures RowNumber(t', pid, r, n) <==> RowNumber(t, pid, r, n)
  {
    GrowthKeepsDistinct(t, t', pid);
    GrowthKeepsNumbers(t, t', pid, r, n);
  }

  /** In every state reached while creation times advance, the build numbers of a project are exactly
      1..n, each used once. */
  lemma RunNumbersAreOneToN(parse: string -> Option<ParsedUrl>, steps: seq<Step>, pid: Uuid)
    requires Invariant(START.tables) && ClockAdvancesAlong(parse, steps)
      && pid in Run(START, parse, steps).tables.projects
    ensures var t := Run(START, parse, steps).tables;
      && DistinctTimes(t, pid) && NumbersUnique(t, pid)
      && (forall n: nat :: NumberInUse(t, pid, n) <==> 1 <= n <= |RevisionsOf(t, pid)|)
  {
    TraceEnd(parse, steps);
    TraceGrows(parse, steps, pid);
    DistinctAt(Trace(parse, steps), |steps|, pid);
    NumbersAreOneToN(Run(START, parse, steps).tables, pid);
  }

  /** Along any further steps through which the project survives, no revision's build number changes. */
  lemma RunKeepsNumbers(parse: string -> Option<ParsedUrl>, steps: seq<Step>, k: nat, pid: Uuid, r: Uuid, n: nat)
    requires Invariant(START.tables) && ClockAdvancesAlong(parse, steps) && k <= |steps|
    requires forall j :: k <= j <= |steps| ==> pid in Trace(parse, steps)[j].projects
    requires r in RevisionsOf(Trace(parse, steps)[k], pid)
    ensures r in RevisionsOf(Run(START, parse, steps).tables, pid)
    ensures RowNumber(Run(START, parse, steps).tables, pid, r, n) <==> RowNumber(Trace(parse, steps)[k], pid, r, n)
  {
    var ts := Trace(parse, steps);
    TraceEnd(parse, steps);
    TraceGrows(parse, steps, pid);
    DistinctAt(ts, k, pid);
    forall j | k <= j < |steps| ensures GrowsLater(ts[j], ts[j + 1], pid) {
      assert Grows(ts[j], ts[j + 1], pid);
    }
    NumbersKeptTo(ts, k, |steps|, pid, r, n);
  }

  /** In every state reached while creation times advance per project, the build number of a project's
      summary is the row number of its latest revision in every evaluation of the window function. */
  lemma SummaryNumberIsRowNumber(parse: string -> Option<ParsedUrl>, steps: seq<Step>, pid: Uuid, n: nat)
    requires Invariant(START.tables) && ClockAdvancesAlong(parse, steps)
    requires var t := Run(START, parse, steps).tables; pid in t.projects && t.projects[pid].latestRevisionId.Some?
    ensures var t := Run(START, parse, steps).tables;
      RowNumber(t, pid, t.projects[pid].latestRevisionId.value, n) <==> n == SummaryOf(t, t.projects[pid]).buildNumber
  {
    var t := Run(START, parse, steps).tables;
    RunKeepsNewest(parse, steps);
    LatestRowNumber(t, pid, t.projects[pid].latestRevisionId.value, n);
    assert t.projects[pid].id == pid;
  }

  lemma LatestRowNumber(t: Tables, pid: Uuid, latest: Uuid, n: nat)
    requires StrictlyNewest(t, pid, latest)
    ensures RowNumber(t, pid, latest, n) <==> n == |RevisionsOf(t, pid)|
  {
    LatestNumberIsCountIff(t, pid, latest);
    var order := OrderExists(t.revisions, RevisionsOf(t, pid));
    DistinctCount(order);
    assert Elements(order) == RevisionsOf(t, pid);
    assert latest in order;
    var i :| 0 <= i < |order| && order[i] == latest;
    assert order[(i + 1) - 1] == latest;
    assert RowNumber(t, pid, latest, i + 1);
  }
}
