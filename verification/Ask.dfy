/** The TLS ask webhook, the names it relies on, and the proxy URLs that can leave an organization
    without a gateway configuration. */
module Ask {
  import opened Prelude
  import opened Text
  import opened Validation
  import opened HostNames
  import opened Schema
  import opened Gateway
  import opened Store
  import opened Api
  import opened Invariants
  import opened Agreement
  import opened Reconciler
  import opened Histories
  import opened Routing

  // ----- names in reachable states -----

  predicate OrganizationValid(org: Organization) {
    ValidName(org.name) && (org.settings.customDomain.Some? ==> ValidDomain(org.settings.customDomain.value))
  }

  ghost predicate NamesValid(t: Tables) {
    && (forall o :: o in t.organizations ==> OrganizationValid(t.organizations[o]))
    && (forall p :: p in t.projects ==> ValidName(t.projects[p].name))
  }

  lemma CreatedNames(t: Tables, t': Tables, user: Uuid, req: ProjectRequest, env: Env)
    requires NamesValid(t) && ValidName(req.name) && CreateChange(t, t', user, req, env)
    ensures NamesValid(t')
  {
    if t' != t {
      CreatedRows(t, user, req, env);
      CreatedFrame(t, user, req, env);
      AddedNames(t, t', env.projectId);
    }
  }

  lemma AddedNames(t: Tables, t': Tables, project: Uuid)
    requires NamesValid(t) && t'.organizations == t.organizations
    requires t'.projects.Keys == t.projects.Keys + {project} && ValidName(t'.projects[project].name)
    requires forall p :: p in t.projects ==> t'.projects[p] == t.projects[p]
    ensures NamesValid(t')
  {}

  lemma RevisionSameNames(t: Tables, row: DeploymentRevision)
    requires row.projectId in t.projects
    ensures SameNames(t.projects, WithRevision(t, row).projects)
      && WithRevision(t, row).organizations == t.organizations
  {}

  lemma EventSameNames(t: Tables, row: RevisionEvent)
    requires row.revisionId in t.revisions && t.revisions[row.revisionId].projectId in t.projects
    ensures SameNames(t.projects, WithEvent(t, row).projects) && WithEvent(t, row).organizations == t.organizations
  {}

  lemma SavedSameNames(t: Tables, row: DeploymentRevision, env: Env)
    requires row.projectId in t.projects && SettingsSaved(t, row, env).Some?
    ensures SameNames(t.projects, SettingsSaved(t, row, env).value.projects)
    ensures SettingsSaved(t, row, env).value.organizations == t.organizations
  {
    RevisionSameNames(t, row);
    if row.ociUrl.Some? { EventSameNames(WithRevision(t, row), NewEvent(row.id, EventProgressing, env)); }
  }

  lemma SavedNames(t: Tables, t': Tables, parse: string -> Option<ParsedUrl>, user: Uuid, pid: Uuid,
      req: SettingsRequest, env: Env)
    requires NamesValid(t) && SaveChange(t, t', parse, user, pid, req, env)
    ensures NamesValid(t')
  {
    if t' != t { SavedSameNames(t, Merged(LatestRevision(t, pid), user, pid, req, env), env); }
  }

  lemma OrganizationNames(w: World, user: Uuid, name: string, env: Env)
    requires NamesValid(w.tables)
    ensures NamesValid(PostOrganization(w, user, name, env).0.tables)
  {}

  /** The input check of a request that stores a name or a domain. */
  predicate Checked(op: Operation) {
    && (op.CreateProject? ==> ValidName(op.project.name))
    && (op.SaveOrganization? ==> AcceptableDomain(op.organization))
  }

  lemma ChangeIsChecked(w: World, parse: string -> Option<ParsedUrl>, step: Step)
    requires Readable(w.tables) && !Checked(step.operation)
    ensures Respond(w, parse, step).0 == w
  {}

  lemma ChangeNames(t: Tables, t': Tables, parse: string -> Option<ParsedUrl>, step: Step)
    requires Change(t, t', parse, step) && !Bystander(step.operation) && Checked(step.operation) && NamesValid(t)
    ensures NamesValid(t')
  {
    match step.operation
    case CreateProject(user, project) => CreatedNames(t, t', user, project, step.env);
    case SaveSettings(user, pid, settings) => SavedNames(t, t', parse, user, pid, settings, step.env);
    case RemoveProject(user, pid) =>
    case SaveOrganization(user, orgId, organization) =>
      if t' != t { assert OrganizationValid(t.organizations[orgId]); }
    case _ => assert false;
  }

  lemma MemberAddedNames(t: Tables, orgId: Uuid, email: string, env: Env)
    requires UniqueUsers(t.users) && MemberAdded(t, orgId, email, env).Some?
    ensures MemberAdded(t, orgId, email, env).value.organizations == t.organizations
    ensures MemberAdded(t, orgId, email, env).value.projects == t.projects
  {
    InsertedUserUnique(t, email, env);
  }

  lemma PutMemberNames(w: World, user: Uuid, orgId: Uuid, email: string, env: Env)
    requires UniqueUsers(w.tables.users)
    ensures PutMember(w, user, orgId, email, env).0.tables.organizations == w.tables.organizations
    ensures PutMember(w, user, orgId, email, env).0.tables.projects == w.tables.projects
  {
    if PutMember(w, user, orgId, email, env).0 != w { MemberAddedNames(w.tables, orgId, email, env); }
  }

  lemma RemovalFrame(w: World, user: Uuid, orgId: Uuid, target: Uuid, env: Env)
    ensures DeleteMemberStep(w, user, orgId, target, env).0.tables
         == w.tables.(members := DeleteMemberStep(w, user, orgId, target, env).0.tables.members)
  {}

  lemma StepKeepsNames(w: World, parse: string -> Option<ParsedUrl>, step: Step)
    requires Readable(w.tables) && NamesValid(w.tables)
    ensures NamesValid(Respond(w, parse, step).0.tables)
  {
    var t' := Respond(w, parse, step).0.tables;
    StepChange(w, parse, step);
    match step.operation
    case CreateOrganization(user, name) => OrganizationNames(w, user, name, step.env);
    case AddMember(user, orgId, email) => PutMemberNames(w, user, orgId, email, step.env);
    case RemoveMember(user, orgId, target) => RemovalFrame(w, user, orgId, target, step.env);
    case Authenticate(email) => SignInFrame(w, email, step.env);
    case ReceiveReport(param, report) => ReportFrame(w, param, report, step.env);
    case _ =>
      if Checked(step.operation) {
        ChangeNames(w.tables, t', parse, step);
      } else {
        ChangeIsChecked(w, parse, step);
      }
  }

  /** Every organization and project name of a reachable state passed validation. */
  lemma {:induction false} RunKeepsNames(parse: string -> Option<ParsedUrl>, steps: seq<Step>)
    requires Invariant(START.tables)
    ensures NamesValid(Run(START, parse, steps).tables)
    decreases |steps|
  {
    if steps != [] {
      RunKeepsNames(parse, steps[..|steps| - 1]);
      StepKeepsNames(Run(START, parse, steps[..|steps| - 1]), parse, steps[|steps| - 1]);
    }
  }

  // ----- the ask decision -----

  function WithName(t: Tables, name: string): set<Uuid> {
    set o | o in t.organizations && t.organizations[o].name == name
  }

  function WithCustomDomain(t: Tables, domain: string): set<Uuid> {
    set o | o in t.organizations && t.organizations[o].settings.customDomain == Some(domain)
  }

  /** Exactly one row exists, no row does not exist, several rows are an error. */
  function ExistsStatus(rows: set<Uuid>): Status {
    if |rows| == 0 then NotFound else if |rows| == 1 then Ok else InternalError
  }

  /** A domain that matches the host format is looked up by name, any other by custom domain. */
  function Decision(t: Tables, domain: string, found: Option<string>): Status {
    if domain == "" then BadRequest
    else if found.Some? then ExistsStatus(WithName(t, found.value))
    else ExistsStatus(WithCustomDomain(t, domain))
  }

  /** The domain is what the format makes of a name, of an organization's name. */
  ghost predicate IsDefaultHost(format: string, domain: string)
    requires Supported(format)
  {
    exists name :: '.' !in name && Sprintf(format, name) == domain
  }

  ghost predicate IsTakenHost(t: Tables, format: string, domain: string)
    requires Supported(format)
  {
    exists o :: o in t.organizations && Sprintf(format, t.organizations[o].name) == domain
  }

  /** A domain is served exactly when it is the default host of an organization, or no default host at
      all and the custom domain of exactly one organization; with several owners the request fails. */
  ghost predicate Answers(t: Tables, format: string, domain: string, status: Status)
    requires Supported(format)
  {
    && (status == BadRequest <==> domain == "")
    && (status == Ok <==>
          IsTakenHost(t, format, domain)
          || (!IsDefaultHost(format, domain) && exists o :: WithCustomDomain(t, domain) == {o}))
    && (status == InternalError <==>
          !IsDefaultHost(format, domain)
          && exists o, p :: o != p && o in WithCustomDomain(t, domain) && p in WithCustomDomain(t, domain))
  }

  method Answer(t: Tables, format: string, domain: string, queryFault: bool) returns (status: Status)
    ensures queryFault && domain != "" ==> status == InternalError
    ensures !queryFault || domain == "" ==> exists found ::
      IsOrgName(Split(format, '.'), Split(domain, '.'), found) && status == Decision(t, domain, found)
    ensures !queryFault || domain == "" ==>
      Supported(format) && HostFormat(format) && UniqueOrganizations(t.organizations) && NamesValid(t) ==>
        Answers(t, format, domain, status)
  {
    var found := GetOrgName(format, domain);
    if domain == "" {
      status := BadRequest;
    } else if queryFault {
      return InternalError;
    } else if found.Some? {
      status := ExistsStatus(WithName(t, found.value));
    } else {
      status := ExistsStatus(WithCustomDomain(t, domain));
    }
    if Supported(format) && HostFormat(format) && UniqueOrganizations(t.organizations) && NamesValid(t) {
      DecisionAnswers(t, format, domain, found);
    }
  }

  lemma FoundIff(format: string, domain: string, found: Option<string>)
    requires HostFormat(format) && Supported(format)
    requires IsOrgName(Split(format, '.'), Split(domain, '.'), found)
    ensures found.Some? <==> IsDefaultHost(format, domain)
    ensures found.Some? ==> '.' !in found.value && Sprintf(format, found.value) == domain
  {
    if found.Some? { FormattingInvertsMatching(format, domain, found.value); }
    if name :| '.' !in name && Sprintf(format, name) == domain {
      MatchingInvertsFormatting(format, name, found);
    }
  }

  lemma TakenIff(t: Tables, format: string, name: string)
    requires Supported(format)
    ensures IsTakenHost(t, format, Sprintf(format, name)) <==> NameTaken(t.organizations, name)
  {
    forall o | o in t.organizations && Sprintf(format, t.organizations[o].name) == Sprintf(format, name)
      ensures t.organizations[o].name == name
    {
      SprintfInjective(format, t.organizations[o].name, name);
    }
  }

  lemma RowStatus(rows: set<Uuid>)
    ensures ExistsStatus(rows) == Ok <==> exists o :: rows == {o}
    ensures ExistsStatus(rows) == InternalError <==> exists o, p :: o != p && o in rows && p in rows
  {
    if rows == {} {
    } else {
      var o :| o in rows;
      SingleRow(rows, o);
      if rows != {o} {
        assert rows == {o} + (rows - {o});
        var p :| p in rows - {o};
      }
    }
  }

  lemma NothingNamedEmpty(t: Tables, format: string)
    requires Supported(format) && NamesValid(t)
    ensures !IsTakenHost(t, format, "") && WithCustomDomain(t, "") == {}
  {
    forall o | o in t.organizations
      ensures Sprintf(format, t.organizations[o].name) != "" && t.organizations[o].settings.customDomain != Some("")
    {
      assert OrganizationValid(t.organizations[o]);
      NameCharacters(t.organizations[o].name);
      NonEmptyHost(format, t.organizations[o].name);
      if t.organizations[o].settings.customDomain.Some? {
        NonEmptyDomain(t.organizations[o].settings.customDomain.value);
      }
    }
  }

  lemma DecisionAnswers(t: Tables, format: string, domain: string, found: Option<string>)
    requires Supported(format) && HostFormat(format) && UniqueOrganizations(t.organizations) && NamesValid(t)
    requires IsOrgName(Split(format, '.'), Split(domain, '.'), found)
    ensures Answers(t, format, domain, Decision(t, domain, found))
  {
    FoundIff(format, domain, found);
    if domain == "" {
      NothingNamedEmpty(t, format);
    } else if found.Some? {
      NameRows(t, found.value);
      TakenIff(t, format, found.value);
    } else {
      RowStatus(WithCustomDomain(t, domain));
      if IsTakenHost(t, format, domain) { TakenIsDefault(t, format, domain); }
    }
  }

  lemma TakenIsDefault(t: Tables, format: string, domain: string)
    requires Supported(format) && NamesValid(t) && IsTakenHost(t, format, domain)
    ensures IsDefaultHost(format, domain)
  {
    var o :| o in t.organizations && Sprintf(format, t.organizations[o].name) == domain;
    assert OrganizationValid(t.organizations[o]);
    NameCharacters(t.organizations[o].name);
  }

  lemma SingleRow(rows: set<Uuid>, o: Uuid)
    requires o in rows
    ensures ExistsStatus(rows) == Ok <==> rows == {o}
    ensures ExistsStatus(rows) == Ok || ExistsStatus(rows) == InternalError
  {
    assert rows == {o} + (rows - {o});
    assert |rows| == 1 + |rows - {o}|;
  }

  lemma NameRow(t: Tables, o: Uuid)
    requires UniqueOrganizations(t.organizations) && o in t.organizations
    ensures WithName(t, t.organizations[o].name) == {o}
  {}

  lemma NameRows(t: Tables, name: string)
    requires UniqueOrganizations(t.organizations)
    ensures ExistsStatus(WithName(t, name)) == if NameTaken(t.organizations, name) then Ok else NotFound
  {
    if NameTaken(t.organizations, name) {
      var o :| o in t.organizations && t.organizations[o].name == name;
      NameRow(t, o);
    } else {
      assert WithName(t, name) == {};
    }
  }

  lemma DomainRows(t: Tables, o: Uuid)
    requires o in t.organizations && t.organizations[o].settings.customDomain.Some?
    ensures var rows := WithCustomDomain(t, t.organizations[o].settings.customDomain.value);
      o in rows && (rows == {o} <==> NotShared(t, o))
  {
    var rows := WithCustomDomain(t, t.organizations[o].settings.customDomain.value);
    if NotShared(t, o) {
      assert rows == {o};
    } else {
      var p :| p in t.organizations
          && t.organizations[p].settings.customDomain == t.organizations[o].settings.customDomain && p != o;
      assert p in rows;
    }
  }

  /** With a format whose one verb is only part of a label, a domain is served exactly when it is the
      custom domain of exactly one organization, the default hosts of organizations included. */
  lemma PartialVerbAnswers(t: Tables, prefix: string, verb: string, suffix: string, domain: string,
      found: Option<string>)
    requires OneVerb(prefix, verb, suffix)
    requires var labels := Split(prefix + (verb + suffix), '.');
      (forall k :: 0 <= k < |labels| ==> !IsPlaceholder(labels[k])) && IsOrgName(labels, Split(domain, '.'), found)
    ensures Decision(t, domain, found) == Ok <==> domain != "" && exists o :: WithCustomDomain(t, domain) == {o}
  {
    InvertsIffWholeLabel(prefix, verb, suffix);
    assert found.None?;
    RowStatus(WithCustomDomain(t, domain));
  }

  /** No other organization has this organization's custom domain. */
  ghost predicate NotShared(t: Tables, o: Uuid)
    requires o in t.organizations
  {
    forall p :: p in t.organizations ==>
      t.organizations[p].settings.customDomain == t.organizations[o].settings.customDomain ==> p == o
  }

  /** The host on an organization's ingress. */
  function IngressHost(e: Environment, org: Organization): string
    requires Supported(e.gatewayHostFormat)
  {
    HostOf(e, org.settings.customDomain, org.name)
  }

  /** When the ask handler accepts the host of an organization's ingress. Without a custom domain it
      always does. A custom domain that matches the host format is accepted exactly when some
      organization has the matched name; any other is accepted exactly when no other organization
      shares it, and sharing makes the handler fail for all of them. */
  lemma IngressHostAcceptedIff(e: Environment, t: Tables, o: Uuid, found: Option<string>)
    requires HostFormat(e.gatewayHostFormat) && Supported(e.gatewayHostFormat)
    requires UniqueOrganizations(t.organizations) && NamesValid(t) && o in t.organizations
    requires IsOrgName(Split(e.gatewayHostFormat, '.'), Split(IngressHost(e, t.organizations[o]), '.'), found)
    ensures Decision(t, IngressHost(e, t.organizations[o]), found) == Ok
       <==> || t.organizations[o].settings.customDomain.None?
            || (if found.Some? then NameTaken(t.organizations, found.value) else NotShared(t, o))
    ensures t.organizations[o].settings.customDomain.Some? && found.None? ==>
      Decision(t, IngressHost(e, t.organizations[o]), found) in {Ok, InternalError}
  {
    var org := t.organizations[o];
    var host := IngressHost(e, org);
    if org.settings.customDomain.None? {
      NameCharacters(org.name);
      MatchingInvertsFormatting(e.gatewayHostFormat, org.name, found);
      NonEmptyHost(e.gatewayHostFormat, org.name);
      NameRows(t, org.name);
    } else {
      assert host != "" by { NonEmptyDomain(host); }
      if found.Some? {
        NameRows(t, found.value);
      } else {
        var rows := WithCustomDomain(t, host);
        SingleRow(rows, o);
        DomainRows(t, o);
      }
    }
  }

  lemma NonEmptyDomain(domain: string)
    requires ValidDomain(domain)
    ensures domain != ""
  {
    JoinSplit(domain, '.');
    JoinCharacters(Split(domain, '.'), '.');
  }

  lemma NonEmptyHost(format: string, name: string)
    requires Supported(format) && name != ""
    ensures Sprintf(format, name) != ""
  {
    var p, q := Around(format, name);
  }

  /** The agreeing gateway's ingress host is the one the decision above is about. */
  lemma GatewayHostIsIngressHost(e: Environment, w: World, o: Uuid)
    requires Formats(e) && Projectable(w.tables) && o in w.tables.organizations
    requires Agrees(w, w.tables.organizations[o]) && w.tables.organizations[o].name in w.cluster
    ensures EffectiveHost(e, w.cluster[w.tables.organizations[o].name]) == IngressHost(e, w.tables.organizations[o])
  {}

  // ----- proxy URLs -----

  ghost predicate AllUrlsParse(parse: string -> Option<ParsedUrl>, t: Tables) {
    forall r :: r in t.revisions ==> StoredUrlParses(parse, t.revisions[r])
  }

  /** Only project creation can store a proxy URL that does not parse; settings updates check it. */
  lemma ChangeKeepsParsing(t: Tables, t': Tables, parse: string -> Option<ParsedUrl>, step: Step)
    requires Change(t, t', parse, step) && AllUrlsParse(parse, t)
    requires step.operation.CreateProject? && step.operation.project.proxyUrl.Some? ==>
      parse(step.operation.project.proxyUrl.value).Some?
    ensures AllUrlsParse(parse, t')
  {
    match step.operation
    case SaveSettings(user, pid, settings) =>
      if t' != t { SavedLatest(t, Merged(LatestRevision(t, pid), user, pid, settings, step.env), step.env); }
    case _ =>
  }

  /** The proxy URL of a new project is stored unchecked: after its creation every stored URL parses
      exactly when this one does. */
  lemma CreationParsesIff(t: Tables, parse: string -> Option<ParsedUrl>, user: Uuid, req: ProjectRequest, env: Env)
    requires AllUrlsParse(parse, t) && ProjectCreated(t, user, req, env).Some? && req.proxyUrl.Some?
    ensures AllUrlsParse(parse, ProjectCreated(t, user, req, env).value) <==> parse(req.proxyUrl.value).Some?
  {
    var t' := ProjectCreated(t, user, req, env).value;
    assert t'.revisions[env.revisionId].proxyUrl == req.proxyUrl;
  }

  lemma CreatedLatestRevision(t: Tables, user: Uuid, req: ProjectRequest, env: Env)
    requires ProjectCreated(t, user, req, env).Some? && req.proxyUrl.Some?
    ensures var t' := ProjectCreated(t, user, req, env).value;
      env.projectId in t'.projects && t'.projects[env.projectId].latestRevisionId == Some(env.revisionId)
      && t'.projects[env.projectId].organizationId == req.organizationId
      && env.revisionId in t'.revisions && t'.revisions[env.revisionId].proxyUrl == req.proxyUrl
  {}

  /** An agreeing gateway with a deployed project whose latest proxy URL is `url` has a configuration
      exactly when this URL parses, if every stored URL parses exactly then. */
  lemma ConfigFollowsUrl(e: Environment, parse: string -> Option<ParsedUrl>, w: World, pid: Uuid, url: string,
      config: Option<Config>)
    requires Formats(e) && Invariant(w.tables) && pid in w.tables.projects && IsDeployed(w.tables.projects[pid])
    requires Agrees(w, w.tables.organizations[w.tables.projects[pid].organizationId])
    requires var name := w.tables.organizations[w.tables.projects[pid].organizationId].name;
      name in w.cluster && IsConfigFor(e, parse, w.cluster[name], config)
    requires w.tables.revisions[w.tables.projects[pid].latestRevisionId.value].proxyUrl == Some(url)
    requires AllUrlsParse(parse, w.tables) <==> parse(url).Some?
    ensures config.Some? <==> parse(url).Some?
  {
    ConfigExistsIff(e, parse, w, w.tables.projects[pid].organizationId, config);
    assert StoredUrlParses(parse, w.tables.revisions[w.tables.projects[pid].latestRevisionId.value])
        <==> parse(url).Some?;
  }

  /** What a successful creation with a proxy URL leaves behind. */
  lemma CreationLeaves(w: World, user: Uuid, req: ProjectRequest, env: Env)
    requires Invariant(w.tables) && AllAgree(w)
    requires PostProject(w, user, req, env).1 == Ok && req.proxyUrl.Some? && ApplySucceeds(env.faults)
    ensures var w' := PostProject(w, user, req, env).0;
      && ProjectCreated(w.tables, user, req, env).Some? && w'.tables == ProjectCreated(w.tables, user, req, env).value
      && Invariant(w'.tables) && AllAgree(w') && w'.tables.organizations == w.tables.organizations
      && req.organizationId in w.tables.organizations
  {
    var w' := PostProject(w, user, req, env).0;
    CreatedRows(w.tables, user, req, env);
    assert w'.tables.projects != w.tables.projects by { assert env.projectId in w'.tables.projects; }
    CreateProjectAgrees(w, user, req, env);
    CreatedOrganizationsSame(w.tables, user, req, env);
  }

  /** One project created with a proxy URL that does not parse takes the configuration of its whole
      organization away; with one that parses the configuration exists. */
  lemma CreationDecidesConfig(e: Environment, parse: string -> Option<ParsedUrl>, w: World, user: Uuid,
      req: ProjectRequest, env: Env, config: Option<Config>)
    requires Formats(e) && Invariant(w.tables) && AllAgree(w) && AllUrlsParse(parse, w.tables)
    requires PostProject(w, user, req, env).1 == Ok && req.proxyUrl.Some? && ApplySucceeds(env.faults)
    requires var w' := PostProject(w, user, req, env).0;
      req.organizationId in w'.tables.organizations
      && var name := w'.tables.organizations[req.organizationId].name;
         name in w'.cluster && IsConfigFor(e, parse, w'.cluster[name], config)
    ensures config.Some? <==> parse(req.proxyUrl.value).Some?
  {
    CreationLeaves(w, user, req, env);
    CreationParsesIff(w.tables, parse, user, req, env);
    CreatedLatestRevision(w.tables, user, req, env);
    ConfigFollowsUrl(e, parse, PostProject(w, user, req, env).0, env.projectId, req.proxyUrl.value, config);
  }
}
