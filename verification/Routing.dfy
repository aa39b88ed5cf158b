/** The gateway's configuration, the public URL of a project, and the revision a route reports to. */
module Routing {
  import opened Prelude
  import opened Text
  import opened Schema
  import opened Queries
  import opened Gateway
  import opened Api
  import opened Agreement
  import opened HostNames
  import UuidText

  datatype Environment = Environment(
    gatewayHostScheme: string, gatewayHostFormat: string, gatewayPathFormat: string, hostScheme: string, host: string)

  datatype Url = Url(scheme: string, host: string, path: string)

  datatype Proxy = Proxy(path: string, authenticated: bool, telemetry: bool, webhook: Url, http: Option<ParsedUrl>)

  datatype Config = Config(host: Url, publicClient: bool, proxies: seq<Proxy>)

  ghost predicate Formats(e: Environment) { Supported(e.gatewayHostFormat) && Supported(e.gatewayPathFormat) }

  // ----- configuration -----

  /** The host of an organization: its custom domain, otherwise the host format with its name. */
  function HostOf(e: Environment, customDomain: Option<string>, name: string): string
    requires Supported(e.gatewayHostFormat)
  {
    if customDomain.Some? then customDomain.value else Sprintf(e.gatewayHostFormat, name)
  }

  function EffectiveHost(e: Environment, spec: GatewaySpec): string
    requires Supported(e.gatewayHostFormat)
  {
    HostOf(e, spec.customDomain, spec.organizationName)
  }

  const WEBHOOK := "/webhook/proxy/"

  ghost predicate ProxyUrlParses(parse: string -> Option<ParsedUrl>, s: ProjectSpec) {
    s.proxyUrl.Some? ==> parse(s.proxyUrl.value).Some?
  }

  ghost predicate RouteUrlsParse(parse: string -> Option<ParsedUrl>, specs: seq<ProjectSpec>) {
    forall i :: 0 <= i < |specs| ==> ProxyUrlParses(parse, specs[i])
  }

  /** What the configuration holds for one project of the gateway. */
  ghost predicate IsProxyFor(e: Environment, parse: string -> Option<ParsedUrl>, s: ProjectSpec, p: Proxy)
    requires Formats(e)
  {
    && p.path == Sprintf(e.gatewayPathFormat, s.projectName)
    && p.authenticated == s.authenticated && p.telemetry == s.telemetry
    && p.webhook == Url(e.hostScheme, e.host, WEBHOOK + UuidText.ToText(s.revisionId))
    && (if s.proxyUrl.Some? then p.http == parse(s.proxyUrl.value) && p.http.Some? else p.http.None?)
  }

  /** One proxy per project of the gateway, in order; one proxy URL that does not parse leaves the whole
      organization without a configuration. */
  ghost predicate IsConfigFor(e: Environment, parse: string -> Option<ParsedUrl>, spec: GatewaySpec,
      config: Option<Config>)
    requires Formats(e)
  {
    && (config.Some? <==> RouteUrlsParse(parse, spec.projects))
    && (config.Some? ==>
          && config.value.host == Url(e.gatewayHostScheme, EffectiveHost(e, spec), "")
          && config.value.publicClient == spec.dcrPublicClient
          && |config.value.proxies| == |spec.projects|
          && forall i :: 0 <= i < |spec.projects| ==> IsProxyFor(e, parse, spec.projects[i], config.value.proxies[i]))
  }

  method GetGatewayConfig(e: Environment, parse: string -> Option<ParsedUrl>, spec: GatewaySpec)
      returns (config: Option<Config>)
    requires Formats(e)
    ensures IsConfigFor(e, parse, spec, config)
  {
    var cfg := Config(Url(e.gatewayHostScheme, EffectiveHost(e, spec), ""), spec.dcrPublicClient, []);
    var i := 0;
    while i < |spec.projects|
      invariant 0 <= i <= |spec.projects|
      invariant cfg == Config(Url(e.gatewayHostScheme, EffectiveHost(e, spec), ""), spec.dcrPublicClient, cfg.proxies)
      invariant |cfg.proxies| == i
      invariant forall j :: 0 <= j < i ==> ProxyUrlParses(parse, spec.projects[j])
      invariant forall j :: 0 <= j < i ==> IsProxyFor(e, parse, spec.projects[j], cfg.proxies[j])
    {
      var proxy := ProjectProxy(e, parse, spec.projects[i]);
      if proxy.None? {
        assert !ProxyUrlParses(parse, spec.projects[i]);
        return None;
      }
      cfg := cfg.(proxies := cfg.proxies + [proxy.value]);
      i := i + 1;
    }
    config := Some(cfg);
  }

  /** The body of the loop. */
  method ProjectProxy(e: Environment, parse: string -> Option<ParsedUrl>, project: ProjectSpec)
      returns (r: Option<Proxy>)
    requires Formats(e)
    ensures r.Some? <==> ProxyUrlParses(parse, project)
    ensures r.Some? ==> IsProxyFor(e, parse, project, r.value)
  {
    var proxy := Proxy(
      Sprintf(e.gatewayPathFormat, project.projectName), project.authenticated, project.telemetry,
      Url(e.hostScheme, e.host, WEBHOOK + UuidText.ToText(project.revisionId)), None);
    if project.proxyUrl.Some? {
      var proxyUrl := parse(project.proxyUrl.value);
      if proxyUrl.None? {
        return None;
      }
      proxy := proxy.(http := proxyUrl);
    }
    r := Some(proxy);
  }

  // ----- the public URL -----

  function McpUrl(e: Environment, ps: ProjectSummary): Url
    requires Formats(e)
  {
    var u := Url(e.gatewayHostScheme, Sprintf(e.gatewayHostFormat, ps.organization.name),
        Sprintf(e.gatewayPathFormat, ps.project.name));
    if ps.organization.settings.customDomain.Some? then u.(host := ps.organization.settings.customDomain.value) else u
  }

  /** The segment of the route /webhook/proxy/{deploymentRevisionID}. */
  function RevisionParam(path: string): Option<string> {
    if |path| > |WEBHOOK| && path[..|WEBHOOK|] == WEBHOOK && '/' !in path[|WEBHOOK|..] then
      Some(path[|WEBHOOK|..])
    else None
  }

  lemma WebhookNamesRevision(id: Uuid)
    ensures RevisionParam(WEBHOOK + UuidText.ToText(id)).Some?
    ensures UuidText.Parse(RevisionParam(WEBHOOK + UuidText.ToText(id)).value) == Some(id)
  {
    var path := WEBHOOK + UuidText.ToText(id);
    assert path[..|WEBHOOK|] == WEBHOOK && path[|WEBHOOK|..] == UuidText.ToText(id);
    UuidText.ParseInvertsText(id);
  }

  lemma RouteIndex(t: Tables, pid: Uuid) returns (i: nat)
    requires Projectable(t) && PrimaryKeys(t) && pid in t.projects && IsDeployed(t.projects[pid])
    ensures var specs := RouteList(t, t.projects[pid].organizationId);
      && i < |specs| && EntryOf(t, pid, specs[i])
      && forall j :: 0 <= j < |specs| && specs[j].projectName == t.projects[pid].name ==> j == i
  {
    var specs := RouteList(t, t.projects[pid].organizationId);
    ProjectionEntries(t, t.projects[pid].organizationId);
    i :| 0 <= i < |specs| && specs[i].projectId == pid;
    assert EntryOf(t, pid, specs[i]);
    forall j | 0 <= j < |specs| && specs[j].projectName == t.projects[pid].name ensures j == i {
      LessIrreflexive(specs[i].projectName);
    }
  }

  /** Only the project's own route has its path. */
  lemma PathIsOwn(e: Environment, parse: string -> Option<ParsedUrl>, specs: seq<ProjectSpec>, proxies: seq<Proxy>,
      name: string, i: nat)
    requires Formats(e) && |proxies| == |specs| && i < |specs| && specs[i].projectName == name
    requires forall j :: 0 <= j < |specs| ==> IsProxyFor(e, parse, specs[j], proxies[j])
    requires forall j :: 0 <= j < |specs| && specs[j].projectName == name ==> j == i
    ensures forall j :: 0 <= j < |proxies| ==> (proxies[j].path == Sprintf(e.gatewayPathFormat, name) <==> j == i)
  {
    forall j | 0 <= j < |proxies| ensures proxies[j].path == Sprintf(e.gatewayPathFormat, name) <==> j == i {
      assert IsProxyFor(e, parse, specs[j], proxies[j]);
      if proxies[j].path == Sprintf(e.gatewayPathFormat, name) {
        SprintfInjective(e.gatewayPathFormat, specs[j].projectName, name);
      }
    }
  }

  /** The route of a project's entry carries its revision's flags and proxy URL and reports to it. */
  lemma RouteReports(e: Environment, parse: string -> Option<ParsedUrl>, s: ProjectSpec, p: Proxy)
    requires Formats(e) && IsProxyFor(e, parse, s, p)
    ensures p.authenticated == s.authenticated && p.telemetry == s.telemetry
    ensures p.http == if s.proxyUrl.Some? then parse(s.proxyUrl.value) else None
    ensures RevisionParam(p.webhook.path).Some?
      && UuidText.Parse(RevisionParam(p.webhook.path).value) == Some(s.revisionId)
  {
    WebhookNamesRevision(s.revisionId);
  }

  /** The configuration of an agreeing gateway, read off the store. */
  lemma AgreeingConfig(e: Environment, parse: string -> Option<ParsedUrl>, w: World, orgId: Uuid, config: Config)
    requires Formats(e) && Projectable(w.tables) && orgId in w.tables.organizations
      && w.tables.organizations[orgId].id == orgId
    requires Agrees(w, w.tables.organizations[orgId])
    requires var name := w.tables.organizations[orgId].name;
      name in w.cluster && IsConfigFor(e, parse, w.cluster[name], Some(config))
    ensures var org := w.tables.organizations[orgId];
      config.host == Url(e.gatewayHostScheme, HostOf(e, org.settings.customDomain, org.name), "")
      && config.publicClient == org.settings.dcrPublicClient
    ensures var specs := RouteList(w.tables, orgId);
      |config.proxies| == |specs| && forall j :: 0 <= j < |specs| ==> IsProxyFor(e, parse, specs[j], config.proxies[j])
  {}

  lemma RouteOfProject(e: Environment, parse: string -> Option<ParsedUrl>, t: Tables, pid: Uuid, proxies: seq<Proxy>)
      returns (i: nat)
    requires Formats(e) && Projectable(t) && PrimaryKeys(t) && pid in t.projects && IsDeployed(t.projects[pid])
    requires var specs := RouteList(t, t.projects[pid].organizationId);
      |proxies| == |specs| && forall j :: 0 <= j < |specs| ==> IsProxyFor(e, parse, specs[j], proxies[j])
    ensures i < |proxies|
    ensures forall j :: 0 <= j < |proxies| ==>
      (proxies[j].path == Sprintf(e.gatewayPathFormat, t.projects[pid].name) <==> j == i)
    ensures var latest := t.revisions[t.projects[pid].latestRevisionId.value];
      && proxies[i].authenticated == latest.authenticated && proxies[i].telemetry == latest.telemetry
      && proxies[i].http == (if latest.proxyUrl.Some? then parse(latest.proxyUrl.value) else None)
      && RevisionParam(proxies[i].webhook.path).Some?
      && UuidText.Parse(RevisionParam(proxies[i].webhook.path).value) == Some(latest.id)
  {
    i := RouteIndex(t, pid);
    var specs := RouteList(t, t.projects[pid].organizationId);
    PathIsOwn(e, parse, specs, proxies, t.projects[pid].name, i);
    RouteReports(e, parse, specs[i], proxies[i]);
  }

  /** When the gateway agrees with the store, the public URL of a deployed project has the host of the
      gateway and the path of exactly one of its routes, and that route leads to the proxy URL of the project's latest
      revision, with its flags, and reports to it. */
  lemma McpUrlIsRouted(e: Environment, parse: string -> Option<ParsedUrl>, w: World, pid: Uuid, config: Config)
      returns (i: nat)
    requires Formats(e) && Invariant(w.tables) && pid in w.tables.projects && IsDeployed(w.tables.projects[pid])
    requires Agrees(w, w.tables.organizations[w.tables.projects[pid].organizationId])
    requires var name := w.tables.organizations[w.tables.projects[pid].organizationId].name;
      name in w.cluster && IsConfigFor(e, parse, w.cluster[name], Some(config))
    ensures var url := McpUrl(e, SummaryOf(w.tables, w.tables.projects[pid]));
      var project := w.tables.projects[pid]; var org := w.tables.organizations[project.organizationId];
      && url.scheme == config.host.scheme && url.host == config.host.host
      && (if org.settings.customDomain.Some? then Some(url.host) == org.settings.customDomain
          else url.host == Sprintf(e.gatewayHostFormat, org.name))
      && url.path == Sprintf(e.gatewayPathFormat, project.name)
      && i < |config.proxies|
      && (forall j :: 0 <= j < |config.proxies| ==> (config.proxies[j].path == url.path <==> j == i))
    ensures var latest := w.tables.revisions[w.tables.projects[pid].latestRevisionId.value];
      && config.proxies[i].authenticated == latest.authenticated && config.proxies[i].telemetry == latest.telemetry
      && config.proxies[i].http == (if latest.proxyUrl.Some? then parse(latest.proxyUrl.value) else None)
      && config.publicClient == w.tables.organizations[w.tables.projects[pid].organizationId].settings.dcrPublicClient
      && RevisionParam(config.proxies[i].webhook.path).Some?
      && UuidText.Parse(RevisionParam(config.proxies[i].webhook.path).value) == Some(latest.id)
  {
    var t := w.tables;
    AgreeingConfig(e, parse, w, t.projects[pid].organizationId, config);
    i := RouteOfProject(e, parse, t, pid, config.proxies);
  }

  // ----- unparsable proxy URLs -----

  ghost predicate StoredUrlParses(parse: string -> Option<ParsedUrl>, r: DeploymentRevision) {
    r.proxyUrl.Some? ==> parse(r.proxyUrl.value).Some?
  }

  /** Every latest proxy URL of the organization's deployed projects parses. */
  ghost predicate LatestUrlsParse(parse: string -> Option<ParsedUrl>, t: Tables, orgId: Uuid)
    requires PointerKeys(t.projects, t.revisions, t.events)
  {
    forall pid :: pid in t.projects && t.projects[pid].organizationId == orgId && IsDeployed(t.projects[pid])
      ==> StoredUrlParses(parse, t.revisions[t.projects[pid].latestRevisionId.value])
  }

  lemma RoutesParse(parse: string -> Option<ParsedUrl>, t: Tables, orgId: Uuid)
    requires Projectable(t) && PrimaryKeys(t) && LatestUrlsParse(parse, t, orgId)
    ensures RouteUrlsParse(parse, RouteList(t, orgId))
  {
    var specs := RouteList(t, orgId);
    ProjectionEntries(t, orgId);
    forall i | 0 <= i < |specs| ensures ProxyUrlParses(parse, specs[i]) {
      assert EntryOf(t, specs[i].projectId, specs[i]);
    }
  }

  lemma UrlsParse(parse: string -> Option<ParsedUrl>, t: Tables, orgId: Uuid)
    requires Projectable(t) && PrimaryKeys(t) && RouteUrlsParse(parse, RouteList(t, orgId))
    ensures LatestUrlsParse(parse, t, orgId)
  {
    forall pid | pid in t.projects && t.projects[pid].organizationId == orgId && IsDeployed(t.projects[pid])
      ensures StoredUrlParses(parse, t.revisions[t.projects[pid].latestRevisionId.value])
    {
      var i := RouteIndex(t, pid);
      assert ProxyUrlParses(parse, RouteList(t, orgId)[i]);
    }
  }

  /** An agreeing gateway has a configuration exactly when the latest proxy URL of every deployed
      project of the organization parses. */
  lemma ConfigExistsIff(e: Environment, parse: string -> Option<ParsedUrl>, w: World, orgId: Uuid,
      config: Option<Config>)
    requires Formats(e) && Invariant(w.tables) && orgId in w.tables.organizations
    requires Agrees(w, w.tables.organizations[orgId])
    requires var name := w.tables.organizations[orgId].name;
      name in w.cluster && IsConfigFor(e, parse, w.cluster[name], config)
    ensures config.Some? <==> LatestUrlsParse(parse, w.tables, orgId)
  {
    assert w.cluster[w.tables.organizations[orgId].name].projects == RouteList(w.tables, orgId);
    if config.Some? {
      UrlsParse(parse, w.tables, orgId);
    } else if LatestUrlsParse(parse, w.tables, orgId) {
      RoutesParse(parse, w.tables, orgId);
    }
  }

  // ----- the default formats -----

  const HOST_SUFFIX := ".hyprmcp.cloud"
  const PATH_SUFFIX := "/mcp"
  const DEFAULT_HOST_FORMAT := "%v" + HOST_SUFFIX
  const DEFAULT_PATH_FORMAT := "/" + ("%v" + PATH_SUFFIX)

  /** The defaults put the organization's name first in the host and the project's name between
      "/" and "/mcp" in the path. */
  lemma DefaultHost(name: string)
    ensures Supported(DEFAULT_HOST_FORMAT) && Sprintf(DEFAULT_HOST_FORMAT, name) == name + HOST_SUFFIX
  {
    SprintfFront("%v", HOST_SUFFIX, name);
  }

  lemma DefaultPath(name: string)
    ensures Supported(DEFAULT_PATH_FORMAT) && Sprintf(DEFAULT_PATH_FORMAT, name) == "/" + (name + PATH_SUFFIX)
  {
    SprintfFront("%v", PATH_SUFFIX, name);
    ExpandPlain("/", "%v" + PATH_SUFFIX, Some(name));
  }

  /** A placeholder label followed by literal labels is a host format, as the default is. */
  lemma DefaultHostFormat(rest: string)
    requires '%' !in rest
    ensures HostFormat("%v" + (['.'] + rest))
  {
    var format := "%v" + (['.'] + rest);
    SplitAt("%v", rest, '.');
    JoinSplit(rest, '.');
    LabelsWithout(Split(rest, '.'), '.', '%');
    assert Split(format, '.')[0] == "%v";
    forall i | 0 <= i < |Split(format, '.')| && i != 0 ensures '%' !in Split(format, '.')[i] {
      assert Split(format, '.')[i] == Split(rest, '.')[i - 1];
    }
    assert OnePlaceholder(format, 0);
  }

  /** A character missing from the joined text is missing from every label. */
  lemma {:induction false} LabelsWithout(labels: seq<string>, sep: char, c: char)
    requires |labels| >= 1 && c !in Join(labels, sep)
    ensures forall i :: 0 <= i < |labels| ==> c !in labels[i]
  {
    if |labels| == 1 {
    } else {
      LabelsWithout(labels[1..], sep, c);
      assert labels == [labels[0]] + labels[1..];
    }
  }
}
