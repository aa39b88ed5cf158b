# Verified model of the control plane and the analytics engine

The system manages gateways for MCP servers. Organizations own projects; a project gets deployment
revisions; from the stored projects a reconciler derives one gateway per organization; a webhook turns
that gateway into a configuration whose routes report every exchange back under a revision id; the stored
reports are aggregated into analytics.

The project models both halves in Dafny and proves properties that hold over every run of requests, with
any sub-step failing, and for every list of logs. `dafny verify dfyconfig.toml` checks it.

## The control plane

- `Schema`, `Cascade`: the relational store, one map per table, the constraints of the migrations, the
  statements the application issues, and `DELETE` with its cascade and set-null rules.
- `Transactions`: a connection with nested transactions as a stack of snapshots, and `RunTx`.
- `Store`, `Handlers`: the writing functions of the `db` package and the HTTP handlers, statement by
  statement, over a `Database` and a `Server` object, one after another as `Serve` runs them. Identifiers,
  the clock and the set of sub-steps that fail are drawn from an `Env`.
- `Api`: one atomic function per request. Each handler is proved to have exactly its effect and status.
- `Effects`, `Access`: what each request stores column by column, exactly when it succeeds, and for whom:
  the rows before and after say so, without the functions above. `Usage`, `Summaries`: what the stored
  logs are and what the queries show in every reachable state.
- `Invariants`, `Histories`, `Clocks`, `Ask`: properties of all runs of requests. `Onboarding`: which requests
  succeed, and that a routed project is reachable from the empty system.
- `Gateway`, `Agreement`, `Reconciler`: the gateway as a projection of the store, and when the cluster
  agrees with the store. `Failures`, `Divergence`: what is left when an apply or a commit fails.
- `Routing`, `HostNames`, `Validation`, `Text`, `UuidText`: the gateway configuration, public URLs and the
  host matcher. `Reports`, `Isolation`: what becomes of the reports that the routes post, and what
  holds of all routes, in every reachable state.

## The analytics engine

- `Logs`: error classification, tool names, and the group-by the loops are measured against.
- `ToolsPerformance`, `Overview`, `Sessions`, `ToolAnalytics`, `Periods`: the loops and reports, each proved
  against the declarative reading, and the agreement of the reports with each other. `Slices` is the sort.
- `Readings`: the counts and error rates of the reports as numbers of positions in the list of logs, by
  criteria on the columns of one log.

## What the code does that a reader might not expect

The model follows the code; each point is a theorem of the table below.

- `CreateDeploymentRevision` takes its connection before `RunTx` opens its transaction, so on its own it is
  not atomic; it is exactly when the caller holds a transaction (`Store.RevisionAtomicIffInTx`).
- `putProjectSettings` applies the gateway and answers before the commit: the gateway may route to a
  revision that does not exist, whose reports then fail, and a success may not be stored
  (`Failures.SettingsAgreeIffCommitted`, `Reports.UncommittedRouteFails`, `Failures.SettingsOkIsSavedIff`).
- The proxy URL of a new project is not checked; one that does not parse leaves the whole organization
  without a gateway configuration (`Ask.CreationDecidesConfig`).
- Creating an organization is two statements; when the second fails nobody can ever enter the organization
  and its name stays taken (`Histories.OrphanedIff`, `Histories.OrphanStays`).
- A report for an unknown revision is answered as an internal error although the code has a branch that
  answers it as a bad request (`Reports.ReportStatus`).
- The webhook stores reports whose analysis dereferences a missing request (`Reports.LogsSafeIff`).
- Two organizations with one custom domain make the TLS ask handler fail for both; a custom domain that has
  the form of a default host is answered by organization name (`Ask.IngressHostAcceptedIff`).
- Sessions that end at different times within a millisecond of each other can leave the session list
  unsorted (`Sessions.LatestFirstIff`).
- The overview's average latency can exceed every tool's as soon as one log names no tool
  (`Overview.BoundHoldsIffAllNamed`).
- A host format whose verb is only part of a label is never matched, and the default hosts it forms are
  served as custom domains only (`HostNames.InvertsIffWholeLabel`, `Ask.PartialVerbAnswers`).

## Assumptions stated in the contracts

Requests run one after another. A failed apply changes nothing in the cluster, a successful one replaces
the organization's gateway. A failed commit discards its level. The foreign key of a log's project column
has no delete action and is checked at the end of the statement, after the cascades. A revision may hold an
OCI URL and a proxy URL at once. Where routes are followed back to their project or organization, generated
revision or project ids never repeat. The analytics require of the logs they check for errors, those of the
two periods, that one with a response and without an error carries its request, because the code
dereferences it; `Reports.AnalyticsSafeIff` says when that holds. Reports by tool or by session skip logs
without a tool name or session id before that check and require nothing of them.

## Model

| member | source | states |
|---|---|---|
| `Transactions.Database.Begin` | internal/db/tx.go:13-16 | Opens one more level that remembers the tables it starts from; inside an aborted transaction, or on error, nothing is opened. |
| `Transactions.Database.Commit` | internal/db/tx.go:26 | Closes the innermost level and keeps its tables; on error, or after a failed statement, the level's starting tables come back; on a level that is already closed nothing changes. |
| `Transactions.Database.Rollback` | internal/db/tx.go:17-22 | Restores the level's starting tables; after a commit it changes nothing. |
| `Transactions.Database.RunTx` | internal/db/tx.go:12-29 | At any nesting depth: on error the tables are those at its own begin, on success they are exactly the body's effect; levels opened by callers are untouched. |
| `Transactions.Database.RunSteps` | internal/db/tx.go:23 | The closure runs its statements and nested transactions in order, stops at the first failure, and otherwise has the composed effect. |
| `Transactions.NestingIsTransparent` | internal/db/tx.go:12-29 | A successful body with nested RunTx calls at any depth has the effect of its flattened statements in one transaction. |
| `Store.CreateProject` | internal/db/projects.go:38-54 | One row is inserted or nothing changes; succeeds exactly when the insert violates no constraint and does not fail. |
| `Store.CreateDeploymentRevision` | internal/db/deployment_revisions.go:49-90 | Result and tables are those of `RevisionOutcome` for the failing sub-steps: inside a caller's transaction the statements run under a savepoint that a failure rolls back, on the pool each has already committed because the connection was taken before RunTx. |
| `Store.RevisionAtomicIffInTx` | internal/db/deployment_revisions.go:50-87 | Over every combination of failing sub-steps, the call stores the revision as latest and succeeds or leaves no trace, exactly when the caller already holds a transaction; otherwise a failing pointer update leaves the row behind. |
| `Store.AddDeploymentRevisionEvent` | internal/db/deployment_revisions.go:92-114 | Inserts the event and points the revision's own project to it; succeeds exactly when neither statement fails. |
| `Store.GetUserByEmailOrCreate` | internal/db/users.go:86-110 | Returns the one user with that e-mail, created when unknown; e-mails stay unique; on failure nothing changes. |
| `Store.AddUserToOrganization` | internal/db/users.go:42-54 | Adds the membership pair, without error when it is already there. |
| `Schema.BackfillDenormalises` | internal/migrations/sql/6_mcpserverlog_project_id.up.sql:1-7 | The backfill turns any tables that satisfy the older constraints into tables whose log project column is a valid foreign key equal to the project of the log's revision. |
| `Schema.BackfillChangesOnlyTheColumn` | internal/migrations/sql/6_mcpserverlog_project_id.up.sql:5 | The backfill adds and removes no rows and changes nothing but the new column. |
| `Cascade.DeleteRemovesExactlyReachable` | internal/migrations/sql/5_on_delete_cascade.up.sql:8-31 | Deleting a project removes exactly the rows that some chain of cascade references reaches from it. |
| `Cascade.SurvivorsUnchanged` | internal/migrations/sql/5_on_delete_cascade.up.sql:33-38 | No surviving row changes; in particular the SET NULL rules never null a latest pointer of a surviving project. |
| `Cascade.DeleteSucceedsIff` | internal/migrations/sql/6_mcpserverlog_project_id.up.sql:1 | The statement succeeds exactly when no log of another project's revision names the project in its uncascaded project column. |
| `Cascade.DeleteKeepsConstraints` | internal/db/projects.go:56-65 | Whenever the delete succeeds, all primary, unique and foreign keys stay valid, the uncascaded column included. |
| `Cascade.DeleteKeepsInvariant` | internal/db/projects.go:56-65 | In every state the application maintains, the delete succeeds and keeps every constraint and maintained property. |
| `Queries.SortByNameSorts` | internal/db/dashboard.go:63-66 | The list of an organization's projects holds each once, strictly ordered by name. |
| `Queries.SummaryPairsOwnRows` | internal/db/dashboard.go:41-67 | A summary shows the revision its project points to, one of the project's own, and the event its project points to exactly when that is one of that very revision. |
| `Summaries.SummaryShowsEventIffImage` | internal/db/dashboard.go:60-64 | In every reachable state a summary shows its project's organization, the revision the project points to, and an event exactly when that revision has an image: its own progress event, never one of an earlier revision. |
| `Queries.ColumnFilterIsJoin` | internal/db/mcp_server_log.go:79-91 | Filtering logs by the denormalised project column returns the logs that joining with the revision returns. |
| `Queries.UsageIsSumOverProjects` | internal/db/dashboard.go:99-115 | The organization's request count (a join over three tables) is the sum of its projects' log counts, and its sessions are those of its projects' logs. |
| `Usage.UsageAfterReport` | internal/db/dashboard.go:99-115 | A report counts as one request of the organization whose project it is filed under, adds its session there, and leaves every other organization's usage alone. |
| `Usage.EveryLogIsReported` | internal/db/mcp_server_log.go:20-50 | In every reachable state every stored log records, column by column, a report that the run received for the log's revision. |
| `BuildNumbers.NumbersAreOneToN` | internal/db/deployment_revisions.go:118-132 | With distinct creation times the row numbers of a project are exactly 1..n, each used once. |
| `BuildNumbers.RowNumberIsRank` | internal/db/deployment_revisions.go:120 | A revision's row number is one more than the number of older revisions of the project. |
| `BuildNumbers.NumbersAreStable` | internal/db/deployment_revisions.go:116-133 | Inserting a revision never changes a number of another project, changes none of its own project when it is created last, and then gets the next number. |
| `Clocks.RunNumbersAreOneToN` | internal/db/deployment_revisions.go:116-133 | In every state reached while creation times advance, a project's creation times are distinct and its build numbers are exactly 1..n, each used once. |
| `Clocks.RunKeepsNumbers` | internal/db/deployment_revisions.go:116-133 | Along any further requests through which the project survives, no revision's build number changes. |
| `BuildNumbers.LatestNumberIsCountIff` | internal/db/dashboard.go:54-55 | In every evaluation of the window function the latest revision's number equals the count the summary reports, exactly when that revision is strictly the newest of its project. |
| `Clocks.RunKeepsNewest` | internal/db/deployment_revisions.go:49-90 | While creation times advance per project, the latest pointer names the strictly newest revision in every reachable state, and a project without one has no revisions. |
| `Clocks.SummaryNumberIsRowNumber` | internal/db/dashboard.go:48-66 | In those states the build number of a project's summary is the row number of its latest revision, and no other number is. |
| `Gateway.ProjectionEntries` | internal/kubernetes/apply/mcp-gateway.go:45-63 | The projected gateway holds exactly one entry per project with a latest revision, carrying that revision's id, flags and proxy URL, ordered by project name. |
| `Gateway.WalkGivesRouteList` | internal/kubernetes/apply/mcp-gateway.go:46-62 | Walking all projects by name and skipping those without a revision gives the list of deployed projects, and that walk is empty only through the skipping. |
| `Handlers.Server.CollectProjects` | internal/kubernetes/apply/mcp-gateway.go:46-62 | The loop of the applier collects one entry per deployed project, in order. |
| `Handlers.Server.Apply` | internal/kubernetes/apply/mcp-gateway.go:27-92 | Replaces the organization's gateway by the projection of the tables its connection sees, deletes it when there are no projects, or leaves the cluster alone when a sub-step fails; a failed query inside a transaction aborts it. |
| `Handlers.Server.PostProject` | internal/handlers/projects.go:53-129 | Statement by statement, with any sub-steps failing, the handler has the effect and status of the atomic step, whose columns and statuses `Effects.CreatedContents` and `Effects.CreationStatus` state; the gateway is applied after the commit. |
| `Handlers.Server.ProjectStatements` | internal/handlers/projects.go:87-114 | The closure inserts the project and, with a proxy URL, its first revision, as `Effects.CreatedContents` states column by column. |
| `Effects.CreatedContents` | internal/handlers/projects.go:87-114 | On success exactly one project is stored, in the request's organization and by its user, and with a proxy URL exactly one revision of it: authenticated unless the request declines it, telemetry only if asked for, no image and no port. |
| `Effects.CreatedRoute` | internal/handlers/projects.go:94-125 | Once applied, the organization's gateway has exactly one route for the project, with that revision, those flags and that URL. |
| `Effects.CreationStatus` | internal/handlers/projects.go:73-119 | A project is created exactly when its name is valid and free in the organization, the members table has the user there, the identifiers are fresh and nothing fails; a request of a non-member is a bad one. |
| `Invariants.MergeComposes` | internal/handlers/projects.go:281-297 | Merging is an action of requests on revisions: two updates in a row amount to one in which the later values win, and a request without URLs or port keeps all three. |
| `Handlers.Server.SaveRevision` | internal/handlers/projects.go:304-312 | Revision, pointer and (for an image) progress event together, or failure. |
| `Handlers.Server.SettingsBody` | internal/handlers/projects.go:268-324 | The closure writes its response itself: bad request without any URL, success after the statements and the apply, nothing on error; `Effects.SavedContents` states the stored columns. |
| `Handlers.Server.PutSettings` | internal/handlers/projects.go:225-331 | Refines the atomic step in which the gateway is applied to the uncommitted tables and success is reported before a commit that may still fail; `Effects.SettingsStatus` states its statuses. |
| `Effects.SavedContents` | internal/handlers/projects.go:268-312 | A successful update that is not undone stores exactly one revision: the request's flags and author, each URL and port given or else the latest revision's, and for an image a progress event; the project points to both. |
| `Effects.SavedRoute` | internal/handlers/projects.go:304-319 | Once applied, committed or not, the organization's gateway has exactly one route for the project, with the request's flags. |
| `Effects.SettingsStatus` | internal/handlers/projects.go:245-324 | An update succeeds exactly when the request names at most one of an image with a port and an absolute proxy URL, the members table has the user in the project's organization, some URL is given or kept, the identifiers are fresh and nothing fails; not found exactly for non-members. |
| `Handlers.Server.RemoveProject` | internal/handlers/projects.go:333-366 | Refines the atomic delete: access check, cascade, gateway re-applied; `Effects.RemovalStatus` states who may. |
| `Effects.RemovalStatus` | internal/db/users.go:136-145 | A removal succeeds exactly when the members table has the user in the project's organization and nothing fails, and is not found exactly when it has not; only success changes anything. |
| `Access.StrangerChangesNothing` | internal/handlers/projects.go:414-431 | A request by anybody who is not in the members table of an organization changes neither its row, members, projects and revisions nor its gateway, whatever fails. |
| `Access.StrangersChangeNothing` | internal/handlers/organizations.go:218-235 | Over any run with any failures an organization none of whose initial members sends a request keeps its row, members, projects, revisions and gateway. |
| `Access.ViewIsMembers` | internal/handlers/projects.go:77-125 | Every gateway that a request applies is that of an organization its user is a member of. |
| `Handlers.Server.PostOrganization` | internal/handlers/organizations.go:52-80 | Refines the two-statement creation in which the organization stays when adding its creator fails. |
| `Effects.FoundingContents` | internal/handlers/organizations.go:65-78 | An organization is stored exactly for a valid, free name, without a custom domain and as a public client; its founder is a member exactly when it answers success. |
| `Handlers.Server.PutOrganization` | internal/handlers/organizations.go:97-152 | Refines the atomic settings change: an empty custom domain removes it, no change writes nothing, the gateway is always re-applied. |
| `Effects.OrganizationContents` | internal/handlers/organizations.go:108-145 | Exactly members may update, with a valid domain; what is not given is kept, an empty domain is removed, and nothing but the settings changes. |
| `Effects.AppliedGateway` | internal/kubernetes/apply/mcp-gateway.go:32-79 | After any successful apply the organization has a gateway exactly when it has a project, with the settings that were read. |
| `Effects.OrganizationApplied` | internal/handlers/organizations.go:139-148 | After an applied update the gateway shows exactly the stored settings. |
| `Handlers.Server.PutMember` | internal/handlers/organizations.go:154-192 | Refines the transaction that finds or creates the user and adds the membership: both or neither. |
| `Effects.InvitationContents` | internal/handlers/organizations.go:170-181 | An invitation by a member adds exactly the membership of the account with that e-mail, which is created exactly when unknown; a non-member's is not found. |
| `Effects.SignInContents` | internal/middleware/middleware.go:97 | Signing in creates exactly the account of an unknown e-mail. |
| `Histories.RemovalIff` | internal/handlers/organizations.go:194-216 | A removal succeeds exactly when a member asks for somebody else and nothing fails, or for the nil id, which removes nothing; success otherwise means exactly that membership is gone, and without success nothing has changed. |
| `Histories.ReinviteRestores` | internal/handlers/organizations.go:170-181 | Inviting a removed member again restores the store as it was before the removal, up to the creation time of the membership row. |
| `Handlers.Server.Handle` | internal/handlers/projects.go:53-366 | Executing any handler, with any sub-steps failing, is one step of the state machine, with its status, and leaves the server ready for the next request with all invariants. |
| `Handlers.Server.Serve` | internal/handlers/projects.go:53-366 | Executing any sequence of handlers is a run of the state machine, so every theorem on runs is about executions of the handlers. |
| `Handlers.Server.ReceiveReport` | internal/handlers/webhook/gateway/handler.go:32-77 | Refines the atomic report: malformed id, unknown user (dropped), constraint violations and storage each with their status; `Reports.ReportLandsInItsProject` states the stored columns. |
| `Invariants.MergedShape` | internal/handlers/projects.go:245-302 | The revision a settings request is merged into has an OCI URL or a proxy URL, and a port whenever it has an OCI URL. |
| `Invariants.RespondKeepsInvariant` | internal/migrations/sql/0_initial.up.sql:1-96 | Every request with any combination of failing sub-steps keeps all constraints, own latest pointers, the denormalised log column and the shape of revisions. |
| `Invariants.Run` | internal/migrations/sql/0_initial.up.sql:1-96 | Every state reached from the empty database by any sequence of requests satisfies all of these. |
| `Invariants.StartInvariant` | internal/migrations/sql/0_initial.up.sql:1-96 | The empty database satisfies them, so the premises on runs from it below always hold. |
| `Onboarding.CreationSucceedsIff` | internal/handlers/projects.go:73-119 | With fresh identifiers and no failing sub-step, a member's request creates the project exactly when its name is valid and not taken in the organization. |
| `Onboarding.FoundingSucceedsIff` | internal/handlers/organizations.go:65-78 | With a fresh identifier and no failing sub-step, an organization is founded exactly when its name is valid and not taken, and its founder is then a member. |
| `Onboarding.DeployedGatewayExists` | internal/kubernetes/apply/mcp-gateway.go:45-83 | An agreeing organization with a deployed project has a gateway. |
| `Onboarding.FirstDeployment` | internal/handlers/projects.go:121-125 | From the empty system, signing in, founding an organization and creating a project with a proxy URL end, for all valid names and any identifiers, in a state in which all gateways agree with the store and the organization has its gateway: the premises of the routing theorems are reachable. |
| `Agreement.AgreementReads` | internal/kubernetes/apply/mcp-gateway.go:65-79 | An agreeing gateway has the organization's identity and current settings and exactly one route per deployed project with its latest revision's id, flags and proxy URL. |
| `Agreement.AbsenceReads` | internal/kubernetes/apply/mcp-gateway.go:32-44 | An absent gateway agrees only when the organization has no deployed project. |
| `Agreement.ApplyAgrees` | internal/kubernetes/apply/mcp-gateway.go:27-92 | One successful apply to the committed tables makes the organization agree, whatever the cluster held before. |
| `Agreement.ApplyTouchesOneGateway` | internal/kubernetes/apply/mcp-gateway.go:37-83 | An apply changes no other organization's gateway. |
| `Agreement.RoutesFrame` | internal/db/dashboard.go:41-67 | An organization's routes depend only on its own deployed projects and their revisions. |
| `Reconciler.BystanderChanges` | internal/handlers/organizations.go:154-216 | Requests without an apply change neither projects, revisions, settings nor the cluster. |
| `Reconciler.CleanStepAgrees` | internal/handlers/projects.go:121-125 | A request whose apply and settings commit succeed keeps every organization's gateway in agreement, whatever else fails in it. |
| `Reconciler.CleanRunAgrees` | internal/handlers/projects.go:304-319 | After every step of every such run from the empty database, all gateways agree with the store. |
| `Failures.StepCluster` | internal/handlers/projects.go:317-319 | With any failures, a step changes the cluster only by its one successful apply. |
| `Failures.GatewayIsLastView` | internal/kubernetes/apply/mcp-gateway.go:30-90 | After any run with any failures, a gateway is exactly the projection of what its last successful apply read. |
| `Failures.OtherGatewaysUntouched` | internal/kubernetes/apply/mcp-gateway.go:81-85 | No step touches the gateway of an organization it does not apply. |
| `Failures.SuccessRestoresAgreement` | internal/kubernetes/apply/mcp-gateway.go:27-92 | Whatever the cluster holds, a step whose apply succeeds and whose tables are committed makes its organization agree. |
| `Failures.EmptySaveRepairs` | internal/handlers/organizations.go:139-148 | A member's organization update that changes nothing leaves the store alone and restores agreement. |
| `Failures.SettingsAgreeIffCommitted` | internal/handlers/projects.go:317-324 | After an applied settings update that was answered with success, the gateway agrees with the store exactly when the commit succeeded; otherwise it has a route to a revision that is not stored. |
| `Divergence.FailedCreationAgreesIff` | internal/handlers/projects.go:121-125 | When the apply after a project creation fails, an agreeing cluster still agrees exactly when the project was created without a proxy URL. |
| `Divergence.FailedRemovalAgreesIff` | internal/handlers/projects.go:355-362 | When the apply after a removal fails, an agreeing cluster still agrees exactly when the project was not deployed. |
| `Divergence.FailedOrganizationAgreesIff` | internal/handlers/organizations.go:139-148 | When the apply after an organization update fails, an agreeing cluster still agrees exactly when the organization has no gateway or the update changes no setting. |
| `Divergence.FailedSettingsAgreeIff` | internal/handlers/projects.go:317-329 | When the apply within a settings update fails, an agreeing cluster still agrees exactly when the update is not stored. |
| `Reports.UncommittedRouteFails` | internal/handlers/webhook/gateway/handler.go:69-75 | That route answers every report of a known user with an internal error. |
| `Failures.RejectedSettingsChangeNothing` | internal/handlers/projects.go:245-329 | A settings update that is not answered with success changes neither the store nor the cluster. |
| `Failures.SettingsOkIsSavedIff` | internal/handlers/projects.go:321-329 | A settings update answered with success is in the store exactly when neither the commit nor the applier's query failed. |
| `Failures.CreateOkIffCreated` | internal/handlers/projects.go:116-127 | A project creation answers success exactly when the project is stored; otherwise store and cluster are unchanged. |
| `Histories.PointerNamesLastInserted` | internal/db/deployment_revisions.go:77-81 | In every reachable state a project's latest pointer names the revision inserted last for that project, one of its own. |
| `Histories.UrlsAreNeverLost` | internal/handlers/projects.go:281-297 | Along every run in which a project exists throughout, its latest revision keeps every URL an earlier latest revision had, and an image keeps a port. |
| `Histories.StepKeepsMembership` | internal/handlers/organizations.go:194-216 | After any request an existing organization has a member exactly when it had one before. |
| `Histories.RunKeepsMembership` | internal/db/users.go:42-66 | Over every run an organization with a member keeps one, and one without stays without. |
| `Histories.OrphanedIff` | internal/handlers/organizations.go:69-78 | Creating an organization stores it with a member exactly when adding the creator succeeds; otherwise it is stored without one and the request fails. |
| `Histories.OrphanStays` | internal/handlers/organizations.go:218-235 | An organization left without a member admits no member ever after, and its name stays taken. |
| `Routing.GetGatewayConfig` | internal/handlers/webhook/kubernetes/types.go:144-196 | One proxy per route of the gateway, in order, with its path, flags, webhook and parsed proxy URL; no configuration at all exactly when some proxy URL does not parse. |
| `Routing.ProjectProxy` | internal/handlers/webhook/kubernetes/types.go:164-190 | One route's proxy, absent exactly when its proxy URL does not parse. |
| `Routing.WebhookNamesRevision` | internal/handlers/webhook/kubernetes/types.go:177 | The webhook path of a route, read back by the report handler's route and UUID parser, gives the route's revision. |
| `Routing.McpUrlIsRouted` | internal/types/summaries.go:17-29 | In an agreeing gateway the public URL of a deployed project has the gateway's host and the path of exactly one route, its own, which leads to the proxy URL of the project's latest revision with that revision's flags and reports to it. |
| `Routing.ConfigExistsIff` | internal/handlers/webhook/kubernetes/types.go:182-190 | An agreeing gateway has a configuration exactly when the latest proxy URL of every deployed project of the organization parses. |
| `Reports.ReportStatus` | internal/db/mcp_server_log.go:54-63 | In every maintained state: a bad request exactly when the id does not parse; an internal error exactly when a known user's log cannot be inserted, an unknown revision included, because the NOT NULL column is violated before the foreign key that is mapped to a bad request; success otherwise; and stored exactly when accepted. |
| `Reports.ReportLandsInItsProject` | internal/handlers/webhook/gateway/handler.go:43-76 | A report is stored exactly when it is accepted, in its revision's project and in no other, with every column of the report (session, token digest, times, request, response, agent, status, error) and the reported user's account. |
| `Reports.RoutesAreOwn` | internal/kubernetes/apply/mcp-gateway.go:46-62 | In every reachable state, whatever applies and commits failed on the way, the revision of every route in the cluster is one of the route's own project or is not stored; revision ids never repeat. |
| `Reports.RouteReportsToItsProject` | internal/handlers/webhook/kubernetes/types.go:163-193 | In every reachable state, after any failures, a report posted through any route of any gateway's configuration is filed under the route's own project exactly when it is accepted, and changes no other project's logs. |
| `Isolation.GatewayPathsDiffer` | internal/handlers/webhook/kubernetes/types.go:163-193 | In every reachable state, after any failures, the routes of a gateway's configuration have pairwise distinct paths. |
| `Isolation.RoutesStayHome` | internal/kubernetes/apply/mcp-gateway.go:46-62 | In every reachable state, whatever applies and commits failed on the way, the project of every route is one of the gateway's own organization or is not stored; project ids never repeat. |
| `Reports.LogsSafeIff` | internal/types/mcp_server_log.go:28-50 | In every reachable state the logs of a project that started at or after any given time are all ones on which the error check does not dereference a missing request exactly when every report from then on that the run stored for the project was a failed exchange, had no successful response, or carried its request. |
| `Reports.AnalyticsSafeIff` | internal/analytics/projects.go:37-61 | Hence the error check, which reads the logs of the two periods only, is safe on the list the query returns exactly when every report stored for the project since the earlier period began was safe. |
| `Routing.DefaultHost` | internal/env/env.go:37 | The default host format puts the organization name in front of the fixed domain. |
| `Routing.DefaultPath` | internal/env/env.go:38 | The default path format puts the project name between a slash and the fixed segment. |
| `Routing.DefaultHostFormat` | internal/env/env.go:37 | A placeholder label followed by literal labels, as in the default, satisfies what the host matcher needs. |
| `Validation.NameLanguage` | internal/handlers/validation.go:28 | The name check accepts exactly the words of letters and digits joined by single hyphens. |
| `Validation.DomainLanguage` | internal/handlers/validation.go:38 | The domain check accepts exactly two or more such words joined by dots. |
| `Validation.NameCharacters` | internal/handlers/validation.go:22-34 | An accepted name is non-empty and has no dot, slash or percent sign. |
| `Text.JoinSplit` | internal/handlers/webhook/tlsask/handler.go:45 | Splitting a host loses nothing: the labels have no separator and join back. |
| `Text.SplitJoin` | internal/handlers/webhook/tlsask/handler.go:42 | Joining labels without the separator is undone by splitting. |
| `Text.SprintfInjective` | internal/handlers/webhook/kubernetes/types.go:165 | Formatting a path or host is injective in the name, whatever the format. |
| `Text.SprintfLabels` | internal/handlers/webhook/kubernetes/types.go:202 | Formatting replaces exactly the placeholder label. |
| `UuidText.ParseInvertsText` | internal/handlers/webhook/gateway/handler.go:55-60 | Parsing recovers every UUID from its canonical text. |
| `HostNames.GetOrgName` | internal/handlers/webhook/tlsask/handler.go:41-63 | The backward loop returns the host's label at the first placeholder when all literal labels agree, and nothing otherwise. |
| `HostNames.MatchingInvertsFormatting` | internal/handlers/webhook/tlsask/handler.go:41-63 | For a format with one whole-label placeholder, matching a formatted host returns exactly the formatted name, for every name without a dot. |
| `HostNames.FormattingInvertsMatching` | internal/handlers/webhook/tlsask/handler.go:41-63 | A matched name formats back to the host that was asked. |
| `HostNames.FormatsBackIffOnePlaceholder` | internal/handlers/webhook/tlsask/handler.go:51-59 | For formats of literal and placeholder labels, matched names always format back exactly when there are not two placeholders. |
| `HostNames.InvertsIffWholeLabel` | internal/handlers/webhook/tlsask/handler.go:54-58 | For a format with one verb anywhere, matching inverts formatting exactly when the verb is a whole label; otherwise no name is recovered from any host. |
| `Ask.RunKeepsNames` | internal/handlers/validation.go:22-44 | Every organization name, project name and custom domain of a reachable state passed validation. |
| `Ask.Answer` | internal/handlers/webhook/tlsask/handler.go:15-38 | A domain is served exactly when it is the default host of an organization, or no default host of any name and the custom domain of exactly one organization; with several owners, or when the query fails, the request fails, and without a domain it is bad. |
| `Ask.PartialVerbAnswers` | internal/handlers/webhook/tlsask/handler.go:24-28 | Under a format whose verb is only part of a label a domain is served exactly when it is the custom domain of exactly one organization: no default host is served by name. |
| `Ask.IngressHostAcceptedIff` | internal/handlers/webhook/tlsask/handler.go:22-37 | The host on an organization's ingress is accepted exactly when it has no custom domain, or its custom domain matches the format and some organization has that name, or it does not match and no other organization shares it; sharing makes the handler fail. |
| `Ask.GatewayHostIsIngressHost` | internal/handlers/webhook/kubernetes/types.go:198-205 | The effective host of an agreeing gateway is the host that decision is about. |
| `Ask.ChangeKeepsParsing` | internal/handlers/projects.go:253-261 | Only project creation can store a proxy URL that does not parse. |
| `Ask.CreationDecidesConfig` | internal/handlers/projects.go:93-98 | The proxy URL of a new project is not checked: after its creation the organization has a gateway configuration exactly when that URL parses. |
| `Logs.GroupsPartition` | internal/analytics/tools_performance.go:14-31 | Summing a measure over distinct tool groups is summing it over the logs that belong to them. |
| `ToolsPerformance.CollectStats` | internal/analytics/tools_performance.go:12-31 | The one-pass counters hold, for each tool, calls, errors (`Readings.ErrorIsFailure`) and duration of exactly its logs. |
| `ToolsPerformance.CountLog` | internal/analytics/tools_performance.go:14-30 | From statistics that are exact for the logs seen so far, the loop body makes statistics that are exact with one more log, whatever its tool. |
| `Readings.ToolNameIff` | internal/analytics/util.go:39-54 | A log is reported under a tool's name exactly when it calls that tool with parameters that parse, or is another request with that method. |
| `Readings.ToolReads` | internal/analytics/tools_performance.go:12-46 | A tool is reported exactly when some log has its name; its calls and failures are the numbers of positions at which a log has the name, and also fails. |
| `Readings.AttentionReads` | internal/analytics/tools_performance.go:75-77 | A tool needs attention exactly when more than every twentieth call failed or the calls took more than a second on average, in whole milliseconds; the order is by whole failure percentage. |
| `ToolsPerformance.ListTools` | internal/analytics/tools_performance.go:37-53 | In any iteration order, one report per tool with exact rate and average, and one per tool over a threshold. |
| `ToolsPerformance.TopTools` | internal/analytics/tools_performance.go:56-64 | The min(5, n) tools with most calls, most first, and no omitted tool has more calls than a listed one. |
| `ToolsPerformance.AttentionTools` | internal/analytics/tools_performance.go:57 | Exactly the tools over a threshold, by whole error percentage. |
| `ToolsPerformance.CalculateToolsPerformance` | internal/analytics/tools_performance.go:11-70 | Both lists for any logs. |
| `ToolsPerformance.CallsAddUp` | internal/analytics/tools_performance.go:33-50 | The calls of all tools add up to the number of logs that have a tool name. |
| `Overview.CalculateLatencyAndErrorRate` | internal/analytics/overview.go:44-68 | Average of the total duration, truncated to milliseconds and by the count, and the exact share of errors, between 0 and 1. |
| `Readings.ErrorIsFailure` | internal/types/mcp_server_log.go:28-50 | A log is an error exactly when its status is at least 400, its response is a protocol error, or it is a tool call whose parsed result is flagged. |
| `Readings.UncheckableIff` | internal/types/mcp_server_log.go:40 | The check dereferences a missing request exactly when a response without an error came back for none and the status is below 400. |
| `Readings.OverviewReads` | internal/analytics/overview.go:45-68 | The error rate times the number of logs is the number of positions at which one of the three holds; without logs both numbers are zero. |
| `Readings.LatencyWithin` | internal/analytics/overview.go:45-56 | The average latency lies between the truncated durations of the fastest and the slowest exchange. |
| `Readings.DistinctReads` | internal/analytics/util.go:80-94 | The counted sessions are the non-empty session ids that occur, the counted users the accounts that do. |
| `Overview.AverageBetweenGroups` | internal/analytics/overview.go:50-55 | The average over all logs lies between the averages of two of its groups by tool name, the empty name included, for any durations, despite both truncations. |
| `Overview.OverviewAverageBetweenTools` | internal/analytics/tools_performance.go:43-46 | When every log has a tool name, the overview's average lies between the smallest and the largest average of the tool report. |
| `Overview.BoundHoldsIffAllNamed` | internal/analytics/tools_performance.go:15-18 | For any exchanges of which at least one names a tool, that bound holds for every assignment of durations exactly when every exchange names a tool. |
| `Overview.ChangeRecoversCurrent` | internal/analytics/overview.go:70-79 | The percentage change recovers the current value from any non-zero previous one; from zero it is none or the whole. |
| `Overview.CountUniqueFunc` | internal/analytics/util.go:133-141 | The number of distinct values that are given. |
| `Overview.CountUniqueSessions` | internal/analytics/util.go:123-126 | The number of distinct non-empty session ids. |
| `Overview.CountUniqueUsers` | internal/analytics/util.go:128-131 | The number of distinct known users. |
| `Sessions.CollectSessions` | internal/analytics/recent_sessions.go:11-48 | The fold's records summarise exactly the group of each session: counts, first start, latest end in whatever order, last tool and agent given. |
| `Sessions.FoldLog` | internal/analytics/recent_sessions.go:13-47 | One log is absorbed by the record of its own session only. |
| `Readings.SessionKeyIff` | internal/analytics/util.go:80-87 | A log belongs to a session exactly when it gives that id and the id is not empty. |
| `Readings.SessionReads` | internal/analytics/recent_sessions.go:13-60 | A reported session's calls and errors are the numbers of positions at which a log has its id, and also fails; it starts with the first such log and ends with the latest end of any. |
| `Sessions.CalculateRecentSessions` | internal/analytics/recent_sessions.go:10-71 | Exactly one entry per distinct session id with exact counts, in an order the sort allows; the latest end first whenever sessions that end less than a millisecond apart end at the same time. |
| `Sessions.LatestFirstIff` | internal/analytics/recent_sessions.go:64-66 | Every list the sort may return has the latest end first exactly when, among the session groups of the logs, ends less than a millisecond apart are equal. |
| `Sessions.ComparisonOrdersIff` | internal/analytics/recent_sessions.go:64-66 | The comparison is a strict weak ordering, as the sort needs, exactly when ending within a millisecond of each other is transitive. |
| `Sessions.ComparisonMayNotOrder` | internal/analytics/recent_sessions.go:64-66 | Three sessions ending 0.6 ms apart for which it is not. |
| `Sessions.StartIsEarliest` | internal/analytics/recent_sessions.go:21-28 | With logs sorted by start, a session's start is the earliest of its logs. |
| `Sessions.LastToolIsLast` | internal/analytics/recent_sessions.go:44-47 | The last tool call is the name of the last log of the session that has one. |
| `Sessions.LastAgentIsLast` | internal/analytics/recent_sessions.go:40-42 | The user agent is that of the last log of the session that gives one. |
| `ToolAnalytics.CollectTools` | internal/analytics/tool_analytics.go:12-37 | The nested counters count, per tool, argument and value, exactly the calls that pass that value. |
| `ToolAnalytics.CountArguments` | internal/analytics/tool_analytics.go:31-36 | One call raises the counter of each argument value it passes by one and no other counter. |
| `Readings.ToolAnalyticsReads` | internal/analytics/tool_analytics.go:12-65 | A tool's calls, and the count of each listed argument value, are the numbers of positions at which a log has the tool's name, and also passes that value. |
| `Readings.PassedValueIsListed` | internal/analytics/tool_analytics.go:39-65 | Every value that some call passes is listed. |
| `ToolAnalytics.ListTools` | internal/analytics/tool_analytics.go:39-65 | In any iteration order, one entry per tool with its exact calls, arguments and value counts. |
| `ToolAnalytics.CalculateToolAnalytics` | internal/analytics/tool_analytics.go:11-72 | The same, strictly ordered by tool name. |
| `ToolAnalytics.UsageIsSumOfValues` | internal/analytics/tool_analytics.go:43-57 | An argument's usage is the sum of its value counts, positive and at most the tool's calls. |
| `ToolAnalytics.SameToolsAndCalls` | internal/analytics/tool_analytics.go:14-28 | The analytics and the performance report before truncation list the same tools with the same calls. |
| `Periods.SplitPeriods` | internal/analytics/projects.go:42-61 | The loop splits the logs into those since the start and those of an equally long period before it. |
| `Periods.PeriodsPartition` | internal/analytics/projects.go:51-59 | No log is in both periods, none since the previous start is lost, and a start in the future has no previous period. |
| `Periods.PeriodsSafeIff` | internal/analytics/projects.go:42-59 | The logs of both periods are safe to check for errors exactly when all logs since the earlier period began are, a start in the future included. |
| `Periods.CalculateOverviewWithComparison` | internal/analytics/overview.go:10-42 | All five numbers of the current period, also for empty periods, and the change of each against the previous one. |
| `Periods.GetProjectAnalytics` | internal/analytics/projects.go:64-76 | Each report is exact for the logs of the current period, and they agree: tool calls and unnamed logs add up to the overview's calls, session calls to the logs with a session, listed sessions to the session count; when every log names a tool, the tools' errors are those of the overview's rate and its latency lies between two tools'. |
| `Periods.ToolCallsAddUp` | internal/analytics/tool_analytics.go:14-28 | The tools' calls and the logs without a tool name add up to the overview's count. |
| `Periods.ToolErrorsAddUp` | internal/analytics/tools_performance.go:43-44 | When every log names a tool, the failed calls that the tools' rates stand for add up to all errors. |
| `Periods.SessionCallsAddUp` | internal/analytics/recent_sessions.go:34 | The sessions' calls add up to the logs that belong to a session. |
| `Slices.SortFunc` | internal/analytics/recent_sessions.go:64-66 | A permutation in every case, and sorted when the comparison is a strict weak ordering. |

## Left out

- User interface, Helm charts, HTTP decoding, routing and middleware, JWT, rate limits, mail, logging, Sentry and telemetry: plumbing.
- JSON and URL parsing: a request carries its already parsed parameters or the fact that they do not parse; URL parsing is a parameter.
- YAML printing, SHA-256, and every Kubernetes field other than the ingress host and the configuration: constants and foreign code.
- Concurrent requests, isolation levels, and the order in which PostgreSQL fires triggers.
- Commits whose outcome is unknown: a failed commit is one that did not happen.
- Store.GetUserByEmailOrCreate: e-mail addresses are taken as already trimmed and in lower case.
- Handlers.Server.PutMember: the invitation mail is not part of this model, nor is the membership's creation time.
- Histories.ReinviteRestores: the new membership row gets a new created_at, which is not part of this model.
- Handlers.Server.PostOrganization: the name is taken as already trimmed.
- Handlers.Server.PutSettings: a project id that is the nil UUID is treated by the code as absent; the model treats it as any other id.
- Text.SprintfInjective: formats other than those whose percent signs begin %v, %s or %% are not part of this model.
- UuidText.ParseInvertsText: the parser's other input forms (braces, URN prefix, no hyphens) are not part of this model.
- Queries.SortByNameSorts: the database's collation is taken as comparison by code point, and the list of one organization.
- Overview.CalculateLatencyAndErrorRate: rates are exact rationals instead of floating point, and durations do not overflow.
- ToolsPerformance.AttentionTools: the whole error percentage is the floor of the exact rate.
- Sessions.CalculateRecentSessions: the mapping of user agents to client names is a parameter, and times are unbounded integers of nanoseconds.
- Slices.SortFunc: modelled as an insertion sort; callers use only that it permutes and, for an ordering, sorts.
- Transactions.Database.RunTx: the closure is a tree of statements and nested calls; handlers whose closure reads and branches are written out between Begin and Finish.
- Context and ContextProperty rows occur only in the cascades: no request writes them.
- CreateHostedDeploymentRevision and the development seeding that uses it.
- The list of recent revisions over all projects, project status checks, client usage and prompt analytics.
- Pagination and sorting parameters of the log list, and the cap of one million rows in the analytics query.
