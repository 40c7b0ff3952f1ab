# Verification of the OpenDelo authorization core

OpenDelo is a local gateway between agents and the services a person has connected. It turns a
capability request into a decision, possibly an approval, a lease, and a metered execution. This
project models that core in Dafny and proves what it is relied on for.

## What is modelled

**The authorization protocol.** `Tables.dfy` holds the rows and the SQL statements that change them,
each as a function that either takes effect or does not. `Protocol.dfy` makes every repository call of
every thread one atomic act: forty acts with a guard and an effect, over the tables and a history that
only the proofs see (who won an approval, which decision a lease came from, every use and every send,
and where each thread stands). A run is any legal sequence of acts of any number of threads; a thread
may stop anywhere, and any act may fail to happen. `Invariants.dfy`, `Stability.dfy` and `Steps.dfy`
prove one invariant of all forty acts, `Guarantees.dfy` reads the promises off it for every run.

**The code that takes those acts.** `Stores.dfy` is the shared store as a class: the tables are fields,
each statement is a method, statements may fail, and between two statements other threads run (`Yield`).
A ghost field records the run. `Leasing`, `Approving`, `Learning`, `Assembly`, `Submissions`,
`Pipelines`, `Settlements`, `Cascades` and `Calls` are the managers, the way a request enters, the
pipeline, what follows a person's answer, the background passes and the two faces that spend leases,
statement by statement. A statement must be, at the point where it is made, an act the protocol allows
there; so a body that issued before writing the ledger, or sent before metering, would not verify. The
contracts list the acts taken on every path; where a store is used by one thread without faults
(`alone`), they also give the exact result. `Promises.dfy` carries the guarantees over runs to any store
these classes have worked on, `LateLeases.dfy` says what a disconnect leaves behind while others are at work.

**The decision kernel.** Scope coverage as an order (`Scopes`), resource extraction and scope resolution
(`Intents`), identity matching (`Matcher`), the risk fold and declaration checks (`Risk`), the forbidden
list with its cut-off search (`ForbiddenList`), and the decision table under its modes (`Decisions`).
Before them stands the capability catalog (`Catalogs`): what is declared, which tool an operation has,
and what intent a call resolves to. The protocol decides only on a plan that concerns its own request,
so what goes out is tied to what was asked (`SentAsAsked`).

**Four algorithms and a state machine.** Fixed-width time text (`TimeText`), path templates and the
declared route tables (`Paths`, `Routes`), recursive redaction (`Redaction`), and the vault with its
unlock lockout (`Vaults`).

## Results about the code worth knowing

- `sameResource` is map equality only when no value is empty, and coverage is transitive exactly then.
  Intent extraction never produces an empty value, which is why the guarantees over runs hold.
- An answer that also teaches (auto_allow_in_project, always_ask) fails on a scope with a wildcard, with
  consent and lease already out: coverage is not reflexive there, so the convergence check refuses the
  scope it was given. `SettleSucceeds` is the exact condition (`Settler.SettleApproval`),
  `TeachingAWildcard` the reachable input. The same answer given again is then admissible as a repetition
  and returns that lease, which can never be used (`MeteringHolds`).
- The catalog joins service and operation with NUL, and its lookup is right for every request exactly when
  no declared name holds that character (`ToolForExact`).
- Text order of stored times is time order for all times up to year Y exactly when Y is at most 9999
  (`OrderedExactly`).
- A past-due approval can still be allowed: the code tests the window of the scope, not the deadline of
  the approval (`PastDueIsAllowed`).
- The order of the identity cascade (`Cascade.DisconnectIdentity`) closes nothing at the moment of marking:
  issuing looks neither at the status of the identity nor at the session of the agent. From any moment of
  any run a lease of the identity can appear without a new plan exactly when a thread holds a plan, decision
  or consent that names it, or an approval that names it is pending, with the window still open
  (`LateLeaseExactly`); where that is so the mark changes nothing (`MarkedTooEarly`, and `EndedTooEarly` for
  sessions), and where it is not, none is left after the cascade unless something was planned since
  (`LeavesOnlyLate`). This needs no second thread: what was pending is still allowed by a settlement that
  follows the cascade (`AllowedAfterwards`).
- The comment of `capabilities` in the GitHub adapter speaks of thirteen declarations and the Cloudflare
  one of twelve; the code declares fourteen and thirteen, and the model follows the code.

## Model

| member | source | states |
|---|---|---|
| Guarantees.AuditBeforeAuthority | internal/core/pipeline/pipeline.go:409-502 | in every run every lease was inserted by one act, and the ledger entry that warrants it (automatic allow of its decision, or a person's consent to its approval) was already in the ledger of the state before that act |
| Guarantees.LeaseOfApproved | internal/core/pipeline/settle.go:186-214 | a lease that carries an approval id belongs to an approval that a person approved, and was issued for that approval's decision |
| Guarantees.LearningNeverWidens | internal/core/trust/manager.go:84-158 | a lease nobody confirmed, issued on a trust memory, lies (window aside) inside the scope of a decision that a person approved for the project |
| Guarantees.ReuseNeverWidens | internal/core/decision/engine.go:399-406 | whatever a later request finds covered by such a lease is still inside the scope the person approved: coverage composes along approval, memory, decision, lease |
| Guarantees.MemoryOnlyTightens | internal/store/repo/trust.go:134-151 | between any two moments of a run a memory keeps its scope, approval, ceiling and expiry, never goes back from asking to allowing, never becomes active again, and once cleared never returns |
| Guarantees.ConsentIsBounded | internal/core/approval/manager.go:162-173 | over any interleaved run the leases of one approval are used at most once in total, at most 20 times for allow_until_task_end, never for a refusal |
| Guarantees.ConsentIsTimely | internal/core/scope/resolver.go:26-43 | every use happens strictly before fifteen minutes after the decision behind the lease |
| Guarantees.CountIsConsumes | internal/store/queries/leases.sql.go:51-61 | the count of a lease equals the number of effective ConsumeLease statements of the run |
| Guarantees.MeteringHolds | internal/core/lease/manager.go:115-146 | used is at most the limit, exhausted means used up, sends never exceed uses, a lease whose scope has a wildcard is never used, the expiry never passes that of the scope |
| Guarantees.LeaseNeverReopens | internal/store/queries/leases.sql.go:13-20 | between any two moments of a run a lease keeps scope, limit and approval, its expiry never grows, its count never falls, and once closed it never changes |
| Guarantees.SettledForGood | internal/store/queries/approvals.sql.go:191-196 | an approval that has left pending never changes again |
| Guarantees.SettledOnce | internal/core/pipeline/settle.go:56-111 | among all threads that settle or expire an approval exactly one step of the run takes it out of pending |
| Guarantees.OneLeasePerApproval | internal/store/migrations/00012_create_leases.sql:36 | no approval has two leases, and only an approved one has any |
| Guarantees.OneConsentPerApproval | internal/core/pipeline/settle.go:186-195 | the ledger records at most one consent per approval, and only for an approved one |
| Guarantees.ExecutionRefinesDecision | internal/cli/mcpcalls.go:181-215 | every Exchange.Send of mcpCalls.execute carries the service, operation, resource and identity of its own request's decision, which is an auto_allow on the ledger, even under an older lease, and the change of that request as its body |
| Guarantees.SentAsAsked | internal/core/pipeline/pipeline.go:198-273 | whatever mcpCalls.execute sends is what its own request asked for: that request's service and operation, a resource taken from its fields, its change, under a lease of its own agent and workspace; a send has a body exactly when its decision assessed a write |
| Guarantees.LeaseAsAsked | internal/core/scope/resolver.go:107-156 | every lease, automatic or approved, is for the agent, workspace, service, operation and resource fields of the request behind its decision |
| Guarantees.OnlyAllowedExecute | internal/cli/mcpcalls.go:99-133 | a request that is auto_allowed, executing, succeeded or failed has an auto_allow decision without wildcard and below high risk |
| Guarantees.DeniedNeverExecutes | internal/store/queries/capability_requests.sql.go:182-188 | a request once denied, rejected, cancelled, approved or awaiting approval never gets to auto_allowed, executing, succeeded or failed |
| Guarantees.DecidedForGood | internal/store/migrations/00010_create_decisions.sql:36 | a decision row never changes and is the only one of its request |
| Guarantees.LedgerOnlyGrows | internal/core/pipeline/pipeline.go:538-559 | the ledger is append-only over any run |
| Steps.ActKeeps | internal/core/pipeline/pipeline.go:405-502 | each of the forty acts, by any thread in any state that satisfies the invariant, keeps the invariant, evolves the tables as allowed and leaves other threads' uses and unbooked consents alone |
| Guarantees.RunInv | internal/core/pipeline/settle.go:139-181 | the invariant holds in every state of every run |
| Guarantees.RunEvolves | internal/core/lease/manager.go:148-163 | from any state of a run to any later one requests only progress, approvals settle once, leases only tighten, memories only get stricter |
| Steps.ConsumeKeeps | internal/store/queries/leases.sql.go:51-61 | the conditional count keeps every meter, lease and thread condition |
| Steps.IssueApprovedKeeps | internal/core/pipeline/settle.go:183-214 | issuing on an approval keeps the invariant: the lease is the first of its approval and its consent is on the ledger |
| Steps.IssueAutoKeeps | internal/core/pipeline/pipeline.go:464-502 | issuing without asking keeps the invariant: the verdict is on the ledger and the scope is the decision's own |
| Steps.SettleWinKeeps | internal/store/queries/approvals.sql.go:191-196 | winning the conditional update of a pending approval keeps the invariant, and no consent to it was booked before |
| Steps.ConsentMoves | internal/core/pipeline/settle.go:186-195 | booking a person's consent keeps it unique: only the thread that won the approval can book it |
| Steps.LearnKeeps | internal/core/pipeline/settle.go:216-239 | learning keeps the invariant: a memory remembers exactly the scope of the decision a person approved |
| Steps.SendKeeps | internal/cli/mcpcalls.go:195-215 | a send spends exactly one counted, unspent use of this thread and carries what was decided |
| Steps.AdvanceExpiredKeeps | internal/core/pipeline/expire.go:51-53 | expiry can only set aside a request that was never served |
| Assembly.DecisionIsJustified | internal/core/pipeline/pipeline.go:255-271 | a verdict reached from rows read earlier is based on a lesson that allows, or on a stored lease, that covers the scope |
| Assembly.DecidedAsAsked | internal/core/pipeline/pipeline.go:198-273 | the input of a decision agrees with the request in agent, workspace, service, operation and resource fields, and is assessed as a read exactly when the request changes nothing |
| Catalogs.NewCatalog | internal/core/intent/capability.go:73-111 | succeeds exactly when every enabled declaration is complete and no tool and no operation of a service is declared twice, and then both tables hold exactly the declared capabilities |
| Catalogs.ToolForExact | internal/core/intent/capability.go:116-132 | for every service and operation asked for, the tool found is the tool of that very service and operation exactly when no declared service or operation holds the separator NUL |
| Catalogs.DeclaredIsFound | internal/core/intent/capability.go:120-138 | whatever is declared is found, by its operation and by its tool name, and both lead to the same entry |
| Catalogs.ResolveCall | internal/core/intent/resolver.go:87-147 | resolves a call by tool name to the specified intent, or fails with the code of the first test that fails |
| Catalogs.ResolvedAsDeclared | internal/core/intent/resolver.go:87-123 | a resolved intent has the declared service, operation and label, exactly the declared resource keys, and no value that was not in the call |
| Catalogs.ResourceKeyOf | internal/core/intent/intent.go:73-90 | the resource text lists the fields in ascending order, in whatever order the map yields them |
| Submissions.InputsFor | internal/orchestration/submissions.go:225-281 | succeeds exactly when the repositories answer and the declarations load; the call is made of the request alone and names its own tool; an operation the registry does not know becomes a blocker |
| Promises.NoLeaseOverspent | internal/core/lease/manager.go:136-145 | in any store the modelled code has worked on, no lease is overspent, an exhausted one is used up, one with a wildcard was never used |
| Promises.EveryLeaseIsWarranted | internal/core/pipeline/pipeline.go:460-502 | in any such store every lease has its automatic allow, or the consent to its approved approval, on the ledger |
| Promises.AtMostOneLease | internal/core/pipeline/settle.go:113-136 | in any such store an approval has at most one lease, and only an approved one |
| Promises.ServedMeansAllowed | internal/cli/mcpcalls.go:110-132 | in any such store a request is served only on its own automatic allow |
| Stores.Store.Consume | internal/store/repo/lease.go:143-158 | the statement either counts one use, exactly when active, unexpired and below the limit, or changes nothing |
| Stores.Store.IssueLease | internal/store/queries/leases.sql.go:94-122 | inserts the row or, if the id or the approval already has one, changes nothing and reports a conflict |
| Stores.Store.SettleApproval | internal/store/repo/approval.go:95-113 | settles a pending approval; conflict means it was not pending, any other failure says nothing about it |
| Stores.Store.AdvanceRequest | internal/store/repo/request.go:85-107 | moves a request on only from the expected status |
| Stores.Store.ShortenLease | internal/store/queries/leases.sql.go:502-509 | the new expiry is both written and compared, so the statement can only shorten |
| Stores.Store.Elapse | internal/platform/clock/clock.go:13-22 | the clock moves forward and nothing else moves with it |
| Leasing.LeaseManager.Issue | internal/core/lease/manager.go:69-106 | on success one act, the insertion of the granted scope with its own columns, before the scope expires; on failure none |
| Leasing.LeaseManager.Use | internal/core/lease/manager.go:115-146 | which acts Use takes on every path; alone it succeeds exactly when the request is inside a consumable lease and then counts that lease once, closing it when used up |
| Leasing.LeaseManager.Revoke | internal/core/lease/manager.go:149-151 | closes exactly an active lease |
| Leasing.LeaseManager.Shorten | internal/core/lease/manager.go:157-163 | succeeds exactly on an active lease and a strictly earlier expiry |
| Leasing.LeaseManager.Sweep | internal/core/lease/manager.go:170-186 | closes what was due, one act each, in order; alone exactly the active due leases and no other |
| Approving.CheckSettle | internal/core/approval/manager.go:238-273 | whatever passes was offered at the risk level; allowing takes strong authentication where required and enough confirmations |
| Approving.ApprovalManager.Open | internal/core/approval/manager.go:79-107 | returns the approval already standing for the decision or creates the one; alone it fails only without a decision id, and nothing else changes |
| Approving.ApprovalManager.Settle | internal/core/approval/manager.go:189-210 | checks, one conditional update, and for the loser a replay; alone it succeeds exactly on a pending approval or on one settled by the same action and not expired |
| Approving.ApprovalManager.Replay | internal/core/approval/manager.go:220-236 | replays only the same action and never an expiry, without writing anything |
| Approving.ApprovalManager.Expire | internal/core/approval/manager.go:291-307 | closes due approvals one act each and leaves every one of them expired for good; alone it does not fail and closes exactly the pending approvals that are due, and no other row changes |
| Learning.LearnedIsNarrower | internal/core/trust/manager.go:124-169 | what passes the convergence check is inside the approved scope, never high risk, with a ceiling below both |
| Learning.LearnableAsApproved | internal/core/trust/manager.go:124-158 | a scope passes the convergence check as it was approved exactly when it has no wildcard and the risk is low or medium |
| Learning.TrustManager.Generate | internal/core/trust/manager.go:84-121 | stores exactly the learned scope, once, or nothing |
| Learning.TrustManager.Match | internal/core/trust/manager.go:192-208 | returns only active, unexpired memories of agent, workspace and service, each of which goes back to an approved lesson; alone it returns all of them |
| Learning.UnexpiredExactly | internal/core/trust/manager.go:200-207 | the filter keeps exactly the candidates whose expiry lies after now |
| Learning.TrustManager.InvalidateForIdentity | internal/core/trust/manager.go:245-253 | invalidates one memory per act in listing order; alone exactly the active memories of the identity and no other |
| Learning.TrustManager.TightenBehavior | internal/core/trust/manager.go:226-232 | turns a memory to asking; alone exactly when it is active and allows |
| Learning.TrustManager.Delete | internal/core/trust/manager.go:238-240 | removes exactly that memory |
| Assembly.CoveredByGrants | internal/core/pipeline/pipeline.go:343-403 | turning memories into grants loses no coverage: some grant covers a scope exactly when some readable memory does |
| Assembly.BeyondHistoryMeansNoGrant | internal/core/pipeline/pipeline.go:389-403 | the risk factor beyond-history and the decision branch beyond-learned-scope test the same thing |
| Assembly.AmbiguousFailsClosed | internal/core/pipeline/pipeline.go:226-240 | an input that reaches the decision has one identity, a minimal scope of fifteen minutes and one use; an ambiguous identity never gets there |
| Assembly.InputFromReads | internal/core/pipeline/pipeline.go:275-320 | rows read at two earlier moments still justify every grant and standing lease at the moment of decision |
| Pipelines.Pipeline.Handle | internal/core/pipeline/pipeline.go:164-183 | every path is either an error entry and a denial, or decision row, ledger, one effect, status, in this order; what is decided concerns the stored request; an allow returns a lease that covers the decided scope with the verdict already on the ledger. Alone it fails exactly on a request that is no longer received or, if it comes to a decision, was decided before; otherwise its outcome is the decision on the memories and standing leases that are stored, or the denial for the first stage that fails, and the leases gain exactly the one a new allow needs |
| Pipelines.Pipeline.Resolve | internal/core/pipeline/pipeline.go:198-273 | the decision input is what memories, identity match, scope, standing leases and risk say; any failure becomes its blocker; alone it stops exactly on the first stage that fails on the stored rows, and reads exactly the memories and leases that speak to the request |
| Pipelines.Pipeline.Conclude | internal/core/pipeline/pipeline.go:409-458 | records the decision, then the verdict, and only then has at most one effect; alone it succeeds exactly on an undecided, still received request whose lease is there or can be issued |
| Pipelines.Pipeline.Issue | internal/core/pipeline/pipeline.go:464-502 | reuses the matched lease without issuing, otherwise issues exactly one with the decided scope; alone it fails exactly when the matched lease is gone or the scope is invalid or past |
| Pipelines.Pipeline.FailClosed | internal/core/pipeline/pipeline.go:565-597 | an error entry first, then denied, with the fail-closed outcome of the blocker; alone exactly when the request is still received |
| Settlements.Settler.SettleApproval | internal/core/pipeline/settle.go:56-111 | an allow is taken only inside the window of the scope as read after entry, authenticated and confirmed as the decision demands; only the winner books, issues and learns, in this order; everyone after gets the first lease for an allow, none for a deny, with no write at all. A first answer that learns from a wildcard or outside low and medium risk never succeeds. Alone it succeeds exactly when the answer is admissible and, on a pending approval, does not teach the unteachable; an admissible first answer that fails leaves its lease behind and nothing else after it |
| Settlements.Settler.ApplySettlement | internal/core/pipeline/settle.go:139-181 | consent or refusal on the ledger, then at most one lease and one memory, then the status; teaching the unteachable fails with at most the entry and the lease made, alone exactly with those two |
| Settlements.Settler.Replayed | internal/core/pipeline/settle.go:117-136 | a replay takes no act; for an allow it returns the lease of that approval, and alone it fails exactly when there is none |
| Settlements.Settler.Give | internal/core/pipeline/settle.go:186-239 | one lease with the limit the consent is worth, then at most one memory of the same scope; where the scope cannot be learned as approved it fails with the lease as its only act, alone exactly then |
| Settlements.Settler.Remember | internal/core/pipeline/settle.go:220-239 | learns the decided scope when the answer asks for it; alone it fails exactly when the scope cannot be learned as approved |
| Settlements.Settler.IssueGranted | internal/core/pipeline/settle.go:204-213 | the lease of a consent is the decided scope with the limit of the answer; alone it is issued exactly when that is valid, still open and the first for its approval |
| Settlements.PendingIsFresh | internal/core/pipeline/settle.go:96-136 | a pending approval has neither a lease nor a memory, in every state of the invariant |
| Settlements.Settler.ClearTrustMemory | internal/core/pipeline/settle.go:328-351 | the entry first, while the memory can still be read, then its removal; alone it succeeds exactly on an existing memory |
| Witnesses.PendingReachable | internal/core/pipeline/pipeline.go:409-458 | whatever asks a person can be waiting for its answer at any later moment, with any deadline and neither lease nor memory |
| Witnesses.TeachingAWildcard | internal/core/pipeline/settle.go:216-239 | in a reachable state with a pending approval on a wildcard scope every allow is admissible, and exactly those that teach nothing succeed |
| Witnesses.PastDueIsAllowed | internal/core/pipeline/settle.go:69-86 | in a reachable state an approval past its deadline can be allowed, and once the window of its scope has passed it can only be denied |
| Witnesses.IssuedUnderReview | internal/core/pipeline/identity.go:13-18 | a legal run in which a thread that had decided before a disconnect inserts an active lease of an identity already under review |
| Witnesses.AllowedAfterwards | internal/core/pipeline/settle.go:183-214 | in a reachable state an identity is under review and a session has ended, and a pending approval of both can still be allowed, by allow_once or allow_until_task_end |
| LateLeases.LateLeaseExactly | internal/core/pipeline/identity.go:13-18 | from any moment of any run a lease of the identity, or a session-bound one of the agent, can appear without a new plan exactly when a thread holds a plan, decision or consent that names it, or an approval that names it is pending, with the window open |
| LateLeases.NothingLate | internal/core/pipeline/agent.go:15-24 | where nothing is poised and nothing is planned for it, no lease of the subject appears at any later moment, whatever all threads do |
| LateLeases.NewExactly | internal/core/pipeline/pipeline.go:464-502 | between two moments of a run the new leases are exactly those an issuing entry in between inserted |
| LateLeases.LeavesOnlyLate | internal/core/pipeline/identity.go:53-88 | where none of the leases that stood before is still active, the active ones were issued since, and there are none if nothing was poised before and nothing planned since |
| LateLeases.UpkeepKeepsPoised | internal/core/pipeline/identity.go:53-88 | none of the writes of a cascade, the mark and the end of the session included, changes who can still issue |
| LateLeases.PoisedIssues | internal/core/pipeline/pipeline.go:409-502 | whatever is poised can issue, by its own next steps and the answer of a person |
| LateLeases.MarkedTooEarly | internal/core/pipeline/identity.go:13-18 | from every run in which something is poised for an identity there is a legal one that marks it for review and issues a lease of it afterwards |
| LateLeases.EndedTooEarly | internal/core/pipeline/agent.go:15-24 | from every run in which something is poised for a session there is a legal one that ends it and issues a lease bound to it afterwards |
| Cascades.Cascade.ExpireApprovals | internal/core/pipeline/expire.go:24-57 | closes the batch first, then writes it down item by item; it never issues, and every approval it counts is on the ledger; alone it does not fail, closes exactly the pending approvals that are due and writes down every one |
| Cascades.Cascade.DisconnectIdentity | internal/core/pipeline/identity.go:53-88 | an unknown identity changes nothing; otherwise leases first, then memories, only then the status; on success every active lease of the identity was issued since the call began, and there is none if nothing was poised then and nothing planned since; alone no active lease or memory of the identity is left |
| Cascades.Cascade.RevokeEach | internal/core/pipeline/identity.go:94-114 | one lease at a time, the ledger entry before the revocation; every returned lease is closed and written down |
| Cascades.Cascade.DisconnectAgent | internal/core/pipeline/agent.go:45-63 | the session first, then the leases bound to it; on success every active session-bound lease of the agent was issued since the session ended, and there is none if nothing was poised then and nothing planned since; alone none is left |
| Calls.McpCalls.Call | internal/cli/mcpcalls.go:99-133 | a request is stored as received, then decided, and executed only after the automatic branch ran to its end, under a decision that concerns what this call stored; a refusal sends nothing. Alone the answer is the verdict on what is stored, an allowed call goes out exactly unless the standing lease it reuses is used up, and then that one lease is counted once and the run is closed on ledger and status |
| Calls.McpCalls.Open | internal/cli/mcpcalls.go:142-173 | an undeclared operation or arguments that are no object store nothing; otherwise one request, with the declared resource fields, the rest as its change, and no change for a capability that only reads; alone it fails for no other reason |
| Calls.SplitArguments | internal/cli/mcpcalls.go:291-331 | the declared resource fields on one side, every other argument on the other, none lost and none on both |
| Calls.McpCalls.Decide | internal/orchestration/submissions.go:132-153 | the inputs are made of the stored request, and an allow comes with a plan that concerns it and a lease that covers the plan; alone it fails exactly when the surroundings do not answer, or the request is not as received or was decided before |
| Calls.McpCalls.Execute | internal/cli/mcpcalls.go:181-253 | status, meter, at most one send and only once metered, record, status, in this order, however far it gets; alone the request goes out exactly when the lease can be used for its scope, which then counts once, and the run is closed as succeeded or failed |
| Calls.McpCalls.Spend | internal/cli/mcpcalls.go:195-215 | nothing goes out that was not counted, and what goes out is the lease's scope and the request's stored change |
| Calls.FilterIsIrrelevant | internal/cli/proxyports.go:173-182 | the search finds the same lease with and without its agent and service filter |
| Calls.AuthorizedMeans | internal/cli/proxyports.go:165-195 | success raises exactly one lease's count by one, and that lease agrees with the call on agent, workspace, service, operation and resource; failure changes no lease |
| Calls.ProxyLeases.Authorize | internal/cli/proxyports.go:165-195 | alone it uses exactly the first listed lease that covers the call, or none and reports credential_not_authorized |
| Decisions.AllowExactly | internal/core/decision/engine.go:242-406 | auto_allow holds exactly under a condition stated without the table: no blocker, not forbidden, low or medium risk, history, identity, trust and always-ask permitting, and a lease, the low-risk rule or a learned medium grant |
| Decisions.DenyExactly | internal/core/decision/engine.go:286-320 | denied exactly for a blocker or a forbidden operation, with the reason that says which; everything else that is not allowed goes to a person |
| Decisions.AskedFor | internal/core/decision/engine.go:409-452 | strong authentication exactly for high risk, two confirmations exactly for high risk in cautious mode, nothing for an allow or a denial |
| Decisions.AskingOrder | internal/core/decision/engine.go:242-283 | high risk, a scope beyond what was learned and an ambiguous identity are named in this order whatever else holds |
| Decisions.HighRiskNeverAllowed | internal/core/decision/engine.go:242-283 | high risk is never allowed in any mode |
| Decisions.ModesWiden | internal/core/decision/engine.go:75-106 | what cautious allows balanced allows, what balanced allows automatic allows |
| Decisions.TighteningNeverAllows | internal/core/decision/engine.go:367-380 | turning any grant into always-ask never creates an allow |
| Decisions.AddingAskNeverAllows | internal/core/decision/engine.go:367-380 | adding an always-ask grant anywhere never creates an allow |
| Decisions.BlockersDeny | internal/core/decision/engine.go:327-348 | any reported blocker denies, fail-closed |
| Decisions.AddingLeaseKeepsAllow | internal/core/decision/engine.go:399-406 | adding an active lease anywhere never takes an allow away |
| Decisions.AllowBasis | internal/core/decision/engine.go:409-441 | the references an allow returns point at a lease or a grant that really covers the scope and does not ask |
| Scopes.SameResourceExact | internal/core/scope/scope.go:177-188 | the length test and zero-value lookup are map equality for every right-hand side exactly when no value on the left is empty |
| Scopes.CoversReflexive | internal/core/scope/scope.go:131-166 | a scope covers itself exactly when it is valid and free of wildcards |
| Scopes.CoversTransitiveExact | internal/core/scope/scope.go:131-188 | coverage is transitive from a scope exactly when none of its resource values is empty |
| Scopes.EmptyValueBreaksTransitivity | internal/core/scope/scope.go:177-188 | with an empty value there are two concrete scopes through which transitivity fails |
| Scopes.CoversAntisymmetric | internal/core/scope/scope.go:131-166 | mutual coverage is equality up to the resource key |
| Scopes.CoversImpliesIgnoringWindow | internal/core/scope/scope.go:170-175 | coverage implies coverage ignoring the window |
| Scopes.CoversIgnoringWindowTransitive | internal/core/scope/scope.go:170-175 | ignoring the window is transitive although each link rewrites the window |
| Scopes.CoveredAgrees | internal/core/scope/scope.go:131-188 | what a caller may read off coverage: equal in eight dimensions, no larger in limit and ceiling, the same resource |
| Intents.ExtractedFacts | internal/core/intent/resolver.go:158-204 | an extracted resource has exactly the declared keys, no empty value, and is ambiguous exactly when it has a wildcard |
| Intents.ExtractResource | internal/core/intent/resolver.go:174-191 | the loop returns the extraction or the first error |
| Intents.ResolvedIsMinimal | internal/core/scope/resolver.go:107-156 | a scope resolved without overrides is valid, lasts fifteen minutes from now, allows one use and takes service and identity from the match |
| Matcher.MatchOrderIndependent | internal/core/matcher/matcher.go:62-102 | the match does not change under permuting or repeating candidate references or permuting identities with distinct ids |
| Matcher.FirstLevelDecides | internal/core/matcher/matcher.go:76-101 | the first level with a known candidate decides alone |
| Matcher.SpeakingResult | internal/core/matcher/matcher.go:104-127 | the result is one of the available identities, or at least two distinct sorted candidates |
| Matcher.MatchIsResolvable | internal/core/decision/failclosed.go:97-102 | matching succeeds exactly on usable identities of a named service, and every success satisfies the decision engine |
| Matcher.MatchRequest | internal/core/matcher/matcher.go:62-102 | the loop over the four levels computes the specified match |
| Matcher.SelectIdentities | internal/core/matcher/matcher.go:191-216 | the selection is the available identities among the candidates, each once, sorted by id |
| Risk.FoldIsMaximum | internal/core/risk/engine.go:92-148 | the fold is the maximum of the baseline and all triggered raises |
| Risk.LevelOrderIndependent | internal/core/risk/engine.go:92-148 | the level is the same for every ordering of the rule table |
| Risk.AssessMonotone | internal/core/risk/engine.go:124-148 | the level is monotone in every risk flag and in the declared label |
| Risk.ReasonsExactly | internal/core/risk/engine.go:124-148 | the reasons are the declared label, read-only for a read, and exactly the rules that triggered |
| Risk.AssessFacts | internal/core/risk/engine.go:124-148 | an assessment has a known level no lower than the label, starts its reasons with the label, and names read-only exactly for a read |
| Risk.Evaluate | internal/core/risk/engine.go:124-148 | the loop computes the fold and its reasons |
| Risk.ConsistencyIsFixpoint | internal/adapter/registry/capability.go:162-182 | the six consistency checks hold exactly when evaluating the declared factors returns the declared label |
| ForbiddenList.CutOffSound | internal/core/decision/forbidden.go:108-130 | a run longer than the longest keyword can be cut off: no extension of it is a keyword of a bounded table |
| ForbiddenList.TablesBounded | internal/core/decision/forbidden.go:45-61 | every keyword of every table is at most as long as the cut-off |
| ForbiddenList.MentionsAny | internal/core/decision/forbidden.go:108-130 | with the cut-off the search still finds exactly whether some contiguous run of segments concatenates to a keyword |
| ForbiddenList.SegmentsOf | internal/core/decision/forbidden.go:136-167 | the scanner with its flush computes the specified segments, whatever letters outside ASCII are capitals |
| ForbiddenList.SegmentsSpellOperation | internal/core/decision/forbidden.go:136-167 | segments are non-empty and separator-free, and concatenated they spell the operation lowered, without separators and plural s |
| ForbiddenList.Classify | internal/core/decision/forbidden.go:72-106 | the classification equals the exhaustive specification for all services and operations |
| TimeText.TextOrderIsTimeOrder | internal/store/repo/repo.go:14-21 | for four-digit years text order is time order at millisecond resolution, and equal texts are equal times |
| TimeText.DecodeEncode | internal/store/repo/repo.go:19-32 | decoding an encoded time cuts it to the millisecond |
| TimeText.TextTestMeansUnexpired | internal/store/queries/leases.sql.go:51-57 | the text test expires_at > now never passes for an expired lease and passes whenever a millisecond is left |
| TimeText.ConsumeGuardIsTextTest | internal/store/queries/leases.sql.go:51-61 | the guard used by the protocol is the text comparison of the statement |
| TimeText.FiveDigitYearsSortFirst | internal/store/repo/repo.go:14-21 | beyond year 9999 the order breaks: every time of the years 10000 to 19999 sorts before every time of the years 2000 to 9999 |
| TimeText.OrderedExactly | internal/store/repo/repo.go:14-21 | text order is time order for all times of years up to Y exactly when Y is at most 9999 |
| TimeText.ParseRender | internal/store/repo/repo.go:17-32 | parsing a rendered list of fixed-width fields gives the fields back |
| TimeText.MomentOfFields | internal/store/repo/repo.go:19-32 | the calendar fields of a moment name exactly that moment |
| Paths.BuildThenMatch | internal/adapter/github/adapter.go:190-213 | for a template with non-empty literals free of .., whatever buildPath builds MatchPath accepts, and captures exactly the resource restricted to the placeholders |
| Paths.MatchThenBuild | internal/adapter/registry/resolve.go:26-52 | rebuilding from a capture gives the path back exactly when no captured segment is blank or has ? or #, and repeated placeholders captured the same text |
| Paths.MatchPath | internal/adapter/registry/resolve.go:26-52 | the loop accepts exactly the matching paths and returns the captured values |
| Paths.BuildPath | internal/adapter/github/adapter.go:190-213 | the loop builds the path exactly when every placeholder has a usable value |
| Paths.ApartShareNoPath | internal/adapter/registry/resolve.go:26-52 | templates of different length, or different where both are literal, share no path |
| Routes.GithubUnambiguous | internal/adapter/github/capabilities.go:77-272 | no verb and path, over all strings, match two of the fourteen declared GitHub templates |
| Routes.CloudflareUnambiguous | internal/adapter/cloudflare/capabilities.go:74-252 | no verb and path match two of the thirteen declared Cloudflare templates |
| Routes.OrderDoesNotMatter | internal/adapter/registry/resolve.go:57-74 | for an unambiguous table any two visiting orders of the capability map give the same answer |
| Routes.Registry.Resolve | internal/adapter/registry/resolve.go:57-74 | visiting the map in any order, the answer is a declared capability that matches with its captures, or none matches |
| Redaction.RedactedIsSafe | internal/adapter/registry/redact.go:90-183 | the result keeps only whitelisted names at the top, and at every depth sensitive names carry the marker and no text keeps a query that names a credential |
| Redaction.RedactTwice | internal/adapter/registry/exchange.go:143-146 | redacting twice equals redacting once |
| Redaction.RedactFixesClean | internal/adapter/registry/redact.go:90-183 | a whitelisted and clean response passes unchanged: nothing else is removed |
| Redaction.ScrubbedOnlyDirt | internal/adapter/registry/redact.go:160-183 | scrub changes a value exactly when there is something to redact in it |
| Redaction.ScrubbedUrlClean | internal/adapter/registry/redact.go:189-205 | a scrubbed URL has no query naming a credential, and only a URL that had one is changed |
| Redaction.Redact | internal/adapter/registry/redact.go:90-138 | the loops compute the specified result, and anything but an object or an array of objects is refused |
| Redaction.Scrub | internal/adapter/registry/redact.go:160-183 | the recursion with its loops computes the specified tree |
| Redaction.SensitiveKey | internal/adapter/registry/redact.go:208-221 | the two loops decide exactly whether a word or a rule occurs in the normalised name |
| Vaults.UnlockRateBound | internal/credential/localvault/vault.go:28-32 | checks with the pauses the vault enforces are at most three for every minute a span touches |
| Vaults.Vault.RateBound | internal/credential/localvault/vault.go:122-147 | in every reachable vault the refused checks since the last success obey the bound |
| Vaults.Vault.Unlock | internal/credential/localvault/vault.go:122-147 | nothing is checked before lockedUntil; the third refusal in a row begins a lockout and resets the count; success clears both |
| Vaults.Vault.Get | internal/credential/localvault/vault.go:207-231 | a locked or idle vault gives nothing; otherwise the stored entry, and only then the idle clock restarts |
| Vaults.Vault.Put | internal/credential/localvault/vault.go:234-257 | succeeds exactly when named, active and readable, and replaces that entry only |
| Vaults.Vault.Delete | internal/credential/localvault/vault.go:261-285 | succeeds exactly on an existing entry of an active vault, and removes that entry only |
| Vaults.PutThenGet | internal/credential/localvault/vault.go:207-257 | what was put in comes out, as long as it is asked for before the vault locks itself |
| Vaults.Vault.Lock | internal/credential/localvault/vault.go:188-193 | forgets the master password and touches neither the file nor the counters |
| Vaults.Vault.IsUnlocked | internal/credential/localvault/vault.go:196-201 | answers whether the vault is active now, and locks it when it is not |
| Vaults.Vault.RestoreBackup | internal/credential/localvault/vault.go:333-349 | replaces the file exactly when the password opens the backup; otherwise the vault is locked and the file kept |

## Left out

- HTTP, MCP and stdio framing, the console, command line, processes, configuration files and file permissions: I/O without an invariant of this kind.
- Outbound HTTP, credential sources and the SQLite driver: `Exchange` is a method with an arbitrary answer, a statement is its WHERE and SET.
- Foreign keys and CHECK constraints of the tables, other than the UNIQUE indexes the protocol relies on.
- JSON encoding of scopes, risk factors and rows is the identity; a scope that does not read back cannot occur, but the branches for it are kept.
- A statement that commits and then reports an error is not modelled: an error means that nothing was changed.
- The send of the proxy face (internal/cli/proxyexchange.go:59), with a body from its HTTP caller, is no act of the model: what is said of sends is about mcpCalls.execute. The search and the count before it are Calls.ProxyLeases.
- Setting an identity back to ok after its review (internal/transport/httpapi/identities.go:255-262): the set of identities under review only grows, and no guard reads it.
- Ids are fresh: a ULID is never handed out twice. Hashing, key derivation and the cipher are ideal.
- Panic recovery in Handle and Decide, context cancellation, and the limits of listings (100, 200, 1000): a listing returns every row.
- The ORDER BY of listings: every result is proved for every order, so which of several covering leases is found first is left open.
- Rows of identities, agents, workspaces and devices: an identity under review and an ended session are members of two sets; what looking up the identity gives is a parameter of DisconnectIdentity, and ending the session of an unknown agent succeeds.
- last_used_at of memories, InvalidateAll, InvalidateUnused, ByStatus and the reasons of invalidation: they add no rule of their own.
- Change previews: saving one is an act of the protocol; computing one, which Decide does for a request that waits, is not part of this model.
- The request statuses resolving, deciding and expired are never assigned by the modelled code.
- The intent resolver: calls name a tool; looking one up by method and path (lookupRoute), the glob patterns of the environment rules, whose verdict on a resource is a parameter, and the names of ignored fields are not part of this model.
- Resource fields and arguments are maps from names to text or anything else; resource text that is blank or no JSON object is a map without fields, which fails in the same way because every capability declares a resource key.
- The JSON text of the arguments that are no resource fields is a parameter of a call, and never empty.
- Submissions.InputsFor: names its own tool where no declared name holds NUL; ToolForExact says that this is exactly when.
- What agents, devices, identities and declarations are at the time is a parameter (Surroundings); only the tables of the protocol change under other threads.
- Guarantees.LedgerOnlyGrows: retention pruning of audit rows (internal/platform/audit/prune.go, internal/store/repo/audit.go:150-199) is outside the acts.
- Guarantees.DeniedNeverExecutes: says nothing about moves among the statuses of a request that was set aside, because cancelling does not stop a later settlement from advancing the request.
- Guarantees.ConsentIsTimely: a use is timed by the clock reading the statement tests, not by the moment it commits.
- Pipelines.Pipeline.Handle: takes requests that entered as received, which is how every caller creates them, and inputs made of the stored request (FromRequest), which is how Submissions.InputsFor makes them.
- Cascades.Cascade.ExpireApprovals: does not promise a ledger entry for an approval closed in a batch whose bookkeeping fails, because the code closes the batch first.
- Stores.Store.Yield: interference is stated, not enumerated: its contract allows any legal acts of other threads, and its body does nothing.
- TimeText.DecodeEncode: the decoder accepts only the UTC form the encoder writes; Go's parser also accepts numeric offsets.
- Text folding and lowering cover ASCII and the letters that map into it; other non-ASCII letters map to themselves. Which letters outside ASCII are capitals, and so begin a new word of an operation name, is left open.
- Calls.ProxyLeases.Authorize: the resource key of a route is given; with no other thread and no fault the clock stands still during the call.
- Redaction.ScrubbedUrlClean: a URL is head, query and fragment; which texts net/url accepts and how it unescapes query parts are parameters, and its normalisation of the head is the identity. RedactText for logs is not part of this model.
- Vaults.Vault.RateBound: is about Unlock; RestoreBackup checks a password outside the counters, as in the code. One clock reading per call; the byte-wise clearing of secrets is not modelled.
- Sorting in the matcher is modelled as insertion; Go's sort.Slice gives the same sequence for distinct ids.
