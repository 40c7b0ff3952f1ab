/**
 The shared rows and the statements that change them (internal/store/queries, internal/store/repo).
 Each statement is a function from a database to the database after it, or to None when its WHERE
 clause or a UNIQUE index leaves it without effect.
 */
module Tables {
  import opened Results
  import opened Scopes
  import D = Decisions
  import I = Intents
  import R = Risk

  type Id = string

  /** Times are stored as text with millisecond precision; module TimeText shows that comparing the
      texts compares these numbers. */
  const MILLISECOND := 1_000_000

  function Stored(t: Instant): int { t / MILLISECOND }

  function Loaded(stored: int): Instant { stored * MILLISECOND }

  datatype RequestStatus =
    | Received | Resolving | Deciding
    | AutoAllowed | AwaitingApproval | Denied
    | Approved | Rejected | Expired | Cancelled
    | Executing | Succeeded | Failed

  /** `fields` are the resource fields of the request; a text that is no JSON object has none. */
  datatype Request = Request(
    agentId: Id, workspaceId: Id, service: string, operation: string,
    fields: map<string, I.Field>, desiredChange: string, status: RequestStatus, preview: string)

  datatype Decision = Decision(
    requestId: Id, verdict: D.Verdict, riskLevel: Level, factors: seq<R.Factor>, identityId: Id, scope: Scope,
    requirement: D.Requirement, reason: D.Reason, memoryId: Id, createdAt: Instant)

  datatype Action = Deny | AllowOnce | AllowUntilTaskEnd | AutoAllowInProject | AlwaysAsk

  datatype ApprovalStatus = Pending | Approved | Rejected | Expired | Cancelled

  datatype Approval = Approval(
    decisionId: Id, action: Option<Action>, status: ApprovalStatus,
    expiresAt: int, decidedAt: Option<int>)

  datatype LeaseStatus = Active | Expired | Exhausted | Revoked

  /** `limit` 0 is the NULL of `request_limit`: no limit. `approvalId` "" is NULL. */
  datatype Lease = Lease(
    agentId: Id, identityId: Id, service: string, scope: Scope, capability: string,
    expiresAt: int, limit: nat, used: nat, status: LeaseStatus,
    approvalId: Id, sessionBound: bool, memoryId: Id)

  datatype Behavior = AutoAllowBehavior | AlwaysAskBehavior

  datatype Memory = Memory(
    agentId: Id, workspaceId: Id, identityId: Id, service: string, scope: Scope,
    riskCeiling: Level, behavior: Behavior, createdFrom: Id, active: bool, expiresAt: int)

  datatype Event =
    | AutoAllowedEvent(decisionId: Id)
    | DeniedEvent(decisionId: Id, approvalId: Id)
    | UserAllowedEvent(approvalId: Id, decisionId: Id)
    | ApprovalExpiredEvent(approvalId: Id, decisionId: Id)
    | ErrorEvent(requestId: Id, blocker: D.Blocker)
    | AdapterExecutedEvent(requestId: Id, leaseId: Id, succeeded: bool)
    | LeaseRevokedEvent(leaseId: Id)
    | TrustClearedEvent(memoryId: Id)

  datatype Db = Db(
    now: Instant,
    requests: map<Id, Request>,
    decisions: map<Id, Decision>,
    approvals: map<Id, Approval>,
    leases: map<Id, Lease>,
    memories: map<Id, Memory>,
    ledger: seq<Event>,
    underReview: set<Id>,
    endedSessions: set<Id>)

  // ----- capability_requests -----

  function InsertRequest(db: Db, id: Id, row: Request): Option<Db> {
    if id in db.requests then None else Some(db.(requests := db.requests[id := row]))
  }

  /** UPDATE ... SET status WHERE id = ? AND status = ? */
  function UpdateRequestStatus(db: Db, id: Id, from: RequestStatus, to: RequestStatus): Option<Db> {
    if id !in db.requests || db.requests[id].status != from then None
    else Some(db.(requests := db.requests[id := db.requests[id].(status := to)]))
  }

  function UpdateRequestPreview(db: Db, id: Id, preview: string, expected: RequestStatus): Option<Db> {
    if id !in db.requests || db.requests[id].status != expected then None
    else Some(db.(requests := db.requests[id := db.requests[id].(preview := preview)]))
  }

  // ----- decisions: one per request -----

  function InsertDecision(db: Db, id: Id, row: Decision): Option<Db> {
    if id in db.decisions || exists d :: d in db.decisions && db.decisions[d].requestId == row.requestId
    then None
    else Some(db.(decisions := db.decisions[id := row]))
  }

  // ----- approvals: one per decision, settled once -----

  function InsertApproval(db: Db, id: Id, row: Approval): Option<Db> {
    if id in db.approvals || exists a :: a in db.approvals && db.approvals[a].decisionId == row.decisionId
    then None
    else Some(db.(approvals := db.approvals[id := row]))
  }

  /** UPDATE ... SET action, status, decided_at WHERE id = ? AND status = 'pending' */
  function UpdateApproval(db: Db, id: Id, action: Action, status: ApprovalStatus, at: int): Option<Db> {
    if id !in db.approvals || db.approvals[id].status != Pending then None
    else Some(db.(approvals := db.approvals[id :=
      db.approvals[id].(action := Some(action), status := status, decidedAt := Some(at))]))
  }

  // ----- leases: one per approval, conditional updates -----

  function InsertLease(db: Db, id: Id, row: Lease): Option<Db> {
    if id in db.leases
       || (row.approvalId != "" && exists l :: l in db.leases && db.leases[l].approvalId == row.approvalId)
    then None
    else Some(db.(leases := db.leases[id := row]))
  }

  predicate Consumable(row: Lease, at: Instant) {
    row.status == Active && row.expiresAt > Stored(at) && (row.limit == 0 || row.used < row.limit)
  }

  /** UPDATE ... SET used_requests + 1 WHERE active AND expires_at > ? AND below the limit */
  function UpdateLeaseUse(db: Db, id: Id, at: Instant): Option<Db> {
    if id !in db.leases || !Consumable(db.leases[id], at) then None
    else Some(db.(leases := db.leases[id := db.leases[id].(used := db.leases[id].used + 1)]))
  }

  /** UPDATE ... SET status WHERE id = ? AND status = 'active' */
  function UpdateLeaseStatus(db: Db, id: Id, status: LeaseStatus): Option<Db> {
    if id !in db.leases || db.leases[id].status != Active then None
    else Some(db.(leases := db.leases[id := db.leases[id].(status := status)]))
  }

  /** UPDATE ... SET expires_at = x WHERE id = ? AND status = 'active' AND expires_at > x */
  function UpdateLeaseExpiry(db: Db, id: Id, expiresAt: int): Option<Db> {
    if id !in db.leases || db.leases[id].status != Active || db.leases[id].expiresAt <= expiresAt then None
    else Some(db.(leases := db.leases[id := db.leases[id].(expiresAt := expiresAt)]))
  }

  // ----- trust_memories: one per approval -----

  function InsertMemory(db: Db, id: Id, row: Memory): Option<Db> {
    if id in db.memories || exists m :: m in db.memories && db.memories[m].createdFrom == row.createdFrom
    then None
    else Some(db.(memories := db.memories[id := row]))
  }

  function InvalidateMemory(db: Db, id: Id): Option<Db> {
    if id !in db.memories || !db.memories[id].active then None
    else Some(db.(memories := db.memories[id := db.memories[id].(active := false)]))
  }

  /** Only ever from auto_allow to always_ask, and only while active. */
  function TightenMemory(db: Db, id: Id): Option<Db> {
    if id !in db.memories || !db.memories[id].active || db.memories[id].behavior != AutoAllowBehavior then None
    else Some(db.(memories := db.memories[id := db.memories[id].(behavior := AlwaysAskBehavior)]))
  }

  function DeleteMemory(db: Db, id: Id): Option<Db> {
    if id !in db.memories then None else Some(db.(memories := db.memories - {id}))
  }

  // ----- audit_events -----

  function Append(db: Db, event: Event): Db {
    db.(ledger := db.ledger + [event])
  }
}
