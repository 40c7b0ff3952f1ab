/**
 The authorization protocol as interleaved atomic steps. A thread is one activation of Handle,
 SettleApproval, ExpireApprovals, a disconnect cascade, a lease operation or an MCP call; each act
 is one repository call, or one local step that fixes what the thread knows. Any thread may stop
 between two acts, and any act may simply not happen.
 */
module Protocol {
  import opened Results
  import opened Scopes
  import opened Tables
  import D = Decisions
  import I = Intents
  import R = Risk

  type Tid = nat

  // ----- The approval table of consequences (approval/manager.go) -----

  predicate Allows(action: Action) { action != Deny }

  /** 0 means: keep the limit of the converged scope. */
  function LimitOf(action: Action): nat {
    match action
    case AllowOnce => 1
    case AllowUntilTaskEnd => TASK_REQUEST_LIMIT
    case _ => 0
  }

  predicate SessionBound(action: Action) { action == AllowUntilTaskEnd }

  function LearnOf(action: Action): Option<Behavior> {
    match action
    case AutoAllowInProject => Some(AutoAllowBehavior)
    case AlwaysAsk => Some(AlwaysAskBehavior)
    case _ => None
  }

  function Actions(level: Level): seq<Action> {
    var always := [Deny, AllowOnce, AllowUntilTaskEnd];
    if level == High then always else always + [AutoAllowInProject, AlwaysAsk]
  }

  predicate Offered(level: Level, action: Action) { action in Actions(level) }

  function GrantedScope(scope: Scope, action: Action): Scope {
    if LimitOf(action) > 0 then scope.(requestLimit := LimitOf(action)) else scope
  }

  function StatusFor(action: Action): ApprovalStatus {
    if Allows(action) then ApprovalStatus.Approved else ApprovalStatus.Rejected
  }

  // ----- Threads -----

  /** What Handle has worked out about a request: converged scope, risk, identity and verdict. */
  datatype Plan = Plan(
    scope: Scope, level: Level, factors: seq<R.Factor>, identityId: Id, outcome: D.Outcome)

  /** Where a thread stands. `since` is the time at which an entry reached the ledger: the clock of the
      issuing that follows is read no earlier. */
  datatype Pc =
    | Idle
    // Handle
    | Assembled(requestId: Id, plan: Plan)
    | Decided(requestId: Id, decisionId: Id, outcome: D.Outcome)
    | Noted(requestId: Id, decisionId: Id, outcome: D.Outcome, since: Instant)
    | Asked(requestId: Id, decisionId: Id)
    | Holding(requestId: Id, decisionId: Id, leaseId: Id)
    | Blocked(requestId: Id)
    // Call
    | Passed(requestId: Id, decisionId: Id, leaseId: Id)
    | Running(requestId: Id, decisionId: Id, leaseId: Id)
    | Sent(requestId: Id, decisionId: Id, leaseId: Id)
    // SettleApproval; `from` is the request status it read
    | Reviewing(approvalId: Id, action: Action, from: RequestStatus)
    | Won(approvalId: Id, action: Action, from: RequestStatus)
    | Booked(approvalId: Id, action: Action, from: RequestStatus, since: Instant)
    | Issued(approvalId: Id, action: Action, from: RequestStatus)
    | Taught(approvalId: Id, action: Action, from: RequestStatus)

  /** How far a thread is in lease.Manager.Use. */
  datatype Meter =
    | Off
    | Checked(leaseId: Id, requested: Scope)
    | Counted(leaseId: Id, index: nat)
    | Paid(leaseId: Id, index: nat)

  datatype Thread = Thread(pc: Pc, meter: Meter)

  // ----- History -----

  /** One successful ConsumeLease; `sent` once the request it paid for has gone out. */
  datatype Use = Use(leaseId: Id, approvalId: Id, at: Instant, thread: Tid, sent: bool)

  /** One Exchange.Send made by mcpCalls.execute. */
  datatype Sending = Sending(
    requestId: Id, decisionId: Id, leaseId: Id,
    service: string, operation: string, resource: ResourceMap, identityId: Id, body: string)

  datatype History = History(
    decisionOf: map<Id, Id>,
    leaseOf: map<Id, Id>,
    origin: map<Id, Id>,
    lessons: map<Id, Memory>,
    winner: map<Id, Tid>,
    uses: seq<Use>,
    sends: seq<Sending>,
    threads: map<Tid, Thread>)

  datatype State = State(db: Db, h: History)

  const GENESIS := State(
    Db(ZERO_TIME, map[], map[], map[], map[], map[], [], {}, {}),
    History(map[], map[], map[], map[], map[], [], [], map[]))

  function Thr(s: State, t: Tid): Thread {
    if t in s.h.threads then s.h.threads[t] else Thread(Idle, Off)
  }

  function Goto(h: History, t: Tid, th: Thread): History {
    h.(threads := h.threads[t := th])
  }

  // ----- Acts -----

  datatype Act =
    | Tick(to: Instant)
    | CreateRequest(rid: Id, request: Request)
    | CancelRequest(rid: Id)
    | SavePreview(rid: Id, preview: string, expected: RequestStatus)
    | Assemble(rid: Id, plan: Plan)
    | FailClosed(rid: Id, blocker: D.Blocker)
    | RecordDecision(did: Id, at: Instant)
    | NoteVerdict
    | OpenApproval(aid: Id, deadline: int)
    | FindApproval(aid: Id)
    | IssueAuto(lid: Id, at: Instant)
    | ReuseLease
    | AdvanceVerdict
    | StartRun
    | CheckMeter(lid: Id, requested: Scope)
    | Consume(at: Instant)
    | Exhaust
    | DropMeter
    | Send
    | NoteRun(succeeded: bool)
    | FinishRun(ending: RequestStatus)
    | Review(aid: Id, action: Action, from: RequestStatus)
    | SettleWin(at: Instant)
    | BookSettlement
    | IssueApproved(lid: Id, at: Instant)
    | Learn(mid: Id, at: Instant)
    | AdvanceSettled
    | ExpireApproval(aid: Id, at: Instant)
    | BookExpiry(aid: Id)
    | AdvanceExpired(aid: Id, from: RequestStatus)
    | Revoke(lid: Id)
    | SweepLease(lid: Id, at: Instant)
    | Shorten(lid: Id, deadline: int)
    | BookRevocation(lid: Id)
    | Invalidate(mid: Id)
    | Tighten(mid: Id)
    | BookClear(mid: Id)
    | Delete(mid: Id)
    | ReviewIdentity(iid: Id)
    | EndSession(agent: Id)

  // ----- Rows built by the pipeline -----

  function DecisionRow(rid: Id, plan: Plan, at: Instant): Decision {
    var o := plan.outcome;
    Decision(rid, o.verdict, plan.level, plan.factors, plan.identityId, plan.scope,
             o.requirement, o.reason, o.matchedMemoryId, at)
  }

  function LeaseRow(granted: Scope, approvalId: Id, memoryId: Id, sessionBound: bool): Lease
    requires granted.requestLimit >= 0
  {
    Lease(granted.agentId, granted.identityId, granted.service, granted, granted.operation,
          Stored(granted.expiresAt), granted.requestLimit, 0, Active, approvalId, sessionBound, memoryId)
  }

  function LowerOf(a: Level, b: Level): Level {
    if LevelRank(a) <= LevelRank(b) then a else b
  }

  const DEFAULT_TTL := 30 * 24 * 60 * MINUTE

  function MemoryRow(scope: Scope, level: Level, behavior: Behavior, aid: Id, at: Instant): Memory {
    Memory(scope.agentId, scope.workspaceId, scope.identityId, scope.service, scope,
           LowerOf(level, scope.riskCeiling), behavior, aid, true, Stored(at + DEFAULT_TTL))
  }

  function LessonRow(s: State, pc: Pc, at: Instant): Memory
    requires pc.Issued? && LearnOf(pc.action).Some? && Known(s, pc.approvalId)
  {
    var d := DecisionFor(s, pc.approvalId);
    MemoryRow(d.scope, d.riskLevel, LearnOf(pc.action).value, pc.approvalId, at)
  }

  // ----- What a Handle thread knows when it decides -----

  /** What was decided is what this request asked for: its own agent, workspace, service, operation
      and resource, assessed as a read exactly when it changes nothing. */
  predicate Concerns(row: Request, scope: Scope, factors: seq<R.Factor>) {
    && scope.agentId == row.agentId && scope.workspaceId == row.workspaceId
    && scope.service == row.service && scope.operation == row.operation
    && I.TakenFrom(scope.resource, row.fields)
    && (R.ReadOnly in factors <==> row.desiredChange == "")
  }

  /** The scope is minimal, and an allow rests on what the tables hold: below high risk, without
      wildcard, and on a lesson that allows, on a stored lease that covers, or on low risk. Module
      Assembly shows that the decision engine's outcomes are of this kind. */
  ghost predicate Justified(s: State, plan: Plan) {
    var o := plan.outcome;
    && I.Minimal(plan.scope, HasWildcard(plan.scope.resource))
    && (o.verdict == D.AutoAllow ==>
          && !HasWildcard(plan.scope.resource) && plan.level in {Low, Medium}
          && (o.reason == D.TrustMemoryMatch ==>
                && o.matchedMemoryId in s.h.lessons
                && s.h.lessons[o.matchedMemoryId].behavior == AutoAllowBehavior
                && CoversIgnoringWindow(s.h.lessons[o.matchedMemoryId].scope, plan.scope))
          && (o.matchedLeaseId == "" ==> o.reason in {D.LowRisk, D.TrustMemoryMatch})
          && (o.matchedLeaseId != "" ==>
                && o.matchedLeaseId in s.db.leases
                && CoversIgnoringWindow(s.db.leases[o.matchedLeaseId].scope, plan.scope)))
  }

  predicate AutoPc(pc: Pc) {
    pc.Noted? && pc.outcome.verdict == D.AutoAllow
  }

  /** The scope an issuing thread grants. */
  function IssuedScope(s: State, pc: Pc): Scope
    requires pc.Booked? ==> pc.approvalId in s.db.approvals
                            && s.db.approvals[pc.approvalId].decisionId in s.db.decisions
    requires pc.Noted? ==> pc.decisionId in s.db.decisions
    requires pc.Booked? || pc.Noted?
  {
    if pc.Booked?
    then GrantedScope(s.db.decisions[s.db.approvals[pc.approvalId].decisionId].scope, pc.action)
    else s.db.decisions[pc.decisionId].scope
  }

  predicate Issuable(granted: Scope, at: Instant) {
    Validates(granted) && granted.expiresAt > at
  }

  predicate Known(s: State, aid: Id) {
    && aid in s.db.approvals
    && s.db.approvals[aid].decisionId in s.db.decisions
    && s.db.decisions[s.db.approvals[aid].decisionId].requestId in s.db.requests
  }

  function DecisionFor(s: State, aid: Id): Decision
    requires Known(s, aid)
  {
    s.db.decisions[s.db.approvals[aid].decisionId]
  }

  function VerdictTarget(pc: Pc): RequestStatus {
    match pc
    case Holding(_, _, _) => RequestStatus.AutoAllowed
    case Asked(_, _) => AwaitingApproval
    case _ => Denied
  }

  predicate Concludes(pc: Pc) {
    || pc.Holding? || pc.Asked? || pc.Blocked?
    || (pc.Noted? && pc.outcome.verdict == D.Deny)
  }

  predicate Settles(pc: Pc) {
    || pc.Taught?
    || (pc.Issued? && LearnOf(pc.action).None?)
    || (pc.Booked? && !Allows(pc.action))
  }

  // ----- What acts write -----

  /** Consumed is Counted when the use reached the limit: Use then closes the lease. */
  function AfterCount(row: Lease, leaseId: Id, index: nat): Meter {
    if row.limit != 0 && row.used + 1 >= row.limit then Counted(leaseId, index) else Paid(leaseId, index)
  }

  function SendingOf(s: State, pc: Pc): Sending
    requires pc.Running? && pc.leaseId in s.db.leases && pc.requestId in s.db.requests
  {
    var scope := s.db.leases[pc.leaseId].scope;
    Sending(pc.requestId, pc.decisionId, pc.leaseId,
            scope.service, scope.operation, scope.resource, scope.identityId,
            s.db.requests[pc.requestId].desiredChange)
  }

  function VerdictEvent(pc: Pc): Event
    requires pc.Decided?
  {
    if pc.outcome.verdict == D.AutoAllow then AutoAllowedEvent(pc.decisionId)
    else DeniedEvent(pc.decisionId, "")
  }

  function SettlementEvent(s: State, pc: Pc): Event
    requires pc.Won? && Known(s, pc.approvalId)
  {
    var did := s.db.approvals[pc.approvalId].decisionId;
    if Allows(pc.action) then UserAllowedEvent(pc.approvalId, did) else DeniedEvent(did, pc.approvalId)
  }

  // ----- Guards and effects, one pair per act -----

  ghost predicate CanTick(s: State, t: Tid, to: Instant) {
    to >= s.db.now
  }

  ghost function DoTick(s: State, t: Tid, to: Instant): State
    requires CanTick(s, t, to)
  {
    State(s.db.(now := to), s.h)
  }

  /** mcpCalls.open, capability.create: a request enters as received. */
  ghost predicate CanCreateRequest(s: State, t: Tid, rid: Id, request: Request) {
    request.status == Received && InsertRequest(s.db, rid, request).Some?
  }

  ghost function DoCreateRequest(s: State, t: Tid, rid: Id, request: Request): State
    requires CanCreateRequest(s, t, rid, request)
  {
    State(InsertRequest(s.db, rid, request).value, s.h)
  }

  /** The agent withdraws a request that still waits for a person. */
  ghost predicate CanCancelRequest(s: State, t: Tid, rid: Id) {
    UpdateRequestStatus(s.db, rid, AwaitingApproval, RequestStatus.Cancelled).Some?
  }

  ghost function DoCancelRequest(s: State, t: Tid, rid: Id): State
    requires CanCancelRequest(s, t, rid)
  {
    State(UpdateRequestStatus(s.db, rid, AwaitingApproval, RequestStatus.Cancelled).value, s.h)
  }

  ghost predicate CanSavePreview(s: State, t: Tid, rid: Id, preview: string, expected: RequestStatus) {
    UpdateRequestPreview(s.db, rid, preview, expected).Some?
  }

  ghost function DoSavePreview(s: State, t: Tid, rid: Id, preview: string, expected: RequestStatus): State
    requires CanSavePreview(s, t, rid, preview, expected)
  {
    State(UpdateRequestPreview(s.db, rid, preview, expected).value, s.h)
  }

  /** Handle has resolved intent, identity, scope, risk and standing authorizations of this request. */
  ghost predicate CanAssemble(s: State, t: Tid, rid: Id, plan: Plan) {
    var pc := Thr(s, t).pc;
    && pc.Idle? && rid in s.db.requests && Concerns(s.db.requests[rid], plan.scope, plan.factors)
    && plan.scope.notBefore <= s.db.now && Justified(s, plan)
  }

  ghost function DoAssemble(s: State, t: Tid, rid: Id, plan: Plan): State
    requires CanAssemble(s, t, rid, plan)
  {
    var meter := Thr(s, t).meter;
    State(s.db, Goto(s.h, t, Thread(Assembled(rid, plan), meter)))
  }

  /** A blocker before the decision: only an error event, then denied. */
  ghost predicate CanFailClosed(s: State, t: Tid, rid: Id, blocker: D.Blocker) {
    var pc := Thr(s, t).pc;
    pc.Idle? && rid in s.db.requests
  }

  ghost function DoFailClosed(s: State, t: Tid, rid: Id, blocker: D.Blocker): State
    requires CanFailClosed(s, t, rid, blocker)
  {
    var meter := Thr(s, t).meter;
    State(Append(s.db, ErrorEvent(rid, blocker)), Goto(s.h, t, Thread(Blocked(rid), meter)))
  }

  ghost predicate CanRecordDecision(s: State, t: Tid, did: Id, at: Instant) {
    var pc := Thr(s, t).pc;
    && pc.Assembled? && pc.plan.scope.notBefore <= at <= s.db.now
    && InsertDecision(s.db, did, DecisionRow(pc.requestId, pc.plan, at)).Some?
  }

  ghost function DoRecordDecision(s: State, t: Tid, did: Id, at: Instant): State
    requires CanRecordDecision(s, t, did, at)
  {
    var pc := Thr(s, t).pc;
    var meter := Thr(s, t).meter;
    State(InsertDecision(s.db, did, DecisionRow(pc.requestId, pc.plan, at)).value,
          Goto(s.h.(decisionOf := s.h.decisionOf[pc.requestId := did]), t,
               Thread(Decided(pc.requestId, did, pc.plan.outcome), meter)))
  }

  ghost predicate CanNoteVerdict(s: State, t: Tid) {
    var pc := Thr(s, t).pc;
    pc.Decided?
  }

  ghost function DoNoteVerdict(s: State, t: Tid): State
    requires CanNoteVerdict(s, t)
  {
    var pc := Thr(s, t).pc;
    var meter := Thr(s, t).meter;
    State(Append(s.db, VerdictEvent(pc)),
          Goto(s.h, t, Thread(Noted(pc.requestId, pc.decisionId, pc.outcome, s.db.now), meter)))
  }

  ghost predicate CanOpenApproval(s: State, t: Tid, aid: Id, deadline: int) {
    var pc := Thr(s, t).pc;
    && pc.Noted? && pc.outcome.verdict == D.RequireApproval
    && InsertApproval(s.db, aid, Approval(pc.decisionId, None, Pending, deadline, None)).Some?
    && aid != ""
  }

  ghost function DoOpenApproval(s: State, t: Tid, aid: Id, deadline: int): State
    requires CanOpenApproval(s, t, aid, deadline)
  {
    var pc := Thr(s, t).pc;
    var meter := Thr(s, t).meter;
    State(InsertApproval(s.db, aid, Approval(pc.decisionId, None, Pending, deadline, None)).value,
          Goto(s.h, t, Thread(Asked(pc.requestId, pc.decisionId), meter)))
  }

  ghost predicate CanFindApproval(s: State, t: Tid, aid: Id) {
    var pc := Thr(s, t).pc;
    && pc.Noted? && pc.outcome.verdict == D.RequireApproval
    && aid in s.db.approvals && s.db.approvals[aid].decisionId == pc.decisionId
  }

  ghost function DoFindApproval(s: State, t: Tid, aid: Id): State
    requires CanFindApproval(s, t, aid)
  {
    var pc := Thr(s, t).pc;
    var meter := Thr(s, t).meter;
    State(s.db, Goto(s.h, t, Thread(Asked(pc.requestId, pc.decisionId), meter)))
  }

  /** The automatic branch reaches issueLease. */
  ghost predicate CanIssueAuto(s: State, t: Tid, lid: Id, at: Instant) {
    var pc := Thr(s, t).pc;
    && AutoPc(pc) && pc.outcome.matchedLeaseId == "" && pc.decisionId in s.db.decisions
    && pc.since <= at <= s.db.now && Issuable(IssuedScope(s, pc), at)
    && InsertLease(s.db, lid, LeaseRow(IssuedScope(s, pc), "", s.db.decisions[pc.decisionId].memoryId, false)).Some?
    && lid != ""
  }

  ghost function DoIssueAuto(s: State, t: Tid, lid: Id, at: Instant): State
    requires CanIssueAuto(s, t, lid, at)
  {
    var pc := Thr(s, t).pc;
    var meter := Thr(s, t).meter;
    State(InsertLease(s.db, lid, LeaseRow(IssuedScope(s, pc), "", s.db.decisions[pc.decisionId].memoryId, false)).value,
          Goto(s.h.(origin := s.h.origin[lid := pc.decisionId]), t,
               Thread(Holding(pc.requestId, pc.decisionId, lid), meter)))
  }

  /** The automatic branch reuses a standing lease instead of issuing a second one. */
  ghost predicate CanReuseLease(s: State, t: Tid) {
    var pc := Thr(s, t).pc;
    AutoPc(pc) && pc.outcome.matchedLeaseId != "" && pc.outcome.matchedLeaseId in s.db.leases
  }

  ghost function DoReuseLease(s: State, t: Tid): State
    requires CanReuseLease(s, t)
  {
    var pc := Thr(s, t).pc;
    var meter := Thr(s, t).meter;
    State(s.db, Goto(s.h, t, Thread(Holding(pc.requestId, pc.decisionId, pc.outcome.matchedLeaseId), meter)))
  }

  ghost predicate CanAdvanceVerdict(s: State, t: Tid) {
    var pc := Thr(s, t).pc;
    Concludes(pc) && UpdateRequestStatus(s.db, pc.requestId, Received, VerdictTarget(pc)).Some?
  }

  ghost function DoAdvanceVerdict(s: State, t: Tid): State
    requires CanAdvanceVerdict(s, t)
  {
    var pc := Thr(s, t).pc;
    var meter := Thr(s, t).meter;
    State(UpdateRequestStatus(s.db, pc.requestId, Received, VerdictTarget(pc)).value,
          Goto(s.h, t, Thread(if pc.Holding? then Passed(pc.requestId, pc.decisionId, pc.leaseId) else Idle, meter)))
  }

  ghost predicate CanStartRun(s: State, t: Tid) {
    var pc := Thr(s, t).pc;
    pc.Passed? && UpdateRequestStatus(s.db, pc.requestId, RequestStatus.AutoAllowed, Executing).Some?
  }

  ghost function DoStartRun(s: State, t: Tid): State
    requires CanStartRun(s, t)
  {
    var pc := Thr(s, t).pc;
    var meter := Thr(s, t).meter;
    State(UpdateRequestStatus(s.db, pc.requestId, RequestStatus.AutoAllowed, Executing).value,
          Goto(s.h, t, Thread(Running(pc.requestId, pc.decisionId, pc.leaseId), meter)))
  }

  /** lease.Manager.Use has read the row and found the request inside its scope. */
  ghost predicate CanCheckMeter(s: State, t: Tid, lid: Id, requested: Scope) {
    var meter := Thr(s, t).meter;
    meter.Off? && lid in s.db.leases && CoversIgnoringWindow(s.db.leases[lid].scope, requested)
  }

  ghost function DoCheckMeter(s: State, t: Tid, lid: Id, requested: Scope): State
    requires CanCheckMeter(s, t, lid, requested)
  {
    var pc := Thr(s, t).pc;
    State(s.db, Goto(s.h, t, Thread(pc, Checked(lid, requested))))
  }

  ghost predicate CanConsume(s: State, t: Tid, at: Instant) {
    var meter := Thr(s, t).meter;
    meter.Checked? && at <= s.db.now && UpdateLeaseUse(s.db, meter.leaseId, at).Some?
  }

  ghost function DoConsume(s: State, t: Tid, at: Instant): State
    requires CanConsume(s, t, at)
  {
    var pc := Thr(s, t).pc;
    var meter := Thr(s, t).meter;
    var row := s.db.leases[meter.leaseId];
    State(UpdateLeaseUse(s.db, meter.leaseId, at).value,
          Goto(s.h.(uses := s.h.uses + [Use(meter.leaseId, row.approvalId, at, t, false)]), t,
               Thread(pc, AfterCount(row, meter.leaseId, |s.h.uses|))))
  }

  ghost predicate CanExhaust(s: State, t: Tid) {
    var meter := Thr(s, t).meter;
    meter.Counted? && UpdateLeaseStatus(s.db, meter.leaseId, Exhausted).Some?
  }

  ghost function DoExhaust(s: State, t: Tid): State
    requires CanExhaust(s, t)
  {
    var pc := Thr(s, t).pc;
    var meter := Thr(s, t).meter;
    State(UpdateLeaseStatus(s.db, meter.leaseId, Exhausted).value,
          Goto(s.h, t, Thread(pc, Paid(meter.leaseId, meter.index))))
  }

  /** Use returned, with or without success, and the thread forgets about it. */
  ghost predicate CanDropMeter(s: State, t: Tid) {
    true
  }

  ghost function DoDropMeter(s: State, t: Tid): State
    requires CanDropMeter(s, t)
  {
    var pc := Thr(s, t).pc;
    State(s.db, Goto(s.h, t, Thread(pc, Off)))
  }

  /** Exchange.Send under the lease just paid for. */
  ghost predicate CanSend(s: State, t: Tid) {
    var pc := Thr(s, t).pc;
    var meter := Thr(s, t).meter;
    && pc.Running? && meter.Paid? && meter.leaseId == pc.leaseId && meter.index < |s.h.uses|
    && pc.leaseId in s.db.leases && pc.requestId in s.db.requests
  }

  ghost function DoSend(s: State, t: Tid): State
    requires CanSend(s, t)
  {
    var pc := Thr(s, t).pc;
    var meter := Thr(s, t).meter;
    State(s.db, Goto(s.h.(sends := s.h.sends + [SendingOf(s, pc)],
                      uses := s.h.uses[meter.index := s.h.uses[meter.index].(sent := true)]), t,
                   Thread(Sent(pc.requestId, pc.decisionId, pc.leaseId), Off)))
  }

  ghost predicate CanNoteRun(s: State, t: Tid, succeeded: bool) {
    var pc := Thr(s, t).pc;
    pc.Sent? || (pc.Running? && !succeeded)
  }

  ghost function DoNoteRun(s: State, t: Tid, succeeded: bool): State
    requires CanNoteRun(s, t, succeeded)
  {
    var pc := Thr(s, t).pc;
    State(Append(s.db, AdapterExecutedEvent(pc.requestId, pc.leaseId, succeeded)), s.h)
  }

  ghost predicate CanFinishRun(s: State, t: Tid, ending: RequestStatus) {
    var pc := Thr(s, t).pc;
    && ((pc.Sent? && ending in {Succeeded, Failed}) || (pc.Running? && ending == Failed))
    && UpdateRequestStatus(s.db, pc.requestId, Executing, ending).Some?
  }

  ghost function DoFinishRun(s: State, t: Tid, ending: RequestStatus): State
    requires CanFinishRun(s, t, ending)
  {
    var pc := Thr(s, t).pc;
    var meter := Thr(s, t).meter;
    State(UpdateRequestStatus(s.db, pc.requestId, Executing, ending).value, Goto(s.h, t, Thread(Idle, meter)))
  }

  /** SettleApproval has read the approval, the decision and the request, and passed its checks. */
  ghost predicate CanReview(s: State, t: Tid, aid: Id, action: Action, from: RequestStatus) {
    var pc := Thr(s, t).pc;
    pc.Idle? && Known(s, aid) && Offered(DecisionFor(s, aid).riskLevel, action)
  }

  ghost function DoReview(s: State, t: Tid, aid: Id, action: Action, from: RequestStatus): State
    requires CanReview(s, t, aid, action, from)
  {
    var meter := Thr(s, t).meter;
    State(s.db, Goto(s.h, t, Thread(Reviewing(aid, action, from), meter)))
  }

  /** The conditional update of a pending approval took effect for this thread. */
  ghost predicate CanSettleWin(s: State, t: Tid, at: Instant) {
    var pc := Thr(s, t).pc;
    && pc.Reviewing? && at <= s.db.now
    && UpdateApproval(s.db, pc.approvalId, pc.action, StatusFor(pc.action), Stored(at)).Some?
  }

  ghost function DoSettleWin(s: State, t: Tid, at: Instant): State
    requires CanSettleWin(s, t, at)
  {
    var pc := Thr(s, t).pc;
    var meter := Thr(s, t).meter;
    State(UpdateApproval(s.db, pc.approvalId, pc.action, StatusFor(pc.action), Stored(at)).value,
          Goto(s.h.(winner := s.h.winner[pc.approvalId := t]), t,
               Thread(Won(pc.approvalId, pc.action, pc.from), meter)))
  }

  ghost predicate CanBookSettlement(s: State, t: Tid) {
    var pc := Thr(s, t).pc;
    pc.Won? && Known(s, pc.approvalId)
  }

  ghost function DoBookSettlement(s: State, t: Tid): State
    requires CanBookSettlement(s, t)
  {
    var pc := Thr(s, t).pc;
    var meter := Thr(s, t).meter;
    State(Append(s.db, SettlementEvent(s, pc)),
          Goto(s.h, t, Thread(Booked(pc.approvalId, pc.action, pc.from, s.db.now), meter)))
  }

  /** The approved branch reaches the same issueLease. */
  ghost predicate CanIssueApproved(s: State, t: Tid, lid: Id, at: Instant) {
    var pc := Thr(s, t).pc;
    && pc.Booked? && Allows(pc.action) && Known(s, pc.approvalId)
    && pc.since <= at <= s.db.now && Issuable(IssuedScope(s, pc), at)
    && InsertLease(s.db, lid, LeaseRow(IssuedScope(s, pc), pc.approvalId,
                                       DecisionFor(s, pc.approvalId).memoryId, SessionBound(pc.action))).Some?
    && lid != "" && pc.approvalId != ""
  }

  ghost function DoIssueApproved(s: State, t: Tid, lid: Id, at: Instant): State
    requires CanIssueApproved(s, t, lid, at)
  {
    var pc := Thr(s, t).pc;
    var meter := Thr(s, t).meter;
    State(InsertLease(s.db, lid, LeaseRow(IssuedScope(s, pc), pc.approvalId,
                                        DecisionFor(s, pc.approvalId).memoryId, SessionBound(pc.action))).value,
          Goto(s.h.(origin := s.h.origin[lid := s.db.approvals[pc.approvalId].decisionId],
                  leaseOf := s.h.leaseOf[pc.approvalId := lid]), t,
               Thread(Issued(pc.approvalId, pc.action, pc.from), meter)))
  }

  ghost predicate CanLearn(s: State, t: Tid, mid: Id, at: Instant) {
    var pc := Thr(s, t).pc;
    && pc.Issued? && LearnOf(pc.action).Some? && Known(s, pc.approvalId) && at <= s.db.now
    && CoversIgnoringWindow(DecisionFor(s, pc.approvalId).scope, DecisionFor(s, pc.approvalId).scope)
    && DecisionFor(s, pc.approvalId).riskLevel in {Low, Medium}
    && mid !in s.h.lessons
    && InsertMemory(s.db, mid, LessonRow(s, pc, at)).Some?
  }

  ghost function DoLearn(s: State, t: Tid, mid: Id, at: Instant): State
    requires CanLearn(s, t, mid, at)
  {
    var pc := Thr(s, t).pc;
    var meter := Thr(s, t).meter;
    var row := LessonRow(s, pc, at);
    State(InsertMemory(s.db, mid, row).value,
          Goto(s.h.(lessons := s.h.lessons[mid := row]), t,
               Thread(Taught(pc.approvalId, pc.action, pc.from), meter)))
  }

  ghost predicate CanAdvanceSettled(s: State, t: Tid) {
    var pc := Thr(s, t).pc;
    && Settles(pc) && Known(s, pc.approvalId)
    && UpdateRequestStatus(s.db, DecisionFor(s, pc.approvalId).requestId, pc.from,
         if Allows(pc.action) then RequestStatus.Approved else RequestStatus.Rejected).Some?
  }

  ghost function DoAdvanceSettled(s: State, t: Tid): State
    requires CanAdvanceSettled(s, t)
  {
    var pc := Thr(s, t).pc;
    var meter := Thr(s, t).meter;
    State(UpdateRequestStatus(s.db, DecisionFor(s, pc.approvalId).requestId, pc.from,
            if Allows(pc.action) then RequestStatus.Approved else RequestStatus.Rejected).value,
          Goto(s.h, t, Thread(Idle, meter)))
  }

  ghost predicate CanExpireApproval(s: State, t: Tid, aid: Id, at: Instant) {
    && at <= s.db.now && aid in s.db.approvals && s.db.approvals[aid].expiresAt <= Stored(at)
    && UpdateApproval(s.db, aid, Deny, ApprovalStatus.Expired, Stored(at)).Some?
  }

  ghost function DoExpireApproval(s: State, t: Tid, aid: Id, at: Instant): State
    requires CanExpireApproval(s, t, aid, at)
  {
    State(UpdateApproval(s.db, aid, Deny, ApprovalStatus.Expired, Stored(at)).value, s.h)
  }

  ghost predicate CanBookExpiry(s: State, t: Tid, aid: Id) {
    Known(s, aid) && s.db.approvals[aid].status == ApprovalStatus.Expired
  }

  ghost function DoBookExpiry(s: State, t: Tid, aid: Id): State
    requires CanBookExpiry(s, t, aid)
  {
    State(Append(s.db, ApprovalExpiredEvent(aid, s.db.approvals[aid].decisionId)), s.h)
  }

  ghost predicate CanAdvanceExpired(s: State, t: Tid, aid: Id, from: RequestStatus) {
    && Known(s, aid) && s.db.approvals[aid].status == ApprovalStatus.Expired
    && UpdateRequestStatus(s.db, DecisionFor(s, aid).requestId, from, RequestStatus.Rejected).Some?
  }

  ghost function DoAdvanceExpired(s: State, t: Tid, aid: Id, from: RequestStatus): State
    requires CanAdvanceExpired(s, t, aid, from)
  {
    State(UpdateRequestStatus(s.db, DecisionFor(s, aid).requestId, from, RequestStatus.Rejected).value, s.h)
  }

  ghost predicate CanRevoke(s: State, t: Tid, lid: Id) {
    UpdateLeaseStatus(s.db, lid, Revoked).Some?
  }

  ghost function DoRevoke(s: State, t: Tid, lid: Id): State
    requires CanRevoke(s, t, lid)
  {
    State(UpdateLeaseStatus(s.db, lid, Revoked).value, s.h)
  }

  /** Sweep closes a lease it listed as due. */
  ghost predicate CanSweepLease(s: State, t: Tid, lid: Id, at: Instant) {
    && at <= s.db.now && lid in s.db.leases && s.db.leases[lid].expiresAt <= Stored(at)
    && UpdateLeaseStatus(s.db, lid, LeaseStatus.Expired).Some?
  }

  ghost function DoSweepLease(s: State, t: Tid, lid: Id, at: Instant): State
    requires CanSweepLease(s, t, lid, at)
  {
    State(UpdateLeaseStatus(s.db, lid, LeaseStatus.Expired).value, s.h)
  }

  ghost predicate CanShorten(s: State, t: Tid, lid: Id, deadline: int) {
    UpdateLeaseExpiry(s.db, lid, deadline).Some?
  }

  ghost function DoShorten(s: State, t: Tid, lid: Id, deadline: int): State
    requires CanShorten(s, t, lid, deadline)
  {
    State(UpdateLeaseExpiry(s.db, lid, deadline).value, s.h)
  }

  ghost predicate CanBookRevocation(s: State, t: Tid, lid: Id) {
    lid in s.db.leases
  }

  ghost function DoBookRevocation(s: State, t: Tid, lid: Id): State
    requires CanBookRevocation(s, t, lid)
  {
    State(Append(s.db, LeaseRevokedEvent(lid)), s.h)
  }

  ghost predicate CanInvalidate(s: State, t: Tid, mid: Id) {
    InvalidateMemory(s.db, mid).Some?
  }

  ghost function DoInvalidate(s: State, t: Tid, mid: Id): State
    requires CanInvalidate(s, t, mid)
  {
    State(InvalidateMemory(s.db, mid).value, s.h)
  }

  ghost predicate CanTighten(s: State, t: Tid, mid: Id) {
    TightenMemory(s.db, mid).Some?
  }

  ghost function DoTighten(s: State, t: Tid, mid: Id): State
    requires CanTighten(s, t, mid)
  {
    State(TightenMemory(s.db, mid).value, s.h)
  }

  ghost predicate CanBookClear(s: State, t: Tid, mid: Id) {
    true
  }

  ghost function DoBookClear(s: State, t: Tid, mid: Id): State
    requires CanBookClear(s, t, mid)
  {
    State(Append(s.db, TrustClearedEvent(mid)), s.h)
  }

  ghost predicate CanDelete(s: State, t: Tid, mid: Id) {
    DeleteMemory(s.db, mid).Some?
  }

  ghost function DoDelete(s: State, t: Tid, mid: Id): State
    requires CanDelete(s, t, mid)
  {
    State(DeleteMemory(s.db, mid).value, s.h)
  }

  ghost predicate CanReviewIdentity(s: State, t: Tid, iid: Id) {
    true
  }

  ghost function DoReviewIdentity(s: State, t: Tid, iid: Id): State
    requires CanReviewIdentity(s, t, iid)
  {
    State(s.db.(underReview := s.db.underReview + {iid}), s.h)
  }

  ghost predicate CanEndSession(s: State, t: Tid, agent: Id) {
    true
  }

  ghost function DoEndSession(s: State, t: Tid, agent: Id): State
    requires CanEndSession(s, t, agent)
  {
    State(s.db.(endedSessions := s.db.endedSessions + {agent}), s.h)
  }

  // ----- Dispatch -----

  ghost predicate IntakeEnabled(s: State, t: Tid, act: Act) {
    match act
    case Tick(to) => CanTick(s, t, to)
    case CreateRequest(rid, request) => CanCreateRequest(s, t, rid, request)
    case CancelRequest(rid) => CanCancelRequest(s, t, rid)
    case SavePreview(rid, preview, expected) => CanSavePreview(s, t, rid, preview, expected)
    case _ => false
  }

  ghost function IntakeApply(s: State, t: Tid, act: Act): State
    requires IntakeEnabled(s, t, act)
  {
    match act
    case Tick(to) => DoTick(s, t, to)
    case CreateRequest(rid, request) => DoCreateRequest(s, t, rid, request)
    case CancelRequest(rid) => DoCancelRequest(s, t, rid)
    case SavePreview(rid, preview, expected) => DoSavePreview(s, t, rid, preview, expected)
  }

  ghost predicate HandleEnabled(s: State, t: Tid, act: Act) {
    match act
    case Assemble(rid, plan) => CanAssemble(s, t, rid, plan)
    case FailClosed(rid, blocker) => CanFailClosed(s, t, rid, blocker)
    case RecordDecision(did, at) => CanRecordDecision(s, t, did, at)
    case NoteVerdict => CanNoteVerdict(s, t)
    case OpenApproval(aid, deadline) => CanOpenApproval(s, t, aid, deadline)
    case FindApproval(aid) => CanFindApproval(s, t, aid)
    case IssueAuto(lid, at) => CanIssueAuto(s, t, lid, at)
    case ReuseLease => CanReuseLease(s, t)
    case AdvanceVerdict => CanAdvanceVerdict(s, t)
    case _ => false
  }

  ghost function HandleApply(s: State, t: Tid, act: Act): State
    requires HandleEnabled(s, t, act)
  {
    match act
    case Assemble(rid, plan) => DoAssemble(s, t, rid, plan)
    case FailClosed(rid, blocker) => DoFailClosed(s, t, rid, blocker)
    case RecordDecision(did, at) => DoRecordDecision(s, t, did, at)
    case NoteVerdict => DoNoteVerdict(s, t)
    case OpenApproval(aid, deadline) => DoOpenApproval(s, t, aid, deadline)
    case FindApproval(aid) => DoFindApproval(s, t, aid)
    case IssueAuto(lid, at) => DoIssueAuto(s, t, lid, at)
    case ReuseLease => DoReuseLease(s, t)
    case AdvanceVerdict => DoAdvanceVerdict(s, t)
  }

  ghost predicate CallEnabled(s: State, t: Tid, act: Act) {
    match act
    case StartRun => CanStartRun(s, t)
    case CheckMeter(lid, requested) => CanCheckMeter(s, t, lid, requested)
    case Consume(at) => CanConsume(s, t, at)
    case Exhaust => CanExhaust(s, t)
    case DropMeter => CanDropMeter(s, t)
    case Send => CanSend(s, t)
    case NoteRun(succeeded) => CanNoteRun(s, t, succeeded)
    case FinishRun(ending) => CanFinishRun(s, t, ending)
    case _ => false
  }

  ghost function CallApply(s: State, t: Tid, act: Act): State
    requires CallEnabled(s, t, act)
  {
    match act
    case StartRun => DoStartRun(s, t)
    case CheckMeter(lid, requested) => DoCheckMeter(s, t, lid, requested)
    case Consume(at) => DoConsume(s, t, at)
    case Exhaust => DoExhaust(s, t)
    case DropMeter => DoDropMeter(s, t)
    case Send => DoSend(s, t)
    case NoteRun(succeeded) => DoNoteRun(s, t, succeeded)
    case FinishRun(ending) => DoFinishRun(s, t, ending)
  }

  ghost predicate SettleEnabled(s: State, t: Tid, act: Act) {
    match act
    case Review(aid, action, from) => CanReview(s, t, aid, action, from)
    case SettleWin(at) => CanSettleWin(s, t, at)
    case BookSettlement => CanBookSettlement(s, t)
    case IssueApproved(lid, at) => CanIssueApproved(s, t, lid, at)
    case Learn(mid, at) => CanLearn(s, t, mid, at)
    case AdvanceSettled => CanAdvanceSettled(s, t)
    case ExpireApproval(aid, at) => CanExpireApproval(s, t, aid, at)
    case BookExpiry(aid) => CanBookExpiry(s, t, aid)
    case AdvanceExpired(aid, from) => CanAdvanceExpired(s, t, aid, from)
    case _ => false
  }

  ghost function SettleApply(s: State, t: Tid, act: Act): State
    requires SettleEnabled(s, t, act)
  {
    match act
    case Review(aid, action, from) => DoReview(s, t, aid, action, from)
    case SettleWin(at) => DoSettleWin(s, t, at)
    case BookSettlement => DoBookSettlement(s, t)
    case IssueApproved(lid, at) => DoIssueApproved(s, t, lid, at)
    case Learn(mid, at) => DoLearn(s, t, mid, at)
    case AdvanceSettled => DoAdvanceSettled(s, t)
    case ExpireApproval(aid, at) => DoExpireApproval(s, t, aid, at)
    case BookExpiry(aid) => DoBookExpiry(s, t, aid)
    case AdvanceExpired(aid, from) => DoAdvanceExpired(s, t, aid, from)
  }

  ghost predicate UpkeepEnabled(s: State, t: Tid, act: Act) {
    match act
    case Revoke(lid) => CanRevoke(s, t, lid)
    case SweepLease(lid, at) => CanSweepLease(s, t, lid, at)
    case Shorten(lid, deadline) => CanShorten(s, t, lid, deadline)
    case BookRevocation(lid) => CanBookRevocation(s, t, lid)
    case Invalidate(mid) => CanInvalidate(s, t, mid)
    case Tighten(mid) => CanTighten(s, t, mid)
    case BookClear(mid) => CanBookClear(s, t, mid)
    case Delete(mid) => CanDelete(s, t, mid)
    case ReviewIdentity(iid) => CanReviewIdentity(s, t, iid)
    case EndSession(agent) => CanEndSession(s, t, agent)
    case _ => false
  }

  ghost function UpkeepApply(s: State, t: Tid, act: Act): State
    requires UpkeepEnabled(s, t, act)
  {
    match act
    case Revoke(lid) => DoRevoke(s, t, lid)
    case SweepLease(lid, at) => DoSweepLease(s, t, lid, at)
    case Shorten(lid, deadline) => DoShorten(s, t, lid, deadline)
    case BookRevocation(lid) => DoBookRevocation(s, t, lid)
    case Invalidate(mid) => DoInvalidate(s, t, mid)
    case Tighten(mid) => DoTighten(s, t, mid)
    case BookClear(mid) => DoBookClear(s, t, mid)
    case Delete(mid) => DoDelete(s, t, mid)
    case ReviewIdentity(iid) => DoReviewIdentity(s, t, iid)
    case EndSession(agent) => DoEndSession(s, t, agent)
  }

  ghost predicate Enabled(s: State, t: Tid, act: Act) {
    IntakeEnabled(s, t, act)
    || HandleEnabled(s, t, act)
    || CallEnabled(s, t, act)
    || SettleEnabled(s, t, act)
    || UpkeepEnabled(s, t, act)
  }

  ghost function Apply(s: State, t: Tid, act: Act): State
    requires Enabled(s, t, act)
  {
    if IntakeEnabled(s, t, act) then IntakeApply(s, t, act)
    else if HandleEnabled(s, t, act) then HandleApply(s, t, act)
    else if CallEnabled(s, t, act) then CallApply(s, t, act)
    else if SettleEnabled(s, t, act) then SettleApply(s, t, act)
    else UpkeepApply(s, t, act)
  }

  // ----- Runs -----

  datatype Entry = Entry(thread: Tid, act: Act)

  /** A run: the acts, in the order they took effect, and the states between them. */
  datatype Run = Run(acts: seq<Entry>, states: seq<State>)

  ghost predicate Taken(run: Run, i: nat)
    requires i < |run.acts| && |run.states| == |run.acts| + 1
  {
    && Enabled(run.states[i], run.acts[i].thread, run.acts[i].act)
    && run.states[i + 1] == Apply(run.states[i], run.acts[i].thread, run.acts[i].act)
  }

  ghost predicate Legal(run: Run) {
    && |run.states| == |run.acts| + 1
    && run.states[0] == GENESIS
    && (forall i :: 0 <= i < |run.acts| ==> Taken(run, i))
  }

  /** One act of one thread leads from `s` to `next`: a run of length one, from any state. */
  ghost predicate Leads(s: State, t: Tid, act: Act, next: State) {
    forall i :: 0 <= i < 1 ==> Taken(Run([Entry(t, act)], [s, next]), i)
  }

  lemma LeadsExactly(s: State, t: Tid, act: Act, next: State)
    ensures Leads(s, t, act, next) <==> Enabled(s, t, act) && next == Apply(s, t, act)
  {
    var one := Run([Entry(t, act)], [s, next]);
    assert Leads(s, t, act, next) <==> Taken(one, 0);
  }

  function Last(run: Run): State
    requires |run.states| == |run.acts| + 1
  {
    run.states[|run.acts|]
  }

  function Extended(run: Run, t: Tid, act: Act, next: State): Run {
    Run(run.acts + [Entry(t, act)], run.states + [next])
  }

  ghost predicate Repeats(run: Run, later: Run, i: nat) {
    && (i < |run.acts| ==> i < |later.acts| && later.acts[i] == run.acts[i])
    && (i < |run.states| ==> i < |later.states| && later.states[i] == run.states[i])
  }

  /** `later` continues `run`. */
  ghost predicate Continues(run: Run, later: Run) {
    forall i :: Repeats(run, later, i)
  }

  lemma ContinuesReflexive(run: Run)
    ensures Continues(run, run)
  {
  }

  lemma ContinuesTransitive(a: Run, b: Run, c: Run)
    requires Continues(a, b) && Continues(b, c)
    ensures Continues(a, c)
  {
    forall i: nat ensures Repeats(a, c, i) {
      assert Repeats(a, b, i) && Repeats(b, c, i);
    }
  }

  /** The acts of one thread, in order. */
  function Own(acts: seq<Entry>, t: Tid): seq<Act> {
    if acts == [] then []
    else
      var last := acts[|acts| - 1];
      Own(acts[..|acts| - 1], t) + (if last.thread == t then [last.act] else [])
  }

  lemma ExtendedLegal(run: Run, t: Tid, act: Act, next: State)
    requires Legal(run) && Leads(Last(run), t, act, next)
    ensures var longer := Extended(run, t, act, next);
      Legal(longer) && Continues(run, longer) && Last(longer) == next
  {
    var longer := Extended(run, t, act, next);
    LeadsExactly(Last(run), t, act, next);
    forall i | 0 <= i < |longer.acts| ensures Taken(longer, i) {
      if i < |run.acts| { assert Taken(run, i); }
    }
  }

  /** One more act at the end of a run. */
  lemma Next(run: Run, t: Tid, act: Act) returns (longer: Run)
    requires Legal(run) && Enabled(Last(run), t, act)
    ensures Legal(longer) && longer == Extended(run, t, act, Apply(Last(run), t, act))
    ensures Continues(run, longer) && Last(longer) == Apply(Last(run), t, act)
  {
    LeadsExactly(Last(run), t, act, Apply(Last(run), t, act));
    ExtendedLegal(run, t, act, Apply(Last(run), t, act));
    longer := Extended(run, t, act, Apply(Last(run), t, act));
  }

  lemma OwnExtended(acts: seq<Entry>, e: Entry, t: Tid)
    ensures Own(acts + [e], t) == Own(acts, t) + (if e.thread == t then [e.act] else [])
  {
    assert (acts + [e])[..|acts|] == acts;
  }
}
