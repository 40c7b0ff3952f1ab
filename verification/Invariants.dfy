/**
 What holds in every reachable state of the protocol, row by row and thread by thread, and how a
 state may evolve. Each row condition depends only on the row itself and on things that never
 change again, so that a step has to re-establish it only for the rows it touches.
 */
module Invariants {
  import opened Results
  import opened Scopes
  import opened Tables
  import opened Protocol
  import D = Decisions
  import I = Intents

  // ----- Counting -----

  function UsesOf(uses: seq<Use>, lid: Id): nat {
    if uses == [] then 0
    else UsesOf(uses[..|uses| - 1], lid) + (if uses[|uses| - 1].leaseId == lid then 1 else 0)
  }

  function SentUsesOf(uses: seq<Use>, lid: Id): nat {
    if uses == [] then 0
    else
      var last := uses[|uses| - 1];
      SentUsesOf(uses[..|uses| - 1], lid) + (if last.leaseId == lid && last.sent then 1 else 0)
  }

  function SendsOf(sends: seq<Sending>, lid: Id): nat {
    if sends == [] then 0
    else SendsOf(sends[..|sends| - 1], lid) + (if sends[|sends| - 1].leaseId == lid then 1 else 0)
  }

  /** Uses paid out of leases that carry one approval id. */
  function UsesFor(uses: seq<Use>, aid: Id): nat {
    if uses == [] then 0
    else UsesFor(uses[..|uses| - 1], aid) + (if uses[|uses| - 1].approvalId == aid then 1 else 0)
  }

  // ----- Rows -----

  predicate ServedStatus(status: RequestStatus) {
    status in {RequestStatus.AutoAllowed, Executing, Succeeded, Failed}
  }

  predicate SetAside(status: RequestStatus) {
    status in {AwaitingApproval, Denied, RequestStatus.Approved, RequestStatus.Rejected,
               RequestStatus.Expired, RequestStatus.Cancelled}
  }

  /** A request that is, was or will be executing was decided auto_allow. */
  ghost predicate RequestOk(s: State, rid: Id)
    requires rid in s.db.requests
  {
    ServedStatus(s.db.requests[rid].status) ==>
      && rid in s.h.decisionOf && s.h.decisionOf[rid] in s.db.decisions
      && s.db.decisions[s.h.decisionOf[rid]].verdict == D.AutoAllow
  }

  ghost predicate DecisionIndexOk(s: State, rid: Id)
    requires rid in s.h.decisionOf
  {
    s.h.decisionOf[rid] in s.db.decisions && s.db.decisions[s.h.decisionOf[rid]].requestId == rid
  }

  ghost predicate DecisionOk(s: State, did: Id)
    requires did in s.db.decisions
  {
    var d := s.db.decisions[did];
    && d.requestId in s.db.requests && Concerns(s.db.requests[d.requestId], d.scope, d.factors)
    && d.requestId in s.h.decisionOf && s.h.decisionOf[d.requestId] == did
    && I.Minimal(d.scope, HasWildcard(d.scope.resource))
    && d.scope.notBefore <= d.createdAt <= s.db.now
    && (d.verdict == D.AutoAllow ==> !HasWildcard(d.scope.resource) && d.riskLevel in {Low, Medium})
    && (d.verdict == D.AutoAllow && d.reason == D.TrustMemoryMatch ==>
          && d.memoryId in s.h.lessons
          && s.h.lessons[d.memoryId].behavior == AutoAllowBehavior
          && CoversIgnoringWindow(s.h.lessons[d.memoryId].scope, d.scope))
  }

  ghost predicate ApprovalOk(s: State, aid: Id)
    requires aid in s.db.approvals
  {
    var a := s.db.approvals[aid];
    && aid != ""
    && a.decisionId in s.db.decisions
    && s.db.decisions[a.decisionId].verdict == D.RequireApproval
    && (a.status == Pending <==> a.action.None?)
    && (a.status == ApprovalStatus.Approved ==>
          Allows(a.action.value) && Offered(s.db.decisions[a.decisionId].riskLevel, a.action.value))
    && (a.status == ApprovalStatus.Rejected || a.status == ApprovalStatus.Expired ==> a.action == Some(Deny))
    && a.status != ApprovalStatus.Cancelled
    && (aid in s.h.winner <==> a.status == ApprovalStatus.Approved || a.status == ApprovalStatus.Rejected)
  }

  /** The lease was issued on a decision nobody had to confirm, after that was written down. */
  ghost predicate AutoLease(s: State, lid: Id)
    requires lid in s.db.leases
  {
    && lid in s.h.origin && s.h.origin[lid] in s.db.decisions
    && var d := s.db.decisions[s.h.origin[lid]];
    && d.verdict == D.AutoAllow
    && d.reason in {D.LowRisk, D.TrustMemoryMatch}
    && s.db.leases[lid].scope == d.scope
    && AutoAllowedEvent(s.h.origin[lid]) in s.db.ledger
  }

  /** The lease was issued on an approval a person gave, after that was written down. */
  ghost predicate ApprovedLease(s: State, lid: Id)
    requires lid in s.db.leases
  {
    var aid := s.db.leases[lid].approvalId;
    && aid in s.db.approvals && s.db.approvals[aid].status == ApprovalStatus.Approved
    && lid in s.h.origin && s.h.origin[lid] == s.db.approvals[aid].decisionId
    && s.h.origin[lid] in s.db.decisions
    && aid in s.h.leaseOf && s.h.leaseOf[aid] == lid
    && s.db.approvals[aid].action.Some?
    && s.db.leases[lid].scope == GrantedScope(s.db.decisions[s.h.origin[lid]].scope, s.db.approvals[aid].action.value)
    && s.db.leases[lid].sessionBound == SessionBound(s.db.approvals[aid].action.value)
    && UserAllowedEvent(aid, s.h.origin[lid]) in s.db.ledger
  }

  /** The columns of a lease row say what its encoded scope says. */
  predicate ColumnsAgree(row: Lease) {
    && row.agentId == row.scope.agentId
    && row.identityId == row.scope.identityId
    && row.service == row.scope.service
    && row.capability == row.scope.operation
    && row.limit == row.scope.requestLimit
    && row.expiresAt <= Stored(row.scope.expiresAt)
  }

  ghost predicate LeaseOk(s: State, lid: Id)
    requires lid in s.db.leases
  {
    var row := s.db.leases[lid];
    && lid != ""
    && Validates(row.scope) && Definite(row.scope.resource)
    && ColumnsAgree(row)
    && row.used <= row.limit
    && (row.status == Exhausted ==> row.used == row.limit)
    && (if row.approvalId == "" then AutoLease(s, lid) else ApprovedLease(s, lid))
  }

  ghost predicate LeaseIndexOk(s: State, aid: Id)
    requires aid in s.h.leaseOf
  {
    aid != "" && s.h.leaseOf[aid] in s.db.leases && s.db.leases[s.h.leaseOf[aid]].approvalId == aid
  }

  /** A memory remembers exactly the scope of the decision a person approved. */
  ghost predicate LessonOk(s: State, mid: Id)
    requires mid in s.h.lessons
  {
    var m := s.h.lessons[mid];
    && m.createdFrom in s.db.approvals
    && var a := s.db.approvals[m.createdFrom];
    && a.status == ApprovalStatus.Approved && a.action.Some?
    && LearnOf(a.action.value) == Some(m.behavior)
    && a.decisionId in s.db.decisions
    && m.scope == s.db.decisions[a.decisionId].scope
    && CoversIgnoringWindow(m.scope, m.scope)
    && UserAllowedEvent(m.createdFrom, a.decisionId) in s.db.ledger
  }

  ghost predicate MemoryOk(s: State, mid: Id)
    requires mid in s.db.memories
  {
    && mid in s.h.lessons
    && s.db.memories[mid].scope == s.h.lessons[mid].scope
    && s.db.memories[mid].createdFrom == s.h.lessons[mid].createdFrom
    && (s.h.lessons[mid].behavior == AlwaysAskBehavior ==> s.db.memories[mid].behavior == AlwaysAskBehavior)
  }

  ghost predicate UseOk(s: State, k: nat)
    requires k < |s.h.uses|
  {
    var u := s.h.uses[k];
    && u.leaseId in s.db.leases
    && u.approvalId == s.db.leases[u.leaseId].approvalId
    && u.at < s.db.leases[u.leaseId].scope.expiresAt
    && !HasWildcard(s.db.leases[u.leaseId].scope.resource)
  }

  ghost predicate MeteredOk(s: State, lid: Id)
    requires lid in s.db.leases
  {
    && s.db.leases[lid].used == UsesOf(s.h.uses, lid)
    && SendsOf(s.h.sends, lid) == SentUsesOf(s.h.uses, lid)
  }

  /** What went out is what this request's own decision recorded. */
  ghost predicate SendOk(s: State, k: nat)
    requires k < |s.h.sends|
  {
    var x := s.h.sends[k];
    && x.leaseId in s.db.leases
    && x.requestId in s.db.requests && x.body == s.db.requests[x.requestId].desiredChange
    && Fits(s, x.requestId, x.decisionId, x.leaseId)
    && var scope := s.db.decisions[x.decisionId].scope;
    && x.service == scope.service && x.operation == scope.operation
    && x.resource == scope.resource && x.identityId == scope.identityId
  }

  /** The request's own decision allowed it, on the ledger, and the lease covers what was decided. */
  ghost predicate Fits(s: State, rid: Id, did: Id, lid: Id) {
    && DecidedFor(s, rid, did, D.AutoAllow)
    && AutoAllowedEvent(did) in s.db.ledger
    && lid in s.db.leases && lid != ""
    && CoversIgnoringWindow(s.db.leases[lid].scope, s.db.decisions[did].scope)
  }

  ghost predicate DecidedFor(s: State, rid: Id, did: Id, verdict: D.Verdict) {
    && rid in s.h.decisionOf && s.h.decisionOf[rid] == did && did in s.db.decisions
    && s.db.decisions[did].verdict == verdict
  }

  // ----- Threads -----

  ghost predicate OutcomeOk(s: State, rid: Id, did: Id, o: D.Outcome) {
    && DecidedFor(s, rid, did, o.verdict)
    && s.db.decisions[did].reason == o.reason
    && s.db.decisions[did].memoryId == o.matchedMemoryId
    && (o.verdict == D.AutoAllow && o.matchedLeaseId == "" ==> o.reason in {D.LowRisk, D.TrustMemoryMatch})
    && (o.verdict == D.AutoAllow && o.matchedLeaseId != "" ==>
          && o.matchedLeaseId in s.db.leases
          && CoversIgnoringWindow(s.db.leases[o.matchedLeaseId].scope, s.db.decisions[did].scope))
  }

  /** This thread, and no other, settled the approval. */
  ghost predicate Settled(s: State, t: Tid, aid: Id, action: Action) {
    && aid in s.h.winner && s.h.winner[aid] == t
    && aid in s.db.approvals && s.db.approvals[aid].status == StatusFor(action)
    && s.db.approvals[aid].action == Some(action)
  }

  predicate UserAllowed(ledger: seq<Event>, aid: Id) {
    exists k :: 0 <= k < |ledger| && ledger[k].UserAllowedEvent? && ledger[k].approvalId == aid
  }

  ghost predicate SettlementBooked(s: State, aid: Id, action: Action) {
    && aid in s.db.approvals
    && (Allows(action) ==> UserAllowedEvent(aid, s.db.approvals[aid].decisionId) in s.db.ledger)
    && (!Allows(action) ==> DeniedEvent(s.db.approvals[aid].decisionId, aid) in s.db.ledger)
  }

  ghost predicate PcOk(s: State, t: Tid, pc: Pc) {
    match pc
    case Idle => true
    case Assembled(rid, plan) =>
      && rid in s.db.requests && Concerns(s.db.requests[rid], plan.scope, plan.factors)
      && plan.scope.notBefore <= s.db.now && Justified(s, plan)
    case Decided(rid, did, o) => OutcomeOk(s, rid, did, o)
    case Noted(rid, did, o, since) =>
      && OutcomeOk(s, rid, did, o) && since <= s.db.now
      && (if o.verdict == D.AutoAllow then AutoAllowedEvent(did) else DeniedEvent(did, "")) in s.db.ledger
    case Asked(rid, did) => DecidedFor(s, rid, did, D.RequireApproval)
    case Blocked(rid) => rid in s.db.requests
    case Holding(rid, did, lid) => Fits(s, rid, did, lid)
    case Passed(rid, did, lid) => Fits(s, rid, did, lid)
    case Running(rid, did, lid) => Fits(s, rid, did, lid)
    case Sent(rid, did, lid) => Fits(s, rid, did, lid)
    case Reviewing(aid, action, from) =>
      Known(s, aid) && Offered(DecisionFor(s, aid).riskLevel, action)
    case Won(aid, action, from) =>
      Settled(s, t, aid, action) && !UserAllowed(s.db.ledger, aid)
    case Booked(aid, action, from, since) =>
      Settled(s, t, aid, action) && SettlementBooked(s, aid, action) && since <= s.db.now
    case Issued(aid, action, from) =>
      Settled(s, t, aid, action) && SettlementBooked(s, aid, action) && aid in s.h.leaseOf && Allows(action)
    case Taught(aid, action, from) =>
      Settled(s, t, aid, action) && SettlementBooked(s, aid, action) && aid in s.h.leaseOf && Allows(action)
  }

  /** A use this thread has made and not yet spent on a send. */
  ghost predicate OwnsUse(s: State, t: Tid, lid: Id, k: nat) {
    k < |s.h.uses| && s.h.uses[k].leaseId == lid && s.h.uses[k].thread == t && !s.h.uses[k].sent
  }

  ghost predicate MeterOk(s: State, t: Tid, m: Meter) {
    match m
    case Off => true
    case Checked(lid, requested) =>
      lid in s.db.leases && CoversIgnoringWindow(s.db.leases[lid].scope, requested)
    case Counted(lid, k) =>
      OwnsUse(s, t, lid, k) && lid in s.db.leases && s.db.leases[lid].used == s.db.leases[lid].limit
    case Paid(lid, k) => OwnsUse(s, t, lid, k)
  }

  ghost predicate ThreadOk(s: State, t: Tid) {
    PcOk(s, t, Thr(s, t).pc) && MeterOk(s, t, Thr(s, t).meter)
  }

  // ----- The ledger -----

  /** A person is recorded as having allowed an approval at most once, and only a won one. */
  ghost predicate LedgerOk(s: State) {
    && (forall i, j ::
          0 <= i < j < |s.db.ledger| && s.db.ledger[i].UserAllowedEvent? && s.db.ledger[j].UserAllowedEvent?
          ==> s.db.ledger[i].approvalId != s.db.ledger[j].approvalId)
    && (forall i :: 0 <= i < |s.db.ledger| && s.db.ledger[i].UserAllowedEvent? ==>
          && s.db.ledger[i].approvalId in s.db.approvals
          && s.db.approvals[s.db.ledger[i].approvalId].status == ApprovalStatus.Approved)
  }

  ghost predicate TablesOk(s: State) {
    && (forall x :: x in s.db.requests ==> RequestOk(s, x))
    && (forall x :: x in s.h.decisionOf ==> DecisionIndexOk(s, x))
    && (forall x :: x in s.db.decisions ==> DecisionOk(s, x))
    && (forall x :: x in s.db.approvals ==> ApprovalOk(s, x))
    && (forall x :: x in s.h.winner ==> x in s.db.approvals)
    && (forall x :: x in s.db.leases ==> LeaseOk(s, x))
    && (forall x :: x in s.db.leases ==> MeteredOk(s, x))
    && (forall x :: x in s.h.leaseOf ==> LeaseIndexOk(s, x))
    && (forall x :: x in s.h.origin ==> x in s.db.leases)
    && (forall x :: x in s.h.lessons ==> LessonOk(s, x))
    && (forall x :: x in s.db.memories ==> MemoryOk(s, x))
    && (forall k :: 0 <= k < |s.h.uses| ==> UseOk(s, k))
    && (forall k :: 0 <= k < |s.h.sends| ==> SendOk(s, k))
    && LedgerOk(s)
  }

  /** The invariant as thread `t` sees it. */
  ghost predicate InvFor(s: State, t: Tid) {
    TablesOk(s) && ThreadOk(s, t)
  }

  ghost predicate Inv(s: State) {
    forall t :: InvFor(s, t)
  }

  // ----- How a state may evolve -----

  /** Requests only ever progress: out of received, through auto_allowed and executing to an end, or
      among the states of a request that was set aside. */
  predicate Progress(a: RequestStatus, b: RequestStatus) {
    || a == b
    || a in {Received, Resolving, Deciding}
    || (a == RequestStatus.AutoAllowed && b in {Executing, Succeeded, Failed})
    || (a == Executing && b in {Succeeded, Failed})
    || (SetAside(a) && SetAside(b))
  }

  ghost predicate RequestEvolves(a: Request, b: Request) {
    b == a.(status := b.status, preview := b.preview) && Progress(a.status, b.status)
  }

  /** Once settled, an approval never changes again. */
  ghost predicate ApprovalEvolves(a: Approval, b: Approval) {
    a.decisionId == b.decisionId && a.expiresAt == b.expiresAt && (a.status != Pending ==> a == b)
  }

  /** Scope and limit never change, the expiry never grows, and a closed lease is closed for good. */
  ghost predicate LeaseEvolves(a: Lease, b: Lease) {
    && b == a.(expiresAt := b.expiresAt, used := b.used, status := b.status)
    && b.expiresAt <= a.expiresAt && a.used <= b.used
    && (a.status != Active ==> a == b)
  }

  ghost predicate MemoryEvolves(a: Memory, b: Memory) {
    && b == a.(active := b.active, behavior := b.behavior)
    && (b.active ==> a.active)
    && (a.behavior == AlwaysAskBehavior ==> b.behavior == AlwaysAskBehavior)
  }

  ghost predicate UseEvolves(a: Use, b: Use) {
    b == a.(sent := b.sent) && (a.sent ==> b.sent)
  }

  ghost predicate Submap<K, V>(a: map<K, V>, b: map<K, V>) {
    forall k :: k in a ==> k in b && b[k] == a[k]
  }

  ghost predicate DbEvolves(a: Db, b: Db) {
    && a.now <= b.now
    && (forall x :: x in a.requests ==> x in b.requests && RequestEvolves(a.requests[x], b.requests[x]))
    && Submap(a.decisions, b.decisions)
    && (forall x :: x in a.approvals ==> x in b.approvals && ApprovalEvolves(a.approvals[x], b.approvals[x]))
    && (forall x :: x in a.leases ==> x in b.leases && LeaseEvolves(a.leases[x], b.leases[x]))
    && a.ledger <= b.ledger
    && a.underReview <= b.underReview && a.endedSessions <= b.endedSessions
  }

  ghost predicate HistoryEvolves(a: History, b: History) {
    && Submap(a.decisionOf, b.decisionOf)
    && Submap(a.leaseOf, b.leaseOf)
    && Submap(a.origin, b.origin)
    && Submap(a.lessons, b.lessons)
    && Submap(a.winner, b.winner)
    && |a.uses| <= |b.uses|
    && (forall k :: 0 <= k < |a.uses| ==> UseEvolves(a.uses[k], b.uses[k]))
    && a.sends <= b.sends
  }

  /** A forgotten memory never comes back, and a stored one only gets stricter. */
  ghost predicate MemoriesEvolve(a: State, b: State) {
    forall x :: x in b.db.memories ==>
      (x in a.db.memories && MemoryEvolves(a.db.memories[x], b.db.memories[x])) || x !in a.h.lessons
  }

  ghost predicate Evolves(a: State, b: State) {
    DbEvolves(a.db, b.db) && HistoryEvolves(a.h, b.h) && MemoriesEvolve(a, b)
  }

  /** A step of thread `t` leaves the other threads, the uses they own and the human decisions they
      have yet to book alone. */
  ghost predicate LeavesOthers(a: State, b: State, t: Tid) {
    && (forall u :: u != t ==> Thr(b, u) == Thr(a, u))
    && |a.h.uses| <= |b.h.uses|
    && (forall k :: 0 <= k < |a.h.uses| && a.h.uses[k].thread != t ==> b.h.uses[k] == a.h.uses[k])
    && |a.db.ledger| <= |b.db.ledger|
    && (forall k :: |a.db.ledger| <= k < |b.db.ledger| && b.db.ledger[k].UserAllowedEvent? ==>
          b.db.ledger[k].approvalId in a.h.winner && a.h.winner[b.db.ledger[k].approvalId] == t)
  }

  ghost predicate Step(a: State, b: State, t: Tid) {
    Evolves(a, b) && LeavesOthers(a, b, t)
  }
}
