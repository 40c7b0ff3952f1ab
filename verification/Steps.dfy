/**
 Every act of every thread keeps the invariant and moves the state the way a state may move.
 */
module Steps {
  import opened Results
  import opened Scopes
  import opened Tables
  import opened Protocol
  import opened Invariants
  import opened Stability
  import D = Decisions
  import I = Intents

  /** An entry that records nobody's consent. */
  lemma EntryKeeps(s: State, t: Tid, event: Event)
    requires Inv(s) && !event.UserAllowedEvent?
    ensures var b := State(Append(s.db, event), s.h); Step(s, b, t) && Inv(b)
  {
    var b := State(Append(s.db, event), s.h);
    GrowthKept(s, b.db);
    Background(s, b, t);
  }

  // ----- Upkeep: lease closing, trust memories, disconnects -----

  lemma TickKeeps(s: State, t: Tid, to: Instant)
    requires Inv(s) && CanTick(s, t, to)
    ensures var b := DoTick(s, t, to); Step(s, b, t) && Inv(b)
  {
    GrowthKept(s, s.db.(now := to));
    Background(s, DoTick(s, t, to), t);
  }

  lemma RevokeKeeps(s: State, t: Tid, lid: Id)
    requires Inv(s) && CanRevoke(s, t, lid)
    ensures var b := DoRevoke(s, t, lid); Step(s, b, t) && Inv(b)
  {
    LeaseRowKept(s, lid, s.db.leases[lid].(status := Revoked));
    Background(s, DoRevoke(s, t, lid), t);
  }

  lemma SweepLeaseKeeps(s: State, t: Tid, lid: Id, at: Instant)
    requires Inv(s) && CanSweepLease(s, t, lid, at)
    ensures var b := DoSweepLease(s, t, lid, at); Step(s, b, t) && Inv(b)
  {
    LeaseRowKept(s, lid, s.db.leases[lid].(status := LeaseStatus.Expired));
    Background(s, DoSweepLease(s, t, lid, at), t);
  }

  lemma ShortenKeeps(s: State, t: Tid, lid: Id, deadline: int)
    requires Inv(s) && CanShorten(s, t, lid, deadline)
    ensures var b := DoShorten(s, t, lid, deadline); Step(s, b, t) && Inv(b)
  {
    LeaseRowKept(s, lid, s.db.leases[lid].(expiresAt := deadline));
    Background(s, DoShorten(s, t, lid, deadline), t);
  }

  lemma BookRevocationKeeps(s: State, t: Tid, lid: Id)
    requires Inv(s) && CanBookRevocation(s, t, lid)
    ensures var b := DoBookRevocation(s, t, lid); Step(s, b, t) && Inv(b)
  {
    EntryKeeps(s, t, LeaseRevokedEvent(lid));
  }

  lemma InvalidateKeeps(s: State, t: Tid, mid: Id)
    requires Inv(s) && CanInvalidate(s, t, mid)
    ensures var b := DoInvalidate(s, t, mid); Step(s, b, t) && Inv(b)
  {
    MemoryRowKept(s, mid, s.db.memories[mid].(active := false));
    Background(s, DoInvalidate(s, t, mid), t);
  }

  lemma TightenKeeps(s: State, t: Tid, mid: Id)
    requires Inv(s) && CanTighten(s, t, mid)
    ensures var b := DoTighten(s, t, mid); Step(s, b, t) && Inv(b)
  {
    MemoryRowKept(s, mid, s.db.memories[mid].(behavior := AlwaysAskBehavior));
    Background(s, DoTighten(s, t, mid), t);
  }

  lemma BookClearKeeps(s: State, t: Tid, mid: Id)
    requires Inv(s) && CanBookClear(s, t, mid)
    ensures var b := DoBookClear(s, t, mid); Step(s, b, t) && Inv(b)
  {
    EntryKeeps(s, t, TrustClearedEvent(mid));
  }

  lemma DeleteKeeps(s: State, t: Tid, mid: Id)
    requires Inv(s) && CanDelete(s, t, mid)
    ensures var b := DoDelete(s, t, mid); Step(s, b, t) && Inv(b)
  {
    MemoryDeletedKept(s, mid);
    Background(s, DoDelete(s, t, mid), t);
  }

  lemma ReviewIdentityKeeps(s: State, t: Tid, iid: Id)
    requires Inv(s) && CanReviewIdentity(s, t, iid)
    ensures var b := DoReviewIdentity(s, t, iid); Step(s, b, t) && Inv(b)
  {
    GrowthKept(s, s.db.(underReview := s.db.underReview + {iid}));
    Background(s, DoReviewIdentity(s, t, iid), t);
  }

  lemma EndSessionKeeps(s: State, t: Tid, agent: Id)
    requires Inv(s) && CanEndSession(s, t, agent)
    ensures var b := DoEndSession(s, t, agent); Step(s, b, t) && Inv(b)
  {
    GrowthKept(s, s.db.(endedSessions := s.db.endedSessions + {agent}));
    Background(s, DoEndSession(s, t, agent), t);
  }

  lemma UpkeepKeeps(s: State, t: Tid, act: Act)
    requires Inv(s) && UpkeepEnabled(s, t, act)
    ensures var b := UpkeepApply(s, t, act); Step(s, b, t) && Inv(b)
  {
    match act
    case Revoke(lid) => RevokeKeeps(s, t, lid);
    case SweepLease(lid, at) => SweepLeaseKeeps(s, t, lid, at);
    case Shorten(lid, deadline) => ShortenKeeps(s, t, lid, deadline);
    case BookRevocation(lid) => BookRevocationKeeps(s, t, lid);
    case Invalidate(mid) => InvalidateKeeps(s, t, mid);
    case Tighten(mid) => TightenKeeps(s, t, mid);
    case BookClear(mid) => BookClearKeeps(s, t, mid);
    case Delete(mid) => DeleteKeeps(s, t, mid);
    case ReviewIdentity(iid) => ReviewIdentityKeeps(s, t, iid);
    case EndSession(agent) => EndSessionKeeps(s, t, agent);
  }

  // ----- Handle -----

  lemma CreateRequestKeeps(s: State, t: Tid, rid: Id, request: Request)
    requires Inv(s) && CanCreateRequest(s, t, rid, request)
    ensures var b := DoCreateRequest(s, t, rid, request); Step(s, b, t) && Inv(b)
  {
    RequestRowKept(s, rid, request);
    Background(s, DoCreateRequest(s, t, rid, request), t);
  }

  lemma CancelRequestKeeps(s: State, t: Tid, rid: Id)
    requires Inv(s) && CanCancelRequest(s, t, rid)
    ensures var b := DoCancelRequest(s, t, rid); Step(s, b, t) && Inv(b)
  {
    RequestRowKept(s, rid, s.db.requests[rid].(status := RequestStatus.Cancelled));
    Background(s, DoCancelRequest(s, t, rid), t);
  }

  lemma SavePreviewKeeps(s: State, t: Tid, rid: Id, preview: string, expected: RequestStatus)
    requires Inv(s) && CanSavePreview(s, t, rid, preview, expected)
    ensures var b := DoSavePreview(s, t, rid, preview, expected); Step(s, b, t) && Inv(b)
  {
    RequestRowKept(s, rid, s.db.requests[rid].(preview := preview));
    Background(s, DoSavePreview(s, t, rid, preview, expected), t);
  }

  lemma AssembleKeeps(s: State, t: Tid, rid: Id, plan: Plan)
    requires Inv(s) && CanAssemble(s, t, rid, plan)
    ensures var b := DoAssemble(s, t, rid, plan); Step(s, b, t) && Inv(b)
  {
    NothingChanged(s);
    Moved(s, s, t, Assembled(rid, plan));
  }

  lemma FailClosedKeeps(s: State, t: Tid, rid: Id, blocker: D.Blocker)
    requires Inv(s) && CanFailClosed(s, t, rid, blocker)
    ensures var b := DoFailClosed(s, t, rid, blocker); Step(s, b, t) && Inv(b)
  {
    var m := State(Append(s.db, ErrorEvent(rid, blocker)), s.h);
    GrowthKept(s, m.db);
    Moved(s, m, t, Blocked(rid));
  }

  lemma NewDecision(s: State, t: Tid, did: Id, at: Instant)
    requires Inv(s) && CanRecordDecision(s, t, did, at)
    ensures var pc := Thr(s, t).pc;
      && pc.requestId !in s.h.decisionOf && did !in s.db.decisions
      && pc.requestId in s.db.requests
      && PcOk(s, t, pc)
  {
    InvThread(s, t);
    var pc := Thr(s, t).pc;
    InvIndexes(s);
  }

  /** The row RecordDecision writes, and the outcome the thread goes on with. */
  lemma NewDecisionOutcome(s: State, t: Tid, did: Id, at: Instant)
    requires Inv(s) && CanRecordDecision(s, t, did, at)
    ensures var pc := Thr(s, t).pc;
      var m := State(DoRecordDecision(s, t, did, at).db, s.h.(decisionOf := s.h.decisionOf[pc.requestId := did]));
      DecisionOk(m, did) && OutcomeOk(m, pc.requestId, did, pc.plan.outcome)
  {
    var pc := Thr(s, t).pc;
    NewDecision(s, t, did, at);
    assert DoRecordDecision(s, t, did, at).db.decisions[did] == DecisionRow(pc.requestId, pc.plan, at);
  }

  lemma RecordDecisionKeeps(s: State, t: Tid, did: Id, at: Instant)
    requires Inv(s) && CanRecordDecision(s, t, did, at)
    ensures var b := DoRecordDecision(s, t, did, at); Step(s, b, t) && Inv(b)
  {
    var pc := Thr(s, t).pc;
    var m := State(DoRecordDecision(s, t, did, at).db, s.h.(decisionOf := s.h.decisionOf[pc.requestId := did]));
    NewDecision(s, t, did, at);
    NewDecisionOutcome(s, t, did, at);
    DecisionInsertedKept(s, did, pc.requestId, m.db.decisions[did]);
    Moved(s, m, t, Decided(pc.requestId, did, pc.plan.outcome));
  }

  lemma Appended(db: Db, event: Event)
    ensures event in Append(db, event).ledger && db.ledger <= Append(db, event).ledger
  {
    assert Append(db, event).ledger[|db.ledger|] == event;
  }

  lemma NoteVerdictKeeps(s: State, t: Tid)
    requires Inv(s) && CanNoteVerdict(s, t)
    ensures var b := DoNoteVerdict(s, t); Step(s, b, t) && Inv(b)
  {
    var pc := Thr(s, t).pc;
    var m := State(Append(s.db, VerdictEvent(pc)), s.h);
    InvThread(s, t);
    GrowthKept(s, m.db);
    OutcomeStays(s, m, pc.requestId, pc.decisionId, pc.outcome);
    Appended(s.db, VerdictEvent(pc));
    Moved(s, m, t, Noted(pc.requestId, pc.decisionId, pc.outcome, s.db.now));
  }

  lemma OpenApprovalKeeps(s: State, t: Tid, aid: Id, deadline: int)
    requires Inv(s) && CanOpenApproval(s, t, aid, deadline)
    ensures var b := DoOpenApproval(s, t, aid, deadline); Step(s, b, t) && Inv(b)
  {
    var pc := Thr(s, t).pc;
    var m := State(DoOpenApproval(s, t, aid, deadline).db, s.h);
    InvThread(s, t);
    InvIndexes(s);
    ApprovalInsertedKept(s, aid, m.db.approvals[aid]);
    Moved(s, m, t, Asked(pc.requestId, pc.decisionId));
  }

  lemma FindApprovalKeeps(s: State, t: Tid, aid: Id)
    requires Inv(s) && CanFindApproval(s, t, aid)
    ensures var b := DoFindApproval(s, t, aid); Step(s, b, t) && Inv(b)
  {
    var pc := Thr(s, t).pc;
    InvThread(s, t);
    NothingChanged(s);
    Moved(s, s, t, Asked(pc.requestId, pc.decisionId));
  }

  /** The lease the automatic branch issues stands on a decision and an entry of the ledger. */
  lemma NewAutoLease(s: State, t: Tid, lid: Id, at: Instant)
    requires Inv(s) && CanIssueAuto(s, t, lid, at)
    ensures var pc := Thr(s, t).pc;
      var m := State(DoIssueAuto(s, t, lid, at).db, s.h.(origin := s.h.origin[lid := pc.decisionId]));
      LeaseOk(m, lid) && Fits(m, pc.requestId, pc.decisionId, lid)
  {
    InvThread(s, t);
    var pc := Thr(s, t).pc;
    var scope := IssuedScope(s, pc);
    InvDecision(s, pc.decisionId);
    assert CoversIgnoringWindow(scope, scope) by { CoversItself(scope); }
  }

  lemma CoversItself(scope: Scope)
    requires Validates(scope) && !HasWildcard(scope.resource)
    ensures CoversIgnoringWindow(scope, scope)
  {
    CoversReflexive(scope);
    CoversImpliesIgnoringWindow(scope, scope);
  }

  lemma IssueAutoKeeps(s: State, t: Tid, lid: Id, at: Instant)
    requires Inv(s) && CanIssueAuto(s, t, lid, at)
    ensures var b := DoIssueAuto(s, t, lid, at); Step(s, b, t) && Inv(b)
  {
    var pc := Thr(s, t).pc;
    var m := State(DoIssueAuto(s, t, lid, at).db, s.h.(origin := s.h.origin[lid := pc.decisionId]));
    InvIndexes(s);
    NewAutoLease(s, t, lid, at);
    IssuedMoves(s, m, t, Holding(pc.requestId, pc.decisionId, lid), lid, m.db.leases[lid]);
  }

  lemma ReuseLeaseKeeps(s: State, t: Tid)
    requires Inv(s) && CanReuseLease(s, t)
    ensures var b := DoReuseLease(s, t); Step(s, b, t) && Inv(b)
  {
    var pc := Thr(s, t).pc;
    InvThread(s, t);
    NothingChanged(s);
    assert pc.outcome.matchedLeaseId != "";
    Moved(s, s, t, Holding(pc.requestId, pc.decisionId, pc.outcome.matchedLeaseId));
  }

  lemma AdvanceVerdictKeeps(s: State, t: Tid)
    requires Inv(s) && CanAdvanceVerdict(s, t)
    ensures var b := DoAdvanceVerdict(s, t); Step(s, b, t) && Inv(b)
  {
    var pc := Thr(s, t).pc;
    var row := s.db.requests[pc.requestId].(status := VerdictTarget(pc));
    var m := State(s.db.(requests := s.db.requests[pc.requestId := row]), s.h);
    InvThread(s, t);
    RequestRowKept(s, pc.requestId, row);
    if pc.Holding? {
      FitsStays(s, m, pc.requestId, pc.decisionId, pc.leaseId);
      Moved(s, m, t, Passed(pc.requestId, pc.decisionId, pc.leaseId));
    } else {
      Moved(s, m, t, Idle);
    }
  }

  lemma IntakeKeeps(s: State, t: Tid, act: Act)
    requires Inv(s) && IntakeEnabled(s, t, act)
    ensures var b := IntakeApply(s, t, act); Step(s, b, t) && Inv(b)
  {
    match act
    case Tick(to) => TickKeeps(s, t, to);
    case CreateRequest(rid, request) => CreateRequestKeeps(s, t, rid, request);
    case CancelRequest(rid) => CancelRequestKeeps(s, t, rid);
    case SavePreview(rid, preview, expected) => SavePreviewKeeps(s, t, rid, preview, expected);
  }

  lemma HandleKeeps(s: State, t: Tid, act: Act)
    requires Inv(s) && HandleEnabled(s, t, act)
    ensures var b := HandleApply(s, t, act); Step(s, b, t) && Inv(b)
  {
    match act
    case Assemble(rid, plan) => AssembleKeeps(s, t, rid, plan);
    case FailClosed(rid, blocker) => FailClosedKeeps(s, t, rid, blocker);
    case RecordDecision(did, at) => RecordDecisionKeeps(s, t, did, at);
    case NoteVerdict => NoteVerdictKeeps(s, t);
    case OpenApproval(aid, deadline) => OpenApprovalKeeps(s, t, aid, deadline);
    case FindApproval(aid) => FindApprovalKeeps(s, t, aid);
    case IssueAuto(lid, at) => IssueAutoKeeps(s, t, lid, at);
    case ReuseLease => ReuseLeaseKeeps(s, t);
    case AdvanceVerdict => AdvanceVerdictKeeps(s, t);
  }

  // ----- SettleApproval and ExpireApprovals -----

  lemma ReviewKeeps(s: State, t: Tid, aid: Id, action: Action, from: RequestStatus)
    requires Inv(s) && CanReview(s, t, aid, action, from)
    ensures var b := DoReview(s, t, aid, action, from); Step(s, b, t) && Inv(b)
  {
    NothingChanged(s);
    Moved(s, s, t, Reviewing(aid, action, from));
  }

  lemma WonApproval(s: State, t: Tid, at: Instant)
    requires Inv(s) && CanSettleWin(s, t, at)
    ensures var pc := Thr(s, t).pc;
      var m := State(DoSettleWin(s, t, at).db, s.h.(winner := s.h.winner[pc.approvalId := t]));
      && ApprovalOk(m, pc.approvalId) && pc.approvalId !in s.h.winner
      && !UserAllowed(s.db.ledger, pc.approvalId)
  {
    InvThread(s, t);
    var pc := Thr(s, t).pc;
    InvLedger(s);
    PendingUnbooked(s, pc.approvalId);
    InvApproval(s, pc.approvalId);
  }

  lemma SettleWinKeeps(s: State, t: Tid, at: Instant)
    requires Inv(s) && CanSettleWin(s, t, at)
    ensures var b := DoSettleWin(s, t, at); Step(s, b, t) && Inv(b)
  {
    var pc := Thr(s, t).pc;
    var m := State(DoSettleWin(s, t, at).db, s.h.(winner := s.h.winner[pc.approvalId := t]));
    WonApproval(s, t, at);
    ApprovalRowKept(s, m, pc.approvalId);
    Moved(s, m, t, Won(pc.approvalId, pc.action, pc.from));
  }

  lemma BookedThread(s: State, t: Tid)
    requires Inv(s) && CanBookSettlement(s, t)
    ensures var pc := Thr(s, t).pc;
      var m := State(Append(s.db, SettlementEvent(s, pc)), s.h);
      && Kept(s, m) && PcOk(m, t, Booked(pc.approvalId, pc.action, pc.from, s.db.now))
      && Settled(s, t, pc.approvalId, pc.action) && !UserAllowed(s.db.ledger, pc.approvalId)
  {
    var pc := Thr(s, t).pc;
    var event := SettlementEvent(s, pc);
    var m := State(Append(s.db, event), s.h);
    InvThread(s, t);
    GrowthKept(s, m.db);
    Appended(s.db, event);
    SettledStays(s, m, t, pc.approvalId, pc.action);
  }

  /** The one place where a person's consent enters the ledger. */
  lemma ConsentMoves(s: State, t: Tid)
    requires Inv(s) && CanBookSettlement(s, t) && Allows(Thr(s, t).pc.action)
    ensures var b := DoBookSettlement(s, t); Step(s, b, t) && Inv(b)
  {
    var pc := Thr(s, t).pc;
    var event := SettlementEvent(s, pc);
    var m := State(Append(s.db, event), s.h);
    BookedThread(s, t);
    InvLedger(s);
    ConsentBooked(s, t, pc.approvalId, event.decisionId);
    MovedWithConsent(s, m, t, Booked(pc.approvalId, pc.action, pc.from, s.db.now));
  }

  lemma RefusalMoves(s: State, t: Tid)
    requires Inv(s) && CanBookSettlement(s, t) && !Allows(Thr(s, t).pc.action)
    ensures var b := DoBookSettlement(s, t); Step(s, b, t) && Inv(b)
  {
    var pc := Thr(s, t).pc;
    BookedThread(s, t);
    Moved(s, State(Append(s.db, SettlementEvent(s, pc)), s.h), t, Booked(pc.approvalId, pc.action, pc.from, s.db.now));
  }

  lemma BookSettlementKeeps(s: State, t: Tid)
    requires Inv(s) && CanBookSettlement(s, t)
    ensures var b := DoBookSettlement(s, t); Step(s, b, t) && Inv(b)
  {
    var pc := Thr(s, t).pc;
    if Allows(pc.action) { ConsentMoves(s, t); } else { RefusalMoves(s, t); }
  }

  /** The lease the approved branch issues is the first of its approval. */
  lemma NewApprovedLease(s: State, t: Tid, lid: Id, at: Instant)
    requires Inv(s) && CanIssueApproved(s, t, lid, at)
    ensures var pc := Thr(s, t).pc;
      var b := DoIssueApproved(s, t, lid, at);
      var m := State(b.db, s.h.(origin := b.h.origin, leaseOf := b.h.leaseOf));
      pc.approvalId !in s.h.leaseOf && LeaseOk(m, lid) && LeaseIndexOk(m, pc.approvalId)
  {
    InvThread(s, t);
    var pc := Thr(s, t).pc;
    InvIndexes(s);
    InvApproval(s, pc.approvalId);
    InvDecision(s, s.db.approvals[pc.approvalId].decisionId);
  }

  lemma IssuedThread(s: State, t: Tid, lid: Id, at: Instant)
    requires Inv(s) && CanIssueApproved(s, t, lid, at)
    ensures var pc := Thr(s, t).pc;
      var b := DoIssueApproved(s, t, lid, at);
      var m := State(b.db, s.h.(origin := b.h.origin, leaseOf := b.h.leaseOf));
      PcOk(m, t, Issued(pc.approvalId, pc.action, pc.from))
  {
    InvThread(s, t);
  }

  lemma IssueApprovedKeeps(s: State, t: Tid, lid: Id, at: Instant)
    requires Inv(s) && CanIssueApproved(s, t, lid, at)
    ensures var b := DoIssueApproved(s, t, lid, at); Step(s, b, t) && Inv(b)
  {
    var pc := Thr(s, t).pc;
    var b := DoIssueApproved(s, t, lid, at);
    var m := State(b.db, s.h.(origin := b.h.origin, leaseOf := b.h.leaseOf));
    NewApprovedLease(s, t, lid, at);
    IssuedThread(s, t, lid, at);
    InvIndexes(s);
    IssuedMoves(s, m, t, Issued(pc.approvalId, pc.action, pc.from), lid, m.db.leases[lid]);
  }

  /** What is learned is exactly what a person approved. */
  lemma NewLesson(s: State, t: Tid, mid: Id, at: Instant)
    requires Inv(s) && CanLearn(s, t, mid, at)
    ensures var b := DoLearn(s, t, mid, at);
      LessonOk(State(b.db, s.h.(lessons := b.h.lessons)), mid) && mid !in s.db.memories
  {
    InvThread(s, t);
  }

  lemma LearnKeeps(s: State, t: Tid, mid: Id, at: Instant)
    requires Inv(s) && CanLearn(s, t, mid, at)
    ensures var b := DoLearn(s, t, mid, at); Step(s, b, t) && Inv(b)
  {
    var pc := Thr(s, t).pc;
    var b := DoLearn(s, t, mid, at);
    var m := State(b.db, s.h.(lessons := b.h.lessons));
    InvThread(s, t);
    NewLesson(s, t, mid, at);
    MemoryInsertedKept(s, mid, m.db.memories[mid]);
    SettledStays(s, m, t, pc.approvalId, pc.action);
    BookedStays(s, m, pc.approvalId, pc.action);
    Moved(s, m, t, Taught(pc.approvalId, pc.action, pc.from));
  }

  /** A request whose decision asked for approval was never served. */
  lemma NeverServed(s: State, aid: Id)
    requires Inv(s) && Known(s, aid)
    ensures !ServedStatus(s.db.requests[DecisionFor(s, aid).requestId].status)
  {
    var did := s.db.approvals[aid].decisionId;
    InvApproval(s, aid);
    InvDecision(s, did);
    InvRequest(s, s.db.decisions[did].requestId);
  }

  lemma AdvanceSettledKeeps(s: State, t: Tid)
    requires Inv(s) && CanAdvanceSettled(s, t)
    ensures var b := DoAdvanceSettled(s, t); Step(s, b, t) && Inv(b)
  {
    var pc := Thr(s, t).pc;
    var rid := DecisionFor(s, pc.approvalId).requestId;
    var to := if Allows(pc.action) then RequestStatus.Approved else RequestStatus.Rejected;
    var row := s.db.requests[rid].(status := to);
    NeverServed(s, pc.approvalId);
    RequestRowKept(s, rid, row);
    Moved(s, State(s.db.(requests := s.db.requests[rid := row]), s.h), t, Idle);
  }

  lemma ExpireApprovalKeeps(s: State, t: Tid, aid: Id, at: Instant)
    requires Inv(s) && CanExpireApproval(s, t, aid, at)
    ensures var b := DoExpireApproval(s, t, aid, at); Step(s, b, t) && Inv(b)
  {
    var b := DoExpireApproval(s, t, aid, at);
    InvApproval(s, aid);
    ApprovalRowKept(s, b, aid);
    Background(s, b, t);
  }

  lemma BookExpiryKeeps(s: State, t: Tid, aid: Id)
    requires Inv(s) && CanBookExpiry(s, t, aid)
    ensures var b := DoBookExpiry(s, t, aid); Step(s, b, t) && Inv(b)
  {
    EntryKeeps(s, t, ApprovalExpiredEvent(aid, s.db.approvals[aid].decisionId));
  }

  lemma AdvanceExpiredKeeps(s: State, t: Tid, aid: Id, from: RequestStatus)
    requires Inv(s) && CanAdvanceExpired(s, t, aid, from)
    ensures var b := DoAdvanceExpired(s, t, aid, from); Step(s, b, t) && Inv(b)
  {
    var rid := DecisionFor(s, aid).requestId;
    NeverServed(s, aid);
    RequestRowKept(s, rid, s.db.requests[rid].(status := RequestStatus.Rejected));
    Background(s, DoAdvanceExpired(s, t, aid, from), t);
  }

  lemma SettleKeeps(s: State, t: Tid, act: Act)
    requires Inv(s) && SettleEnabled(s, t, act)
    ensures var b := SettleApply(s, t, act); Step(s, b, t) && Inv(b)
  {
    match act
    case Review(aid, action, from) => ReviewKeeps(s, t, aid, action, from);
    case SettleWin(at) => SettleWinKeeps(s, t, at);
    case BookSettlement => BookSettlementKeeps(s, t);
    case IssueApproved(lid, at) => IssueApprovedKeeps(s, t, lid, at);
    case Learn(mid, at) => LearnKeeps(s, t, mid, at);
    case AdvanceSettled => AdvanceSettledKeeps(s, t);
    case ExpireApproval(aid, at) => ExpireApprovalKeeps(s, t, aid, at);
    case BookExpiry(aid) => BookExpiryKeeps(s, t, aid);
    case AdvanceExpired(aid, from) => AdvanceExpiredKeeps(s, t, aid, from);
  }

  // ----- mcpCalls.execute and lease.Manager.Use -----

  lemma StartRunKeeps(s: State, t: Tid)
    requires Inv(s) && CanStartRun(s, t)
    ensures var b := DoStartRun(s, t); Step(s, b, t) && Inv(b)
  {
    var pc := Thr(s, t).pc;
    var row := s.db.requests[pc.requestId].(status := Executing);
    var m := State(s.db.(requests := s.db.requests[pc.requestId := row]), s.h);
    InvThread(s, t);
    InvRequest(s, pc.requestId);
    RequestRowKept(s, pc.requestId, row);
    FitsStays(s, m, pc.requestId, pc.decisionId, pc.leaseId);
    Moved(s, m, t, Running(pc.requestId, pc.decisionId, pc.leaseId));
  }

  lemma FinishRunKeeps(s: State, t: Tid, ending: RequestStatus)
    requires Inv(s) && CanFinishRun(s, t, ending)
    ensures var b := DoFinishRun(s, t, ending); Step(s, b, t) && Inv(b)
  {
    var pc := Thr(s, t).pc;
    var row := s.db.requests[pc.requestId].(status := ending);
    InvRequest(s, pc.requestId);
    RequestRowKept(s, pc.requestId, row);
    Moved(s, State(s.db.(requests := s.db.requests[pc.requestId := row]), s.h), t, Idle);
  }

  lemma NoteRunKeeps(s: State, t: Tid, succeeded: bool)
    requires Inv(s) && CanNoteRun(s, t, succeeded)
    ensures var b := DoNoteRun(s, t, succeeded); Step(s, b, t) && Inv(b)
  {
    var pc := Thr(s, t).pc;
    EntryKeeps(s, t, AdapterExecutedEvent(pc.requestId, pc.leaseId, succeeded));
  }

  lemma CheckMeterKeeps(s: State, t: Tid, lid: Id, requested: Scope)
    requires Inv(s) && CanCheckMeter(s, t, lid, requested)
    ensures var b := DoCheckMeter(s, t, lid, requested); Step(s, b, t) && Inv(b)
  {
    InvThread(s, t);
    NothingMetered(s);
    MeterMoved(s, s, t, Thr(s, t).pc, Checked(lid, requested));
  }

  lemma DropMeterKeeps(s: State, t: Tid)
    requires Inv(s) && CanDropMeter(s, t)
    ensures var b := DoDropMeter(s, t); Step(s, b, t) && Inv(b)
  {
    InvThread(s, t);
    NothingMetered(s);
    MeterMoved(s, s, t, Thr(s, t).pc, Off);
  }

  /** What the guard of the conditional update says about the lease. */
  lemma ConsumableLease(s: State, lid: Id, at: Instant)
    requires Inv(s) && lid in s.db.leases && Consumable(s.db.leases[lid], at)
    ensures s.db.leases[lid].used < s.db.leases[lid].limit
    ensures at < s.db.leases[lid].scope.expiresAt
  {
    InvLease(s, lid);
  }

  lemma ConsumedThread(s: State, m: State, t: Tid, row: Lease, u: Use)
    requires Inv(s) && Evolves(s, m) && u.thread == t && !u.sent
    requires u.leaseId in s.db.leases && s.db.leases[u.leaseId] == row && row.used < row.limit
    requires m == State(s.db.(leases := s.db.leases[u.leaseId := OneMore(row)]), s.h.(uses := s.h.uses + [u]))
    ensures PcOk(m, t, Thr(s, t).pc) && MeterOk(m, t, AfterCount(row, u.leaseId, |s.h.uses|))
  {
    InvThread(s, t);
    PcStays(s, m, t, Thr(s, t).pc);
  }

  lemma ConsumedMoves(s: State, t: Tid, lid: Id, u: Use)
    requires Inv(s) && lid in s.db.leases && Consumable(s.db.leases[lid], u.at)
    requires u == Use(lid, s.db.leases[lid].approvalId, u.at, t, false)
    requires !HasWildcard(s.db.leases[lid].scope.resource)
    ensures var m := State(s.db.(leases := s.db.leases[lid := OneMore(s.db.leases[lid])]),
                           s.h.(uses := s.h.uses + [u]));
      var b := Metered(m, t, Thr(s, t).pc, AfterCount(s.db.leases[lid], lid, |s.h.uses|));
      Step(s, b, t) && Inv(b)
  {
    var row := s.db.leases[lid];
    var m := State(s.db.(leases := s.db.leases[lid := OneMore(row)]), s.h.(uses := s.h.uses + [u]));
    ConsumableLease(s, lid, u.at);
    ConsumedKept(s, m, lid, u);
    ConsumedThread(s, m, t, row, u);
    MeterMoved(s, m, t, Thr(s, t).pc, AfterCount(row, lid, |s.h.uses|));
  }

  lemma CheckedCovers(s: State, t: Tid)
    requires Inv(s) && Thr(s, t).meter.Checked?
    ensures Thr(s, t).meter.leaseId in s.db.leases
    ensures !HasWildcard(s.db.leases[Thr(s, t).meter.leaseId].scope.resource)
  {
    InvThread(s, t);
  }

  /** The conditional update as one more use of one lease. */
  lemma ConsumeCountsOne(s: State, t: Tid, at: Instant)
    requires CanConsume(s, t, at)
    ensures var lid := Thr(s, t).meter.leaseId;
      && lid in s.db.leases && Consumable(s.db.leases[lid], at)
      && var u := Use(lid, s.db.leases[lid].approvalId, at, t, false);
      && var m := State(s.db.(leases := s.db.leases[lid := OneMore(s.db.leases[lid])]),
                        s.h.(uses := s.h.uses + [u]));
      DoConsume(s, t, at) == Metered(m, t, Thr(s, t).pc, AfterCount(s.db.leases[lid], lid, |s.h.uses|))
  {
  }

  lemma ConsumeKeeps(s: State, t: Tid, at: Instant)
    requires Inv(s) && CanConsume(s, t, at)
    ensures var b := DoConsume(s, t, at); Step(s, b, t) && Inv(b)
  {
    var lid := Thr(s, t).meter.leaseId;
    CheckedCovers(s, t);
    ConsumeCountsOne(s, t, at);
    ConsumedMoves(s, t, lid, Use(lid, s.db.leases[lid].approvalId, at, t, false));
  }

  lemma ExhaustedKept(s: State, m: State, lid: Id)
    requires Inv(s) && lid in s.db.leases && s.db.leases[lid].status == Active
    requires s.db.leases[lid].used == s.db.leases[lid].limit
    requires m == State(s.db.(leases := s.db.leases[lid := s.db.leases[lid].(status := Exhausted)]), s.h)
    ensures MeterKept(s, m)
  {
    assert UsesKept(s, m) by {
      InvMeters(s);
      InvUses(s);
      UsesStay(s, m);
    }
    InvLease(s, lid);
    LeaseUpdated(s, m, lid);
  }

  lemma ExhaustKeeps(s: State, t: Tid)
    requires Inv(s) && CanExhaust(s, t)
    ensures var b := DoExhaust(s, t); Step(s, b, t) && Inv(b)
  {
    var pc, meter := Thr(s, t).pc, Thr(s, t).meter;
    var m := State(UpdateLeaseStatus(s.db, meter.leaseId, Exhausted).value, s.h);
    InvThread(s, t);
    ExhaustedKept(s, m, meter.leaseId);
    PcStays(s, m, t, pc);
    MeterMoved(s, m, t, pc, Paid(meter.leaseId, meter.index));
  }

  /** The request that goes out is the one this request's own decision recorded. */
  lemma SentAsDecided(s: State, m: State, pc: Pc)
    requires Evolves(s, m) && pc.Running? && Fits(s, pc.requestId, pc.decisionId, pc.leaseId)
    requires pc.requestId in s.db.requests && Definite(s.db.leases[pc.leaseId].scope.resource)
    requires m.db == s.db && m.h.sends == s.h.sends + [SendingOf(s, pc)]
    ensures SendOk(m, |s.h.sends|)
  {
    FitsStays(s, m, pc.requestId, pc.decisionId, pc.leaseId);
    CoveredAgrees(s.db.leases[pc.leaseId].scope, s.db.decisions[pc.decisionId].scope);
  }

  lemma SentUses(s: State, m: State, pc: Pc, k: nat)
    requires MetersOk(s) && pc.Running? && Fits(s, pc.requestId, pc.decisionId, pc.leaseId)
    requires pc.requestId in s.db.requests && LeaseOk(s, pc.leaseId)
    requires k < |s.h.uses| && !s.h.uses[k].sent && s.h.uses[k].leaseId == pc.leaseId
    requires m == State(s.db, s.h.(sends := s.h.sends + [SendingOf(s, pc)],
                                   uses := s.h.uses[k := s.h.uses[k].(sent := true)]))
    ensures UsesKept(s, m)
  {
    UsesChanged(s, m);
    SentAsDecided(s, m, pc);
    SpentCounts(s, m, k, SendingOf(s, pc));
  }

  lemma SentKept(s: State, m: State, pc: Pc, k: nat)
    requires Inv(s) && pc.Running? && Fits(s, pc.requestId, pc.decisionId, pc.leaseId)
    requires pc.requestId in s.db.requests
    requires k < |s.h.uses| && !s.h.uses[k].sent && s.h.uses[k].leaseId == pc.leaseId
    requires m == State(s.db, s.h.(sends := s.h.sends + [SendingOf(s, pc)],
                                   uses := s.h.uses[k := s.h.uses[k].(sent := true)]))
    ensures MeterKept(s, m)
  {
    assert UsesKept(s, m) by {
      InvMeters(s);
      InvLease(s, pc.leaseId);
      SentUses(s, m, pc, k);
    }
    UsesChanged(s, m);
  }

  lemma SendKeeps(s: State, t: Tid)
    requires Inv(s) && CanSend(s, t)
    ensures var b := DoSend(s, t); Step(s, b, t) && Inv(b)
  {
    var pc, meter := Thr(s, t).pc, Thr(s, t).meter;
    var m := State(s.db, s.h.(sends := s.h.sends + [SendingOf(s, pc)],
                              uses := s.h.uses[meter.index := s.h.uses[meter.index].(sent := true)]));
    InvThread(s, t);
    SentKept(s, m, pc, meter.index);
    FitsStays(s, m, pc.requestId, pc.decisionId, pc.leaseId);
    MeterMoved(s, m, t, Sent(pc.requestId, pc.decisionId, pc.leaseId), Off);
  }

  lemma CallKeeps(s: State, t: Tid, act: Act)
    requires Inv(s) && CallEnabled(s, t, act)
    ensures var b := CallApply(s, t, act); Step(s, b, t) && Inv(b)
  {
    match act
    case StartRun => StartRunKeeps(s, t);
    case CheckMeter(lid, requested) => CheckMeterKeeps(s, t, lid, requested);
    case Consume(at) => ConsumeKeeps(s, t, at);
    case Exhaust => ExhaustKeeps(s, t);
    case DropMeter => DropMeterKeeps(s, t);
    case Send => SendKeeps(s, t);
    case NoteRun(succeeded) => NoteRunKeeps(s, t, succeeded);
    case FinishRun(ending) => FinishRunKeeps(s, t, ending);
  }

  // ----- Every act -----

  lemma ActKeeps(s: State, t: Tid, act: Act)
    requires Inv(s) && Enabled(s, t, act)
    ensures Step(s, Apply(s, t, act), t) && Inv(Apply(s, t, act))
  {
    if IntakeEnabled(s, t, act) { IntakeKeeps(s, t, act); }
    else if HandleEnabled(s, t, act) { HandleKeeps(s, t, act); }
    else if CallEnabled(s, t, act) { CallKeeps(s, t, act); }
    else if SettleEnabled(s, t, act) { SettleKeeps(s, t, act); }
    else { UpkeepKeeps(s, t, act); }
  }
}
