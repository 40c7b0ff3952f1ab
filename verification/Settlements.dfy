/**
 What follows when a person answers (internal/core/pipeline/settle.go): SettleApproval with its
 ledger entry, lease, memory and status, and the clearing of a memory.
 */
module Settlements {
  import opened Results
  import opened Scopes
  import opened Tables
  import opened Protocol
  import opened Invariants
  import opened Stability
  import opened Guarantees
  import opened Stores
  import opened Leasing
  import opened Approving
  import opened Learning
  import D = Decisions

  datatype SettleInput = SettleInput(
    approvalId: Id, choice: Option<Action>, strongAuthCompleted: bool, confirmations: int)

  datatype SettleResult = SettleResult(
    approval: Approval, status: RequestStatus, leaseId: Option<Id>, memoryId: Option<Id>, replayed: bool)

  // ----- When a settlement succeeds -----

  /** Level and requirement come from the decision, never from the caller. */
  function RequestToSettle(input: SettleInput, record: Decision, mode: D.Mode): SettleRequest {
    SettleRequest(input.approvalId, input.choice, record.riskLevel, input.strongAuthCompleted, record.requirement,
                  D.RequiredConfirmations(mode, record.riskLevel), input.confirmations)
  }

  /** The answer passes every test that comes before the first write: it is offered and confirmed, the
      window of the decided scope is open for an allow, and nobody settled the approval differently. */
  ghost predicate Admissible(db: Db, mode: D.Mode, input: SettleInput) {
    && input.choice.Some? && input.approvalId in db.approvals
    && db.approvals[input.approvalId].decisionId in db.decisions
    && var was := db.approvals[input.approvalId];
    && AdmissibleFor(was, db.decisions[was.decisionId], db.now, mode, input)
  }

  ghost predicate AdmissibleFor(was: Approval, record: Decision, now: Instant, mode: D.Mode, input: SettleInput)
    requires input.choice.Some?
  {
    && CheckSettle(RequestToSettle(input, record, mode)).Ok?
    && (Allows(input.choice.value) ==> record.scope.expiresAt > now)
    && (Allows(input.choice.value) || was.status == Pending ==> Validates(record.scope))
    && (was.status == Pending || (was.action == input.choice && was.status != ApprovalStatus.Expired))
  }

  /** The answer asks to remember a scope that cannot be remembered. */
  predicate Unteachable(action: Action, record: Decision) {
    LearnOf(action).Some? && !Learnable(record.scope, record.riskLevel)
  }

  /** The first answer fails exactly when it teaches the unteachable; a repeated one exactly when the
      lease of an allow is missing. */
  ghost predicate SettleSucceeds(db: Db, mode: D.Mode, input: SettleInput) {
    && Admissible(db, mode, input)
    && if db.approvals[input.approvalId].status == Pending
       then !Unteachable(input.choice.value, db.decisions[db.approvals[input.approvalId].decisionId])
       else Allows(input.choice.value) ==> !NoLeaseOn(db.leases, input.approvalId)
  }

  /** Nothing has come of this approval yet, and its request stands where it was read. */
  ghost predicate Fresh(db: Db, aid: Id, rid: Id, from: RequestStatus) {
    && NoLeaseOn(db.leases, aid) && NoMemoryFrom(db.memories, aid)
    && rid in db.requests && db.requests[rid].status == from
  }

  lemma PendingIsFresh(s: State, aid: Id, rid: Id, from: RequestStatus)
    requires Inv(s) && aid in s.db.approvals && s.db.approvals[aid].status == Pending
    requires rid in s.db.requests && s.db.requests[rid].status == from
    ensures Fresh(s.db, aid, rid, from)
  {
    InvApproval(s, aid);
    forall l | l in s.db.leases ensures s.db.leases[l].approvalId != aid {
      InvLease(s, l);
    }
    forall m | m in s.db.memories ensures s.db.memories[m].createdFrom != aid {
      MemoryOfApproved(s, m);
    }
  }

  lemma MemoryOfApproved(s: State, mid: Id)
    requires Inv(s) && mid in s.db.memories
    ensures s.db.memories[mid].createdFrom in s.db.approvals
    ensures s.db.approvals[s.db.memories[mid].createdFrom].status == ApprovalStatus.Approved
  {
    InvTables(s);
    assert MemoryOk(s, mid) && LessonOk(s, mid);
  }

  lemma StillFresh(a: Run, b: Run, aid: Id, rid: Id, from: RequestStatus)
    requires Legal(a) && aid in Last(a).db.approvals && |b.states| == |b.acts| + 1
    requires Last(b).db == Last(a).db.(approvals := Last(b).db.approvals)
    requires Last(a).db.approvals[aid].status == Pending
    requires rid in Last(a).db.requests && Last(a).db.requests[rid].status == from
    ensures Fresh(Last(b).db, aid, rid, from)
  {
    RunInv(a, |a.acts|);
    PendingIsFresh(Last(a), aid, rid, from);
  }

  // ----- Steps of SettleApproval -----

  lemma BookBacked(s: State, t: Tid) returns (next: State)
    requires Thr(s, t).pc.Won? && Known(s, Thr(s, t).pc.approvalId)
    ensures Leads(s, t, Act.BookSettlement, next) && next.h.lessons == s.h.lessons
    ensures var pc := Thr(s, t).pc;
      && next.db == Append(s.db, SettlementEvent(s, pc))
      && Thr(next, t) == Thread(Booked(pc.approvalId, pc.action, pc.from, s.db.now), Thr(s, t).meter)
  {
    LeadsExactly(s, t, Act.BookSettlement, DoBookSettlement(s, t));
    next := DoBookSettlement(s, t);
  }

  function SettledStatus(action: Action): RequestStatus {
    if Allows(action) then RequestStatus.Approved else RequestStatus.Rejected
  }

  lemma SettledBacked(s: State, t: Tid) returns (next: State)
    requires Settles(Thr(s, t).pc) && Known(s, Thr(s, t).pc.approvalId)
    ensures var pc := Thr(s, t).pc;
      var rid := DecisionFor(s, pc.approvalId).requestId;
      var effect := UpdateRequestStatus(s.db, rid, pc.from, SettledStatus(pc.action));
      effect.Some? ==>
        && Leads(s, t, Act.AdvanceSettled, next) && next.db == effect.value && next.h.lessons == s.h.lessons
        && Thr(next, t) == Thread(Idle, Thr(s, t).meter)
  {
    next := s;
    if CanAdvanceSettled(s, t) {
      LeadsExactly(s, t, Act.AdvanceSettled, DoAdvanceSettled(s, t));
      next := DoAdvanceSettled(s, t);
    }
  }

  /** What a settled approval leads to: consent or refusal on the ledger, then at most one lease and
      one memory, then the status. */
  predicate SettlementActs(acts: seq<Act>, action: Action, done: bool) {
    var full := if !Allows(action) then 2 else if LearnOf(action).None? then 3 else 4;
    && |acts| <= full && (done ==> |acts| == full)
    && forall k :: 0 <= k < |acts| ==>
         if k == 0 then acts[k] == Act.BookSettlement
         else if k == full - 1 then acts[k] == Act.AdvanceSettled
         else if k == 1 then acts[k].IssueApproved?
         else acts[k].Learn?
  }

  /** What grant and learn add. */
  predicate GiveActs(acts: seq<Act>, action: Action, done: bool) {
    var full := if !Allows(action) then 0 else if LearnOf(action).None? then 1 else 2;
    && |acts| <= full && (done ==> |acts| == full)
    && (|acts| > 0 ==> acts[0].IssueApproved?) && (|acts| > 1 ==> acts[1].Learn?)
  }

  /** The lease that the second act of a settlement left behind. */
  predicate LeaseLeft(leases: map<Id, Lease>, aid: Id, act: Act) {
    act.IssueApproved? && LeaseFor(leases, aid, Some(act.lid))
  }

  lemma SettlementOf(given: seq<Act>, action: Action, done: bool)
    requires GiveActs(given, action, done)
    ensures SettlementActs([Act.BookSettlement] + given, action, false)
    ensures done ==> SettlementActs([Act.BookSettlement] + given + [Act.AdvanceSettled], action, true)
  {
  }

  /** The request is settled by the winner only; anyone after it repeats the first answer. */
  ghost predicate SettleApprovalActs(acts: seq<Act>, aid: Id, r: Result<SettleResult>) {
    || (r.Err? && acts == [])
    || (&& acts != [] && acts[0].Review? && acts[0].aid == aid
        && var rest := acts[1..];
        && (rest == [] ==> r.Err? || r.value.replayed)
        && (rest != [] ==>
              && rest[0].SettleWin? && SettlementActs(rest[1..], acts[0].action, r.Ok?)
              && (r.Ok? ==> !r.value.replayed)))
  }

  /** What a successful SettleApproval returns, first time or again. */
  ghost predicate SettledResult(store: Store, aid: Id, action: Action, r: SettleResult)
    reads store
  {
    && aid in store.approvals && store.approvals[aid] == r.approval
    && r.approval.action == Some(action) && r.approval.status == StatusFor(action)
    && (if Allows(action) then LeaseFor(store.leases, aid, r.leaseId) else r.leaseId.None? && r.memoryId.None?)
  }

  /** Whoever allowed did so inside the window of the scope, as it was `tested`, authenticated and
      confirmed as the decision demanded. */
  ghost predicate DulyAllowed(record: Decision, mode: D.Mode, input: SettleInput, tested: Instant) {
    && record.scope.expiresAt > tested
    && (record.requirement == D.StrongAuth ==> input.strongAuthCompleted)
    && input.confirmations >= D.RequiredConfirmations(mode, record.riskLevel) && input.confirmations >= 1
  }

  predicate LeaseFor(leases: map<Id, Lease>, aid: Id, found: Option<Id>) {
    aid != "" && found.Some? && found.value in leases && leases[found.value].approvalId == aid
  }

  lemma LeaseForLater(a: Run, b: Run, aid: Id, found: Option<Id>)
    requires Legal(a) && Legal(b) && Continues(a, b) && LeaseFor(Last(a).db.leases, aid, found)
    ensures LeaseFor(Last(b).db.leases, aid, found)
  {
    LaterEvolves(a, b);
    assert LeaseEvolves(Last(a).db.leases[found.value], Last(b).db.leases[found.value]);
  }

  lemma SettleShape(head: seq<Act>, rest: seq<Act>, aid: Id, action: Action, r: Result<SettleResult>)
    requires |head| == 2 && head[0].Review? && head[0].aid == aid && head[0].action == action && head[1].SettleWin?
    requires SettlementActs(rest, action, r.Ok?) && (r.Ok? ==> !r.value.replayed)
    ensures SettleApprovalActs(head + rest, aid, r) && (head + rest)[0] == head[0]
  {
    assert (head + rest)[1..][1..] == rest;
  }

  lemma ClearBacked(s: State, t: Tid, mid: Id) returns (next: State)
    ensures Leads(s, t, Act.BookClear(mid), next) && next == State(Append(s.db, TrustClearedEvent(mid)), s.h)
  {
    LeadsExactly(s, t, Act.BookClear(mid), DoBookClear(s, t, mid));
    next := DoBookClear(s, t, mid);
  }

  class Settler {
    const store: Store
    const leases: LeaseManager
    const approvals: ApprovalManager
    const memories: TrustManager
    const mode: D.Mode

    ghost predicate Wired() {
      leases.store == store && approvals.store == store && memories.store == store
    }

    constructor (store: Store, timeout: nat, mode: D.Mode)
      ensures this.store == store && Wired() && this.mode == mode
    {
      this.store := store;
      leases := new LeaseManager(store);
      approvals := new ApprovalManager(store, timeout);
      memories := new TrustManager(store);
      this.mode := mode;
    }

    /** The three reads at the start, with whatever happens between them. */
    method Load(aid: Id, ghost me: Tid) returns (r: Result<(Decision, Request)>)
      requires store.Valid()
      modifies store
      ensures store.Acted(me, []) && Thr(store.Cur(), me) == Thr(old(store.Cur()), me)
      ensures r.Ok? ==> aid != "" && Known(store.Cur(), aid) && DecisionFor(store.Cur(), aid) == r.value.0
      ensures r.Err? ==> r.code == NotFound || r.code == Internal
      ensures old(store.now) <= store.now
      ensures store.alone ==>
        && store.Rows() == old(store.Rows()) && (r.Ok? <==> aid in old(store.approvals))
        && (r.Ok? ==> r.value.1 == store.requests[r.value.0.requestId])
    {
      ghost var first := store.run;
      store.Yield(me);
      var item :- store.ApprovalById(aid);
      RunInv(store.run, |store.run.acts|);
      ApprovalKnown(store.Cur(), aid);
      ghost var mid := store.run;
      store.Yield(me);
      ContinuesTransitive(first, mid, store.run);
      KnownLater(mid, store.run, aid);
      var record :- store.DecisionById(item.decisionId);
      mid := store.run;
      store.Yield(me);
      ContinuesTransitive(first, mid, store.run);
      KnownLater(mid, store.run, aid);
      var request :- store.RequestById(record.requestId);
      return Ok((record, request));
    }

    /** SettleApproval. Allowing is refused once the window of the scope has passed; the conditional
        update then picks one winner, and only the winner books, issues and learns. Everyone else gets
        the first answer again without a single write: a lease if it was an allow, none for a deny.
        Teaching the unteachable never succeeds at first: it leaves its lease behind and fails. */
    method SettleApproval(input: SettleInput, ghost me: Tid)
      returns (r: Result<SettleResult>, ghost acts: seq<Act>, ghost tested: Instant)
      requires Wired() && store.Valid() && Thr(store.Cur(), me).pc.Idle?
      modifies store
      ensures store.Acted(me, acts) && SettleApprovalActs(acts, input.approvalId, r)
      ensures old(store.now) <= tested <= store.now
      ensures acts != [] ==>
        && input.choice.Some? && acts[0].action == input.choice.value && Known(store.Cur(), input.approvalId)
        && var record := DecisionFor(store.Cur(), input.approvalId);
        && (Allows(acts[0].action) ==> DulyAllowed(record, mode, input, tested))
        && (Unteachable(acts[0].action, record) ==> |acts| <= 4 && (r.Ok? ==> r.value.replayed))
      ensures r.Ok? ==> SettledResult(store, input.approvalId, input.choice.value, r.value)
      ensures store.alone ==> (r.Ok? <==> SettleSucceeds(old(store.Rows()), mode, input))
      ensures store.alone && r.Err? && Admissible(old(store.Rows()), mode, input)
              && old(store.approvals)[input.approvalId].status == Pending ==>
        && |acts| == 4 && LeaseLeft(store.leases, input.approvalId, acts[3])
        && store.requests == old(store.requests) && store.memories == old(store.memories)
        && store.approvals[input.approvalId].action == input.choice
        && store.approvals[input.approvalId].status == ApprovalStatus.Approved
    {
      acts, tested := [], store.now;
      ghost var first := store.run;
      ContinuesReflexive(first);
      var loaded := Load(input.approvalId, me);
      tested := store.now;
      if loaded.Err? { return Err(loaded.code), acts, tested; }
      var record := loaded.value.0;
      if input.choice.Some? && Allows(input.choice.value) {
        if !Validates(record.scope) { return Err(InvalidRequest), acts, tested; }
        if record.scope.expiresAt <= store.now { return Err(ApprovalTimeout), acts, tested; }
      }
      ghost var mid := store.run;
      assert Own(mid.acts, me) == Own(first.acts, me);
      r, acts := SettleLoaded(input, record, loaded.value.1.status, me);
      ContinuesTransitive(first, mid, store.run);
      KnownLater(mid, store.run, input.approvalId);
    }

    /** From approvals.Settle on. */
    method SettleLoaded(input: SettleInput, record: Decision, from: RequestStatus, ghost me: Tid)
      returns (r: Result<SettleResult>, ghost acts: seq<Act>)
      requires Wired() && store.Valid() && Thr(store.Cur(), me).pc.Idle? && input.approvalId != ""
      requires Known(store.Cur(), input.approvalId) && DecisionFor(store.Cur(), input.approvalId) == record
      requires input.choice.Some? && Allows(input.choice.value) ==> Validates(record.scope)
      requires store.alone && input.choice.Some? && Allows(input.choice.value) ==> record.scope.expiresAt > store.now
      requires store.alone ==> store.requests[record.requestId].status == from
      modifies store
      ensures store.Acted(me, acts) && SettleApprovalActs(acts, input.approvalId, r)
      ensures Known(store.Cur(), input.approvalId) && DecisionFor(store.Cur(), input.approvalId) == record
      ensures acts != [] ==>
        && input.choice.Some? && acts[0].action == input.choice.value
        && (Unteachable(acts[0].action, record) ==> |acts| <= 4 && (r.Ok? ==> r.value.replayed))
      ensures acts != [] && Allows(acts[0].action) ==>
        && (record.requirement == D.StrongAuth ==> input.strongAuthCompleted)
        && input.confirmations >= D.RequiredConfirmations(mode, record.riskLevel) && input.confirmations >= 1
      ensures r.Ok? ==> SettledResult(store, input.approvalId, input.choice.value, r.value)
      ensures store.alone ==> (r.Ok? <==> SettleSucceeds(old(store.Rows()), mode, input))
      ensures store.alone && r.Err? && Admissible(old(store.Rows()), mode, input)
              && old(store.approvals)[input.approvalId].status == Pending ==>
        && |acts| == 4 && LeaseLeft(store.leases, input.approvalId, acts[3])
        && store.requests == old(store.requests) && store.memories == old(store.memories)
        && store.approvals[input.approvalId].action == input.choice
        && store.approvals[input.approvalId].status == ApprovalStatus.Approved
    {
      acts := [];
      ghost var first := store.run;
      var settlement: Result<Settlement>;
      settlement, acts := approvals.Settle(RequestToSettle(input, record, mode), from, me);
      KnownLater(first, store.run, input.approvalId);
      if settlement.Err? { return Err(settlement.code), acts; }
      var action := input.choice.value;
      assert CheckSettle(RequestToSettle(input, record, mode)) == Ok(action);
      ghost var mid := store.run;
      if settlement.value.replayed {
        r := Replayed(input.approvalId, settlement.value, from, me);
        ContinuesTransitive(first, mid, store.run);
        KnownLater(mid, store.run, input.approvalId);
        return;
      }
      if store.alone { StillFresh(first, mid, input.approvalId, record.requestId, from); }
      ghost var rest: seq<Act>;
      r, rest := ApplySettlement(input.approvalId, action, settlement.value, record, from, me);
      ContinuesTransitive(first, mid, store.run);
      KnownLater(mid, store.run, input.approvalId);
      Rebracket(Own(first.acts, me), acts, rest);
      SettleShape(acts, rest, input.approvalId, action, r);
      acts := acts + rest;
    }

    /** replayed: nothing is written, issued or learned a second time. */
    method Replayed(aid: Id, settlement: Settlement, from: RequestStatus, ghost me: Tid)
      returns (r: Result<SettleResult>)
      requires store.Valid() && settlement.approval.action.Some?
      requires Known(store.Cur(), aid) && store.approvals[aid] == settlement.approval
      requires settlement.approval.status == StatusFor(settlement.approval.action.value)
      requires settlement == Consequence(settlement.approval.action.value, settlement.approval, true)
      modifies store
      ensures store.Acted(me, [])
      ensures r.Ok? ==> r.value.replayed && SettledResult(store, aid, settlement.approval.action.value, r.value)
      ensures store.alone ==>
        && store.Rows() == old(store.Rows())
        && (r.Ok? <==> (settlement.allowed ==> aid != "" && !NoLeaseOn(store.leases, aid)))
    {
      ghost var first := store.run;
      ContinuesReflexive(first);
      if !settlement.allowed { return Ok(SettleResult(settlement.approval, from, None, None, true)); }
      store.Yield(me);
      KnownLater(first, store.run, aid);
      var issued := store.LeaseByApproval(aid);
      if issued.Err? { return Err(if issued.code == NotFound then Conflict else issued.code); }
      return Ok(SettleResult(settlement.approval, from, Some(issued.value), None, true));
    }

    /** applySettlement: the scope is read back, and the answer is written down before it has any
        consequence. */
    method ApplySettlement(
      aid: Id, action: Action, settlement: Settlement, record: Decision, from: RequestStatus, ghost me: Tid)
      returns (r: Result<SettleResult>, ghost acts: seq<Act>)
      requires Wired() && store.Valid() && Thr(store.Cur(), me).pc == Won(aid, action, from) && aid != ""
      requires Known(store.Cur(), aid) && DecisionFor(store.Cur(), aid) == record
      requires store.approvals[aid] == settlement.approval && settlement.approval.action == Some(action)
      requires settlement.approval.status == StatusFor(action)
      requires settlement == Consequence(action, settlement.approval, false)
      modifies store
      ensures store.Acted(me, acts) && SettlementActs(acts, action, r.Ok?)
      ensures r.Ok? ==> !r.value.replayed && SettledResult(store, aid, action, r.value)
      ensures !Validates(record.scope) ==> r.Err? && acts == []
      ensures Unteachable(action, record) ==> r.Err? && |acts| <= 2
      ensures store.alone && Fresh(old(store.Rows()), aid, record.requestId, from)
              && Validates(record.scope) && (Allows(action) ==> record.scope.expiresAt > old(store.now)) ==>
        && (r.Ok? <==> !Unteachable(action, record))
        && (r.Err? ==> && |acts| == 2 && LeaseLeft(store.leases, aid, acts[1])
                       && store.requests == old(store.requests) && store.memories == old(store.memories))
    {
      acts := [];
      ghost var first := store.run;
      ContinuesReflexive(first);
      if !Validates(record.scope) { return Err(InvalidRequest), acts; }
      var booked := Book(aid, action, me);
      if booked.Err? { return Err(booked.code), acts; }
      KnownLater(first, store.run, aid);
      ghost var mid := store.run;
      ghost var rest: seq<Act>;
      r, rest := CarryOut(aid, action, settlement, record, from, me);
      ContinuesTransitive(first, mid, store.run);
      Rebracket(Own(first.acts, me), [Act.BookSettlement], rest);
      acts := [Act.BookSettlement] + rest;
    }

    /** The consequences of an answer that is on the ledger: lease and memory of an allow, then the
        status of the request. */
    method CarryOut(
      aid: Id, action: Action, settlement: Settlement, record: Decision, from: RequestStatus, ghost me: Tid)
      returns (r: Result<SettleResult>, ghost acts: seq<Act>)
      requires Wired() && store.Valid() && Thr(store.Cur(), me).pc == Booked(aid, action, from, store.now) && aid != ""
      requires Known(store.Cur(), aid) && DecisionFor(store.Cur(), aid) == record && Validates(record.scope)
      requires store.approvals[aid] == settlement.approval && settlement.approval.action == Some(action)
      requires settlement.approval.status == StatusFor(action)
      requires settlement == Consequence(action, settlement.approval, false)
      modifies store
      ensures store.Acted(me, acts) && SettlementActs([Act.BookSettlement] + acts, action, r.Ok?)
      ensures r.Ok? ==> !r.value.replayed && SettledResult(store, aid, action, r.value)
      ensures Unteachable(action, record) ==> r.Err? && |acts| <= 1
      ensures store.alone && Fresh(old(store.Rows()), aid, record.requestId, from)
              && (Allows(action) ==> record.scope.expiresAt > old(store.now)) ==>
        && (r.Ok? <==> !Unteachable(action, record))
        && (r.Err? ==> && |acts| == 1 && LeaseLeft(store.leases, aid, acts[0])
                       && store.requests == old(store.requests) && store.memories == old(store.memories))
    {
      acts := [];
      ghost var first := store.run;
      ContinuesReflexive(first);
      var result := SettleResult(settlement.approval, SettledStatus(action), None, None, false);
      if settlement.allowed {
        var given: Result<(Id, Option<Id>)>;
        given, acts := Give(aid, action, settlement, record, me);
        SettlementOf(acts, action, given.Ok?);
        if given.Err? { return Err(given.code), acts; }
        KnownLater(first, store.run, aid);
        result := result.(leaseId := Some(given.value.0), memoryId := given.value.1);
      }
      SettlementOf(acts, action, true);
      ghost var mid := store.run;
      var advanced := AdvanceSettled(aid, record.requestId, from, action, me);
      ContinuesTransitive(first, mid, store.run);
      KnownLater(first, store.run, aid);
      if advanced.Err? { return Err(advanced.code), acts; }
      if settlement.allowed { LeaseForLater(mid, store.run, aid, result.leaseId); }
      Rebracket(Own(first.acts, me), acts, [Act.AdvanceSettled]);
      Rebracket([Act.BookSettlement], acts, [Act.AdvanceSettled]);
      return Ok(result), acts + [Act.AdvanceSettled];
    }

    /** recordSettlement: the person's answer reaches the ledger before it has any consequence. */
    method Book(aid: Id, action: Action, ghost me: Tid) returns (r: Result<()>)
      requires store.Valid() && Thr(store.Cur(), me).pc.Won? && Known(store.Cur(), aid)
      requires Thr(store.Cur(), me).pc.approvalId == aid && Thr(store.Cur(), me).pc.action == action
      modifies store
      ensures store.Acted(me, if r.Ok? then [Act.BookSettlement] else [])
      ensures r.Ok? ==>
        Thr(store.Cur(), me) ==
        Thread(Booked(aid, action, Thr(old(store.Cur()), me).pc.from, store.now), Thr(old(store.Cur()), me).meter)
      ensures store.alone ==> r.Ok? && store.Rows() == old(store.Rows()).(ledger := store.ledger)
    {
      ghost var first := store.run;
      store.Yield(me);
      ghost var mid := store.run;
      KnownLater(first, mid, aid);
      ghost var next := BookBacked(store.Cur(), me);
      var did := store.approvals[aid].decisionId;
      var event := if Allows(action) then UserAllowedEvent(aid, did) else DeniedEvent(did, aid);
      r := store.Write(event, me, Act.BookSettlement, next);
      if r.Ok? { ContinuesTransitive(first, mid, store.run); }
    }

    /** grant and learn: one lease with the limit the consent is worth, then at most one memory. What
        cannot be remembered as it was approved fails here, with the lease already out. */
    method Give(aid: Id, action: Action, settlement: Settlement, record: Decision, ghost me: Tid)
      returns (r: Result<(Id, Option<Id>)>, ghost acts: seq<Act>)
      requires Wired() && store.Valid() && Thr(store.Cur(), me).pc.Booked?
      requires Thr(store.Cur(), me).pc.since <= store.now
      requires Thr(store.Cur(), me).pc.approvalId == aid && Thr(store.Cur(), me).pc.action == action
      requires aid != "" && Allows(action) && Known(store.Cur(), aid) && DecisionFor(store.Cur(), aid) == record
      requires Validates(record.scope) && settlement == Consequence(action, settlement.approval, false)
      modifies store
      ensures store.Acted(me, acts)
      ensures GiveActs(acts, action, r.Ok?)
      ensures acts != [] ==> LeaseLeft(store.leases, aid, acts[0])
      ensures Unteachable(action, record) ==> r.Err? && |acts| <= 1
      ensures r.Ok? ==>
        && LeaseFor(store.leases, aid, Some(r.value.0))
        && Settles(Thr(store.Cur(), me).pc) && Thr(store.Cur(), me).pc.approvalId == aid
        && Thr(store.Cur(), me).pc.action == action && Thr(store.Cur(), me).pc.from == Thr(old(store.Cur()), me).pc.from
      ensures store.alone && record.scope.expiresAt > old(store.now)
              && NoLeaseOn(old(store.leases), aid) && NoMemoryFrom(old(store.memories), aid) ==>
        && (r.Ok? <==> !Unteachable(action, record))
        && (r.Err? ==> |acts| == 1 && store.memories == old(store.memories))
        && store.Rows() == old(store.Rows()).(leases := store.leases, memories := store.memories)
    {
      acts := [];
      ghost var first := store.run;
      var issued: Result<Id>;
      ghost var issue: Act;
      issued, issue := IssueGranted(aid, action, settlement, record, me);
      if issued.Err? { return Err(issued.code), acts; }
      KnownLater(first, store.run, aid);
      ghost var mid := store.run;
      var learned: Result<Option<Id>>;
      ghost var more: seq<Act>;
      learned, more := Remember(aid, action, settlement, record, me);
      ContinuesTransitive(first, mid, store.run);
      LeaseForLater(mid, store.run, aid, Some(issued.value));
      Rebracket(Own(first.acts, me), [issue], more);
      acts := [issue] + more;
      if learned.Err? { return Err(learned.code), acts; }
      return Ok((issued.value, learned.value)), acts;
    }

    /** learn: the decided scope, remembered as it was approved, if the answer asks for that. */
    method Remember(aid: Id, action: Action, settlement: Settlement, record: Decision, ghost me: Tid)
      returns (r: Result<Option<Id>>, ghost acts: seq<Act>)
      requires Wired() && store.Valid() && Thr(store.Cur(), me).pc.Issued?
      requires Thr(store.Cur(), me).pc.approvalId == aid && Thr(store.Cur(), me).pc.action == action
      requires aid != "" && Known(store.Cur(), aid) && DecisionFor(store.Cur(), aid) == record
      requires Validates(record.scope) && settlement == Consequence(action, settlement.approval, false)
      modifies store
      ensures store.Acted(me, acts)
      ensures if r.Ok? && LearnOf(action).Some? then |acts| == 1 && acts[0].Learn? else acts == []
      ensures Unteachable(action, record) ==> r.Err?
      ensures r.Ok? ==>
        && Settles(Thr(store.Cur(), me).pc) && Thr(store.Cur(), me).pc.approvalId == aid
        && Thr(store.Cur(), me).pc.action == action && Thr(store.Cur(), me).pc.from == Thr(old(store.Cur()), me).pc.from
      ensures store.alone && NoMemoryFrom(old(store.memories), aid) ==>
        && (r.Ok? <==> !Unteachable(action, record))
        && (r.Err? ==> store.memories == old(store.memories))
        && store.Rows() == old(store.Rows()).(memories := store.memories)
    {
      acts := [];
      ContinuesReflexive(store.run);
      if settlement.learn.None? { return Ok(None), acts; }
      LearnableAsApproved(record.scope, aid, record.riskLevel, settlement.learn.value);
      var learned: Result<Id>;
      learned, acts := memories.Generate(
        GenerateRequest(record.scope, record.scope, aid, record.riskLevel, settlement.learn.value, 0), me);
      r := if learned.Err? then Err(learned.code) else Ok(Some(learned.value));
    }

    /** The lease of a consent: the decided scope, with the limit the consent is worth. */
    method IssueGranted(aid: Id, action: Action, settlement: Settlement, record: Decision, ghost me: Tid)
      returns (r: Result<Id>, ghost act: Act)
      requires Wired() && store.Valid() && Thr(store.Cur(), me).pc.Booked?
      requires Thr(store.Cur(), me).pc.since <= store.now
      requires Thr(store.Cur(), me).pc.approvalId == aid && Thr(store.Cur(), me).pc.action == action
      requires aid != "" && Allows(action) && Known(store.Cur(), aid) && DecisionFor(store.Cur(), aid) == record
      requires settlement == Consequence(action, settlement.approval, false)
      modifies store
      ensures store.Acted(me, if r.Ok? then [act] else [])
      ensures r.Ok? ==>
        && act.IssueApproved? && act.lid == r.value
        && Thr(store.Cur(), me) == AfterIssue(Thr(old(store.Cur()), me), r.value)
        && Validates(GrantedScope(record.scope, action)) && r.value in store.leases
        && store.leases[r.value] ==
           LeaseRow(GrantedScope(record.scope, action), aid, record.memoryId, SessionBound(action))
      ensures store.alone ==>
        && (r.Ok? <==> Validates(GrantedScope(record.scope, action)) && record.scope.expiresAt > old(store.now)
                       && NoLeaseOn(old(store.leases), aid))
        && store.Rows() == old(store.Rows()).(leases := store.leases)
    {
      act := Act.DropMeter;
      var granted := if settlement.requestLimit > 0 then record.scope.(requestLimit := settlement.requestLimit)
                     else record.scope;
      r := leases.Issue(granted, aid, record.memoryId, settlement.sessionBound, me);
      if r.Ok? {
        ghost var at :| at < granted.expiresAt &&
          Own(store.run.acts, me) == Own(old(store.run.acts), me) + [IssueAct(aid, r.value, at)];
        act := IssueAct(aid, r.value, at);
      }
    }

    /** advance, for the request of a settled approval. */
    method AdvanceSettled(aid: Id, rid: Id, from: RequestStatus, action: Action, ghost me: Tid)
      returns (r: Result<Request>)
      requires store.Valid() && Settles(Thr(store.Cur(), me).pc) && Known(store.Cur(), aid)
      requires Thr(store.Cur(), me).pc.approvalId == aid && Thr(store.Cur(), me).pc.action == action
      requires Thr(store.Cur(), me).pc.from == from && DecisionFor(store.Cur(), aid).requestId == rid
      modifies store
      ensures store.Acted(me, if r.Ok? then [Act.AdvanceSettled] else [])
      ensures r.Ok? ==> rid in store.requests && store.requests[rid].status == SettledStatus(action)
      ensures store.alone ==>
        (r.Ok? <==> rid in old(store.requests) && old(store.requests)[rid].status == from)
    {
      ghost var first := store.run;
      store.Yield(me);
      ghost var mid := store.run;
      KnownLater(first, mid, aid);
      ghost var next := SettledBacked(store.Cur(), me);
      r := store.AdvanceRequest(rid, from, SettledStatus(action), me, Act.AdvanceSettled, next);
      if r.Ok? { ContinuesTransitive(first, mid, store.run); }
    }

    /** ClearTrustMemory: written down while the row can still be read, and only then deleted. */
    method ClearTrustMemory(id: Id, ghost me: Tid) returns (r: Result<()>, ghost acts: seq<Act>)
      requires Wired() && store.Valid()
      modifies store
      ensures store.Acted(me, acts)
      ensures r.Err? ==> acts in {[], [Act.BookClear(id)]}
      ensures r.Ok? ==>
        && acts == [Act.BookClear(id), Act.Delete(id)]
        && TrustClearedEvent(id) in store.ledger && id !in store.memories
      ensures store.alone ==>
        && (r.Ok? <==> id in old(store.memories))
        && store.Rows() == old(store.Rows()).(ledger := store.ledger, memories := store.memories)
        && store.memories == old(store.memories) - {id}
    {
      acts := [];
      ghost var first := store.run;
      store.Yield(me);
      var read := store.MemoryById(id);
      if read.Err? { return Err(read.code), acts; }
      ghost var mid := store.run;
      store.Yield(me);
      ContinuesTransitive(first, mid, store.run);
      mid := store.run;
      ghost var next := ClearBacked(store.Cur(), me, id);
      var wrote := store.Write(TrustClearedEvent(id), me, Act.BookClear(id), next);
      if wrote.Err? { return Err(wrote.code), acts; }
      ContinuesTransitive(first, mid, store.run);
      acts := [Act.BookClear(id)];
      assert store.ledger[|store.ledger| - 1] == TrustClearedEvent(id);
      mid := store.run;
      r := memories.Delete(id, me);
      ContinuesTransitive(first, mid, store.run);
      LaterEvolves(mid, store.run);
      LedgerKeeps(Last(mid).db, store.Rows(), TrustClearedEvent(id));
      Rebracket(Own(first.acts, me), acts, if r.Ok? then [Act.Delete(id)] else []);
      if r.Ok? { acts := acts + [Act.Delete(id)]; }
    }
  }
}
