/**
 Handle (internal/core/pipeline/pipeline.go), one repository call at a time, with whatever other
 threads do in between. The order of the calls is not a matter of style here: each statement must be
 the step the protocol allows at that point, so a pipeline that issued before writing the ledger would
 not verify.
 */
module Pipelines {
  import opened Results
  import opened Scopes
  import opened Tables
  import opened Protocol
  import opened Invariants
  import opened Stability
  import opened Guarantees
  import opened Stores
  import opened Leasing
  import opened Approving
  import opened Learning
  import opened Assembly
  import C = Catalogs
  import D = Decisions
  import I = Intents
  import M = Matcher
  import R = Risk

  datatype HandleResult = HandleResult(
    outcome: D.Outcome, status: RequestStatus, approvalId: Option<Id>, leaseId: Option<Id>)

  // ----- Steps of Handle -----

  lemma AssembleBacked(s: State, t: Tid, rid: Id, plan: Plan) returns (next: State)
    requires Thr(s, t).pc.Idle? && plan.scope.notBefore <= s.db.now && Justified(s, plan)
    requires rid in s.db.requests && Concerns(s.db.requests[rid], plan.scope, plan.factors)
    ensures Leads(s, t, Assemble(rid, plan), next) && next.db == s.db && next.h.lessons == s.h.lessons
    ensures Thr(next, t) == Thread(Assembled(rid, plan), Thr(s, t).meter)
  {
    next := DoAssemble(s, t, rid, plan);
    LeadsExactly(s, t, Assemble(rid, plan), next);
  }

  lemma FailClosedBacked(s: State, t: Tid, rid: Id, blocker: D.Blocker) returns (next: State)
    requires Thr(s, t).pc.Idle? && rid in s.db.requests
    ensures Leads(s, t, Act.FailClosed(rid, blocker), next) && next.h.lessons == s.h.lessons
    ensures next.db == Append(s.db, ErrorEvent(rid, blocker))
    ensures Thr(next, t) == Thread(Blocked(rid), Thr(s, t).meter)
  {
    LeadsExactly(s, t, Act.FailClosed(rid, blocker), DoFailClosed(s, t, rid, blocker));
    next := DoFailClosed(s, t, rid, blocker);
  }

  lemma DecisionBacked(s: State, t: Tid, did: Id, at: Instant) returns (next: State)
    requires Thr(s, t).pc.Assembled? && Thr(s, t).pc.plan.scope.notBefore <= at <= s.db.now
    ensures var pc := Thr(s, t).pc;
      var effect := InsertDecision(s.db, did, DecisionRow(pc.requestId, pc.plan, at));
      effect.Some? ==>
        && Leads(s, t, RecordDecision(did, at), next) && next.db == effect.value && next.h.lessons == s.h.lessons
        && Thr(next, t) == Thread(Decided(pc.requestId, did, pc.plan.outcome), Thr(s, t).meter)
  {
    next := s;
    if CanRecordDecision(s, t, did, at) {
      LeadsExactly(s, t, Act.RecordDecision(did, at), DoRecordDecision(s, t, did, at));
      next := DoRecordDecision(s, t, did, at);
    }
  }

  lemma VerdictBacked(s: State, t: Tid) returns (next: State)
    requires Thr(s, t).pc.Decided?
    ensures Leads(s, t, NoteVerdict, next) && next.h.lessons == s.h.lessons
    ensures var pc := Thr(s, t).pc;
      && next.db == Append(s.db, VerdictEvent(pc))
      && Thr(next, t) == Thread(Noted(pc.requestId, pc.decisionId, pc.outcome, s.db.now), Thr(s, t).meter)
  {
    LeadsExactly(s, t, Act.NoteVerdict, DoNoteVerdict(s, t));
    next := DoNoteVerdict(s, t);
  }

  lemma ReuseBacked(s: State, t: Tid) returns (next: State)
    requires AutoPc(Thr(s, t).pc) && Thr(s, t).pc.outcome.matchedLeaseId != ""
    requires Thr(s, t).pc.outcome.matchedLeaseId in s.db.leases
    ensures Leads(s, t, Act.ReuseLease, next) && next.db == s.db && next.h.lessons == s.h.lessons
    ensures Thr(next, t) == AfterIssue(Thr(s, t), Thr(s, t).pc.outcome.matchedLeaseId)
  {
    LeadsExactly(s, t, Act.ReuseLease, DoReuseLease(s, t));
    next := DoReuseLease(s, t);
  }

  function Concluded(th: Thread): Thread {
    Thread(if th.pc.Holding? then Passed(th.pc.requestId, th.pc.decisionId, th.pc.leaseId) else Idle, th.meter)
  }

  lemma AdvanceBacked(s: State, t: Tid) returns (next: State)
    requires Concludes(Thr(s, t).pc)
    ensures var pc := Thr(s, t).pc;
      var effect := UpdateRequestStatus(s.db, pc.requestId, Received, VerdictTarget(pc));
      effect.Some? ==>
        && Leads(s, t, AdvanceVerdict, next) && next.db == effect.value && next.h.lessons == s.h.lessons
        && Thr(next, t) == Concluded(Thr(s, t))
  {
    next := s;
    if CanAdvanceVerdict(s, t) {
      LeadsExactly(s, t, Act.AdvanceVerdict, DoAdvanceVerdict(s, t));
      next := DoAdvanceVerdict(s, t);
    }
  }

  lemma RequestLater(a: Run, b: Run, rid: Id)
    requires Legal(a) && Legal(b) && Continues(a, b) && rid in Last(a).db.requests
    ensures rid in Last(b).db.requests
  {
    LaterEvolves(a, b);
  }

  /** A stored request goes on asking for what it asked for. */
  lemma AsksForLater(a: Run, b: Run, rid: Id, asked: Request)
    requires Legal(a) && Legal(b) && Continues(a, b)
    requires rid in Last(a).db.requests && AsksFor(Last(a).db.requests[rid], asked)
    ensures rid in Last(b).db.requests && AsksFor(Last(b).db.requests[rid], asked)
  {
    LaterEvolves(a, b);
    assert RequestEvolves(Last(a).db.requests[rid], Last(b).db.requests[rid]);
  }

  /** What a thread may conclude from where it stands. */
  lemma Standing(store: Store, t: Tid)
    requires store.Valid()
    ensures PcOk(store.Cur(), t, Thr(store.Cur(), t).pc) && MeterOk(store.Cur(), t, Thr(store.Cur(), t).meter)
  {
    RunInv(store.run, |store.run.acts|);
    InvThread(store.Cur(), t);
  }

  /** At most one approval or one lease. */
  predicate OneEffect(acts: seq<Act>) {
    |acts| <= 1
    && (acts != [] ==> acts[0].OpenApproval? || acts[0].FindApproval? || acts[0].IssueAuto? || acts[0].ReuseLease?)
  }

  /** How far conclude got: decision, ledger, effect, advance, in this order. */
  predicate ConcludeActs(acts: seq<Act>, done: bool) {
    if done then
      && |acts| >= 3 && acts[0].RecordDecision? && acts[1] == NoteVerdict
      && OneEffect(acts[2..|acts| - 1]) && acts[|acts| - 1] == AdvanceVerdict
    else
      && (|acts| > 0 ==> acts[0].RecordDecision?)
      && (|acts| > 1 ==> acts[1] == NoteVerdict && OneEffect(acts[2..]))
  }

  /** The two paths of Handle. */
  ghost predicate HandleActs(acts: seq<Act>, rid: Id, r: Result<HandleResult>) {
    || (r.Err? && acts == [])
    || (&& acts != [] && acts[0].FailClosed? && acts[0].rid == rid
        && (if r.Ok? then acts[1..] == [AdvanceVerdict] && r.value.outcome == D.FailClosedOutcome(acts[0].blocker)
            else acts[1..] == []))
    || (&& acts != [] && acts[0].Assemble? && acts[0].rid == rid && ConcludeActs(acts[1..], r.Ok?)
        && (r.Ok? ==> r.value.outcome == acts[0].plan.outcome && TakesEffect(acts[1..][2..|acts| - 2], r.value)))
  }

  lemma HandleShape(head: Act, rest: seq<Act>, rid: Id, r: Result<HandleResult>)
    requires head.Assemble? && head.rid == rid && ConcludeActs(rest, r.Ok?)
    requires r.Ok? ==> r.value.outcome == head.plan.outcome && TakesEffect(rest[2..|rest| - 1], r.value)
    ensures HandleActs([head] + rest, rid, r)
  {
    assert ([head] + rest)[1..] == rest;
  }

  predicate ProceedActs(acts: seq<Act>, done: bool) {
    if done then
      |acts| >= 2 && acts[0] == NoteVerdict && OneEffect(acts[1..|acts| - 1]) && acts[|acts| - 1] == AdvanceVerdict
    else acts == [] || (acts[0] == NoteVerdict && OneEffect(acts[1..]))
  }

  lemma ProceedIsTail(head: Act, rest: seq<Act>, r: Result<HandleResult>)
    requires head.RecordDecision? && ProceedActs(rest, r.Ok?)
    requires r.Ok? ==> TakesEffect(rest[1..|rest| - 1], r.value)
    ensures var acts := [head] + rest;
      ConcludeActs(acts, r.Ok?) && (r.Ok? ==> TakesEffect(acts[2..|acts| - 1], r.value))
  {
    var acts := [head] + rest;
    if r.Ok? { assert acts[2..|acts| - 1] == rest[1..|rest| - 1]; }
    else if rest != [] { assert acts[2..] == rest[1..]; }
  }

  lemma EffectIsTail(effect: seq<Act>)
    requires OneEffect(effect)
    ensures ProceedActs([NoteVerdict] + effect, false)
    ensures ProceedActs([NoteVerdict] + effect + [AdvanceVerdict], true)
    ensures ([NoteVerdict] + effect + [AdvanceVerdict])[1..|effect| + 1] == effect
  {
    assert ([NoteVerdict] + effect)[1..] == effect;
    assert ([NoteVerdict] + effect + [AdvanceVerdict])[1..|effect| + 1] == effect;
  }

  /** The effect a verdict had, and what was returned of it. */
  predicate TakesEffect(effect: seq<Act>, r: HandleResult) {
    match r.outcome.verdict
    case Deny => effect == [] && r.status == RequestStatus.Denied && r.approvalId.None? && r.leaseId.None?
    case RequireApproval =>
      && |effect| == 1 && r.status == AwaitingApproval && r.leaseId.None? && r.approvalId.Some?
      && (effect[0] == FindApproval(r.approvalId.value)
          || (effect[0].OpenApproval? && effect[0].aid == r.approvalId.value))
    case AutoAllow =>
      && |effect| == 1 && r.status == RequestStatus.AutoAllowed && r.approvalId.None? && r.leaseId.Some?
      && (if r.outcome.matchedLeaseId != "" then effect[0].ReuseLease? && r.leaseId == Some(r.outcome.matchedLeaseId)
          else effect[0].IssueAuto? && effect[0].lid == r.leaseId.value)
  }

  /** An allowed request may go out: the ledger has the verdict, the lease covers what was decided. */
  ghost predicate MayRun(store: Store, t: Tid, rid: Id, scope: Scope, lid: Id)
    requires store.Valid()
    reads store
  {
    var pc := Thr(store.Cur(), t).pc;
    && pc.Passed? && pc.requestId == rid && pc.leaseId == lid
    && pc.decisionId in store.decisions && store.decisions[pc.decisionId].scope == scope
    && AutoAllowedEvent(pc.decisionId) in store.ledger
    && lid in store.leases && CoversIgnoringWindow(store.leases[lid].scope, scope)
  }

  lemma RowLater(a: Run, b: Run, did: Id)
    requires Legal(a) && Legal(b) && Continues(a, b) && did in Last(a).db.decisions
    ensures did in Last(b).db.decisions && Last(b).db.decisions[did] == Last(a).db.decisions[did]
  {
    LaterEvolves(a, b);
  }

  // ----- What a sequential Handle depends on -----

  /** Nothing was decided about this request. */
  ghost predicate Undecided(decisions: map<Id, Decision>, rid: Id) {
    forall d :: d in decisions ==> decisions[d].requestId != rid
  }

  predicate InStatus(requests: map<Id, Request>, rid: Id, status: RequestStatus) {
    rid in requests && requests[rid].status == status
  }

  /** The lease an automatic allow needs is there, or can be issued. */
  ghost predicate Workable(leases: map<Id, Lease>, now: Instant, scope: Scope, o: D.Outcome) {
    o.verdict == D.AutoAllow ==>
      if o.matchedLeaseId != "" then o.matchedLeaseId in leases else Validates(scope) && scope.expiresAt > now
  }

  /** What an outcome does to the leases: one more for an allow without a standing one, else nothing. */
  ghost predicate LeasesAfter(
    before: map<Id, Lease>, after: map<Id, Lease>, scope: Scope, o: D.Outcome, lid: Option<Id>)
  {
    if o.verdict != D.AutoAllow then after == before
    else if o.matchedLeaseId != "" then lid == Some(o.matchedLeaseId) && after == before
    else
      && lid.Some? && Validates(scope)
      && after == before[lid.value := LeaseRow(scope, "", o.matchedMemoryId, false)]
  }

  function ActiveIds(leases: map<Id, Lease>): set<Id> {
    set l | l in leases && leases[l].status == Active
  }

  function InputIn(r: Resolved): Option<D.Input> {
    if r.Ready? then Some(r.input) else None
  }

  /** A plan the protocol may act on can be carried out at the moment its scope was made for. */
  lemma JustifiedIsWorkable(s: State, plan: Plan)
    requires Justified(s, plan) && plan.scope.notBefore == s.db.now
    ensures Workable(s.db.leases, s.db.now, plan.scope, plan.outcome)
  {
  }

  /** What a decision went by: the inputs, the decision input if it came that far, the memories and the
      leases that were read. */
  datatype Grounds = Grounds(
    inputs: Inputs, basis: Option<D.Input>, read: seq<Item<Memory>>, listed: seq<Item<Lease>>)

  /** A sequential resolve: it read the memories that speak to the request and every standing lease,
      and stops exactly when a stage fails on them. */
  ghost predicate Resolves(on: Grounds, mode: D.Mode, db: Db) {
    var understood := C.ResolvedCall(on.inputs.catalog, on.inputs.call, on.inputs.named);
    && (on.basis.None? <==> Hindrance(on.inputs, on.read, db.now).Some?)
    && (understood.Ok? ==>
          var asker, service := on.inputs.request, understood.value.service;
          && Recalled(on.read, db.memories, asker.agentId, asker.workspaceId, service, db.now)
          && (on.basis.Some? ==>
                && InputFor(on.inputs, mode, on.basis.value, on.read, db.now)
                && Lists(on.listed, db.leases, ActiveIds(db.leases))
                && on.basis.value.active == StandingOf(on.listed, asker.agentId, service, db.now)))
  }

  /** The decision, or the denial for what stands in its way. */
  ghost function OutcomeOn(on: Grounds, now: Instant): D.Outcome {
    if on.basis.Some? then D.Decide(on.basis.value)
    else
      var hindered := Hindrance(on.inputs, on.read, now);
      D.FailClosedOutcome(if hindered.Some? then hindered.value else D.PolicyEngineFailure)
  }

  ghost predicate LeasesLeft(before: map<Id, Lease>, after: map<Id, Lease>, on: Grounds, r: HandleResult) {
    if on.basis.Some? then LeasesAfter(before, after, on.basis.value.scope, r.outcome, r.leaseId)
    else after == before
  }

  class Pipeline {
    const store: Store
    const leases: LeaseManager
    const approvals: ApprovalManager
    const memories: TrustManager
    const mode: D.Mode

    ghost predicate Wired() {
      leases.store == store && approvals.store == store && memories.store == store
    }

    constructor (store: Store, timeout: nat, mode: D.Mode)
      ensures this.store == store && Wired() && this.mode == mode
    {
      this.store := store;
      leases := new LeaseManager(store);
      approvals := new ApprovalManager(store, timeout);
      memories := new TrustManager(store);
      this.mode := mode;
    }

    /** advance, for the verdict of this thread. */
    method Advance(rid: Id, to: RequestStatus, ghost me: Tid) returns (r: Result<Request>)
      requires store.Valid() && Concludes(Thr(store.Cur(), me).pc)
      requires rid == Thr(store.Cur(), me).pc.requestId && to == VerdictTarget(Thr(store.Cur(), me).pc)
      modifies store
      ensures store.Acted(me, if r.Ok? then [AdvanceVerdict] else [])
      ensures r.Ok? ==> rid in store.requests && r.value.status == to == store.requests[rid].status
      ensures Thr(store.Cur(), me) ==
        (if r.Ok? then Concluded(Thr(old(store.Cur()), me)) else Thr(old(store.Cur()), me))
      ensures store.alone ==>
        && (r.Ok? <==> InStatus(old(store.requests), rid, Received))
        && store.Rows() == old(store.Rows()).(requests := store.requests)
    {
      ghost var first := store.run;
      store.Yield(me);
      ghost var mid := store.run;
      ghost var next := AdvanceBacked(store.Cur(), me);
      r := store.AdvanceRequest(rid, Received, to, me, AdvanceVerdict, next);
      if r.Ok? { ContinuesTransitive(first, mid, store.run); }
    }

    /** failClosed: the ledger first, then the status; no decision row is written. */
    method FailClosed(rid: Id, blocker: D.Blocker, ghost me: Tid)
      returns (r: Result<HandleResult>, ghost acts: seq<Act>)
      requires store.Valid() && Thr(store.Cur(), me).pc.Idle? && rid in store.requests
      modifies store
      ensures store.Acted(me, acts)
      ensures Thr(store.Cur(), me).meter == Thr(old(store.Cur()), me).meter
      ensures r.Err? ==> acts in {[], [Act.FailClosed(rid, blocker)]}
      ensures r.Ok? ==>
        && acts == [Act.FailClosed(rid, blocker), AdvanceVerdict]
        && r.value == HandleResult(D.FailClosedOutcome(blocker), RequestStatus.Denied, None, None)
        && Thr(store.Cur(), me).pc == Idle
        && rid in store.requests && store.requests[rid].status == RequestStatus.Denied
      ensures store.alone ==>
        && (r.Ok? <==> InStatus(old(store.requests), rid, Received))
        && store.Rows() == old(store.Rows()).(requests := store.requests, ledger := store.ledger)
    {
      acts := [];
      ghost var first := store.run;
      store.Yield(me);
      RequestLater(first, store.run, rid);
      ghost var mid := store.run;
      ghost var next := FailClosedBacked(store.Cur(), me, rid, blocker);
      var wrote := store.Write(ErrorEvent(rid, blocker), me, Act.FailClosed(rid, blocker), next);
      if wrote.Err? { return Err(wrote.code), acts; }
      ContinuesTransitive(first, mid, store.run);
      acts := [Act.FailClosed(rid, blocker)];
      mid := store.run;
      var advanced := Advance(rid, RequestStatus.Denied, me);
      ContinuesTransitive(first, mid, store.run);
      if advanced.Err? { return Err(advanced.code), acts; }
      return Ok(HandleResult(D.FailClosedOutcome(blocker), RequestStatus.Denied, None, None)), acts + [AdvanceVerdict];
    }

    /** recordDecision. */
    method RecordDecision(rid: Id, plan: Plan, ghost me: Tid) returns (r: Result<Id>, ghost at: Instant)
      requires store.Valid() && Thr(store.Cur(), me).pc == Assembled(rid, plan)
      requires plan.scope.notBefore <= store.now
      modifies store
      ensures store.Acted(me, if r.Ok? then [Act.RecordDecision(r.value, at)] else [])
      ensures Thr(store.Cur(), me).meter == Thr(old(store.Cur()), me).meter
      ensures r.Ok? ==>
        && r.value != "" && r.value in store.decisions && store.decisions[r.value] == DecisionRow(rid, plan, at)
        && Thr(store.Cur(), me) == Thread(Decided(rid, r.value, plan.outcome), Thr(old(store.Cur()), me).meter)
      ensures store.alone ==>
        && (r.Ok? <==> Undecided(old(store.decisions), rid))
        && store.Rows() == old(store.Rows()).(decisions := store.decisions)
    {
      ghost var first := store.run;
      ContinuesReflexive(first);
      var did := store.NewId();
      var now := store.now;
      at := now;
      store.Yield(me);
      ghost var mid := store.run;
      ghost var next := DecisionBacked(store.Cur(), me, did, at);
      var done := store.CreateDecision(did, DecisionRow(rid, plan, now), me, Act.RecordDecision(did, at), next);
      if done.Err? { return Err(done.code), at; }
      ContinuesTransitive(first, mid, store.run);
      return Ok(did), at;
    }

    /** write: the verdict reaches the ledger before anything else happens. */
    method WriteVerdict(outcome: D.Outcome, did: Id, ghost me: Tid) returns (r: Result<()>)
      requires store.Valid() && Thr(store.Cur(), me).pc.Decided?
      requires Thr(store.Cur(), me).pc.decisionId == did && Thr(store.Cur(), me).pc.outcome == outcome
      modifies store
      ensures store.Acted(me, if r.Ok? then [NoteVerdict] else [])
      ensures Thr(store.Cur(), me).meter == Thr(old(store.Cur()), me).meter
      ensures r.Ok? ==>
        && Thr(store.Cur(), me) ==
           Thread(Noted(Thr(old(store.Cur()), me).pc.requestId, did, outcome, store.now),
                  Thr(old(store.Cur()), me).meter)
        && (if outcome.verdict == D.AutoAllow then AutoAllowedEvent(did) else DeniedEvent(did, "")) in store.ledger
      ensures store.alone ==> r.Ok? && store.Rows() == old(store.Rows()).(ledger := store.ledger)
    {
      ghost var first := store.run;
      store.Yield(me);
      ghost var mid := store.run;
      ghost var next := VerdictBacked(store.Cur(), me);
      var event := if outcome.verdict == D.AutoAllow then AutoAllowedEvent(did) else DeniedEvent(did, "");
      r := store.Write(event, me, NoteVerdict, next);
      if r.Ok? {
        ContinuesTransitive(first, mid, store.run);
        assert store.ledger[|store.ledger| - 1] == event;
      }
    }

    /** issue, after the ledger: a standing lease is reused, otherwise exactly one is issued. */
    method Issue(outcome: D.Outcome, did: Id, scope: Scope, memoryId: Id, ghost me: Tid)
      returns (r: Result<Id>, ghost act: Act)
      requires Wired() && store.Valid() && AutoPc(Thr(store.Cur(), me).pc)
      requires Thr(store.Cur(), me).pc.decisionId == did && Thr(store.Cur(), me).pc.outcome == outcome
      requires Thr(store.Cur(), me).pc.since <= store.now && did in store.decisions
      requires memoryId == outcome.matchedMemoryId
      requires scope == store.decisions[did].scope && memoryId == store.decisions[did].memoryId
      modifies store
      ensures store.Acted(me, if r.Ok? then [act] else [])
      ensures Thr(store.Cur(), me).meter == Thr(old(store.Cur()), me).meter
      ensures r.Ok? ==>
        && r.value in store.leases && Thr(store.Cur(), me) == AfterIssue(Thr(old(store.Cur()), me), r.value)
        && (if outcome.matchedLeaseId != "" then act == Act.ReuseLease && r.value == outcome.matchedLeaseId
            else && Validates(scope) && store.leases[r.value] == LeaseRow(scope, "", memoryId, false)
                 && act.IssueAuto? && act.lid == r.value)
      ensures store.alone ==>
        && (r.Ok? <==> Workable(old(store.leases), old(store.now), scope, outcome))
        && (r.Ok? ==> LeasesAfter(old(store.leases), store.leases, scope, outcome, Some(r.value)))
        && store.Rows() == old(store.Rows()).(leases := store.leases)
    {
      act := Act.ReuseLease;
      ghost var first := store.run;
      ContinuesReflexive(first);
      if outcome.matchedLeaseId != "" {
        store.Yield(me);
        var reused := store.LeaseById(outcome.matchedLeaseId);
        if reused.Err? { return Err(reused.code), act; }
        ghost var mid := store.run;
        ghost var next := ReuseBacked(store.Cur(), me);
        store.Note(me, Act.ReuseLease, next);
        ContinuesTransitive(first, mid, store.run);
        return Ok(outcome.matchedLeaseId), act;
      }
      r := leases.Issue(scope, "", memoryId, false, me);
      if r.Ok? {
        ghost var at :| at < scope.expiresAt &&
          Own(store.run.acts, me) == Own(old(store.run.acts), me) + [IssueAct("", r.value, at)];
        act := IssueAct("", r.value, at);
      }
    }

    /** conclude: the decision row, then the ledger, and only then an approval or a lease. */
    method Conclude(rid: Id, plan: Plan, ghost me: Tid) returns (r: Result<HandleResult>, ghost acts: seq<Act>)
      requires Wired() && store.Valid() && Thr(store.Cur(), me).pc == Assembled(rid, plan)
      requires plan.scope.notBefore <= store.now
      modifies store
      ensures store.Acted(me, acts) && ConcludeActs(acts, r.Ok?)
      ensures Thr(store.Cur(), me).meter == Thr(old(store.Cur()), me).meter
      ensures r.Ok? ==>
        && r.value.outcome == plan.outcome && TakesEffect(acts[2..|acts| - 1], r.value)
        && (r.value.outcome.verdict == D.AutoAllow ==> MayRun(store, me, rid, plan.scope, r.value.leaseId.value))
        && rid in store.requests && store.requests[rid].status == r.value.status
      ensures store.alone ==>
        && (r.Ok? <==> && Undecided(old(store.decisions), rid) && InStatus(old(store.requests), rid, Received)
                       && Workable(old(store.leases), old(store.now), plan.scope, plan.outcome))
        && (r.Ok? ==> LeasesAfter(old(store.leases), store.leases, plan.scope, plan.outcome, r.value.leaseId))
        && store.now == old(store.now)
    {
      acts := [];
      ghost var first := store.run;
      var recorded: Result<Id>;
      ghost var at: Instant;
      recorded, at := RecordDecision(rid, plan, me);
      if recorded.Err? { return Err(recorded.code), acts; }
      acts := [Act.RecordDecision(recorded.value, at)];
      ghost var mid := store.run;
      assert Own(mid.acts, me) == Own(first.acts, me) + acts;
      ghost var rest: seq<Act>;
      r, rest := Proceed(rid, recorded.value, plan.scope, plan.outcome, me);
      ContinuesTransitive(first, mid, store.run);
      Rebracket(Own(first.acts, me), acts, rest);
      ProceedIsTail(acts[0], rest, r);
      acts := acts + rest;
    }

    /** From the ledger entry on. */
    method Proceed(rid: Id, did: Id, scope: Scope, outcome: D.Outcome, ghost me: Tid)
      returns (r: Result<HandleResult>, ghost acts: seq<Act>)
      requires Wired() && store.Valid() && Thr(store.Cur(), me).pc == Decided(rid, did, outcome)
      requires did in store.decisions && store.decisions[did].scope == scope
      requires store.decisions[did].memoryId == outcome.matchedMemoryId
      modifies store
      ensures store.Acted(me, acts)
      ensures ProceedActs(acts, r.Ok?)
      ensures Thr(store.Cur(), me).meter == Thr(old(store.Cur()), me).meter
      ensures r.Ok? ==>
        && TakesEffect(acts[1..|acts| - 1], r.value) && r.value.outcome == outcome
        && (outcome.verdict == D.AutoAllow ==> MayRun(store, me, rid, scope, r.value.leaseId.value))
        && rid in store.requests && store.requests[rid].status == r.value.status
      ensures store.alone && did != "" ==>
        && (r.Ok? <==> && Workable(old(store.leases), old(store.now), scope, outcome)
                       && InStatus(old(store.requests), rid, Received))
        && (r.Ok? ==> LeasesAfter(old(store.leases), store.leases, scope, outcome, r.value.leaseId))
        && store.now == old(store.now)
    {
      acts := [];
      ghost var first := store.run;
      var wrote := WriteVerdict(outcome, did, me);
      if wrote.Err? { return Err(wrote.code), acts; }
      RowLater(first, store.run, did);
      ghost var mid := store.run;
      var result: Result<HandleResult>;
      ghost var effect: seq<Act>;
      result, effect := Effect(rid, did, scope, outcome, me);
      ContinuesTransitive(first, mid, store.run);
      EffectIsTail(effect);
      Rebracket(Own(first.acts, me), [NoteVerdict], effect);
      acts := [NoteVerdict] + effect;
      if result.Err? { return Err(result.code), acts; }
      mid := store.run;
      RowLater(first, mid, did);
      var advanced := Advance(rid, result.value.status, me);
      ContinuesTransitive(first, mid, store.run);
      if advanced.Err? { return Err(advanced.code), acts; }
      RowLater(first, store.run, did);
      Standing(store, me);
      Rebracket(Own(first.acts, me), acts, [AdvanceVerdict]);
      return result, acts + [AdvanceVerdict];
    }

    /** The switch over the verdict. */
    method Effect(rid: Id, did: Id, scope: Scope, outcome: D.Outcome, ghost me: Tid)
      returns (r: Result<HandleResult>, ghost acts: seq<Act>)
      requires Wired() && store.Valid() && Thr(store.Cur(), me).pc == Noted(rid, did, outcome, store.now)
      requires did in store.decisions && store.decisions[did].scope == scope
      requires store.decisions[did].memoryId == outcome.matchedMemoryId
      modifies store
      ensures store.Acted(me, acts) && OneEffect(acts)
      ensures Thr(store.Cur(), me).meter == Thr(old(store.Cur()), me).meter
      ensures r.Err? ==> acts == []
      ensures r.Ok? ==>
        && TakesEffect(acts, r.value) && r.value.outcome == outcome
        && Concludes(Thr(store.Cur(), me).pc) && Thr(store.Cur(), me).pc.requestId == rid
        && VerdictTarget(Thr(store.Cur(), me).pc) == r.value.status
        && (outcome.verdict == D.AutoAllow ==> Thr(store.Cur(), me).pc == Holding(rid, did, r.value.leaseId.value))
      ensures store.alone && did != "" ==>
        && (r.Ok? <==> Workable(old(store.leases), old(store.now), scope, outcome))
        && (r.Ok? ==> LeasesAfter(old(store.leases), store.leases, scope, outcome, r.value.leaseId))
        && store.Rows() == old(store.Rows()).(approvals := store.approvals, leases := store.leases)
    {
      acts := [];
      ContinuesReflexive(store.run);
      match outcome.verdict {
        case Deny =>
          return Ok(HandleResult(outcome, RequestStatus.Denied, None, None)), acts;
        case RequireApproval =>
          var item: Result<Id>;
          item, acts := approvals.Open(did, me);
          if item.Err? { return Err(item.code), acts; }
          return Ok(HandleResult(outcome, AwaitingApproval, Some(item.value), None)), acts;
        case AutoAllow =>
          var issued: Result<Id>;
          ghost var act: Act;
          issued, act := Issue(outcome, did, scope, outcome.matchedMemoryId, me);
          if issued.Err? { return Err(issued.code), acts; }
          return Ok(HandleResult(outcome, RequestStatus.AutoAllowed, None, Some(issued.value))), [act];
      }
    }

    /** standing: the leases that are active, of this agent and service, and not past their expiry. */
    method StandingLeases(agent: Id, service: string, ghost me: Tid)
      returns (r: Result<seq<D.ActiveLease>>, ghost listed: seq<Item<Lease>>, ghost now: Instant)
      requires store.Valid()
      modifies store
      ensures store.Acted(me, []) && Thr(store.Cur(), me) == Thr(old(store.Cur()), me) && old(store.now) <= store.now
      ensures r.Ok? ==> r.value == StandingOf(listed, agent, service, now)
      ensures forall item :: item in listed ==> item.id in store.leases && store.leases[item.id] == item.row
      ensures store.alone ==>
        && r.Ok? && store.Rows() == old(store.Rows()) && now == old(store.now)
        && Lists(listed, old(store.leases), ActiveIds(old(store.leases)))
    {
      listed, now := [], ZERO_TIME;
      store.Yield(me);
      var active := store.ActiveLeases();
      if active.Err? { return Err(active.code), listed, now; }
      var at := store.now;
      var covering := ToStanding(active.value, agent, service, at);
      return Ok(covering), active.value, at;
    }

    /** resolve: memories, identity, scope, standing leases, risk; any failure becomes a blocker. On
        success the thread knows the decision input. Alone it stops exactly on the first stage that fails
        on what is stored. */
    method Resolve(inputs: Inputs, ghost me: Tid)
      returns (r: Resolved, ghost memories_: seq<Item<Memory>>, ghost listed: seq<Item<Lease>>, ghost at: Instant)
      requires Wired() && store.Valid() && Thr(store.Cur(), me).pc.Idle? && FromRequest(inputs)
      requires inputs.requestId in store.requests && AsksFor(store.requests[inputs.requestId], inputs.request)
      modifies store
      ensures store.Acted(me, if r.Ready? then [Assemble(inputs.requestId, PlanOf(r.input))] else [])
      ensures Thr(store.Cur(), me).meter == Thr(old(store.Cur()), me).meter
      ensures inputs.requestId in store.requests
      ensures r.Stopped? ==> Thr(store.Cur(), me) == Thr(old(store.Cur()), me)
      ensures C.ResolvedCall(inputs.catalog, inputs.call, inputs.named).Err? ==>
        r == Stopped(D.CapabilityNotOfferedBlocker)
      ensures r.Ready? ==>
        && InputFor(inputs, mode, r.input, memories_, at)
        && Concerns(inputs.request, r.input.scope, r.input.assessment.factors)
        && !r.input.found.ambiguous && r.input.scope.notBefore == at <= store.now
        && Thr(store.Cur(), me).pc == Assembled(inputs.requestId, PlanOf(r.input))
      ensures store.alone ==>
        && store.Rows() == old(store.Rows())
        && Resolves(Grounds(inputs, InputIn(r), memories_, listed), mode, old(store.Rows()))
        && (if r.Ready? then at == old(store.now) else Hindrance(inputs, memories_, store.now) == Some(r.blocker))
    {
      memories_, listed, at := [], [], ZERO_TIME;
      ghost var first := store.run;
      ContinuesReflexive(first);
      var understood := C.ResolveCall(inputs.catalog, inputs.call, inputs.named);
      if understood.Err? { return Stopped(D.CapabilityNotOfferedBlocker), memories_, listed, at; }
      var parsed := understood.value;
      var learned := memories.Match(inputs.request.agentId, inputs.request.workspaceId, parsed.service, me);
      ghost var recalled := store.run;
      AsksForLater(first, recalled, inputs.requestId, inputs.request);
      if learned.Err? { return Stopped(D.PolicyEngineFailure), memories_, listed, at; }
      memories_, at := learned.value, store.now;
      ghost var read: Instant;
      r, listed, read := Weigh(inputs, parsed, learned.value, me);
      ghost var mid := store.run;
      AsksForLater(recalled, mid, inputs.requestId, inputs.request);
      ContinuesTransitive(first, recalled, mid);
      assert Own(mid.acts, me) == Own(first.acts, me);
      if r.Stopped? { return; }
      Begin(inputs.requestId, r.input, memories_, listed, inputs.request.agentId, parsed.service, read, recalled, me);
      ContinuesTransitive(first, mid, store.run);
    }

    /** From the memories to the decision input; nothing is written. */
    method Weigh(inputs: Inputs, parsed: I.Intent, learned: seq<Item<Memory>>, ghost me: Tid)
      returns (r: Resolved, ghost listed: seq<Item<Lease>>, ghost read: Instant)
      requires Wired() && store.Valid() && FromRequest(inputs)
      requires C.ResolvedCall(inputs.catalog, inputs.call, inputs.named) == Ok(parsed)
      modifies store
      ensures store.Acted(me, []) && Thr(store.Cur(), me) == Thr(old(store.Cur()), me)
      ensures r.Ready? ==>
        && InputFor(inputs, mode, r.input, learned, old(store.now))
        && Concerns(inputs.request, r.input.scope, r.input.assessment.factors)
        && !r.input.found.ambiguous && I.Minimal(r.input.scope, r.input.ambiguous)
        && r.input.scope.notBefore == old(store.now) <= store.now
        && r.input.learned == GrantsOf(learned)
        && r.input.active == StandingOf(listed, inputs.request.agentId, parsed.service, read)
      ensures forall item :: item in listed ==> item.id in store.leases && store.leases[item.id] == item.row
      ensures store.alone ==>
        && store.Rows() == old(store.Rows())
        && LaterHindrance(inputs, parsed, learned, store.now) == (if r.Stopped? then Some(r.blocker) else None)
        && (r.Ready? ==> read == store.now && Lists(listed, store.leases, ActiveIds(store.leases)))
    {
      listed, read := [], ZERO_TIME;
      ContinuesReflexive(store.run);
      var now := store.now;
      var located := Locate(inputs, parsed, learned, now);
      if located.Lost? { return Stopped(located.blocker), listed, read; }
      var standing: Result<seq<D.ActiveLease>>;
      standing, listed, read := StandingLeases(inputs.request.agentId, parsed.service, me);
      if standing.Err? { return Stopped(D.PolicyEngineFailure), listed, read; }
      r := Complete(inputs, mode, parsed, learned, now, located, standing.value);
      if r.Stopped? { return; }
      AmbiguousFailsClosed(inputs, mode, r.input, learned, now);
      DecidedAsAsked(inputs, mode, r.input, learned, now);
    }

    /** The local step that fixes what the thread knows. */
    ghost method Begin(
      rid: Id, input: D.Input, read: seq<Item<Memory>>, listed: seq<Item<Lease>>, agent: Id, service: string,
      now: Instant, recalled: Run, me: Tid)
      requires store.Valid() && Thr(store.Cur(), me).pc.Idle?
      requires rid in store.requests && Concerns(store.requests[rid], input.scope, input.assessment.factors)
      requires I.Minimal(input.scope, input.ambiguous) && input.scope.notBefore <= store.now
      requires Legal(recalled) && Continues(recalled, store.run)
      requires forall item :: item in read ==> Remembered(Last(recalled), item)
      requires forall item :: item in listed ==> item.id in store.leases && store.leases[item.id] == item.row
      requires input.learned == GrantsOf(read) && input.active == StandingOf(listed, agent, service, now)
      modifies store`run
      ensures store.Acted(me, [Assemble(rid, PlanOf(input))])
      ensures Thr(store.Cur(), me) == Thread(Assembled(rid, PlanOf(input)), Thr(old(store.Cur()), me).meter)
    {
      LaterEvolves(recalled, store.run);
      EvolvesReflexive(store.Cur());
      RunInv(store.run, |store.run.acts|);
      InputFromReads(Last(recalled), store.Cur(), store.Cur(), input, read, listed, agent, service, now);
      DecisionIsJustified(store.Cur(), input);
      ghost var next := AssembleBacked(store.Cur(), me, rid, PlanOf(input));
      store.Note(me, Assemble(rid, PlanOf(input)), next);
    }

    /** Handle: whatever goes wrong before the decision is denied with a reason, whatever is decided
        is written down before it takes effect. What is decided is what the stored request asked for,
        and an identity that stays ambiguous never gets a lease. Alone it fails only on a request that
        is no longer as received or was decided before, and otherwise its outcome is the decision on
        what is stored, or the first hindrance. */
    method Handle(inputs: Inputs, ghost me: Tid)
      returns (r: Result<HandleResult>, ghost acts: seq<Act>, ghost on: Grounds)
      requires Wired() && store.Valid() && Thr(store.Cur(), me).pc.Idle? && FromRequest(inputs)
      requires inputs.requestId in store.requests && AsksFor(store.requests[inputs.requestId], inputs.request)
      modifies store
      ensures store.Acted(me, acts) && on.inputs == inputs
      ensures inputs.requestId == "" || inputs.operationId == "" ==> r == Err(InvalidRequest) && acts == []
      ensures HandleActs(acts, inputs.requestId, r)
      ensures Thr(store.Cur(), me).meter == Thr(old(store.Cur()), me).meter
      ensures acts != [] && acts[0].Assemble? ==>
        && on.basis.Some? && acts[0].plan == PlanOf(on.basis.value) && !on.basis.value.found.ambiguous
        && Concerns(inputs.request, acts[0].plan.scope, acts[0].plan.factors)
      ensures r.Ok? && r.value.outcome.verdict == D.AutoAllow ==>
        && acts[0].Assemble? && MayRun(store, me, inputs.requestId, acts[0].plan.scope, r.value.leaseId.value)
      ensures r.Ok? ==>
        inputs.requestId in store.requests && store.requests[inputs.requestId].status == r.value.status
      ensures store.alone && inputs.requestId != "" && inputs.operationId != "" ==>
        && Resolves(on, mode, old(store.Rows())) && store.now == old(store.now)
        && (r.Ok? <==> && InStatus(old(store.requests), inputs.requestId, Received)
                       && (on.basis.Some? ==> Undecided(old(store.decisions), inputs.requestId)))
        && (r.Ok? ==>
              && r.value.outcome == OutcomeOn(on, store.now)
              && LeasesLeft(old(store.leases), store.leases, on, r.value))
    {
      acts, on := [], Grounds(inputs, None, [], []);
      ghost var first := store.run;
      ContinuesReflexive(first);
      if inputs.requestId == "" || inputs.operationId == "" { return Err(InvalidRequest), acts, on; }
      var resolved: Resolved;
      ghost var read: seq<Item<Memory>>, listed: seq<Item<Lease>>, at: Instant;
      resolved, read, listed, at := Resolve(inputs, me);
      on := Grounds(inputs, InputIn(resolved), read, listed);
      ghost var mid := store.run;
      if resolved.Stopped? {
        r, acts := FailClosed(inputs.requestId, resolved.blocker, me);
        ContinuesTransitive(first, mid, store.run);
        return;
      }
      var plan := PlanOf(resolved.input);
      Standing(store, me);
      if store.alone { JustifiedIsWorkable(store.Cur(), plan); }
      ghost var rest: seq<Act>;
      r, rest := Conclude(inputs.requestId, plan, me);
      ContinuesTransitive(first, mid, store.run);
      acts := [Assemble(inputs.requestId, plan)] + rest;
      Rebracket(Own(first.acts, me), [acts[0]], rest);
      HandleShape(acts[0], rest, inputs.requestId, r);
    }
  }
}
