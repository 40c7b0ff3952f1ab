/**
 Every condition of the invariant survives the steps that do not touch its own row, so that an act
 has to re-establish only what it writes.
 */
module Stability {
  import opened Results
  import opened Scopes
  import opened Tables
  import opened Protocol
  import opened Invariants
  import D = Decisions
  import I = Intents
  import R = Risk

  // ----- Reading the invariant -----

  lemma InvTables(s: State)
    requires Inv(s)
    ensures TablesOk(s)
  {
    assert InvFor(s, 0);
  }

  lemma InvThread(s: State, t: Tid)
    requires Inv(s)
    ensures PcOk(s, t, Thr(s, t).pc) && MeterOk(s, t, Thr(s, t).meter)
  {
    assert InvFor(s, t);
  }

  lemma InvRequest(s: State, rid: Id)
    requires Inv(s) && rid in s.db.requests
    ensures RequestOk(s, rid)
  {
    InvTables(s);
  }

  lemma InvDecision(s: State, did: Id)
    requires Inv(s) && did in s.db.decisions
    ensures DecisionOk(s, did)
  {
    InvTables(s);
  }

  lemma InvApproval(s: State, aid: Id)
    requires Inv(s) && aid in s.db.approvals
    ensures ApprovalOk(s, aid)
  {
    InvTables(s);
  }

  lemma InvLease(s: State, lid: Id)
    requires Inv(s) && lid in s.db.leases
    ensures LeaseOk(s, lid) && MeteredOk(s, lid)
  {
    InvTables(s);
  }

  ghost predicate MetersOk(s: State) {
    forall x :: x in s.db.leases ==> MeteredOk(s, x)
  }

  lemma InvMeters(s: State)
    requires Inv(s)
    ensures MetersOk(s)
  {
    InvTables(s);
  }

  lemma InvUses(s: State)
    requires Inv(s)
    ensures forall k :: 0 <= k < |s.h.uses| ==> UseOk(s, k)
    ensures forall k :: 0 <= k < |s.h.sends| ==> SendOk(s, k)
  {
    InvTables(s);
  }

  lemma InvLedger(s: State)
    requires Inv(s)
    ensures LedgerOk(s)
  {
    InvTables(s);
  }

  lemma InvIndexes(s: State)
    requires Inv(s)
    ensures forall x :: x in s.h.decisionOf ==> DecisionIndexOk(s, x)
    ensures forall x :: x in s.h.leaseOf ==> LeaseIndexOk(s, x)
    ensures s.h.origin.Keys <= s.db.leases.Keys && s.h.winner.Keys <= s.db.approvals.Keys
  {
    InvTables(s);
  }

  // ----- Evolution is a preorder -----

  lemma EvolvesReflexive(a: State)
    ensures Evolves(a, a)
  {
  }

  lemma SubmapTransitive<K, V>(a: map<K, V>, b: map<K, V>, c: map<K, V>)
    requires Submap(a, b) && Submap(b, c)
    ensures Submap(a, c)
  {
  }

  lemma DbEvolvesTransitive(a: Db, b: Db, c: Db)
    requires DbEvolves(a, b) && DbEvolves(b, c)
    ensures DbEvolves(a, c)
  {
    SubmapTransitive(a.decisions, b.decisions, c.decisions);
    forall x | x in a.requests ensures x in c.requests && RequestEvolves(a.requests[x], c.requests[x]) {
      assert RequestEvolves(a.requests[x], b.requests[x]) && RequestEvolves(b.requests[x], c.requests[x]);
    }
    forall x | x in a.approvals ensures x in c.approvals && ApprovalEvolves(a.approvals[x], c.approvals[x]) {
      assert ApprovalEvolves(a.approvals[x], b.approvals[x]) && ApprovalEvolves(b.approvals[x], c.approvals[x]);
    }
    forall x | x in a.leases ensures x in c.leases && LeaseEvolves(a.leases[x], c.leases[x]) {
      assert LeaseEvolves(a.leases[x], b.leases[x]) && LeaseEvolves(b.leases[x], c.leases[x]);
    }
  }

  lemma HistoryEvolvesTransitive(a: History, b: History, c: History)
    requires HistoryEvolves(a, b) && HistoryEvolves(b, c)
    ensures HistoryEvolves(a, c)
  {
    SubmapTransitive(a.lessons, b.lessons, c.lessons);
    SubmapTransitive(a.origin, b.origin, c.origin);
    forall k | 0 <= k < |a.uses| ensures UseEvolves(a.uses[k], c.uses[k]) {
      assert UseEvolves(a.uses[k], b.uses[k]) && UseEvolves(b.uses[k], c.uses[k]);
    }
  }

  lemma MemoriesEvolveTransitive(a: State, b: State, c: State)
    requires MemoriesEvolve(a, b) && MemoriesEvolve(b, c) && Submap(a.h.lessons, b.h.lessons)
    ensures MemoriesEvolve(a, c)
  {
  }

  lemma EvolvesTransitive(a: State, b: State, c: State)
    requires Evolves(a, b) && Evolves(b, c)
    ensures Evolves(a, c)
  {
    DbEvolvesTransitive(a.db, b.db, c.db);
    HistoryEvolvesTransitive(a.h, b.h, c.h);
    MemoriesEvolveTransitive(a, b, c);
  }

  // ----- Rows -----

  /** What a row condition needs of the rest of the state. */
  lemma RequestStays(a: State, b: State, x: Id)
    requires x in a.db.requests && x in b.db.requests && RequestOk(a, x)
    requires Submap(a.h.decisionOf, b.h.decisionOf) && Submap(a.db.decisions, b.db.decisions)
    requires a.db.requests[x].status == b.db.requests[x].status
    ensures RequestOk(b, x)
  {
  }

  /** What a request asks for never changes. */
  lemma ConcernsStays(a: State, b: State, rid: Id, scope: Scope, factors: seq<R.Factor>)
    requires Evolves(a, b) && rid in a.db.requests && Concerns(a.db.requests[rid], scope, factors)
    ensures rid in b.db.requests && Concerns(b.db.requests[rid], scope, factors)
  {
    assert RequestEvolves(a.db.requests[rid], b.db.requests[rid]);
  }

  lemma DecisionStays(a: State, b: State, x: Id)
    requires Evolves(a, b) && x in a.db.decisions && DecisionOk(a, x)
    ensures DecisionOk(b, x)
  {
    var d := a.db.decisions[x];
    assert x in b.db.decisions && b.db.decisions[x] == d;
    ConcernsStays(a, b, d.requestId, d.scope, d.factors);
    assert d.requestId in b.h.decisionOf && b.h.decisionOf[d.requestId] == x;
    if d.verdict == D.AutoAllow && d.reason == D.TrustMemoryMatch {
      assert b.h.lessons[d.memoryId] == a.h.lessons[d.memoryId];
    }
  }

  ghost predicate SameApproval(a: State, b: State, x: Id)
    requires x in b.db.approvals
  {
    && x in a.db.approvals && a.db.approvals[x] == b.db.approvals[x]
    && (x in b.h.winner ==> x in a.h.winner)
  }

  lemma ApprovalStays(a: State, b: State, x: Id)
    requires Evolves(a, b) && x in b.db.approvals && SameApproval(a, b, x) && ApprovalOk(a, x)
    ensures ApprovalOk(b, x)
  {
    assert x in a.h.winner <==> x in b.h.winner;
  }

  lemma LedgerKeeps(a: Db, b: Db, event: Event)
    requires a.ledger <= b.ledger && event in a.ledger
    ensures event in b.ledger
  {
    var k :| 0 <= k < |a.ledger| && a.ledger[k] == event;
    assert b.ledger[k] == event;
  }

  ghost predicate SameLease(a: State, b: State, x: Id)
    requires x in b.db.leases
  {
    && x in a.db.leases
    && a.db.leases[x].used == b.db.leases[x].used
    && (b.db.leases[x].status == Exhausted ==> a.db.leases[x].status == Exhausted)
  }

  lemma AutoLeaseStays(a: State, b: State, x: Id)
    requires Evolves(a, b) && x in a.db.leases && AutoLease(a, x)
    ensures AutoLease(b, x)
  {
    assert LeaseEvolves(a.db.leases[x], b.db.leases[x]);
    assert b.h.origin[x] == a.h.origin[x];
    LedgerKeeps(a.db, b.db, AutoAllowedEvent(a.h.origin[x]));
  }

  lemma ApprovedLeaseStays(a: State, b: State, x: Id)
    requires Evolves(a, b) && x in a.db.leases && ApprovedLease(a, x)
    ensures ApprovedLease(b, x)
  {
    assert LeaseEvolves(a.db.leases[x], b.db.leases[x]);
    var aid := a.db.leases[x].approvalId;
    assert ApprovalEvolves(a.db.approvals[aid], b.db.approvals[aid]);
    assert b.h.origin[x] == a.h.origin[x];
    LedgerKeeps(a.db, b.db, UserAllowedEvent(aid, a.h.origin[x]));
  }

  lemma LeaseStays(a: State, b: State, x: Id)
    requires Evolves(a, b) && x in a.db.leases && x in b.db.leases && SameLease(a, b, x) && LeaseOk(a, x)
    ensures LeaseOk(b, x)
  {
    assert LeaseEvolves(a.db.leases[x], b.db.leases[x]);
    if a.db.leases[x].approvalId == "" { AutoLeaseStays(a, b, x); } else { ApprovedLeaseStays(a, b, x); }
  }

  lemma LessonStays(a: State, b: State, x: Id)
    requires Evolves(a, b) && x in a.h.lessons && LessonOk(a, x)
    ensures LessonOk(b, x)
  {
    var m := a.h.lessons[x];
    assert b.h.lessons[x] == m;
    assert ApprovalEvolves(a.db.approvals[m.createdFrom], b.db.approvals[m.createdFrom]);
    LedgerKeeps(a.db, b.db, UserAllowedEvent(m.createdFrom, a.db.approvals[m.createdFrom].decisionId));
  }

  lemma MemoryStays(a: State, b: State, x: Id)
    requires Evolves(a, b) && x in a.db.memories && x in b.db.memories && MemoryOk(a, x)
    ensures MemoryOk(b, x)
  {
    assert x in a.h.lessons && MemoryEvolves(a.db.memories[x], b.db.memories[x]);
  }

  lemma UseStays(a: State, b: State, k: nat)
    requires Evolves(a, b) && k < |a.h.uses| && UseOk(a, k)
    ensures UseOk(b, k)
  {
    assert UseEvolves(a.h.uses[k], b.h.uses[k]);
    assert LeaseEvolves(a.db.leases[a.h.uses[k].leaseId], b.db.leases[a.h.uses[k].leaseId]);
  }

  lemma DecidedForStays(a: State, b: State, rid: Id, did: Id, verdict: D.Verdict)
    requires Evolves(a, b) && DecidedFor(a, rid, did, verdict)
    ensures DecidedFor(b, rid, did, verdict)
  {
  }

  lemma FitsStays(a: State, b: State, rid: Id, did: Id, lid: Id)
    requires Evolves(a, b) && Fits(a, rid, did, lid)
    ensures Fits(b, rid, did, lid)
  {
    DecidedForStays(a, b, rid, did, D.AutoAllow);
    LedgerKeeps(a.db, b.db, AutoAllowedEvent(did));
    assert LeaseEvolves(a.db.leases[lid], b.db.leases[lid]);
  }

  lemma SendStays(a: State, b: State, k: nat)
    requires Evolves(a, b) && k < |a.h.sends| && SendOk(a, k)
    ensures SendOk(b, k)
  {
    var x := a.h.sends[k];
    assert b.h.sends[k] == x;
    FitsStays(a, b, x.requestId, x.decisionId, x.leaseId);
    assert RequestEvolves(a.db.requests[x.requestId], b.db.requests[x.requestId]);
  }

  // ----- Threads -----

  lemma OutcomeStays(a: State, b: State, rid: Id, did: Id, o: D.Outcome)
    requires Evolves(a, b) && OutcomeOk(a, rid, did, o)
    ensures OutcomeOk(b, rid, did, o)
  {
    DecidedForStays(a, b, rid, did, o.verdict);
    if o.verdict == D.AutoAllow && o.matchedLeaseId != "" {
      assert LeaseEvolves(a.db.leases[o.matchedLeaseId], b.db.leases[o.matchedLeaseId]);
    }
  }

  lemma JustifiedStays(a: State, b: State, plan: Plan)
    requires Evolves(a, b) && Justified(a, plan)
    ensures Justified(b, plan)
  {
    var o := plan.outcome;
    if o.verdict == D.AutoAllow && o.matchedLeaseId != "" {
      assert LeaseEvolves(a.db.leases[o.matchedLeaseId], b.db.leases[o.matchedLeaseId]);
    }
  }

  lemma KnownStays(a: State, b: State, aid: Id)
    requires Evolves(a, b) && Known(a, aid)
    ensures Known(b, aid) && DecisionFor(b, aid) == DecisionFor(a, aid)
  {
    assert ApprovalEvolves(a.db.approvals[aid], b.db.approvals[aid]);
  }

  lemma SettledStays(a: State, b: State, t: Tid, aid: Id, action: Action)
    requires Evolves(a, b) && Settled(a, t, aid, action)
    ensures Settled(b, t, aid, action)
  {
    assert ApprovalEvolves(a.db.approvals[aid], b.db.approvals[aid]);
  }

  lemma BookedStays(a: State, b: State, aid: Id, action: Action)
    requires Evolves(a, b) && SettlementBooked(a, aid, action)
    ensures SettlementBooked(b, aid, action)
  {
    assert ApprovalEvolves(a.db.approvals[aid], b.db.approvals[aid]);
    var did := a.db.approvals[aid].decisionId;
    if Allows(action) { LedgerKeeps(a.db, b.db, UserAllowedEvent(aid, did)); }
    else { LedgerKeeps(a.db, b.db, DeniedEvent(did, aid)); }
  }

  /** Another thread's step cannot book a settlement this thread won. */
  lemma UnbookedStays(a: State, b: State, t: Tid, u: Tid, aid: Id)
    requires Step(a, b, t) && u != t && aid in a.h.winner && a.h.winner[aid] == u
    requires !UserAllowed(a.db.ledger, aid)
    ensures !UserAllowed(b.db.ledger, aid)
  {
    forall k | 0 <= k < |b.db.ledger| ensures !(b.db.ledger[k].UserAllowedEvent? && b.db.ledger[k].approvalId == aid) {
      if k < |a.db.ledger| { assert b.db.ledger[k] == a.db.ledger[k]; }
    }
  }

  lemma HandlePcStays(a: State, b: State, t: Tid, pc: Pc)
    requires Evolves(a, b) && PcOk(a, t, pc) && (pc.Assembled? || pc.Decided? || pc.Noted? || pc.Asked? || pc.Blocked?)
    ensures PcOk(b, t, pc)
  {
    match pc
    case Assembled(rid, plan) =>
      JustifiedStays(a, b, plan);
      ConcernsStays(a, b, rid, plan.scope, plan.factors);
    case Decided(rid, did, o) => OutcomeStays(a, b, rid, did, o);
    case Noted(rid, did, o, since) =>
      OutcomeStays(a, b, rid, did, o);
      LedgerKeeps(a.db, b.db, if o.verdict == D.AutoAllow then AutoAllowedEvent(did) else DeniedEvent(did, ""));
    case Asked(rid, did) => DecidedForStays(a, b, rid, did, D.RequireApproval);
    case _ =>
  }

  lemma CallPcStays(a: State, b: State, t: Tid, pc: Pc)
    requires Evolves(a, b) && PcOk(a, t, pc) && (pc.Holding? || pc.Passed? || pc.Running? || pc.Sent?)
    ensures PcOk(b, t, pc)
  {
    FitsStays(a, b, pc.requestId, pc.decisionId, pc.leaseId);
  }

  lemma SettlePcStays(a: State, b: State, t: Tid, pc: Pc)
    requires Evolves(a, b) && PcOk(a, t, pc)
    requires pc.Reviewing? || pc.Booked? || pc.Issued? || pc.Taught?
    ensures PcOk(b, t, pc)
  {
    match pc
    case Reviewing(aid, action, from) => KnownStays(a, b, aid);
    case Booked(aid, action, from, since) => SettledStays(a, b, t, aid, action); BookedStays(a, b, aid, action);
    case Issued(aid, action, from) => SettledStays(a, b, t, aid, action); BookedStays(a, b, aid, action);
    case Taught(aid, action, from) => SettledStays(a, b, t, aid, action); BookedStays(a, b, aid, action);
    case _ =>
  }

  lemma PcStays(a: State, b: State, u: Tid, pc: Pc)
    requires Evolves(a, b) && PcOk(a, u, pc)
    requires pc.Won? ==> !UserAllowed(b.db.ledger, pc.approvalId)
    ensures PcOk(b, u, pc)
  {
    if pc.Idle? {
    } else if pc.Won? {
      SettledStays(a, b, u, pc.approvalId, pc.action);
    } else if pc.Holding? || pc.Passed? || pc.Running? || pc.Sent? {
      CallPcStays(a, b, u, pc);
    } else if pc.Reviewing? || pc.Booked? || pc.Issued? || pc.Taught? {
      SettlePcStays(a, b, u, pc);
    } else {
      HandlePcStays(a, b, u, pc);
    }
  }

  lemma MeterStays(a: State, b: State, u: Tid, m: Meter)
    requires Evolves(a, b) && MeterOk(a, u, m)
    requires forall k :: 0 <= k < |a.h.uses| && a.h.uses[k].thread == u ==> b.h.uses[k] == a.h.uses[k]
    requires m.Counted? && m.leaseId in b.db.leases ==> LeaseOk(b, m.leaseId)
    ensures MeterOk(b, u, m)
  {
    if !m.Off? && m.leaseId in a.db.leases {
      assert LeaseEvolves(a.db.leases[m.leaseId], b.db.leases[m.leaseId]);
    }
  }

  // ----- Carrying the invariant over a step -----

  /** What a step must guarantee of the request, decision or approval with id `x`. */
  ghost predicate RowKept(a: State, b: State, x: Id) {
    && (x in b.db.requests ==>
          (x in a.db.requests && a.db.requests[x].status == b.db.requests[x].status) || RequestOk(b, x))
    && (x in b.h.decisionOf ==> x in a.h.decisionOf || DecisionIndexOk(b, x))
    && (x in b.db.decisions ==> x in a.db.decisions || DecisionOk(b, x))
    && (x in b.db.approvals ==> SameApproval(a, b, x) || ApprovalOk(b, x))
    && (x in b.h.winner ==> x in a.h.winner || x in b.db.approvals)
  }

  /** The same for leases, lessons and memories. */
  ghost predicate GrantKept(a: State, b: State, x: Id) {
    && (x in b.db.leases ==> SameLease(a, b, x) || LeaseOk(b, x))
    && (x in b.h.leaseOf ==> x in a.h.leaseOf || LeaseIndexOk(b, x))
    && (x in b.h.origin ==> x in a.h.origin || x in b.db.leases)
    && (x in b.h.lessons ==> x in a.h.lessons || LessonOk(b, x))
    && (x in b.db.memories ==> x in a.db.memories || MemoryOk(b, x))
  }

  ghost predicate RowsKept(a: State, b: State) {
    forall x :: RowKept(a, b, x)
  }

  ghost predicate GrantsKept(a: State, b: State) {
    forall x :: GrantKept(a, b, x)
  }

  ghost predicate UsesKept(a: State, b: State) {
    && (forall x :: x in b.db.leases ==> MeteredOk(b, x))
    && (forall k :: 0 <= k < |b.h.uses| ==> k < |a.h.uses| || UseOk(b, k))
    && (forall k :: 0 <= k < |b.h.sends| ==> k < |a.h.sends| || SendOk(b, k))
  }

  lemma RequestsCarry(a: State, b: State)
    requires TablesOk(a) && Evolves(a, b) && RowsKept(a, b)
    ensures forall x :: x in b.db.requests ==> RequestOk(b, x)
  {
    forall x | x in b.db.requests ensures RequestOk(b, x) {
      assert RowKept(a, b, x);
      if !RequestOk(b, x) { RequestStays(a, b, x); }
    }
  }

  lemma DecisionIndexStays(a: State, b: State, x: Id)
    requires Evolves(a, b) && x in a.h.decisionOf && DecisionIndexOk(a, x)
    ensures x in b.h.decisionOf && DecisionIndexOk(b, x)
  {
  }

  lemma DecisionsCarry(a: State, b: State)
    requires TablesOk(a) && Evolves(a, b) && RowsKept(a, b)
    ensures forall x :: x in b.h.decisionOf ==> DecisionIndexOk(b, x)
    ensures forall x :: x in b.db.decisions ==> DecisionOk(b, x)
  {
    forall x | x in b.h.decisionOf ensures DecisionIndexOk(b, x) {
      assert RowKept(a, b, x);
      if x in a.h.decisionOf { DecisionIndexStays(a, b, x); }
    }
    forall x | x in b.db.decisions ensures DecisionOk(b, x) {
      assert RowKept(a, b, x);
      if x in a.db.decisions { DecisionStays(a, b, x); }
    }
  }

  lemma ApprovalsCarry(a: State, b: State)
    requires TablesOk(a) && Evolves(a, b) && RowsKept(a, b)
    ensures forall x :: x in b.db.approvals ==> ApprovalOk(b, x)
    ensures forall x :: x in b.h.winner ==> x in b.db.approvals
  {
    forall x | x in b.h.winner ensures x in b.db.approvals {
      assert RowKept(a, b, x);
    }
    forall x | x in b.db.approvals ensures ApprovalOk(b, x) {
      assert RowKept(a, b, x);
      if SameApproval(a, b, x) { ApprovalStays(a, b, x); }
    }
  }

  lemma GrantsCarry(a: State, b: State)
    requires TablesOk(a) && Evolves(a, b) && GrantsKept(a, b)
    ensures forall x :: x in b.db.leases ==> LeaseOk(b, x)
    ensures forall x :: x in b.h.leaseOf ==> LeaseIndexOk(b, x)
    ensures forall x :: x in b.h.origin ==> x in b.db.leases
    ensures forall x :: x in b.h.lessons ==> LessonOk(b, x)
    ensures forall x :: x in b.db.memories ==> MemoryOk(b, x)
  {
    forall x | x in b.h.origin ensures x in b.db.leases {
      assert GrantKept(a, b, x);
    }
    forall x | x in b.db.leases ensures LeaseOk(b, x) {
      assert GrantKept(a, b, x);
      if SameLease(a, b, x) { LeaseStays(a, b, x); }
    }
    forall x | x in b.h.leaseOf ensures LeaseIndexOk(b, x) {
      assert GrantKept(a, b, x);
      if x in a.h.leaseOf {
        assert LeaseIndexOk(a, x);
        assert LeaseEvolves(a.db.leases[a.h.leaseOf[x]], b.db.leases[a.h.leaseOf[x]]);
      }
    }
    forall x | x in b.h.lessons ensures LessonOk(b, x) {
      assert GrantKept(a, b, x);
      if x in a.h.lessons { LessonStays(a, b, x); }
    }
    forall x | x in b.db.memories ensures MemoryOk(b, x) {
      assert GrantKept(a, b, x);
      if x in a.db.memories { MemoryStays(a, b, x); }
    }
  }

  lemma UsesCarry(a: State, b: State)
    requires TablesOk(a) && Evolves(a, b) && UsesKept(a, b)
    ensures forall k :: 0 <= k < |b.h.uses| ==> UseOk(b, k)
    ensures forall k :: 0 <= k < |b.h.sends| ==> SendOk(b, k)
  {
    forall k | 0 <= k < |b.h.uses| ensures UseOk(b, k) {
      if k < |a.h.uses| { UseStays(a, b, k); }
    }
    forall k | 0 <= k < |b.h.sends| ensures SendOk(b, k) {
      if k < |a.h.sends| { SendStays(a, b, k); }
    }
  }

  lemma ThreadStays(a: State, b: State, t: Tid, u: Tid)
    requires Step(a, b, t) && u != t && ThreadOk(a, u)
    requires forall x :: x in b.db.leases ==> LeaseOk(b, x)
    ensures ThreadOk(b, u)
  {
    var pc, meter := Thr(a, u).pc, Thr(a, u).meter;
    assert Thr(b, u) == Thr(a, u);
    if pc.Won? { UnbookedStays(a, b, t, u, pc.approvalId); }
    PcStays(a, b, u, pc);
    MeterStays(a, b, u, meter);
  }

  lemma ThreadsCarry(a: State, b: State, t: Tid)
    requires Inv(a) && Step(a, b, t) && ThreadOk(b, t)
    requires forall x :: x in b.db.leases ==> LeaseOk(b, x)
    ensures forall u :: ThreadOk(b, u)
  {
    forall u ensures ThreadOk(b, u) {
      if u != t {
        assert InvFor(a, u);
        ThreadStays(a, b, t, u);
      }
    }
  }

  /** A step that re-establishes what it wrote keeps the whole invariant. */
  lemma Carry(a: State, b: State, t: Tid)
    requires Inv(a) && Step(a, b, t)
    requires RowsKept(a, b) && GrantsKept(a, b) && UsesKept(a, b)
    requires ThreadOk(b, t) && LedgerOk(b)
    ensures Inv(b)
  {
    assert InvFor(a, t);
    RequestsCarry(a, b);
    DecisionsCarry(a, b);
    ApprovalsCarry(a, b);
    GrantsCarry(a, b);
    UsesCarry(a, b);
    ThreadsCarry(a, b, t);
    forall u ensures InvFor(b, u) {
      assert ThreadOk(b, u);
    }
  }

  /** Only entries that record no person's consent were added. */
  lemma LedgerStays(a: State, b: State)
    requires LedgerOk(a) && Evolves(a, b)
    requires forall k :: |a.db.ledger| <= k < |b.db.ledger| ==> !b.db.ledger[k].UserAllowedEvent?
    ensures LedgerOk(b)
  {
    forall k | 0 <= k < |b.db.ledger| && b.db.ledger[k].UserAllowedEvent?
      ensures k < |a.db.ledger| && a.db.ledger[k] == b.db.ledger[k]
    {
    }
    forall k | 0 <= k < |b.db.ledger| && b.db.ledger[k].UserAllowedEvent?
      ensures b.db.ledger[k].approvalId in b.db.approvals
              && b.db.approvals[b.db.ledger[k].approvalId].status == ApprovalStatus.Approved
    {
      var aid := a.db.ledger[k].approvalId;
      assert ApprovalEvolves(a.db.approvals[aid], b.db.approvals[aid]);
    }
  }

  // ----- Steps that touch neither lease counts, uses nor sends -----

  ghost predicate SameUses(a: State, b: State) {
    && b.h.uses == a.h.uses && b.h.sends == a.h.sends
    && (forall x :: x in b.db.leases && x in a.db.leases ==> b.db.leases[x].used == a.db.leases[x].used)
    && (forall x :: x in b.db.leases && x !in a.db.leases ==> b.db.leases[x].used == 0)
  }

  lemma {:induction false} UnusedLease(s: State, lid: Id, n: nat)
    requires forall k :: 0 <= k < |s.h.uses| ==> UseOk(s, k)
    requires lid !in s.db.leases && n <= |s.h.uses|
    ensures UsesOf(s.h.uses[..n], lid) == SentUsesOf(s.h.uses[..n], lid) == 0
  {
    if n > 0 {
      UnusedLease(s, lid, n - 1);
      assert s.h.uses[..n][..n - 1] == s.h.uses[..n - 1];
      assert UseOk(s, n - 1);
    }
  }

  lemma {:induction false} UnsentLease(s: State, lid: Id, n: nat)
    requires forall k :: 0 <= k < |s.h.sends| ==> SendOk(s, k)
    requires lid !in s.db.leases && n <= |s.h.sends|
    ensures SendsOf(s.h.sends[..n], lid) == 0
  {
    if n > 0 {
      UnsentLease(s, lid, n - 1);
      assert s.h.sends[..n][..n - 1] == s.h.sends[..n - 1];
      assert SendOk(s, n - 1);
    }
  }

  lemma UsesStay(a: State, b: State)
    requires MetersOk(a) && SameUses(a, b)
    requires forall k :: 0 <= k < |a.h.uses| ==> UseOk(a, k)
    requires forall k :: 0 <= k < |a.h.sends| ==> SendOk(a, k)
    ensures UsesKept(a, b)
  {
    forall x | x in b.db.leases ensures MeteredOk(b, x) {
      if x in a.db.leases {
        assert MeteredOk(a, x);
      } else {
        UnusedLease(a, x, |a.h.uses|);
        UnsentLease(a, x, |a.h.sends|);
        assert a.h.uses[..|a.h.uses|] == a.h.uses && a.h.sends[..|a.h.sends|] == a.h.sends;
      }
    }
  }

  /** Thread `t` moved, or stayed, at its control point; its meter stayed. */
  ghost predicate Moves(a: State, b: State, t: Tid) {
    && (forall u :: u != t ==> Thr(b, u) == Thr(a, u))
    && Thr(b, t).meter == Thr(a, t).meter
  }

  ghost predicate NoConsentAdded(a: State, b: State) {
    forall k :: |a.db.ledger| <= k < |b.db.ledger| ==> !b.db.ledger[k].UserAllowedEvent?
  }

  /** What a change of the tables must guarantee; it does not look at the threads. */
  ghost predicate Kept(a: State, b: State) {
    Evolves(a, b) && SameUses(a, b) && RowsKept(a, b) && GrantsKept(a, b)
  }

  lemma Finish(a: State, b: State, t: Tid)
    requires Inv(a) && Kept(a, b) && Moves(a, b, t)
    requires LeavesOthers(a, b, t) && LedgerOk(b)
    requires PcOk(b, t, Thr(b, t).pc)
    ensures Step(a, b, t) && Inv(b)
  {
    InvMeters(a);
    InvUses(a);
    InvTables(a);
    InvThread(a, t);
    UsesStay(a, b);
    GrantsCarry(a, b);
    MeterStays(a, b, t, Thr(a, t).meter);
    Carry(a, b, t);
  }

  /** The same where no consent was recorded. */
  lemma Quiet(a: State, b: State, t: Tid)
    requires Inv(a) && Kept(a, b) && Moves(a, b, t) && NoConsentAdded(a, b)
    requires PcOk(b, t, Thr(b, t).pc)
    ensures Step(a, b, t) && Inv(b)
  {
    InvLedger(a);
    LedgerStays(a, b);
    Finish(a, b, t);
  }

  lemma UnbookedQuietly(a: State, b: State, aid: Id)
    requires Evolves(a, b) && NoConsentAdded(a, b) && !UserAllowed(a.db.ledger, aid)
    ensures !UserAllowed(b.db.ledger, aid)
  {
    forall k | 0 <= k < |b.db.ledger| ensures !(b.db.ledger[k].UserAllowedEvent? && b.db.ledger[k].approvalId == aid) {
      if k < |a.db.ledger| { assert b.db.ledger[k] == a.db.ledger[k]; }
    }
  }

  lemma PcStaysQuietly(a: State, b: State, t: Tid)
    requires Evolves(a, b) && NoConsentAdded(a, b) && ThreadOk(a, t)
    ensures PcOk(b, t, Thr(a, t).pc)
  {
    var pc := Thr(a, t).pc;
    if pc.Won? { UnbookedQuietly(a, b, pc.approvalId); }
    PcStays(a, b, t, pc);
  }

  /** A step that moves no thread at all. */
  lemma Background(a: State, b: State, t: Tid)
    requires Inv(a) && Kept(a, b) && NoConsentAdded(a, b) && b.h.threads == a.h.threads
    ensures Step(a, b, t) && Inv(b)
  {
    assert InvFor(a, t);
    PcStaysQuietly(a, b, t);
    Quiet(a, b, t);
  }

  // ----- Changes of one table -----

  lemma NothingChanged(s: State)
    ensures Kept(s, s)
  {
  }

  function Rethreaded(b: State, threads: map<Tid, Thread>): State {
    State(b.db, b.h.(threads := threads))
  }

  lemma RowsAnyThreads(a: State, b: State, threads: map<Tid, Thread>)
    requires RowsKept(a, b)
    ensures RowsKept(a, Rethreaded(b, threads))
  {
    var c := Rethreaded(b, threads);
    forall x ensures RowKept(a, c, x) {
      assert RowKept(a, b, x);
    }
  }

  lemma GrantsAnyThreads(a: State, b: State, threads: map<Tid, Thread>)
    requires GrantsKept(a, b)
    ensures GrantsKept(a, Rethreaded(b, threads))
  {
    var c := Rethreaded(b, threads);
    forall x ensures GrantKept(a, c, x) {
      assert GrantKept(a, b, x);
      assert x in b.db.leases && LeaseOk(b, x) ==> LeaseOk(c, x);
      assert x in b.h.lessons && LessonOk(b, x) ==> LessonOk(c, x);
    }
  }

  /** Where the threads stand is no business of the rows. */
  lemma KeptAnyThreads(a: State, b: State, threads: map<Tid, Thread>)
    requires Kept(a, b)
    ensures Kept(a, Rethreaded(b, threads))
  {
    RowsAnyThreads(a, b, threads);
    GrantsAnyThreads(a, b, threads);
    assert Evolves(a, Rethreaded(b, threads));
  }

  lemma PcAnyThreads(s: State, threads: map<Tid, Thread>, t: Tid, pc: Pc)
    requires PcOk(s, t, pc)
    ensures PcOk(Rethreaded(s, threads), t, pc)
  {
    var c := Rethreaded(s, threads);
    assert Evolves(s, c);
    PcStays(s, c, t, pc);
  }

  /** State `m` with thread `t` moved on to `pc`. */
  function MovedTo(m: State, t: Tid, pc: Pc): State {
    State(m.db, Goto(m.h, t, Thread(pc, Thr(m, t).meter)))
  }

  /** The tables changed as in `m`, and the thread that did it moved on. */
  lemma Moved(s: State, m: State, t: Tid, pc: Pc)
    requires Inv(s) && Kept(s, m) && NoConsentAdded(s, m) && m.h.threads == s.h.threads
    requires PcOk(m, t, pc)
    ensures Step(s, MovedTo(m, t, pc), t) && Inv(MovedTo(m, t, pc))
  {
    var b := MovedTo(m, t, pc);
    assert b == Rethreaded(m, b.h.threads);
    KeptAnyThreads(s, m, b.h.threads);
    PcAnyThreads(m, b.h.threads, t, pc);
    Quiet(s, b, t);
  }

  /** The same where thread `t` booked a consent it had won. */
  lemma MovedWithConsent(s: State, m: State, t: Tid, pc: Pc)
    requires Inv(s) && Kept(s, m) && m.h.threads == s.h.threads
    requires LedgerOk(m) && LeavesOthers(s, m, t)
    requires PcOk(m, t, pc)
    ensures Step(s, MovedTo(m, t, pc), t) && Inv(MovedTo(m, t, pc))
  {
    var b := MovedTo(m, t, pc);
    assert b == Rethreaded(m, b.h.threads);
    KeptAnyThreads(s, m, b.h.threads);
    PcAnyThreads(m, b.h.threads, t, pc);
    Finish(s, b, t);
  }

  /** A lease row is updated in place: never its scope, its limit or its count. */
  lemma LeaseRowKept(s: State, lid: Id, row: Lease)
    requires lid in s.db.leases && LeaseEvolves(s.db.leases[lid], row)
    requires row.used == s.db.leases[lid].used && row.status != Exhausted
    ensures Kept(s, State(s.db.(leases := s.db.leases[lid := row]), s.h))
  {
    var b := State(s.db.(leases := s.db.leases[lid := row]), s.h);
    assert Evolves(s, b);
  }

  /** A memory row is updated in place. */
  lemma MemoryRowKept(s: State, mid: Id, row: Memory)
    requires mid in s.db.memories && MemoryEvolves(s.db.memories[mid], row)
    ensures Kept(s, State(s.db.(memories := s.db.memories[mid := row]), s.h))
  {
    var b := State(s.db.(memories := s.db.memories[mid := row]), s.h);
    assert Evolves(s, b);
  }

  /** A request row is inserted or moves on to a status its decision permits. */
  lemma RequestRowKept(s: State, rid: Id, row: Request)
    requires rid in s.db.requests ==> RequestEvolves(s.db.requests[rid], row)
    requires ServedStatus(row.status) && (rid in s.db.requests ==> s.db.requests[rid].status != row.status) ==>
      && rid in s.h.decisionOf && s.h.decisionOf[rid] in s.db.decisions
      && s.db.decisions[s.h.decisionOf[rid]].verdict == D.AutoAllow
    ensures Kept(s, State(s.db.(requests := s.db.requests[rid := row]), s.h))
  {
    var b := State(s.db.(requests := s.db.requests[rid := row]), s.h);
    assert Evolves(s, b);
    assert RequestOk(b, rid) || (rid in s.db.requests && s.db.requests[rid].status == row.status);
  }

  /** Time, the ledger and the sets of reviewed identities and ended sessions only grow. */
  lemma GrowthKept(s: State, db: Db)
    requires db == s.db.(now := db.now, ledger := db.ledger, underReview := db.underReview,
                         endedSessions := db.endedSessions)
    requires s.db.now <= db.now && s.db.ledger <= db.ledger
    requires s.db.underReview <= db.underReview && s.db.endedSessions <= db.endedSessions
    ensures Kept(s, State(db, s.h))
  {
    assert Evolves(s, State(db, s.h));
  }

  lemma MemoryDeletedKept(s: State, mid: Id)
    ensures Kept(s, State(s.db.(memories := s.db.memories - {mid}), s.h))
  {
    assert Evolves(s, State(s.db.(memories := s.db.memories - {mid}), s.h));
  }

  lemma ApprovalInsertedKept(s: State, aid: Id, row: Approval)
    requires aid !in s.db.approvals && aid !in s.h.winner && aid != ""
    requires row.status == Pending && row.action.None?
    requires row.decisionId in s.db.decisions && s.db.decisions[row.decisionId].verdict == D.RequireApproval
    ensures Kept(s, State(s.db.(approvals := s.db.approvals[aid := row]), s.h))
  {
    var b := State(s.db.(approvals := s.db.approvals[aid := row]), s.h);
    assert Evolves(s, b);
    assert ApprovalOk(b, aid);
  }

  lemma DecisionInsertedKept(s: State, did: Id, rid: Id, row: Decision)
    requires did !in s.db.decisions && rid !in s.h.decisionOf && row.requestId == rid
    requires var b := State(s.db.(decisions := s.db.decisions[did := row]),
                            s.h.(decisionOf := s.h.decisionOf[rid := did])); DecisionOk(b, did)
    ensures var b := State(s.db.(decisions := s.db.decisions[did := row]),
                           s.h.(decisionOf := s.h.decisionOf[rid := did])); Kept(s, b)
  {
    var b := State(s.db.(decisions := s.db.decisions[did := row]),
                   s.h.(decisionOf := s.h.decisionOf[rid := did]));
    assert Evolves(s, b);
    assert DecisionIndexOk(b, rid);
  }

  /** A lease is issued; nothing was known under its id. */
  lemma LeaseInsertedKept(s: State, b: State, lid: Id, row: Lease)
    requires lid !in s.db.leases && lid !in s.h.origin && row.used == 0
    requires b.db == s.db.(leases := s.db.leases[lid := row])
    requires b.h == s.h.(origin := b.h.origin, leaseOf := b.h.leaseOf)
    requires b.h.origin.Keys == s.h.origin.Keys + {lid}
    requires Submap(s.h.origin, b.h.origin) && Submap(s.h.leaseOf, b.h.leaseOf)
    requires forall x :: x in b.h.leaseOf ==> x in s.h.leaseOf || LeaseIndexOk(b, x)
    requires LeaseOk(b, lid)
    ensures Kept(s, b)
  {
    assert Evolves(s, b);
  }

  /** The thread that issued the lease moves on. */
  lemma IssuedMoves(s: State, m: State, t: Tid, pc: Pc, lid: Id, row: Lease)
    requires Inv(s) && lid !in s.db.leases && row.used == 0
    requires m.db == s.db.(leases := s.db.leases[lid := row])
    requires m.h == s.h.(origin := m.h.origin, leaseOf := m.h.leaseOf)
    requires m.h.origin.Keys == s.h.origin.Keys + {lid}
    requires Submap(s.h.origin, m.h.origin) && Submap(s.h.leaseOf, m.h.leaseOf)
    requires forall x :: x in m.h.leaseOf ==> x in s.h.leaseOf || LeaseIndexOk(m, x)
    requires LeaseOk(m, lid) && PcOk(m, t, pc)
    ensures Step(s, MovedTo(m, t, pc), t) && Inv(MovedTo(m, t, pc))
  {
    InvIndexes(s);
    LeaseInsertedKept(s, m, lid, row);
    Moved(s, m, t, pc);
  }

  lemma PendingUnbooked(s: State, aid: Id)
    requires LedgerOk(s) && aid in s.db.approvals && s.db.approvals[aid].status == Pending
    ensures !UserAllowed(s.db.ledger, aid)
  {
  }

  /** A consent was booked against this thread's own, not yet booked, settlement. */
  lemma ConsentBooked(s: State, t: Tid, aid: Id, did: Id)
    requires LedgerOk(s) && aid in s.db.approvals && s.db.approvals[aid].status == ApprovalStatus.Approved
    requires !UserAllowed(s.db.ledger, aid) && aid in s.h.winner && s.h.winner[aid] == t
    ensures var b := State(Append(s.db, UserAllowedEvent(aid, did)), s.h); LedgerOk(b) && LeavesOthers(s, b, t)
  {
    var b := State(Append(s.db, UserAllowedEvent(aid, did)), s.h);
    forall i, j | 0 <= i < j < |b.db.ledger| && b.db.ledger[i].UserAllowedEvent? && b.db.ledger[j].UserAllowedEvent?
      ensures b.db.ledger[i].approvalId != b.db.ledger[j].approvalId
    {
      assert b.db.ledger[i] == s.db.ledger[i];
      if j < |s.db.ledger| { assert b.db.ledger[j] == s.db.ledger[j]; }
    }
  }

  /** A row of the approvals is settled or closed. */
  lemma ApprovalRowKept(s: State, b: State, aid: Id)
    requires aid in s.db.approvals && s.db.approvals[aid].status == Pending && aid in b.db.approvals
    requires b.db == s.db.(approvals := s.db.approvals[aid := b.db.approvals[aid]])
    requires b.h == s.h.(winner := b.h.winner)
    requires b.h.winner.Keys <= s.h.winner.Keys + {aid} && Submap(s.h.winner, b.h.winner)
    requires ApprovalEvolves(s.db.approvals[aid], b.db.approvals[aid]) && ApprovalOk(b, aid)
    ensures Kept(s, b)
  {
    assert Evolves(s, b);
  }

  lemma MemoryInsertedKept(s: State, mid: Id, row: Memory)
    requires mid !in s.h.lessons && mid !in s.db.memories
    requires var b := State(s.db.(memories := s.db.memories[mid := row]), s.h.(lessons := s.h.lessons[mid := row]));
             LessonOk(b, mid)
    ensures var b := State(s.db.(memories := s.db.memories[mid := row]), s.h.(lessons := s.h.lessons[mid := row]));
            Kept(s, b)
  {
    var b := State(s.db.(memories := s.db.memories[mid := row]), s.h.(lessons := s.h.lessons[mid := row]));
    assert Evolves(s, b);
    assert MemoryOk(b, mid);
  }

  // ----- Counting uses and sends -----

  lemma UseAppended(uses: seq<Use>, u: Use, lid: Id)
    ensures UsesOf(uses + [u], lid) == UsesOf(uses, lid) + (if u.leaseId == lid then 1 else 0)
    ensures SentUsesOf(uses + [u], lid) == SentUsesOf(uses, lid) + (if u.leaseId == lid && u.sent then 1 else 0)
  {
    assert (uses + [u])[..|uses|] == uses;
  }

  lemma SendAppended(sends: seq<Sending>, x: Sending, lid: Id)
    ensures SendsOf(sends + [x], lid) == SendsOf(sends, lid) + (if x.leaseId == lid then 1 else 0)
  {
    assert (sends + [x])[..|sends|] == sends;
  }

  /** Marking one use as sent raises the sent uses of its lease by one and changes no other count. */
  lemma {:induction false} UseSpent(uses: seq<Use>, k: nat, lid: Id)
    requires k < |uses| && !uses[k].sent
    ensures var spent := uses[k := uses[k].(sent := true)];
      && UsesOf(spent, lid) == UsesOf(uses, lid)
      && SentUsesOf(spent, lid) == SentUsesOf(uses, lid) + (if uses[k].leaseId == lid then 1 else 0)
  {
    var spent := uses[k := uses[k].(sent := true)];
    var n := |uses| - 1;
    if k == n {
      assert spent[..n] == uses[..n];
    } else {
      UseSpent(uses[..n], k, lid);
      assert spent[..n] == uses[..n][k := uses[..n][k].(sent := true)];
    }
  }

  lemma {:induction false} SentAtMostUsed(uses: seq<Use>, lid: Id)
    ensures SentUsesOf(uses, lid) <= UsesOf(uses, lid)
  {
    if uses != [] { SentAtMostUsed(uses[..|uses| - 1], lid); }
  }

  // ----- Steps of a meter -----

  /** What a change made inside lease.Manager.Use must guarantee. */
  ghost predicate MeterKept(a: State, b: State) {
    Evolves(a, b) && RowsKept(a, b) && GrantsKept(a, b) && UsesKept(a, b)
  }

  function Metered(m: State, t: Tid, pc: Pc, meter: Meter): State {
    State(m.db, Goto(m.h, t, Thread(pc, meter)))
  }

  lemma UsesAnyThreads(a: State, b: State, threads: map<Tid, Thread>)
    requires UsesKept(a, b)
    ensures UsesKept(a, Rethreaded(b, threads))
  {
    var c := Rethreaded(b, threads);
    assert forall x :: x in b.db.leases ==> MeteredOk(b, x) && MeteredOk(c, x);
    assert forall k :: 0 <= k < |b.h.uses| && UseOk(b, k) ==> UseOk(c, k);
    assert forall k :: 0 <= k < |b.h.sends| && SendOk(b, k) ==> SendOk(c, k);
  }

  lemma MeterAnyThreads(s: State, threads: map<Tid, Thread>, t: Tid, meter: Meter)
    requires MeterOk(s, t, meter)
    ensures MeterOk(Rethreaded(s, threads), t, meter)
  {
  }

  lemma MeterKeptAnyThreads(s: State, m: State, threads: map<Tid, Thread>)
    requires MeterKept(s, m)
    ensures MeterKept(s, Rethreaded(m, threads))
  {
    RowsAnyThreads(s, m, threads);
    GrantsAnyThreads(s, m, threads);
    UsesAnyThreads(s, m, threads);
    assert Evolves(s, Rethreaded(m, threads));
  }

  lemma MeterMoved(s: State, m: State, t: Tid, pc: Pc, meter: Meter)
    requires Inv(s) && MeterKept(s, m) && m.h.threads == s.h.threads && m.db.ledger == s.db.ledger
    requires LeavesOthers(s, m, t)
    requires PcOk(m, t, pc) && MeterOk(m, t, meter)
    ensures Step(s, Metered(m, t, pc, meter), t) && Inv(Metered(m, t, pc, meter))
  {
    var b := Metered(m, t, pc, meter);
    assert b == Rethreaded(m, b.h.threads);
    MeterKeptAnyThreads(s, m, b.h.threads);
    assert ThreadOk(b, t) by {
      PcAnyThreads(m, b.h.threads, t, pc);
      MeterAnyThreads(m, b.h.threads, t, meter);
    }
    assert LedgerOk(b) by {
      InvLedger(s);
      LedgerStays(s, b);
    }
    Carry(s, b, t);
  }

  lemma NothingMetered(s: State)
    requires Inv(s)
    ensures MeterKept(s, s)
  {
    InvTables(s);
    NothingChanged(s);
  }

  function OneMore(row: Lease): Lease { row.(used := row.used + 1) }

  lemma LeaseRowStays(s: State, m: State, lid: Id)
    requires Evolves(s, m) && lid in s.db.leases && LeaseOk(s, lid)
    requires m.db.leases[lid].used <= m.db.leases[lid].limit
    requires m.db.leases[lid].status == Exhausted ==> m.db.leases[lid].used == m.db.leases[lid].limit
    ensures LeaseOk(m, lid)
  {
    assert LeaseEvolves(s.db.leases[lid], m.db.leases[lid]);
    if s.db.leases[lid].approvalId == "" { AutoLeaseStays(s, m, lid); } else { ApprovedLeaseStays(s, m, lid); }
  }

  /** One lease row changed, and at most uses were added. */
  lemma LeaseUpdated(s: State, m: State, lid: Id)
    requires lid in s.db.leases && LeaseOk(s, lid) && lid in m.db.leases
    requires m.db == s.db.(leases := s.db.leases[lid := m.db.leases[lid]])
    requires m.h == s.h.(uses := m.h.uses) && s.h.uses <= m.h.uses
    requires LeaseEvolves(s.db.leases[lid], m.db.leases[lid])
    requires m.db.leases[lid].used <= m.db.leases[lid].limit
    requires m.db.leases[lid].status == Exhausted ==> m.db.leases[lid].used == m.db.leases[lid].limit
    ensures Evolves(s, m) && RowsKept(s, m) && GrantsKept(s, m)
  {
    assert Evolves(s, m);
    LeaseRowStays(s, m, lid);
  }

  /** Only uses and sends changed. */
  lemma UsesChanged(s: State, m: State)
    requires m.db == s.db && m.h == s.h.(uses := m.h.uses, sends := m.h.sends)
    requires |s.h.uses| <= |m.h.uses| && s.h.sends <= m.h.sends
    requires forall k :: 0 <= k < |s.h.uses| ==> UseEvolves(s.h.uses[k], m.h.uses[k])
    ensures Evolves(s, m) && RowsKept(s, m) && GrantsKept(s, m)
  {
    assert Evolves(s, m);
  }

  /** The conditional update of the count, together with the use it stands for. */
  lemma ConsumedUses(s: State, m: State, lid: Id, u: Use)
    requires MetersOk(s) && lid in s.db.leases && u.leaseId == lid && !u.sent
    requires u.approvalId == s.db.leases[lid].approvalId && u.at < s.db.leases[lid].scope.expiresAt
    requires !HasWildcard(s.db.leases[lid].scope.resource)
    requires m == State(s.db.(leases := s.db.leases[lid := OneMore(s.db.leases[lid])]), s.h.(uses := s.h.uses + [u]))
    ensures UsesKept(s, m)
  {
    ConsumedCounts(s, m, lid, u);
    assert lid in m.db.leases && m.h.uses[|s.h.uses|] == u;
    assert UseOk(m, |s.h.uses|);
  }

  lemma ConsumedKept(s: State, m: State, lid: Id, u: Use)
    requires Inv(s) && lid in s.db.leases && u.leaseId == lid && !u.sent
    requires s.db.leases[lid].status == Active && s.db.leases[lid].used < s.db.leases[lid].limit
    requires u.approvalId == s.db.leases[lid].approvalId && u.at < s.db.leases[lid].scope.expiresAt
    requires !HasWildcard(s.db.leases[lid].scope.resource)
    requires m == State(s.db.(leases := s.db.leases[lid := OneMore(s.db.leases[lid])]), s.h.(uses := s.h.uses + [u]))
    ensures MeterKept(s, m)
  {
    assert UsesKept(s, m) by {
      InvMeters(s);
      ConsumedUses(s, m, lid, u);
    }
    InvLease(s, lid);
    LeaseUpdated(s, m, lid);
  }

  lemma ConsumedCounts(s: State, m: State, lid: Id, u: Use)
    requires MetersOk(s) && lid in s.db.leases && u.leaseId == lid && !u.sent
    requires m.h == s.h.(uses := s.h.uses + [u])
    requires m.db.leases == s.db.leases[lid := OneMore(s.db.leases[lid])]
    ensures forall x :: x in m.db.leases ==> MeteredOk(m, x)
  {
    forall x | x in m.db.leases ensures MeteredOk(m, x) {
      assert MeteredOk(s, x);
      UseAppended(s.h.uses, u, x);
    }
  }

  lemma SpentCounts(s: State, m: State, k: nat, x: Sending)
    requires MetersOk(s) && k < |s.h.uses| && !s.h.uses[k].sent && x.leaseId == s.h.uses[k].leaseId
    requires m.h == s.h.(uses := s.h.uses[k := s.h.uses[k].(sent := true)], sends := s.h.sends + [x])
    requires m.db == s.db
    ensures forall l :: l in m.db.leases ==> MeteredOk(m, l)
  {
    forall l | l in m.db.leases ensures MeteredOk(m, l) {
      assert MeteredOk(s, l);
      UseSpent(s.h.uses, k, l);
      SendAppended(s.h.sends, x, l);
    }
  }
}
