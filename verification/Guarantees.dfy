/**
 What the protocol guarantees over whole runs: any interleaving of any number of threads, each of
 which may stop between any two of its acts.
 */
module Guarantees {
  import opened Results
  import opened Scopes
  import opened Tables
  import opened Protocol
  import opened Invariants
  import opened Stability
  import opened Steps
  import D = Decisions
  import I = Intents
  import R = Risk

  // ----- Reachable states -----

  lemma GenesisOk()
    ensures Inv(GENESIS)
  {
    forall t ensures InvFor(GENESIS, t) {
      assert Thr(GENESIS, t) == Thread(Idle, Off);
    }
  }

  lemma {:induction false} RunInv(run: Run, i: nat)
    requires Legal(run) && i <= |run.acts|
    ensures Inv(run.states[i])
  {
    if i == 0 {
      GenesisOk();
    } else {
      RunInv(run, i - 1);
      assert Taken(run, i - 1);
      ActKeeps(run.states[i - 1], run.acts[i - 1].thread, run.acts[i - 1].act);
    }
  }

  /** From any state of a run to any later one the tables only evolve. */
  lemma {:induction false} RunEvolves(run: Run, i: nat, j: nat)
    requires Legal(run) && i <= j <= |run.acts|
    ensures Evolves(run.states[i], run.states[j])
  {
    if i == j {
      EvolvesReflexive(run.states[i]);
    } else {
      RunEvolves(run, i, j - 1);
      RunInv(run, j - 1);
      assert Taken(run, j - 1);
      ActKeeps(run.states[j - 1], run.acts[j - 1].thread, run.acts[j - 1].act);
      EvolvesTransitive(run.states[i], run.states[j - 1], run.states[j]);
    }
  }

  // ----- Provenance: audit before authority -----

  /** The entry that has to stand in the ledger before the lease does. */
  function Warrant(s: State, lid: Id): Event
    requires lid in s.db.leases && lid in s.h.origin
  {
    var aid := s.db.leases[lid].approvalId;
    if aid == "" then AutoAllowedEvent(s.h.origin[lid]) else UserAllowedEvent(aid, s.h.origin[lid])
  }

  predicate IssuesLease(act: Act, lid: Id) {
    (act.IssueAuto? || act.IssueApproved?) && act.lid == lid
  }

  /** The two acts that issue leases are the only ones that create them, and they write no entry. */
  lemma HandleInserts(s: State, t: Tid, act: Act, lid: Id)
    requires HandleEnabled(s, t, act) && lid !in s.db.leases && lid in HandleApply(s, t, act).db.leases
    ensures IssuesLease(act, lid) && HandleApply(s, t, act).db.ledger == s.db.ledger
  {
  }

  lemma SettleInserts(s: State, t: Tid, act: Act, lid: Id)
    requires SettleEnabled(s, t, act) && lid !in s.db.leases && lid in SettleApply(s, t, act).db.leases
    ensures IssuesLease(act, lid) && SettleApply(s, t, act).db.ledger == s.db.ledger
  {
  }

  lemma CallInserts(s: State, t: Tid, act: Act)
    requires CallEnabled(s, t, act)
    ensures CallApply(s, t, act).db.leases.Keys == s.db.leases.Keys
  {
    match act
    case StartRun =>
    case CheckMeter(lid, requested) =>
    case Consume(at) => assert Thr(s, t).meter.leaseId in s.db.leases;
    case Exhaust => assert Thr(s, t).meter.leaseId in s.db.leases;
    case DropMeter =>
    case Send =>
    case NoteRun(succeeded) =>
    case FinishRun(ending) =>
  }

  lemma IntakeInserts(s: State, t: Tid, act: Act)
    requires IntakeEnabled(s, t, act)
    ensures IntakeApply(s, t, act).db.leases == s.db.leases
  {
  }

  lemma UpkeepInserts(s: State, t: Tid, act: Act)
    requires UpkeepEnabled(s, t, act)
    ensures UpkeepApply(s, t, act).db.leases.Keys == s.db.leases.Keys
  {
  }

  lemma OnlyIssuingInserts(s: State, t: Tid, act: Act, lid: Id)
    requires Enabled(s, t, act) && lid !in s.db.leases && lid in Apply(s, t, act).db.leases
    ensures IssuesLease(act, lid) && Apply(s, t, act).db.ledger == s.db.ledger
  {
    if IntakeEnabled(s, t, act) { IntakeInserts(s, t, act); }
    else if HandleEnabled(s, t, act) { HandleInserts(s, t, act, lid); }
    else if CallEnabled(s, t, act) { CallInserts(s, t, act); }
    else if SettleEnabled(s, t, act) { SettleInserts(s, t, act, lid); }
    else { UpkeepInserts(s, t, act); }
  }

  lemma LeaseHasWarrant(s: State, lid: Id)
    requires Inv(s) && lid in s.db.leases
    ensures lid in s.h.origin && Warrant(s, lid) in s.db.ledger
  {
    InvLease(s, lid);
  }

  /** Every lease was issued by one act of the run, and the entry that warrants it was on the ledger
      before that act: an automatic allow of its decision, or a person's consent to its approval. */
  lemma {:induction false} AuditBeforeAuthority(run: Run, j: nat, lid: Id) returns (i: nat)
    requires Legal(run) && j <= |run.acts| && lid in run.states[j].db.leases
    ensures i < j && IssuesLease(run.acts[i].act, lid)
    ensures lid !in run.states[i].db.leases && lid in run.states[i + 1].db.leases
    ensures lid in run.states[j].h.origin && Warrant(run.states[j], lid) in run.states[i].db.ledger
  {
    RunInv(run, j);
    LeaseHasWarrant(run.states[j], lid);
    if lid in run.states[j - 1].db.leases {
      i := AuditBeforeAuthority(run, j - 1, lid);
      RunInv(run, j - 1);
      LeaseHasWarrant(run.states[j - 1], lid);
      SameWarrant(run, j, lid);
    } else {
      i := j - 1;
      assert Taken(run, i);
      OnlyIssuingInserts(run.states[i], run.acts[i].thread, run.acts[i].act, lid);
    }
  }

  lemma SameWarrant(run: Run, j: nat, lid: Id)
    requires Legal(run) && 0 < j <= |run.acts|
    requires lid in run.states[j - 1].db.leases && lid in run.states[j - 1].h.origin
    ensures lid in run.states[j].db.leases && lid in run.states[j].h.origin
    ensures Warrant(run.states[j], lid) == Warrant(run.states[j - 1], lid)
  {
    RunEvolves(run, j - 1, j);
    assert LeaseEvolves(run.states[j - 1].db.leases[lid], run.states[j].db.leases[lid]);
  }

  /** A lease that carries an approval id belongs to an approval a person approved. */
  lemma LeaseOfApproved(run: Run, j: nat, lid: Id)
    requires Legal(run) && j <= |run.acts| && lid in run.states[j].db.leases
    requires run.states[j].db.leases[lid].approvalId != ""
    ensures var s, aid := run.states[j], run.states[j].db.leases[lid].approvalId;
      && aid in s.db.approvals && s.db.approvals[aid].status == ApprovalStatus.Approved
      && s.db.approvals[aid].action.Some? && Allows(s.db.approvals[aid].action.value)
      && lid in s.h.origin && s.h.origin[lid] == s.db.approvals[aid].decisionId
  {
    RunInv(run, j);
    InvLease(run.states[j], lid);
    InvApproval(run.states[j], run.states[j].db.leases[lid].approvalId);
  }

  // ----- Learning never widens -----

  /** A person approved, once and for the project, the decision with this scope. */
  ghost predicate HumanApproved(s: State, aid: Id, scope: Scope) {
    && aid in s.db.approvals && s.db.approvals[aid].status == ApprovalStatus.Approved
    && s.db.approvals[aid].action == Some(AutoAllowInProject)
    && s.db.approvals[aid].decisionId in s.db.decisions
    && s.db.decisions[s.db.approvals[aid].decisionId].scope == scope
    && UserAllowedEvent(aid, s.db.approvals[aid].decisionId) in s.db.ledger
  }

  /** A lease nobody confirmed, issued on a trust memory, lies inside a scope that the person who
      approved the memory saw: the chain approval, memory, decision, lease never widens. */
  lemma LearningNeverWidens(run: Run, j: nat, lid: Id) returns (mid: Id)
    requires Legal(run) && j <= |run.acts|
    requires lid in run.states[j].db.leases && run.states[j].db.leases[lid].approvalId == ""
    requires lid in run.states[j].h.origin && run.states[j].h.origin[lid] in run.states[j].db.decisions
    requires run.states[j].db.decisions[run.states[j].h.origin[lid]].reason == D.TrustMemoryMatch
    ensures var s := run.states[j];
      && mid in s.h.lessons && s.h.lessons[mid].behavior == AutoAllowBehavior
      && HumanApproved(s, s.h.lessons[mid].createdFrom, s.h.lessons[mid].scope)
      && CoversIgnoringWindow(s.h.lessons[mid].scope, s.db.leases[lid].scope)
  {
    var s := run.states[j];
    RunInv(run, j);
    InvLease(s, lid);
    InvDecision(s, s.h.origin[lid]);
    mid := s.db.decisions[s.h.origin[lid]].memoryId;
    InvLesson(s, mid);
  }

  lemma InvLesson(s: State, mid: Id)
    requires Inv(s) && mid in s.h.lessons
    ensures LessonOk(s, mid)
  {
    InvTables(s);
  }

  /** The same for whatever is inside a standing lease: coverage composes along the chain. */
  lemma ReuseNeverWidens(run: Run, j: nat, lid: Id, inner: Scope) returns (mid: Id)
    requires Legal(run) && j <= |run.acts|
    requires lid in run.states[j].db.leases && run.states[j].db.leases[lid].approvalId == ""
    requires lid in run.states[j].h.origin && run.states[j].h.origin[lid] in run.states[j].db.decisions
    requires run.states[j].db.decisions[run.states[j].h.origin[lid]].reason == D.TrustMemoryMatch
    requires CoversIgnoringWindow(run.states[j].db.leases[lid].scope, inner)
    ensures var s := run.states[j];
      && mid in s.h.lessons
      && HumanApproved(s, s.h.lessons[mid].createdFrom, s.h.lessons[mid].scope)
      && CoversIgnoringWindow(s.h.lessons[mid].scope, inner)
  {
    var s := run.states[j];
    mid := LearningNeverWidens(run, j, lid);
    RunInv(run, j);
    InvDecision(s, s.db.approvals[s.h.lessons[mid].createdFrom].decisionId);
    CoversIgnoringWindowTransitive(s.h.lessons[mid].scope, s.db.leases[lid].scope, inner);
  }

  /** What was learned only ever tightens: a memory keeps its scope and its approval, never goes back
      from asking to allowing, never becomes active again, and once cleared never returns. */
  lemma MemoryOnlyTightens(run: Run, i: nat, j: nat, mid: Id)
    requires Legal(run) && i <= j <= |run.acts|
    requires mid in run.states[i].h.lessons && mid in run.states[j].db.memories
    ensures mid in run.states[i].db.memories
    ensures var a, b := run.states[i].db.memories[mid], run.states[j].db.memories[mid];
      && b.scope == a.scope && b.createdFrom == a.createdFrom && b.riskCeiling == a.riskCeiling
      && (a.behavior == AlwaysAskBehavior ==> b.behavior == AlwaysAskBehavior)
      && (!a.active ==> !b.active) && b.expiresAt == a.expiresAt
  {
    RunEvolves(run, i, j);
  }

  // ----- How much one consent is worth -----

  /** The effective ConsumeLease statements among the first `j` acts. */
  ghost function ConsumesOf(run: Run, j: nat, lid: Id): nat
    requires Legal(run) && j <= |run.acts|
  {
    if j == 0 then 0
    else
      var e := run.acts[j - 1];
      var meter := Thr(run.states[j - 1], e.thread).meter;
      ConsumesOf(run, j - 1, lid) + (if e.act.Consume? && meter.Checked? && meter.leaseId == lid then 1 else 0)
  }

  lemma IntakeUsesSame(s: State, t: Tid, act: Act)
    requires IntakeEnabled(s, t, act)
    ensures IntakeApply(s, t, act).h.uses == s.h.uses
  {
  }

  lemma HandleUsesSame(s: State, t: Tid, act: Act)
    requires HandleEnabled(s, t, act)
    ensures HandleApply(s, t, act).h.uses == s.h.uses
  {
  }

  lemma SettleUsesSame(s: State, t: Tid, act: Act)
    requires SettleEnabled(s, t, act)
    ensures SettleApply(s, t, act).h.uses == s.h.uses
  {
  }

  lemma UpkeepUsesSame(s: State, t: Tid, act: Act)
    requires UpkeepEnabled(s, t, act)
    ensures UpkeepApply(s, t, act).h.uses == s.h.uses
  {
  }

  lemma CallUsesSame(s: State, t: Tid, act: Act, lid: Id)
    requires Inv(s) && CallEnabled(s, t, act) && !act.Consume?
    ensures UsesOf(CallApply(s, t, act).h.uses, lid) == UsesOf(s.h.uses, lid)
  {
    if act.Send? {
      InvThread(s, t);
      UseSpent(s.h.uses, Thr(s, t).meter.index, lid);
    } else {
      assert CallApply(s, t, act).h.uses == s.h.uses;
    }
  }

  lemma OtherUsesSame(s: State, t: Tid, act: Act, lid: Id)
    requires Inv(s) && Enabled(s, t, act) && !act.Consume?
    ensures UsesOf(Apply(s, t, act).h.uses, lid) == UsesOf(s.h.uses, lid)
  {
    if IntakeEnabled(s, t, act) { IntakeUsesSame(s, t, act); }
    else if HandleEnabled(s, t, act) { HandleUsesSame(s, t, act); }
    else if CallEnabled(s, t, act) { CallUsesSame(s, t, act, lid); }
    else if SettleEnabled(s, t, act) { SettleUsesSame(s, t, act); }
    else { UpkeepUsesSame(s, t, act); }
  }

  lemma OneStepCounts(s: State, t: Tid, act: Act, lid: Id)
    requires Inv(s) && Enabled(s, t, act)
    ensures UsesOf(Apply(s, t, act).h.uses, lid) ==
      UsesOf(s.h.uses, lid)
      + (if act.Consume? && Thr(s, t).meter.Checked? && Thr(s, t).meter.leaseId == lid then 1 else 0)
  {
    if act.Consume? { ConsumeCounts(s, t, act, lid); } else { OtherUsesSame(s, t, act, lid); }
  }

  lemma {:induction false} ConsumesAreUses(run: Run, j: nat, lid: Id)
    requires Legal(run) && j <= |run.acts|
    ensures ConsumesOf(run, j, lid) == UsesOf(run.states[j].h.uses, lid)
  {
    if j > 0 {
      ConsumesAreUses(run, j - 1, lid);
      RunInv(run, j - 1);
      assert Taken(run, j - 1);
      OneStepCounts(run.states[j - 1], run.acts[j - 1].thread, run.acts[j - 1].act, lid);
    }
  }

  /** The count of a lease is the number of times the run consumed it. */
  lemma CountIsConsumes(run: Run, j: nat, lid: Id)
    requires Legal(run) && j <= |run.acts| && lid in run.states[j].db.leases
    ensures run.states[j].db.leases[lid].used == ConsumesOf(run, j, lid)
  {
    ConsumesAreUses(run, j, lid);
    RunInv(run, j);
    InvLease(run.states[j], lid);
  }

  lemma ConsumeCounts(s: State, t: Tid, act: Act, lid: Id)
    requires Enabled(s, t, act) && act.Consume?
    ensures Thr(s, t).meter.Checked?
    ensures UsesOf(Apply(s, t, act).h.uses, lid) ==
            UsesOf(s.h.uses, lid) + (if Thr(s, t).meter.leaseId == lid then 1 else 0)
  {
    var meter := Thr(s, t).meter;
    var u := Use(meter.leaseId, s.db.leases[meter.leaseId].approvalId, act.at, t, false);
    assert Apply(s, t, act).h.uses == s.h.uses + [u];
    UseAppended(s.h.uses, u, lid);
  }

  /** Uses of leases that carry an approval are uses of its one lease. */
  lemma {:induction false} UsesOfOneLease(s: State, aid: Id, n: nat)
    requires Inv(s) && aid != "" && n <= |s.h.uses|
    ensures UsesFor(s.h.uses[..n], aid) == if aid in s.h.leaseOf then UsesOf(s.h.uses[..n], s.h.leaseOf[aid]) else 0
  {
    if n > 0 {
      UsesOfOneLease(s, aid, n - 1);
      assert s.h.uses[..n][..n - 1] == s.h.uses[..n - 1];
      var u := s.h.uses[n - 1];
      InvUse(s, n - 1);
      InvLease(s, u.leaseId);
      if aid in s.h.leaseOf { InvLeaseIndex(s, aid); }
    }
  }

  lemma InvUse(s: State, k: nat)
    requires Inv(s) && k < |s.h.uses|
    ensures UseOk(s, k)
  {
    InvTables(s);
  }

  lemma InvLeaseIndex(s: State, aid: Id)
    requires Inv(s) && aid in s.h.leaseOf
    ensures LeaseIndexOk(s, aid)
  {
    InvTables(s);
  }

  function Worth(action: Action): nat {
    if action == AllowUntilTaskEnd then TASK_REQUEST_LIMIT else DEFAULT_REQUEST_LIMIT
  }

  /** However the run interleaves, the leases of one approval are used at most once in total, or at
      most twenty times when the consent was allow_until_task_end. */
  lemma ConsentIsBounded(run: Run, j: nat, aid: Id)
    requires Legal(run) && j <= |run.acts| && aid in run.states[j].db.approvals
    ensures var s := run.states[j];
      var a := s.db.approvals[aid];
      UsesFor(s.h.uses, aid) <= if a.action.Some? && Allows(a.action.value) then Worth(a.action.value) else 0
  {
    var s := run.states[j];
    RunInv(run, j);
    InvApproval(s, aid);
    UsesOfOneLease(s, aid, |s.h.uses|);
    assert s.h.uses[..|s.h.uses|] == s.h.uses;
    if aid in s.h.leaseOf {
      InvLeaseIndex(s, aid);
      var lid := s.h.leaseOf[aid];
      InvLease(s, lid);
      InvDecision(s, s.h.origin[lid]);
    }
  }

  /** Every one of those uses happened within fifteen minutes of the decision. */
  lemma ConsentIsTimely(run: Run, j: nat, k: nat)
    requires Legal(run) && j <= |run.acts| && k < |run.states[j].h.uses|
    ensures var s := run.states[j];
      var u := s.h.uses[k];
      && u.leaseId in s.h.origin && s.h.origin[u.leaseId] in s.db.decisions
      && (u.approvalId != "" ==>
            u.approvalId in s.db.approvals && s.h.origin[u.leaseId] == s.db.approvals[u.approvalId].decisionId)
      && u.at < s.db.decisions[s.h.origin[u.leaseId]].createdAt + DEFAULT_DURATION
  {
    var s := run.states[j];
    var u := s.h.uses[k];
    RunInv(run, j);
    InvUse(s, k);
    InvLease(s, u.leaseId);
    InvDecision(s, s.h.origin[u.leaseId]);
  }

  // ----- Metering -----

  lemma {:induction false} NoUseWithWildcard(s: State, lid: Id, n: nat)
    requires Inv(s) && lid in s.db.leases && HasWildcard(s.db.leases[lid].scope.resource) && n <= |s.h.uses|
    ensures UsesOf(s.h.uses[..n], lid) == 0
  {
    if n > 0 {
      NoUseWithWildcard(s, lid, n - 1);
      assert s.h.uses[..n][..n - 1] == s.h.uses[..n - 1];
      InvUse(s, n - 1);
    }
  }

  /** A lease is never consumed beyond its limit, never while its scope has a wildcard, and never
      less often than requests went out under it. */
  lemma MeteringHolds(run: Run, j: nat, lid: Id)
    requires Legal(run) && j <= |run.acts| && lid in run.states[j].db.leases
    ensures var s := run.states[j];
      var row := s.db.leases[lid];
      && row.used <= row.limit && row.limit == row.scope.requestLimit
      && (row.status == Exhausted ==> row.used == row.limit)
      && UsesOf(s.h.uses, lid) == row.used
      && SendsOf(s.h.sends, lid) <= row.used
      && (HasWildcard(row.scope.resource) ==> row.used == 0)
      && row.expiresAt <= Stored(row.scope.expiresAt)
  {
    var s := run.states[j];
    RunInv(run, j);
    InvLease(s, lid);
    SentAtMostUsed(s.h.uses, lid);
    if HasWildcard(s.db.leases[lid].scope.resource) {
      NoUseWithWildcard(s, lid, |s.h.uses|);
      assert s.h.uses[..|s.h.uses|] == s.h.uses;
    }
  }

  /** Over time a lease keeps its scope, its limit and its approval; its expiry never grows, its
      count never falls, and once closed nothing about it ever changes. */
  lemma LeaseNeverReopens(run: Run, i: nat, j: nat, lid: Id)
    requires Legal(run) && i <= j <= |run.acts| && lid in run.states[i].db.leases
    ensures lid in run.states[j].db.leases
    ensures var a, b := run.states[i].db.leases[lid], run.states[j].db.leases[lid];
      && b.scope == a.scope && b.limit == a.limit && b.approvalId == a.approvalId
      && b.expiresAt <= a.expiresAt && a.used <= b.used
      && (a.status != Active ==> b == a)
  {
    RunEvolves(run, i, j);
    assert LeaseEvolves(run.states[i].db.leases[lid], run.states[j].db.leases[lid]);
  }

  // ----- Settled exactly once -----

  /** The step that takes an approval out of pending. */
  ghost predicate SettlesAt(run: Run, i: nat, aid: Id)
    requires i < |run.acts| && |run.states| == |run.acts| + 1
  {
    && aid in run.states[i].db.approvals && run.states[i].db.approvals[aid].status == Pending
    && aid in run.states[i + 1].db.approvals && run.states[i + 1].db.approvals[aid].status != Pending
  }

  lemma SettledForGood(run: Run, i: nat, j: nat, aid: Id)
    requires Legal(run) && i <= j <= |run.acts| && aid in run.states[i].db.approvals
    ensures aid in run.states[j].db.approvals
    ensures run.states[i].db.approvals[aid].status != Pending ==>
      run.states[j].db.approvals[aid] == run.states[i].db.approvals[aid]
  {
    RunEvolves(run, i, j);
    assert ApprovalEvolves(run.states[i].db.approvals[aid], run.states[j].db.approvals[aid]);
  }

  /** Among all the threads that settle or expire an approval, one step of the run does it. */
  lemma SettledOnce(run: Run, i: nat, j: nat, aid: Id)
    requires Legal(run) && i < |run.acts| && j < |run.acts|
    requires SettlesAt(run, i, aid) && SettlesAt(run, j, aid)
    ensures i == j
  {
    if i < j { SettledForGood(run, i + 1, j, aid); }
    if j < i { SettledForGood(run, j + 1, i, aid); }
  }

  /** A rejected, expired or still pending approval has no lease, and no approval has two. */
  lemma OneLeasePerApproval(run: Run, j: nat, l1: Id, l2: Id)
    requires Legal(run) && j <= |run.acts|
    requires l1 in run.states[j].db.leases && l2 in run.states[j].db.leases
    requires run.states[j].db.leases[l1].approvalId == run.states[j].db.leases[l2].approvalId != ""
    ensures l1 == l2
    ensures run.states[j].db.leases[l1].approvalId in run.states[j].db.approvals
    ensures run.states[j].db.approvals[run.states[j].db.leases[l1].approvalId].status == ApprovalStatus.Approved
  {
    RunInv(run, j);
    InvLease(run.states[j], l1);
    InvLease(run.states[j], l2);
  }

  /** The ledger records at most one consent per approval, and only for an approved one. */
  lemma OneConsentPerApproval(run: Run, j: nat, k1: nat, k2: nat)
    requires Legal(run) && j <= |run.acts|
    requires k1 < |run.states[j].db.ledger| && k2 < |run.states[j].db.ledger|
    requires run.states[j].db.ledger[k1].UserAllowedEvent? && run.states[j].db.ledger[k2].UserAllowedEvent?
    requires run.states[j].db.ledger[k1].approvalId == run.states[j].db.ledger[k2].approvalId
    ensures k1 == k2
    ensures var aid := run.states[j].db.ledger[k1].approvalId;
      aid in run.states[j].db.approvals && run.states[j].db.approvals[aid].status == ApprovalStatus.Approved
  {
    RunInv(run, j);
    InvLedger(run.states[j]);
  }

  // ----- Execution refines decision -----

  /** Whatever went out for a request is what that request's own decision recorded, even under an
      older lease; that decision allowed it without asking, and the ledger says so. */
  lemma ExecutionRefinesDecision(run: Run, j: nat, k: nat)
    requires Legal(run) && j <= |run.acts| && k < |run.states[j].h.sends|
    ensures var s := run.states[j];
      var x := s.h.sends[k];
      && x.requestId in s.db.requests && x.decisionId in s.db.decisions
      && s.db.decisions[x.decisionId].requestId == x.requestId
      && s.db.decisions[x.decisionId].verdict == D.AutoAllow
      && AutoAllowedEvent(x.decisionId) in s.db.ledger
      && var scope := s.db.decisions[x.decisionId].scope;
      && x.service == scope.service && x.operation == scope.operation
      && x.resource == scope.resource && x.identityId == scope.identityId
      && x.body == s.db.requests[x.requestId].desiredChange
      && x.leaseId in s.db.leases && CoversIgnoringWindow(s.db.leases[x.leaseId].scope, scope)
  {
    var s := run.states[j];
    RunInv(run, j);
    InvSend(s, k);
    InvDecision(s, s.h.sends[k].decisionId);
    InvIndexes(s);
  }

  /** Whatever went out is what its own request asked for: that request's service and operation, a
      resource taken from its fields, its change as the body, under a lease of its own agent and
      workspace; and whatever carries a change was assessed as a write. */
  lemma SentAsAsked(run: Run, j: nat, k: nat)
    requires Legal(run) && j <= |run.acts| && k < |run.states[j].h.sends|
    ensures var s := run.states[j];
      var x := s.h.sends[k];
      && x.requestId in s.db.requests && x.decisionId in s.db.decisions && x.leaseId in s.db.leases
      && var row, lease := s.db.requests[x.requestId], s.db.leases[x.leaseId];
      && x.service == row.service && x.operation == row.operation
      && I.TakenFrom(x.resource, row.fields) && x.body == row.desiredChange
      && lease.agentId == row.agentId && lease.scope.workspaceId == row.workspaceId
      && lease.service == row.service && lease.capability == row.operation
      && (R.ReadOnly in s.db.decisions[x.decisionId].factors <==> x.body == "")
  {
    var s := run.states[j];
    ExecutionRefinesDecision(run, j, k);
    RunInv(run, j);
    var x := s.h.sends[k];
    InvDecision(s, x.decisionId);
    InvLease(s, x.leaseId);
    CoveredAgrees(s.db.leases[x.leaseId].scope, s.db.decisions[x.decisionId].scope);
  }

  /** Every lease, however it was obtained, is for the agent, workspace, service, operation and
      resource that the request behind its decision named. */
  lemma LeaseAsAsked(run: Run, j: nat, lid: Id)
    requires Legal(run) && j <= |run.acts| && lid in run.states[j].db.leases
    ensures var s := run.states[j];
      && lid in s.h.origin && s.h.origin[lid] in s.db.decisions
      && s.db.decisions[s.h.origin[lid]].requestId in s.db.requests
      && var row, scope := s.db.requests[s.db.decisions[s.h.origin[lid]].requestId], s.db.leases[lid].scope;
      && scope.agentId == row.agentId && scope.workspaceId == row.workspaceId
      && scope.service == row.service && scope.operation == row.operation
      && I.TakenFrom(scope.resource, row.fields)
  {
    var s := run.states[j];
    RunInv(run, j);
    InvLease(s, lid);
    InvDecision(s, s.h.origin[lid]);
  }

  lemma InvSend(s: State, k: nat)
    requires Inv(s) && k < |s.h.sends|
    ensures SendOk(s, k)
  {
    InvTables(s);
  }

  /** A request that is executing, or has succeeded or failed, was decided auto_allow. */
  lemma OnlyAllowedExecute(run: Run, j: nat, rid: Id) returns (did: Id)
    requires Legal(run) && j <= |run.acts| && rid in run.states[j].db.requests
    requires ServedStatus(run.states[j].db.requests[rid].status)
    ensures var s := run.states[j];
      && did in s.db.decisions && s.db.decisions[did].requestId == rid
      && s.db.decisions[did].verdict == D.AutoAllow
      && !HasWildcard(s.db.decisions[did].scope.resource)
      && s.db.decisions[did].riskLevel in {Low, Medium}
  {
    var s := run.states[j];
    RunInv(run, j);
    InvRequest(s, rid);
    did := s.h.decisionOf[rid];
    InvDecision(s, did);
    InvIndexes(s);
  }

  /** No run leads from denied, or from any other way of being set aside, to executing. */
  lemma DeniedNeverExecutes(run: Run, i: nat, j: nat, rid: Id)
    requires Legal(run) && i <= j <= |run.acts| && rid in run.states[i].db.requests
    requires SetAside(run.states[i].db.requests[rid].status)
    ensures rid in run.states[j].db.requests && SetAside(run.states[j].db.requests[rid].status)
  {
    RunEvolves(run, i, j);
    assert RequestEvolves(run.states[i].db.requests[rid], run.states[j].db.requests[rid]);
  }

  /** A decision, once written, never changes, and there is one per request. */
  lemma DecidedForGood(run: Run, i: nat, j: nat, did: Id)
    requires Legal(run) && i <= j <= |run.acts| && did in run.states[i].db.decisions
    ensures did in run.states[j].db.decisions && run.states[j].db.decisions[did] == run.states[i].db.decisions[did]
    ensures forall d :: d in run.states[j].db.decisions ==>
      (run.states[j].db.decisions[d].requestId == run.states[i].db.decisions[did].requestId ==> d == did)
  {
    RunEvolves(run, i, j);
    RunInv(run, j);
    forall d | d in run.states[j].db.decisions
      && run.states[j].db.decisions[d].requestId == run.states[i].db.decisions[did].requestId
      ensures d == did
    {
      InvDecision(run.states[j], d);
      InvDecision(run.states[j], did);
    }
  }

  /** The ledger is append-only. */
  lemma LedgerOnlyGrows(run: Run, i: nat, j: nat)
    requires Legal(run) && i <= j <= |run.acts|
    ensures run.states[i].db.ledger <= run.states[j].db.ledger
  {
    RunEvolves(run, i, j);
  }
}
