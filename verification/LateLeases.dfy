/**
 What a disconnect leaves behind when other threads are at work: which leases of an identity, or of the
 session of an agent, can still appear once it was cut off, and when none can.
 */
module LateLeases {
  import opened Results
  import opened Scopes
  import opened Tables
  import opened Protocol
  import opened Invariants
  import opened Stability
  import opened Steps
  import opened Guarantees
  import opened Stores
  import opened Leasing
  import opened Approving
  import D = Decisions
  import I = Intents

  /** What is cut off: an identity, or the session of an agent. */
  datatype Subject = IdentityOf(identityId: Id) | SessionOf(agentId: Id)

  predicate Names(subject: Subject, scope: Scope) {
    match subject
    case IdentityOf(iid) => scope.identityId == iid
    case SessionOf(agent) => scope.agentId == agent
  }

  /** The leases the cascade of the subject takes back. */
  predicate Under(subject: Subject, row: Lease) {
    match subject
    case IdentityOf(iid) => row.identityId == iid
    case SessionOf(agent) => row.agentId == agent && row.sessionBound
  }

  /** An outcome that can lead to such a lease: a new automatic one is never bound to a session. */
  predicate Opens(subject: Subject, o: D.Outcome) {
    || o.verdict == D.RequireApproval
    || (o.verdict == D.AutoAllow && o.matchedLeaseId == "" && subject.IdentityOf?)
  }

  predicate Grants(subject: Subject, action: Action) {
    Allows(action) && (subject.SessionOf? ==> SessionBound(action))
  }

  // ----- Who can still issue -----

  /** A thread holds a plan, a decision or a consent that names the subject, and its window is open: now,
      or when the entry that issuing waits for was written. */
  ghost predicate PoisedAt(s: State, pc: Pc, subject: Subject) {
    match pc
    case Assembled(rid, plan) =>
      && Names(subject, plan.scope) && Opens(subject, plan.outcome)
      && rid !in s.h.decisionOf && plan.scope.expiresAt > s.db.now
    case Decided(rid, did, o) => PoisedOn(s, did, o, s.db.now, subject)
    case Noted(rid, did, o, since) =>
      PoisedOn(s, did, o, if o.verdict == D.AutoAllow then since else s.db.now, subject)
    case Won(aid, action, from) => PoisedBy(s, aid, action, s.db.now, subject)
    case Booked(aid, action, from, since) => PoisedBy(s, aid, action, since, subject)
    case _ => false
  }

  ghost predicate PoisedOn(s: State, did: Id, o: D.Outcome, at: Instant, subject: Subject) {
    && did in s.db.decisions && Names(subject, s.db.decisions[did].scope) && Opens(subject, o)
    && NoApprovalOn(s.db.approvals, did) && s.db.decisions[did].scope.expiresAt > at
  }

  ghost predicate PoisedBy(s: State, aid: Id, action: Action, at: Instant, subject: Subject) {
    && Known(s, aid) && Names(subject, DecisionFor(s, aid).scope) && Grants(subject, action)
    && NoLeaseOn(s.db.leases, aid) && DecisionFor(s, aid).scope.expiresAt > at
  }

  ghost predicate PoisedThread(s: State, t: Tid, subject: Subject) {
    PoisedAt(s, Thr(s, t).pc, subject)
  }

  /** A person can still allow it. */
  ghost predicate Awaits(s: State, aid: Id, subject: Subject) {
    && Known(s, aid) && s.db.approvals[aid].status == Pending
    && Names(subject, DecisionFor(s, aid).scope) && DecisionFor(s, aid).scope.expiresAt > s.db.now
  }

  ghost predicate Poised(s: State, subject: Subject) {
    (exists t :: PoisedThread(s, t, subject)) || (exists aid :: Awaits(s, aid, subject))
  }

  // ----- Nothing poised: nothing issued without a new plan -----

  predicate Plans(act: Act, subject: Subject) {
    act.Assemble? && Names(subject, act.plan.scope)
  }

  lemma NoApprovalBefore(a: Db, b: Db, did: Id)
    requires DbEvolves(a, b) && NoApprovalOn(b.approvals, did)
    ensures NoApprovalOn(a.approvals, did)
  {
    forall x | x in a.approvals ensures a.approvals[x].decisionId != did {
      assert ApprovalEvolves(a.approvals[x], b.approvals[x]);
    }
  }

  lemma NoLeaseBefore(a: Db, b: Db, aid: Id)
    requires DbEvolves(a, b) && NoLeaseOn(b.leases, aid)
    ensures NoLeaseOn(a.leases, aid)
  {
    forall x | x in a.leases ensures a.leases[x].approvalId != aid {
      assert LeaseEvolves(a.leases[x], b.leases[x]);
    }
  }

  lemma PoisedOnBefore(a: State, b: State, did: Id, o: D.Outcome, at: Instant, later: Instant, subject: Subject)
    requires Evolves(a, b) && did in a.db.decisions && at <= later && PoisedOn(b, did, o, later, subject)
    ensures PoisedOn(a, did, o, at, subject)
  {
    NoApprovalBefore(a.db, b.db, did);
  }

  lemma PoisedByBefore(a: State, b: State, aid: Id, action: Action, at: Instant, later: Instant, subject: Subject)
    requires Evolves(a, b) && Known(a, aid) && at <= later && PoisedBy(b, aid, action, later, subject)
    ensures PoisedBy(a, aid, action, at, subject)
  {
    KnownStays(a, b, aid);
    NoLeaseBefore(a.db, b.db, aid);
  }

  /** Whoever stands where it stood is poised only if it was. */
  lemma PoisedBefore(a: State, b: State, t: Tid, subject: Subject)
    requires Inv(a) && Evolves(a, b) && Thr(b, t).pc == Thr(a, t).pc && PoisedThread(b, t, subject)
    ensures PoisedThread(a, t, subject)
  {
    InvThread(a, t);
    match Thr(a, t).pc
    case Decided(rid, did, o) => PoisedOnBefore(a, b, did, o, a.db.now, b.db.now, subject);
    case Noted(rid, did, o, since) =>
      if o.verdict == D.AutoAllow { PoisedOnBefore(a, b, did, o, since, since, subject); }
      else { PoisedOnBefore(a, b, did, o, a.db.now, b.db.now, subject); }
    case Won(aid, action, from) =>
      ApprovalKnown(a, aid);
      PoisedByBefore(a, b, aid, action, a.db.now, b.db.now, subject);
    case Booked(aid, action, from, since) =>
      ApprovalKnown(a, aid);
      PoisedByBefore(a, b, aid, action, since, since, subject);
    case _ =>
  }

  lemma AwaitedBefore(a: State, b: State, aid: Id, subject: Subject)
    requires Inv(a) && Evolves(a, b) && aid in a.db.approvals && Awaits(b, aid, subject)
    ensures Awaits(a, aid, subject)
  {
    ApprovalKnown(a, aid);
    KnownStays(a, b, aid);
    assert ApprovalEvolves(a.db.approvals[aid], b.db.approvals[aid]);
  }

  // Steps that move their own thread.

  lemma RecordedFrom(s: State, t: Tid, did: Id, at: Instant, subject: Subject)
    requires Inv(s) && CanRecordDecision(s, t, did, at)
    requires PoisedThread(DoRecordDecision(s, t, did, at), t, subject)
    ensures PoisedThread(s, t, subject)
  {
    InvIndexes(s);
  }

  lemma NotedFrom(s: State, t: Tid, subject: Subject)
    requires Inv(s) && CanNoteVerdict(s, t) && PoisedThread(DoNoteVerdict(s, t), t, subject)
    ensures PoisedThread(s, t, subject)
  {
  }

  lemma WonFrom(s: State, t: Tid, at: Instant, subject: Subject)
    requires Inv(s) && CanSettleWin(s, t, at) && PoisedThread(DoSettleWin(s, t, at), t, subject)
    ensures Awaits(s, Thr(s, t).pc.approvalId, subject)
  {
    ApprovalKnown(s, Thr(s, t).pc.approvalId);
  }

  lemma BookedFrom(s: State, t: Tid, subject: Subject)
    requires Inv(s) && CanBookSettlement(s, t) && PoisedThread(DoBookSettlement(s, t), t, subject)
    ensures PoisedThread(s, t, subject)
  {
  }

  /** Any other step leaves its thread where it was, or nowhere near issuing. */
  lemma HandleMove(s: State, t: Tid, act: Act, subject: Subject)
    requires HandleEnabled(s, t, act) && !Plans(act, subject) && !act.RecordDecision? && !act.NoteVerdict?
    ensures !PoisedThread(HandleApply(s, t, act), t, subject)
  {
  }

  lemma SettleMove(s: State, t: Tid, act: Act, subject: Subject)
    requires SettleEnabled(s, t, act) && !act.SettleWin? && !act.BookSettlement?
    ensures var b := SettleApply(s, t, act); Thr(b, t).pc == Thr(s, t).pc || !PoisedThread(b, t, subject)
  {
  }

  lemma CallMove(s: State, t: Tid, act: Act)
    requires CallEnabled(s, t, act)
    ensures var pc := Thr(CallApply(s, t, act), t).pc; pc == Thr(s, t).pc || pc.Running? || pc.Sent? || pc.Idle?
  {
  }

  lemma HandleFrom(s: State, t: Tid, act: Act, subject: Subject)
    requires Inv(s) && HandleEnabled(s, t, act) && !Plans(act, subject)
    requires PoisedThread(HandleApply(s, t, act), t, subject)
    ensures PoisedThread(s, t, subject)
  {
    if act.RecordDecision? { RecordedFrom(s, t, act.did, act.at, subject); }
    else if act.NoteVerdict? { NotedFrom(s, t, subject); }
    else { HandleMove(s, t, act, subject); }
  }

  lemma CallFrom(s: State, t: Tid, act: Act, subject: Subject)
    requires Inv(s) && CallEnabled(s, t, act) && Evolves(s, CallApply(s, t, act))
    requires PoisedThread(CallApply(s, t, act), t, subject)
    ensures PoisedThread(s, t, subject)
  {
    CallMove(s, t, act);
    PoisedBefore(s, CallApply(s, t, act), t, subject);
  }

  lemma SettleFrom(s: State, t: Tid, act: Act, subject: Subject)
    requires Inv(s) && SettleEnabled(s, t, act) && Evolves(s, SettleApply(s, t, act))
    requires PoisedThread(SettleApply(s, t, act), t, subject)
    ensures Poised(s, subject)
  {
    if act.SettleWin? { WonFrom(s, t, act.at, subject); }
    else if act.BookSettlement? { BookedFrom(s, t, subject); }
    else {
      SettleMove(s, t, act, subject);
      PoisedBefore(s, SettleApply(s, t, act), t, subject);
    }
  }

  lemma IntakeThreads(s: State, t: Tid, act: Act)
    requires IntakeEnabled(s, t, act)
    ensures IntakeApply(s, t, act).h.threads == s.h.threads
  {
  }

  lemma UpkeepThreads(s: State, t: Tid, act: Act)
    requires UpkeepEnabled(s, t, act)
    ensures UpkeepApply(s, t, act).h.threads == s.h.threads
  {
  }

  /** The step of a thread that becomes poised was taken where something was poised. */
  lemma MovedFrom(s: State, t: Tid, act: Act, subject: Subject)
    requires Inv(s) && Enabled(s, t, act) && Evolves(s, Apply(s, t, act)) && !Plans(act, subject)
    requires PoisedThread(Apply(s, t, act), t, subject)
    ensures Poised(s, subject)
  {
    if IntakeEnabled(s, t, act) {
      IntakeThreads(s, t, act);
      PoisedBefore(s, Apply(s, t, act), t, subject);
    }
    else if HandleEnabled(s, t, act) { HandleFrom(s, t, act, subject); }
    else if CallEnabled(s, t, act) { CallFrom(s, t, act, subject); }
    else if SettleEnabled(s, t, act) { SettleFrom(s, t, act, subject); }
    else {
      UpkeepThreads(s, t, act);
      PoisedBefore(s, Apply(s, t, act), t, subject);
    }
  }

  // Approvals that wait.

  lemma OpenedFrom(s: State, t: Tid, aid: Id, deadline: int, subject: Subject)
    requires Inv(s) && CanOpenApproval(s, t, aid, deadline) && Awaits(DoOpenApproval(s, t, aid, deadline), aid, subject)
    ensures PoisedThread(s, t, subject)
  {
    InvThread(s, t);
  }

  lemma HandleOpens(s: State, t: Tid, act: Act, aid: Id)
    requires HandleEnabled(s, t, act) && aid in HandleApply(s, t, act).db.approvals && aid !in s.db.approvals
    ensures act.OpenApproval? && act.aid == aid
  {
  }

  lemma CallOpensNone(s: State, t: Tid, act: Act)
    requires CallEnabled(s, t, act)
    ensures CallApply(s, t, act).db.approvals == s.db.approvals
  {
  }

  lemma SettleOpensNone(s: State, t: Tid, act: Act)
    requires SettleEnabled(s, t, act)
    ensures SettleApply(s, t, act).db.approvals.Keys <= s.db.approvals.Keys
  {
  }

  lemma IntakeOpensNone(s: State, t: Tid, act: Act)
    requires IntakeEnabled(s, t, act)
    ensures IntakeApply(s, t, act).db.approvals == s.db.approvals
  {
  }

  lemma UpkeepOpensNone(s: State, t: Tid, act: Act)
    requires UpkeepEnabled(s, t, act)
    ensures UpkeepApply(s, t, act).db.approvals == s.db.approvals
  {
  }

  lemma OnlyOpeningOpens(s: State, t: Tid, act: Act, aid: Id)
    requires Enabled(s, t, act) && aid in Apply(s, t, act).db.approvals && aid !in s.db.approvals
    ensures HandleEnabled(s, t, act) && act.OpenApproval? && act.aid == aid
  {
    if IntakeEnabled(s, t, act) { IntakeOpensNone(s, t, act); }
    else if HandleEnabled(s, t, act) { HandleOpens(s, t, act, aid); }
    else if CallEnabled(s, t, act) { CallOpensNone(s, t, act); }
    else if SettleEnabled(s, t, act) { SettleOpensNone(s, t, act); }
    else { UpkeepOpensNone(s, t, act); }
  }

  lemma AwaitedFrom(s: State, t: Tid, act: Act, aid: Id, subject: Subject)
    requires Inv(s) && Enabled(s, t, act) && Evolves(s, Apply(s, t, act)) && Awaits(Apply(s, t, act), aid, subject)
    ensures Poised(s, subject)
  {
    if aid in s.db.approvals {
      AwaitedBefore(s, Apply(s, t, act), aid, subject);
    } else {
      OnlyOpeningOpens(s, t, act, aid);
      OpenedFrom(s, t, aid, act.deadline, subject);
    }
  }

  lemma StaysUnpoised(s: State, t: Tid, act: Act, subject: Subject)
    requires Inv(s) && Enabled(s, t, act) && !Plans(act, subject) && !Poised(s, subject)
    ensures !Poised(Apply(s, t, act), subject)
  {
    var b := Apply(s, t, act);
    ActKeeps(s, t, act);
    forall u ensures !PoisedThread(b, u, subject) {
      if PoisedThread(b, u, subject) {
        if u == t { MovedFrom(s, t, act, subject); } else { PoisedBefore(s, b, u, subject); }
      }
    }
    forall aid ensures !Awaits(b, aid, subject) {
      if Awaits(b, aid, subject) { AwaitedFrom(s, t, act, aid, subject); }
    }
  }

  // Leases that appear.

  lemma AutoFrom(s: State, t: Tid, lid: Id, at: Instant, subject: Subject)
    requires Inv(s) && CanIssueAuto(s, t, lid, at)
    requires Under(subject, DoIssueAuto(s, t, lid, at).db.leases[lid])
    ensures PoisedThread(s, t, subject)
  {
    InvThread(s, t);
    var did := Thr(s, t).pc.decisionId;
    forall a | a in s.db.approvals ensures s.db.approvals[a].decisionId != did {
      InvApproval(s, a);
    }
  }

  lemma ApprovedFrom(s: State, t: Tid, lid: Id, at: Instant, subject: Subject)
    requires Inv(s) && CanIssueApproved(s, t, lid, at)
    requires Under(subject, DoIssueApproved(s, t, lid, at).db.leases[lid])
    ensures PoisedThread(s, t, subject)
  {
  }

  lemma IssuedFrom(s: State, t: Tid, act: Act, lid: Id, subject: Subject)
    requires Inv(s) && Enabled(s, t, act) && lid !in s.db.leases
    requires lid in Apply(s, t, act).db.leases && Under(subject, Apply(s, t, act).db.leases[lid])
    ensures PoisedThread(s, t, subject)
  {
    OnlyIssuingInserts(s, t, act, lid);
    if act.IssueAuto? { AutoFrom(s, t, lid, act.at, subject); } else { ApprovedFrom(s, t, lid, act.at, subject); }
  }

  /** No act of the run from its `i`-th on plans for the subject. */
  ghost predicate NoPlanSince(run: Run, i: nat, subject: Subject) {
    forall k :: i <= k < |run.acts| ==> !Plans(run.acts[k].act, subject)
  }

  /** Where nothing is poised, nothing becomes poised and no lease of the subject appears, whatever any
      threads do, until somebody plans for it anew. */
  lemma {:induction false} NothingLate(run: Run, i: nat, j: nat, subject: Subject)
    requires Legal(run) && i <= j <= |run.acts|
    requires !Poised(run.states[i], subject) && NoPlanSince(run, i, subject)
    ensures !Poised(run.states[j], subject)
    ensures forall lid :: lid in run.states[j].db.leases && Under(subject, run.states[j].db.leases[lid]) ==>
      lid in run.states[i].db.leases
  {
    if i < j {
      NothingLate(run, i, j - 1, subject);
      NothingLateOnce(run, j - 1, subject);
    }
  }

  lemma NothingLateOnce(run: Run, k: nat, subject: Subject)
    requires Legal(run) && k < |run.acts| && !Poised(run.states[k], subject) && !Plans(run.acts[k].act, subject)
    ensures !Poised(run.states[k + 1], subject)
    ensures forall lid :: lid in run.states[k + 1].db.leases && Under(subject, run.states[k + 1].db.leases[lid]) ==>
      lid in run.states[k].db.leases && Under(subject, run.states[k].db.leases[lid])
  {
    var a, b, e := run.states[k], run.states[k + 1], run.acts[k];
    RunInv(run, k);
    assert Taken(run, k);
    StaysUnpoised(a, e.thread, e.act, subject);
    RunEvolves(run, k, k + 1);
    forall lid | lid in b.db.leases && Under(subject, b.db.leases[lid])
      ensures lid in a.db.leases && Under(subject, a.db.leases[lid])
    {
      if lid in a.db.leases {
        assert LeaseEvolves(a.db.leases[lid], b.db.leases[lid]);
      } else {
        IssuedFrom(a, e.thread, e.act, lid, subject);
      }
    }
  }

  // ----- Something poised: a lease can follow without a new plan -----

  /** `longer` continues `run`, and nobody plans anything in between. */
  ghost predicate Quietly(run: Run, longer: Run) {
    && Legal(longer) && Continues(run, longer) && |run.acts| <= |longer.acts|
    && forall k :: |run.acts| <= k < |longer.acts| ==> !longer.acts[k].act.Assemble?
  }

  /** After `run` and without a new plan the lease was issued, and it is active. */
  ghost predicate LateLease(run: Run, longer: Run, lid: Id, subject: Subject)
    requires Legal(run)
  {
    && Quietly(run, longer) && lid !in Last(run).db.leases && lid in Last(longer).db.leases
    && Under(subject, Last(longer).db.leases[lid]) && Last(longer).db.leases[lid].status == Active
  }

  lemma NextQuietly(run: Run, t: Tid, act: Act) returns (longer: Run)
    requires Legal(run) && Enabled(Last(run), t, act) && !act.Assemble?
    ensures Quietly(run, longer) && Last(longer) == Apply(Last(run), t, act)
  {
    longer := Next(run, t, act);
  }

  lemma LaterStill(run: Run, mid: Run, longer: Run, lid: Id, subject: Subject)
    requires Legal(run) && Quietly(run, mid) && LateLease(mid, longer, lid, subject)
    ensures LateLease(run, longer, lid, subject)
  {
    LaterEvolves(run, mid);
    ContinuesTransitive(run, mid, longer);
    forall k | |run.acts| <= k < |longer.acts| ensures !longer.acts[k].act.Assemble? {
      assert Repeats(mid, longer, k);
    }
  }

  lemma FreshLeaseId(leases: map<Id, Lease>) returns (lid: Id)
    ensures lid != "" && lid !in leases
  {
    lid := FreshString(leases.Keys + {""});
  }

  lemma ScopeOfDecision(s: State, did: Id)
    requires Inv(s) && did in s.db.decisions
    ensures Validates(s.db.decisions[did].scope) && s.db.decisions[did].scope.notBefore <= s.db.now
  {
    InvDecision(s, did);
  }

  lemma BookedMayIssue(s: State, t: Tid, subject: Subject, lid: Id)
    requires Inv(s) && Thr(s, t).pc.Booked? && PoisedThread(s, t, subject) && lid != "" && lid !in s.db.leases
    ensures CanIssueApproved(s, t, lid, Thr(s, t).pc.since)
  {
    var pc := Thr(s, t).pc;
    ApprovalKnown(s, pc.approvalId);
    ScopeOfDecision(s, s.db.approvals[pc.approvalId].decisionId);
    InvThread(s, t);
  }

  lemma BookedIssues(run: Run, t: Tid, subject: Subject) returns (longer: Run, lid: Id)
    requires Legal(run) && Thr(Last(run), t).pc.Booked? && PoisedThread(Last(run), t, subject)
    ensures LateLease(run, longer, lid, subject)
  {
    var s := Last(run);
    var pc := Thr(s, t).pc;
    RunInv(run, |run.acts|);
    lid := FreshLeaseId(s.db.leases);
    BookedMayIssue(s, t, subject, lid);
    longer := NextQuietly(run, t, IssueApproved(lid, pc.since));
  }

  lemma WonIssues(run: Run, t: Tid, subject: Subject) returns (longer: Run, lid: Id)
    requires Legal(run) && Thr(Last(run), t).pc.Won? && PoisedThread(Last(run), t, subject)
    ensures LateLease(run, longer, lid, subject)
  {
    var mid := NextQuietly(run, t, BookSettlement);
    longer, lid := BookedIssues(mid, t, subject);
    LaterStill(run, mid, longer, lid, subject);
  }

  lemma PendingUnleased(s: State, aid: Id)
    requires Inv(s) && aid in s.db.approvals && s.db.approvals[aid].status == Pending
    ensures NoLeaseOn(s.db.leases, aid)
  {
    InvApproval(s, aid);
    forall l | l in s.db.leases ensures s.db.leases[l].approvalId != aid {
      InvLease(s, l);
    }
  }

  lemma IdleThread(s: State) returns (t: Tid)
    ensures Thr(s, t) == Thread(Idle, Off)
  {
    t := BeyondAll(s.h.threads.Keys);
  }

  lemma {:induction false} BeyondAll(tids: set<Tid>) returns (t: Tid)
    ensures forall u :: u in tids ==> u < t
    decreases |tids|
  {
    if tids == {} {
      t := 0;
    } else {
      var u :| u in tids;
      var low := BeyondAll(tids - {u});
      t := if low <= u then u + 1 else low;
      forall v | v in tids ensures v < t {
        if v != u { assert v in tids - {u}; }
      }
    }
  }

  /** A person allows it by allow_until_task_end, which every risk level offers. */
  lemma AwaitedIssues(run: Run, aid: Id, subject: Subject) returns (longer: Run, lid: Id)
    requires Legal(run) && Awaits(Last(run), aid, subject)
    ensures LateLease(run, longer, lid, subject)
  {
    var won, t := AwaitedWins(run, aid, subject);
    longer, lid := WonIssues(won, t, subject);
    LaterStill(run, won, longer, lid, subject);
  }

  lemma AwaitedWins(run: Run, aid: Id, subject: Subject) returns (won: Run, t: Tid)
    requires Legal(run) && Awaits(Last(run), aid, subject)
    ensures Quietly(run, won) && Thr(Last(won), t).pc.Won? && PoisedThread(Last(won), t, subject)
  {
    var s := Last(run);
    RunInv(run, |run.acts|);
    PendingUnleased(s, aid);
    t := IdleThread(s);
    var level := DecisionFor(s, aid).riskLevel;
    assert Actions(level)[2] == AllowUntilTaskEnd;
    var mid := NextQuietly(run, t, Review(aid, AllowUntilTaskEnd, AwaitingApproval));
    won := NextQuietly(mid, t, SettleWin(s.db.now));
    QuietlyTransitive(run, mid, won);
  }

  lemma QuietlyTransitive(a: Run, b: Run, c: Run)
    requires Quietly(a, b) && Quietly(b, c)
    ensures Quietly(a, c)
  {
    ContinuesTransitive(a, b, c);
    forall k | |a.acts| <= k < |c.acts| ensures !c.acts[k].act.Assemble? {
      assert Repeats(b, c, k);
    }
  }

  lemma NotedIssues(run: Run, t: Tid, subject: Subject) returns (longer: Run, lid: Id)
    requires Legal(run) && Thr(Last(run), t).pc.Noted? && PoisedThread(Last(run), t, subject)
    ensures LateLease(run, longer, lid, subject)
  {
    var s := Last(run);
    var pc := Thr(s, t).pc;
    if pc.outcome.verdict == D.AutoAllow {
      longer, lid := AllowedIssues(run, t, subject);
    } else {
      var aid := FreshString(s.db.approvals.Keys + {""});
      assert CanOpenApproval(s, t, aid, 0);
      var mid := NextQuietly(run, t, OpenApproval(aid, 0));
      OpenedAwaits(run, t, aid, subject);
      longer, lid := AwaitedIssues(mid, aid, subject);
      LaterStill(run, mid, longer, lid, subject);
    }
  }

  lemma OpenedAwaits(run: Run, t: Tid, aid: Id, subject: Subject)
    requires Legal(run) && CanOpenApproval(Last(run), t, aid, 0) && PoisedThread(Last(run), t, subject)
    ensures Awaits(DoOpenApproval(Last(run), t, aid, 0), aid, subject)
  {
    RunInv(run, |run.acts|);
    InvDecision(Last(run), Thr(Last(run), t).pc.decisionId);
  }

  lemma AllowedIssues(run: Run, t: Tid, subject: Subject) returns (longer: Run, lid: Id)
    requires Legal(run) && AutoPc(Thr(Last(run), t).pc) && PoisedThread(Last(run), t, subject)
    ensures LateLease(run, longer, lid, subject)
  {
    var s := Last(run);
    var pc := Thr(s, t).pc;
    RunInv(run, |run.acts|);
    ScopeOfDecision(s, pc.decisionId);
    InvThread(s, t);
    lid := FreshLeaseId(s.db.leases);
    assert CanIssueAuto(s, t, lid, pc.since);
    longer := NextQuietly(run, t, IssueAuto(lid, pc.since));
  }

  lemma DecidedIssues(run: Run, t: Tid, subject: Subject) returns (longer: Run, lid: Id)
    requires Legal(run) && Thr(Last(run), t).pc.Decided? && PoisedThread(Last(run), t, subject)
    ensures LateLease(run, longer, lid, subject)
  {
    var mid := NextQuietly(run, t, NoteVerdict);
    longer, lid := NotedIssues(mid, t, subject);
    LaterStill(run, mid, longer, lid, subject);
  }

  lemma AssembledIssues(run: Run, t: Tid, subject: Subject) returns (longer: Run, lid: Id)
    requires Legal(run) && Thr(Last(run), t).pc.Assembled? && PoisedThread(Last(run), t, subject)
    ensures LateLease(run, longer, lid, subject)
  {
    var s := Last(run);
    RunInv(run, |run.acts|);
    var did := FreshString(s.db.decisions.Keys);
    AssembledRecords(s, t, did, subject);
    var mid := NextQuietly(run, t, RecordDecision(did, s.db.now));
    longer, lid := DecidedIssues(mid, t, subject);
    LaterStill(run, mid, longer, lid, subject);
  }

  lemma AssembledRecords(s: State, t: Tid, did: Id, subject: Subject)
    requires Inv(s) && Thr(s, t).pc.Assembled? && PoisedThread(s, t, subject) && did !in s.db.decisions
    ensures CanRecordDecision(s, t, did, s.db.now)
    ensures PoisedThread(DoRecordDecision(s, t, did, s.db.now), t, subject)
  {
    InvThread(s, t);
    forall d | d in s.db.decisions ensures s.db.decisions[d].requestId != Thr(s, t).pc.requestId {
      InvDecision(s, d);
    }
    forall a | a in s.db.approvals ensures s.db.approvals[a].decisionId != did {
      InvApproval(s, a);
    }
  }

  lemma PoisedIssues(run: Run, subject: Subject) returns (longer: Run, lid: Id)
    requires Legal(run) && Poised(Last(run), subject)
    ensures LateLease(run, longer, lid, subject)
  {
    if t :| PoisedThread(Last(run), t, subject) {
      var pc := Thr(Last(run), t).pc;
      if pc.Assembled? { longer, lid := AssembledIssues(run, t, subject); }
      else if pc.Decided? { longer, lid := DecidedIssues(run, t, subject); }
      else if pc.Noted? { longer, lid := NotedIssues(run, t, subject); }
      else if pc.Won? { longer, lid := WonIssues(run, t, subject); }
      else { longer, lid := BookedIssues(run, t, subject); }
    } else {
      var aid :| Awaits(Last(run), aid, subject);
      longer, lid := AwaitedIssues(run, aid, subject);
    }
  }

  /** From any moment of any run, a new lease of the subject can appear without a new plan exactly when,
      at that moment, a thread holds a plan, decision or consent that names it, or an approval that names
      it is pending, with the window still open. */
  lemma LateLeaseExactly(run: Run, subject: Subject)
    requires Legal(run)
    ensures (exists longer, lid :: LateLease(run, longer, lid, subject)) <==> Poised(Last(run), subject)
  {
    if Poised(Last(run), subject) {
      var longer, lid := PoisedIssues(run, subject);
      assert LateLease(run, longer, lid, subject);
    }
    if longer, lid :| LateLease(run, longer, lid, subject) {
      if !Poised(Last(run), subject) {
        assert Repeats(run, longer, |run.acts|);
        NothingLate(longer, |run.acts|, |longer.acts|, subject);
      }
    }
  }

  // ----- What a cascade finds and leaves -----

  function ActiveUnder(rows: map<Id, Lease>, subject: Subject): set<Id> {
    set l | l in rows && rows[l].status == Active && Under(subject, rows[l])
  }

  /** An entry of the run after `before` issued this lease. */
  ghost predicate IssuedSince(before: Run, after: Run, lid: Id) {
    exists i :: |before.acts| <= i < |after.acts| && IssuesLease(after.acts[i].act, lid)
  }

  lemma IssuingInserts(s: State, t: Tid, act: Act, lid: Id)
    requires Enabled(s, t, act) && IssuesLease(act, lid)
    ensures lid !in s.db.leases && lid in Apply(s, t, act).db.leases
  {
  }

  /** The leases that are new are exactly those issued in between. */
  lemma NewExactly(before: Run, after: Run, lid: Id)
    requires Legal(before) && Legal(after) && Continues(before, after)
    ensures lid in Last(after).db.leases && lid !in Last(before).db.leases <==> IssuedSince(before, after, lid)
  {
    var n := |before.acts|;
    assert Repeats(before, after, n);
    if lid in Last(after).db.leases && lid !in Last(before).db.leases {
      var i := AuditBeforeAuthority(after, |after.acts|, lid);
      if i < n { RunEvolves(after, i + 1, n); }
    }
    if IssuedSince(before, after, lid) {
      var i :| n <= i < |after.acts| && IssuesLease(after.acts[i].act, lid);
      assert Taken(after, i);
      IssuingInserts(after.states[i], after.acts[i].thread, after.acts[i].act, lid);
      RunEvolves(after, n, i);
      RunEvolves(after, i + 1, |after.acts|);
    }
  }

  lemma StillUnder(a: Run, b: Run, lid: Id, subject: Subject)
    requires Legal(a) && Legal(b) && Continues(a, b) && lid in Last(a).db.leases
    requires lid in ActiveUnder(Last(b).db.leases, subject)
    ensures lid in ActiveUnder(Last(a).db.leases, subject)
  {
    LaterEvolves(a, b);
    assert LeaseEvolves(Last(a).db.leases[lid], Last(b).db.leases[lid]);
  }

  /** What was gone of the old leases stays gone. */
  lemma GoneForGood(before: Run, mid: Run, after: Run, subject: Subject)
    requires Legal(before) && Legal(mid) && Legal(after) && Continues(before, mid) && Continues(mid, after)
    requires ActiveUnder(Last(mid).db.leases, subject) !! Last(before).db.leases.Keys
    ensures ActiveUnder(Last(after).db.leases, subject) !! Last(before).db.leases.Keys
  {
    LaterEvolves(before, mid);
    forall lid | lid in ActiveUnder(Last(after).db.leases, subject) ensures lid !in Last(before).db.leases {
      if lid in Last(mid).db.leases { StillUnder(mid, after, lid, subject); }
    }
  }

  /** What every cascade leaves: only leases issued since it began, and none at all when nothing was
      poised then and nobody has planned since. */
  ghost predicate OnlyLate(before: Run, after: Run, subject: Subject)
    requires Legal(before) && Legal(after)
  {
    && (forall lid :: lid in ActiveUnder(Last(after).db.leases, subject) ==> IssuedSince(before, after, lid))
    && (!Poised(Last(before), subject) && NoPlanSince(after, |before.acts|, subject) ==>
          ActiveUnder(Last(after).db.leases, subject) == {})
  }

  lemma LeavesOnlyLate(before: Run, after: Run, subject: Subject)
    requires Legal(before) && Legal(after) && Continues(before, after)
    requires ActiveUnder(Last(after).db.leases, subject) !! Last(before).db.leases.Keys
    ensures OnlyLate(before, after, subject)
  {
    forall lid | lid in ActiveUnder(Last(after).db.leases, subject) ensures IssuedSince(before, after, lid) {
      NewExactly(before, after, lid);
    }
    if !Poised(Last(before), subject) && NoPlanSince(after, |before.acts|, subject) {
      assert Repeats(before, after, |before.acts|);
      NothingLate(after, |before.acts|, |after.acts|, subject);
    }
  }

  /** Nothing a cascade writes matters to who is poised: neither the revocations, nor the silenced
      memories, nor the mark on the identity or the end of the session. */
  lemma UpkeepKeepsPoised(s: State, t: Tid, act: Act, subject: Subject)
    requires Inv(s) && UpkeepEnabled(s, t, act)
    ensures Poised(UpkeepApply(s, t, act), subject) <==> Poised(s, subject)
  {
    var b := UpkeepApply(s, t, act);
    UpkeepLeavesAlone(s, t, act);
    forall u ensures PoisedThread(b, u, subject) <==> PoisedThread(s, u, subject) {
      SamePoised(s, b, u, subject);
    }
    assert forall aid :: Awaits(b, aid, subject) <==> Awaits(s, aid, subject);
  }

  ghost predicate SameGrounds(a: State, b: State) {
    && b.h.threads == a.h.threads && b.h.decisionOf == a.h.decisionOf && b.db.now == a.db.now
    && b.db.requests == a.db.requests && b.db.decisions == a.db.decisions && b.db.approvals == a.db.approvals
    && b.db.leases.Keys == a.db.leases.Keys
    && forall l :: l in a.db.leases ==> b.db.leases[l].approvalId == a.db.leases[l].approvalId
  }

  lemma UpkeepLeavesAlone(s: State, t: Tid, act: Act)
    requires UpkeepEnabled(s, t, act)
    ensures SameGrounds(s, UpkeepApply(s, t, act))
  {
  }

  lemma SamePoised(a: State, b: State, t: Tid, subject: Subject)
    requires SameGrounds(a, b)
    ensures PoisedThread(b, t, subject) <==> PoisedThread(a, t, subject)
  {
    assert forall aid :: NoLeaseOn(b.db.leases, aid) <==> NoLeaseOn(a.db.leases, aid);
  }

  /** Putting an identity under review stops no thread that is poised by then: whatever the cascade has
      done so far, a lease of the identity can follow its mark. */
  lemma MarkedTooEarly(run: Run, u: Tid, iid: Id) returns (marked: Run, longer: Run, lid: Id)
    requires Legal(run) && Poised(Last(run), IdentityOf(iid))
    ensures Legal(marked) && iid in Last(marked).db.underReview
    ensures marked == Extended(run, u, ReviewIdentity(iid), Last(marked))
    ensures LateLease(marked, longer, lid, IdentityOf(iid))
  {
    RunInv(run, |run.acts|);
    UpkeepKeepsPoised(Last(run), u, ReviewIdentity(iid), IdentityOf(iid));
    marked := Next(run, u, ReviewIdentity(iid));
    longer, lid := PoisedIssues(marked, IdentityOf(iid));
  }

  /** The same for a session: an approval that waits, or a consent on its way, outlives it. */
  lemma EndedTooEarly(run: Run, u: Tid, agent: Id) returns (ended: Run, longer: Run, lid: Id)
    requires Legal(run) && Poised(Last(run), SessionOf(agent))
    ensures Legal(ended) && agent in Last(ended).db.endedSessions
    ensures ended == Extended(run, u, EndSession(agent), Last(ended))
    ensures LateLease(ended, longer, lid, SessionOf(agent))
  {
    RunInv(run, |run.acts|);
    UpkeepKeepsPoised(Last(run), u, EndSession(agent), SessionOf(agent));
    ended := Next(run, u, EndSession(agent));
    longer, lid := PoisedIssues(ended, SessionOf(agent));
  }
}
