/**
 Concrete runs for what a reader of the code might not expect: an allow that also teaches fails on a
 scope with a wildcard, a past-due approval can still be allowed, and so can one whose identity is under
 review and whose session has ended.
 */
module Witnesses {
  import opened Results
  import opened Scopes
  import opened Tables
  import opened Protocol
  import opened Learning
  import opened LateLeases
  import opened Settlements
  import D = Decisions
  import I = Intents
  import R = Risk

  const RID: Id := "r"
  const DID: Id := "d"
  const AID: Id := "p"

  /** A plan that asks a person about a request that is stored as received. */
  ghost predicate Asks(row: Request, plan: Plan) {
    && row.status == Received && Concerns(row, plan.scope, plan.factors)
    && I.Minimal(plan.scope, HasWildcard(plan.scope.resource))
    && plan.outcome.verdict == D.RequireApproval && plan.scope.notBefore >= ZERO_TIME
  }

  lemma AssembledRun(row: Request, plan: Plan) returns (run: Run)
    requires Asks(row, plan)
    ensures Legal(run)
    ensures var s := Last(run);
      && s.db == GENESIS.db.(now := plan.scope.notBefore, requests := map[RID := row])
      && Thr(s, 0) == Thread(Assembled(RID, plan), Off)
  {
    run := Run([], [GENESIS]);
    run := Next(run, 0, Tick(plan.scope.notBefore));
    run := Next(run, 0, CreateRequest(RID, row));
    run := Next(run, 0, Assemble(RID, plan));
  }

  lemma NotedRun(row: Request, plan: Plan) returns (run: Run)
    requires Asks(row, plan)
    ensures Legal(run)
    ensures var s := Last(run);
      && s.db == GENESIS.db.(
           now := plan.scope.notBefore, requests := map[RID := row],
           decisions := map[DID := DecisionRow(RID, plan, plan.scope.notBefore)], ledger := [DeniedEvent(DID, "")])
      && Thr(s, 0) == Thread(Noted(RID, DID, plan.outcome, plan.scope.notBefore), Off)
  {
    run := AssembledRun(row, plan);
    run := Next(run, 0, RecordDecision(DID, plan.scope.notBefore));
    run := Next(run, 0, NoteVerdict);
  }

  /** Whatever asks a person can be waiting for the answer at any later moment, whatever the deadline:
      with its decision, its open approval, and neither a lease nor a memory. */
  lemma PendingReachable(row: Request, plan: Plan, deadline: int, later: Instant) returns (run: Run)
    requires Asks(row, plan) && plan.scope.notBefore <= later
    ensures Legal(run)
    ensures var db := Last(run).db;
      && db.now == later && db.leases == map[] && db.memories == map[]
      && db.requests == map[RID := row.(status := AwaitingApproval)]
      && db.decisions == map[DID := DecisionRow(RID, plan, plan.scope.notBefore)]
      && db.approvals == map[AID := Approval(DID, None, Pending, deadline, None)]
  {
    run := NotedRun(row, plan);
    run := Next(run, 0, OpenApproval(AID, deadline));
    run := Next(run, 0, AdvanceVerdict);
    run := Next(run, 0, Tick(later));
  }

  // ----- A write to every repository of an owner, decided and waiting -----

  const START: Instant := 1_000 * MINUTE

  const WIDE := Scope(
    "agent", "workspace", "github", "identity", "account", map["repo" := "*"], "repo=*", "update_file",
    START, START + DEFAULT_DURATION, DEFAULT_REQUEST_LIMIT, NonProduction, Medium)

  const WIDE_REQUEST := Request(
    "agent", "workspace", "github", "update_file", map["repo" := I.Text("*")], "{}", Received, "")

  const WIDE_PLAN := Plan(
    WIDE, Medium, [R.DeclaredLabel], "identity",
    D.Outcome(D.RequireApproval, D.StandardApproval, D.RequiresConfirmation, 1, None, None, "", ""))

  function Answer(action: Action): SettleInput {
    SettleInput(AID, Some(action), false, 1)
  }

  lemma WideAsks()
    ensures Asks(WIDE_REQUEST, WIDE_PLAN) && HasWildcard(WIDE.resource)
  {
    assert WIDE.resource["repo"] == "*" && WildcardText("*");
  }

  /** Every way of allowing passes the tests; it succeeds exactly when it teaches nothing. */
  lemma WideAnswers(db: Db, mode: D.Mode, action: Action)
    requires db.approvals == map[AID := Approval(DID, None, Pending, Stored(START + MINUTE), None)]
    requires db.decisions == map[DID := DecisionRow(RID, WIDE_PLAN, START)]
    requires db.now < WIDE.expiresAt && Allows(action)
    ensures Admissible(db, mode, Answer(action))
    ensures SettleSucceeds(db, mode, Answer(action)) <==> LearnOf(action).None?
  {
    WideAsks();
  }

  /** In one reachable state every way of allowing passes every test that comes before the first write,
      and exactly those that teach nothing succeed. */
  lemma TeachingAWildcard(mode: D.Mode) returns (run: Run)
    ensures Legal(run)
    ensures forall action :: Allows(action) ==>
      && Admissible(Last(run).db, mode, Answer(action))
      && (SettleSucceeds(Last(run).db, mode, Answer(action)) <==> action in {AllowOnce, AllowUntilTaskEnd})
  {
    WideAsks();
    run := PendingReachable(WIDE_REQUEST, WIDE_PLAN, Stored(START + MINUTE), START);
    forall action | Allows(action)
      ensures Admissible(Last(run).db, mode, Answer(action))
      ensures SettleSucceeds(Last(run).db, mode, Answer(action)) <==> action in {AllowOnce, AllowUntilTaskEnd}
    {
      WideAnswers(Last(run).db, mode, action);
    }
  }

  /** In one reachable state the deadline of a pending approval has passed, and allowing it succeeds:
      what is tested is the window of its scope. Once that has passed too, nothing allows it. */
  lemma PastDueIsAllowed(mode: D.Mode) returns (run: Run, later: Run)
    ensures Legal(run) && Legal(later)
    ensures var db := Last(run).db;
      && AID in db.approvals && db.approvals[AID].status == Pending
      && db.approvals[AID].expiresAt < Stored(db.now) && SettleSucceeds(db, mode, Answer(AllowOnce))
    ensures SettleSucceeds(Last(later).db, mode, Answer(Deny))
    ensures forall action :: Allows(action) ==> !SettleSucceeds(Last(later).db, mode, Answer(action))
  {
    WideAsks();
    run := PendingReachable(WIDE_REQUEST, WIDE_PLAN, Stored(START + MINUTE), START + 2 * MINUTE);
    later := PendingReachable(WIDE_REQUEST, WIDE_PLAN, Stored(START + MINUTE), START + DEFAULT_DURATION);
  }

  // ----- A read that is allowed without asking -----

  const READING := Scope(
    "agent", "workspace", "github", "identity", "account", map["repo" := "site"], "repo=site", "read_file",
    START, START + DEFAULT_DURATION, DEFAULT_REQUEST_LIMIT, NonProduction, Low)

  const READ_REQUEST := Request(
    "agent", "workspace", "github", "read_file", map["repo" := I.Text("site")], "", Received, "")

  const READ_PLAN := Plan(
    READING, Low, [R.DeclaredLabel, R.ReadOnly], "identity",
    D.Outcome(D.AutoAllow, D.NoApproval, D.LowRisk, 0, None, None, "", ""))

  lemma ReadingIsConcrete()
    ensures I.Minimal(READING, false) && !HasWildcard(READING.resource)
    ensures Concerns(READ_REQUEST, READING, [R.DeclaredLabel, R.ReadOnly])
  {
    assert READING.resource["repo"] == "site" && !WildcardText("site");
  }

  lemma AllowedRun() returns (run: Run)
    ensures Legal(run)
    ensures var s := Last(run);
      && s.db.now == START && s.db.approvals == map[]
      && DID in s.db.decisions && s.db.decisions[DID].scope == READING
      && Thr(s, 0) == Thread(Noted(RID, DID, READ_PLAN.outcome, START), Off)
  {
    ReadingIsConcrete();
    run := Run([], [GENESIS]);
    run := Next(run, 0, Tick(START));
    run := Next(run, 0, CreateRequest(RID, READ_REQUEST));
    run := Next(run, 0, Assemble(RID, READ_PLAN));
    run := Next(run, 0, RecordDecision(DID, START));
    run := Next(run, 0, NoteVerdict);
  }

  /** A thread that has decided before a disconnect is poised, and issues after it. */
  lemma IssuedUnderReview() returns (marked: Run, longer: Run, lid: Id)
    ensures Legal(marked) && READING.identityId in Last(marked).db.underReview
    ensures LateLease(marked, longer, lid, IdentityOf(READING.identityId))
  {
    var run := AllowedRun();
    assert PoisedThread(Last(run), 0, IdentityOf(READING.identityId));
    marked, longer, lid := MarkedTooEarly(run, 1, READING.identityId);
  }

  lemma Marked(run: Run, iid: Id) returns (longer: Run)
    requires Legal(run)
    ensures Legal(longer) && Last(longer).db == Last(run).db.(underReview := Last(run).db.underReview + {iid})
  {
    longer := Next(run, 0, ReviewIdentity(iid));
  }

  lemma Ended(run: Run, agent: Id) returns (longer: Run)
    requires Legal(run)
    ensures Legal(longer) && Last(longer).db == Last(run).db.(endedSessions := Last(run).db.endedSessions + {agent})
  {
    longer := Next(run, 0, EndSession(agent));
  }

  /** With nobody else at work: what was pending is still allowed afterwards, by allow_once and by
      allow_until_task_end, and is the one thing poised that a lease of either needs. */
  lemma AllowedAfterwards(mode: D.Mode) returns (run: Run)
    ensures Legal(run)
    ensures WIDE.identityId in Last(run).db.underReview && WIDE.agentId in Last(run).db.endedSessions
    ensures SettleSucceeds(Last(run).db, mode, Answer(AllowOnce))
    ensures SettleSucceeds(Last(run).db, mode, Answer(AllowUntilTaskEnd))
    ensures Awaits(Last(run), AID, IdentityOf(WIDE.identityId)) && Awaits(Last(run), AID, SessionOf(WIDE.agentId))
  {
    WideAsks();
    run := PendingReachable(WIDE_REQUEST, WIDE_PLAN, Stored(START + MINUTE), START);
    run := Marked(run, WIDE.identityId);
    run := Ended(run, WIDE.agentId);
    WideAnswers(Last(run).db, mode, AllowOnce);
    WideAnswers(Last(run).db, mode, AllowUntilTaskEnd);
  }
}
