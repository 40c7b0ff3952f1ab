/**
 Decision engine (internal/core/decision/engine.go, failclosed.go): fail-closed blockers, the
 forbidden list, and an ordered table of branches under three automation modes.
 */
module Decisions {
  import opened Results
  import opened Scopes
  import opened ForbiddenList
  import M = Matcher
  import R = Risk

  datatype Mode = Cautious | Balanced | Automatic | UnknownMode

  datatype Verdict = AutoAllow | RequireApproval | Deny

  datatype Requirement = NoApproval | StandardApproval | StrongAuth

  datatype Reason =
    | FailClosedReason | ForbiddenReason
    | HighRisk | BeyondLearnedScope | IdentityAmbiguous
    | ActiveLeaseReason | LowRisk | TrustMemoryMatch
    | RequiresConfirmation

  datatype Blocker =
    | AgentUnidentified | ServiceUndetermined | IdentityAmbiguityUnresolvable
    | ScopeUndeterminable | CapabilityNotOfferedBlocker | RiskUnknown
    | PolicyEngineFailure | GatewayOffline | CredentialSourceUnavailable | AuditWriteFailed
    | UnknownBlocker

  datatype Grant = Grant(memoryId: string, scope: Scope, alwaysAsk: bool)
  datatype ActiveLease = ActiveLease(leaseId: string, scope: Scope)

  datatype Input = Input(
    mode: Mode, agentId: string, agentTrust: R.AgentTrust, write: bool,
    found: M.Match, scope: Scope, ambiguous: bool, assessment: R.Assessment,
    readOnlyAutoAllow: bool, newService: bool, identityChanged: bool,
    newIdentity: bool, newResource: bool,
    learned: seq<Grant>, active: seq<ActiveLease>, blockers: seq<Blocker>)

  datatype Outcome = Outcome(
    verdict: Verdict, requirement: Requirement, reason: Reason, confirmations: nat,
    blocker: Option<Blocker>, forbidden: Option<Forbidden>,
    matchedMemoryId: string, matchedLeaseId: string)

  // ----- Mode rules -----

  predicate CautiousAutoAllow(i: Input) {
    !i.write && i.readOnlyAutoAllow && !i.newService && !i.identityChanged
  }

  predicate LowRiskRule(i: Input) {
    match i.mode
    case Cautious => CautiousAutoAllow(i)
    case Balanced => !i.write
    case Automatic => !i.write || (!i.newIdentity && !i.newResource)
    case UnknownMode => false
  }

  predicate LearnedMediumRule(i: Input) {
    match i.mode
    case Cautious => CautiousAutoAllow(i)
    case Balanced => true
    case Automatic => true
    case UnknownMode => false
  }

  // ----- Fail closed -----

  predicate ValidAssessment(a: R.Assessment) {
    a.factors != [] && a.level != UnknownLevel
  }

  function SelfDetected(i: Input): Option<Blocker> {
    if i.agentId == "" then Some(AgentUnidentified)
    else if i.scope.service == "" then Some(ServiceUndetermined)
    else if !Validates(i.scope) then Some(ScopeUndeterminable)
    else if !M.Resolvable(i.found) then Some(IdentityAmbiguityUnresolvable)
    else if !ValidAssessment(i.assessment) then Some(RiskUnknown)
    else None
  }

  function Blocked(i: Input): Option<Blocker> {
    if i.mode == UnknownMode then Some(PolicyEngineFailure)
    else if UnknownBlocker in i.blockers then Some(PolicyEngineFailure)
    else if i.blockers != [] then Some(i.blockers[0])
    else SelfDetected(i)
  }

  // ----- The facts the branches test -----

  predicate GrantCovers(i: Input, g: Grant) {
    CoversIgnoringWindow(g.scope, i.scope)
  }

  /** asksAlways: some covering memory says "ask me every time". */
  predicate AsksAlways(i: Input) {
    exists g :: g in i.learned && g.alwaysAsk && GrantCovers(i, g)
  }

  predicate Automatable(i: Input) {
    && !i.found.needsReview
    && !i.ambiguous
    && !(i.write && i.agentTrust == R.Unverified)
    && !AsksAlways(i)
  }

  function FirstGrant(grants: seq<Grant>, scope: Scope): (r: Option<Grant>)
    ensures r.Some? ==> r.value in grants && CoversIgnoringWindow(r.value.scope, scope)
    ensures r.None? ==> forall g :: g in grants ==> !CoversIgnoringWindow(g.scope, scope)
  {
    if grants == [] then None
    else if CoversIgnoringWindow(grants[0].scope, scope) then Some(grants[0])
    else FirstGrant(grants[1..], scope)
  }

  function FirstLease(leases: seq<ActiveLease>, scope: Scope): (r: Option<ActiveLease>)
    ensures r.Some? ==> r.value in leases && CoversIgnoringWindow(r.value.scope, scope)
    ensures r.None? ==> forall l :: l in leases ==> !CoversIgnoringWindow(l.scope, scope)
  {
    if leases == [] then None
    else if CoversIgnoringWindow(leases[0].scope, scope) then Some(leases[0])
    else FirstLease(leases[1..], scope)
  }

  function MatchedGrant(i: Input): Option<Grant> {
    FirstGrant(i.learned, i.scope)
  }

  function MatchedLease(i: Input): Option<ActiveLease> {
    FirstLease(i.active, i.scope)
  }

  // ----- The branch table -----

  const BRANCHES: seq<Reason> :=
    [HighRisk, BeyondLearnedScope, IdentityAmbiguous, ActiveLeaseReason, LowRisk, TrustMemoryMatch]

  predicate Hits(branch: Reason, i: Input, automatable: bool) {
    match branch
    case HighRisk => i.assessment.level == High
    case BeyondLearnedScope => i.learned != [] && MatchedGrant(i).None?
    case IdentityAmbiguous => i.found.ambiguous
    case ActiveLeaseReason => automatable && i.assessment.level != High && MatchedLease(i).Some?
    case LowRisk => automatable && i.assessment.level == Low && LowRiskRule(i)
    case TrustMemoryMatch =>
      automatable && i.assessment.level == Medium && MatchedGrant(i).Some? && LearnedMediumRule(i)
    case _ => false
  }

  function VerdictOf(branch: Reason): Verdict {
    match branch
    case ActiveLeaseReason => AutoAllow
    case LowRisk => AutoAllow
    case TrustMemoryMatch => AutoAllow
    case _ => RequireApproval
  }

  function FirstHit(branches: seq<Reason>, i: Input, automatable: bool): Option<Reason> {
    if branches == [] then None
    else if Hits(branches[0], i, automatable) then Some(branches[0])
    else FirstHit(branches[1..], i, automatable)
  }

  function RequiredConfirmations(mode: Mode, level: Level): nat {
    if level != High then 1
    else if mode == UnknownMode || mode == Cautious then 2
    else 1
  }

  function FailClosedOutcome(blocker: Blocker): Outcome {
    Outcome(Deny, NoApproval, FailClosedReason, 0, Some(blocker), None, "", "")
  }

  function Conclude(i: Input, verdict: Verdict, reason: Reason): Outcome {
    var memory := if MatchedGrant(i).Some? then MatchedGrant(i).value.memoryId else "";
    var lease := if reason == ActiveLeaseReason && MatchedLease(i).Some?
                 then MatchedLease(i).value.leaseId else "";
    if verdict != RequireApproval then
      Outcome(verdict, NoApproval, reason, 0, None, None, memory, lease)
    else
      Outcome(verdict, if i.assessment.level == High then StrongAuth else StandardApproval,
              reason, RequiredConfirmations(i.mode, i.assessment.level), None, None, memory, lease)
  }

  function Decide(i: Input): Outcome {
    var blocker := Blocked(i);
    if blocker.Some? then FailClosedOutcome(blocker.value)
    else
      var category := Classified(i.scope.service, i.scope.operation);
      if category.Some? then
        Outcome(Deny, NoApproval, ForbiddenReason, 0, None, category, "", "")
      else
        var hit := FirstHit(BRANCHES, i, Automatable(i));
        if hit.Some? then Conclude(i, VerdictOf(hit.value), hit.value)
        else Conclude(i, RequireApproval, RequiresConfirmation)
  }

  // ----- Exact meaning of auto_allow -----

  ghost predicate Allowed(i: Input) {
    Decide(i).verdict == AutoAllow
  }

  /** The conditions under which nobody is asked, stated without the table. */
  ghost predicate MayPassUnasked(i: Input) {
    Eligible(i) && HistoryPermits(i) && HasGround(i)
  }

  /** What the request itself must be like. */
  ghost predicate Eligible(i: Input) {
    && Blocked(i).None?
    && Classified(i.scope.service, i.scope.operation).None?
    && i.assessment.level in {Low, Medium}
    && !i.found.ambiguous && !i.found.needsReview && !i.ambiguous
    && (i.write ==> i.agentTrust != R.Unverified)
  }

  /** What was learned covers the request, if anything was, and nothing covering it says to ask. */
  ghost predicate HistoryPermits(i: Input) {
    && (i.learned == [] || SomeGrantCovers(i))
    && (forall g :: g in i.learned && GrantCovers(i, g) ==> !g.alwaysAsk)
  }

  ghost predicate SomeGrantCovers(i: Input) {
    exists g :: g in i.learned && GrantCovers(i, g)
  }

  ghost predicate SomeLeaseCovers(i: Input) {
    exists l :: l in i.active && CoversIgnoringWindow(l.scope, i.scope)
  }

  /** A standing lease, the low-risk rule of the mode, or a learned medium-risk grant. */
  ghost predicate HasGround(i: Input) {
    || SomeLeaseCovers(i)
    || (i.assessment.level == Low && LowRiskRule(i))
    || (i.assessment.level == Medium && LearnedMediumRule(i) && SomeGrantCovers(i))
  }

  lemma TableUnrolled(i: Input, automatable: bool)
    ensures FirstHit(BRANCHES, i, automatable) ==
      if Hits(HighRisk, i, automatable) then Some(HighRisk)
      else if Hits(BeyondLearnedScope, i, automatable) then Some(BeyondLearnedScope)
      else if Hits(IdentityAmbiguous, i, automatable) then Some(IdentityAmbiguous)
      else if Hits(ActiveLeaseReason, i, automatable) then Some(ActiveLeaseReason)
      else if Hits(LowRisk, i, automatable) then Some(LowRisk)
      else if Hits(TrustMemoryMatch, i, automatable) then Some(TrustMemoryMatch)
      else None
  {
    var t1, t2, t3 := BRANCHES[1..], BRANCHES[2..], BRANCHES[3..];
    var t4, t5, t6 := BRANCHES[4..], BRANCHES[5..], BRANCHES[6..];
    assert t1[1..] == t2 && t2[1..] == t3 && t3[1..] == t4 && t4[1..] == t5 && t5[1..] == t6;
    assert FirstHit(t6, i, automatable) == None;
    assert FirstHit(t5, i, automatable) ==
      if Hits(TrustMemoryMatch, i, automatable) then Some(TrustMemoryMatch) else None;
    assert FirstHit(t4, i, automatable) ==
      if Hits(LowRisk, i, automatable) then Some(LowRisk) else FirstHit(t5, i, automatable);
    assert FirstHit(t3, i, automatable) ==
      if Hits(ActiveLeaseReason, i, automatable) then Some(ActiveLeaseReason) else FirstHit(t4, i, automatable);
    assert FirstHit(t2, i, automatable) ==
      if Hits(IdentityAmbiguous, i, automatable) then Some(IdentityAmbiguous) else FirstHit(t3, i, automatable);
    assert FirstHit(t1, i, automatable) ==
      if Hits(BeyondLearnedScope, i, automatable) then Some(BeyondLearnedScope) else FirstHit(t2, i, automatable);
  }

  lemma HitsMean(i: Input, automatable: bool)
    ensures Hits(HighRisk, i, automatable) <==> i.assessment.level == High
    ensures Hits(BeyondLearnedScope, i, automatable) <==> i.learned != [] && MatchedGrant(i).None?
    ensures Hits(IdentityAmbiguous, i, automatable) <==> i.found.ambiguous
    ensures Hits(ActiveLeaseReason, i, automatable) <==>
      automatable && i.assessment.level != High && MatchedLease(i).Some?
    ensures Hits(LowRisk, i, automatable) <==> automatable && i.assessment.level == Low && LowRiskRule(i)
    ensures Hits(TrustMemoryMatch, i, automatable) <==>
      automatable && i.assessment.level == Medium && MatchedGrant(i).Some? && LearnedMediumRule(i)
  {
  }

  lemma AllowingHit(i: Input, automatable: bool)
    ensures var hit := FirstHit(BRANCHES, i, automatable);
      hit.Some? && VerdictOf(hit.value) == AutoAllow <==>
      && !Hits(HighRisk, i, automatable) && !Hits(BeyondLearnedScope, i, automatable)
      && !Hits(IdentityAmbiguous, i, automatable)
      && (|| Hits(ActiveLeaseReason, i, automatable) || Hits(LowRisk, i, automatable)
          || Hits(TrustMemoryMatch, i, automatable))
  {
    TableUnrolled(i, automatable);
  }

  /** The table read off as one condition over the facts its rows test. */
  lemma TableAllows(i: Input, automatable: bool)
    ensures var hit := FirstHit(BRANCHES, i, automatable);
      hit.Some? && VerdictOf(hit.value) == AutoAllow <==>
      && i.assessment.level != High
      && (i.learned == [] || MatchedGrant(i).Some?)
      && !i.found.ambiguous
      && automatable
      && (|| MatchedLease(i).Some?
          || (i.assessment.level == Low && LowRiskRule(i))
          || (i.assessment.level == Medium && LearnedMediumRule(i) && MatchedGrant(i).Some?))
  {
    AllowingHit(i, automatable);
    HitsMean(i, automatable);
  }

  lemma AllowedByTable(i: Input)
    ensures var hit := FirstHit(BRANCHES, i, Automatable(i));
      Allowed(i) <==>
      && Blocked(i).None?
      && Classified(i.scope.service, i.scope.operation).None?
      && hit.Some? && VerdictOf(hit.value) == AutoAllow
  {
  }

  lemma MatchedGrantExactly(i: Input)
    ensures MatchedGrant(i).Some? <==> SomeGrantCovers(i)
  {
    if MatchedGrant(i).Some? { assert GrantCovers(i, MatchedGrant(i).value); }
  }

  lemma MatchedLeaseExactly(i: Input)
    ensures MatchedLease(i).Some? <==> SomeLeaseCovers(i)
  {
  }

  lemma UnblockedLevel(i: Input)
    requires Blocked(i).None?
    ensures i.assessment.level != UnknownLevel
  {
  }

  /** auto_allow, exactly. */
  lemma AllowExactly(i: Input)
    ensures Allowed(i) <==> MayPassUnasked(i)
  {
    AllowedByTable(i);
    TableAllows(i, Automatable(i));
    MatchedGrantExactly(i);
    MatchedLeaseExactly(i);
    if Blocked(i).None? { UnblockedLevel(i); }
  }

  lemma HighRiskNeverAllowed(i: Input)
    requires i.assessment.level == High
    ensures !Allowed(i)
  {
    AllowExactly(i);
  }

  /** Grants, leases and the choice of a known mode are no business of eligibility. */
  lemma EligibleIgnores(i: Input, t: Input)
    requires t == i.(mode := t.mode, learned := t.learned, active := t.active)
    requires i.mode != UnknownMode && t.mode != UnknownMode
    ensures Eligible(t) <==> Eligible(i)
  {
    assert Blocked(t) == Blocked(i);
  }

  lemma ModeKnown(i: Input)
    requires Eligible(i)
    ensures i.mode != UnknownMode
  {
  }

  /** What the cautious mode lets through, the balanced one does; what that does, the automatic one does. */
  lemma ModesWiden(i: Input)
    ensures Allowed(i.(mode := Cautious)) ==> Allowed(i.(mode := Balanced))
    ensures Allowed(i.(mode := Balanced)) ==> Allowed(i.(mode := Automatic))
  {
    var c, b, a := i.(mode := Cautious), i.(mode := Balanced), i.(mode := Automatic);
    AllowExactly(c);
    AllowExactly(b);
    AllowExactly(a);
    EligibleIgnores(c, b);
    EligibleIgnores(b, a);
    SameHistory(c, b);
    SameHistory(b, a);
  }

  lemma SameHistory(i: Input, t: Input)
    requires t == i.(mode := t.mode)
    ensures HistoryPermits(t) <==> HistoryPermits(i)
    ensures SomeGrantCovers(t) <==> SomeGrantCovers(i)
    ensures SomeLeaseCovers(t) <==> SomeLeaseCovers(i)
  {
    assert forall g :: GrantCovers(t, g) == GrantCovers(i, g);
  }

  /** Marking a memory "always ask" never turns a question into an allow. */
  lemma TighteningNeverAllows(i: Input, k: nat)
    requires k < |i.learned|
    requires Allowed(i.(learned := i.learned[k := i.learned[k].(alwaysAsk := true)]))
    ensures Allowed(i)
  {
    TighterAllows(i, k, i.(learned := i.learned[k := i.learned[k].(alwaysAsk := true)]));
  }

  lemma TighterAllows(i: Input, k: nat, t: Input)
    requires k < |i.learned| && t == i.(learned := i.learned[k := i.learned[k].(alwaysAsk := true)])
    requires Allowed(t)
    ensures Allowed(i)
  {
    AllowExactly(t);
    AllowExactly(i);
    ModeKnown(t);
    EligibleIgnores(t, i);
    TighteningHistory(i, k, t);
  }

  lemma TighteningHistory(i: Input, k: nat, t: Input)
    requires k < |i.learned| && t == i.(learned := i.learned[k := i.learned[k].(alwaysAsk := true)])
    requires HistoryPermits(t)
    ensures HistoryPermits(i)
    ensures SomeGrantCovers(t) ==> SomeGrantCovers(i)
    ensures SomeLeaseCovers(t) <==> SomeLeaseCovers(i)
  {
    var tight := i.learned[k].(alwaysAsk := true);
    assert t.learned[k] in t.learned;
    assert !GrantCovers(t, tight);
    forall g | g in i.learned && GrantCovers(i, g) ensures g in t.learned && GrantCovers(t, g) {
      var j :| 0 <= j < |i.learned| && i.learned[j] == g;
      assert t.learned[j] in t.learned;
    }
    forall g | g in t.learned && GrantCovers(t, g) ensures g in i.learned && GrantCovers(i, g) {
      var j :| 0 <= j < |t.learned| && t.learned[j] == g;
      assert i.learned[j] in i.learned;
    }
  }

  /** Adding an "always ask" memory never turns a question into an allow. */
  lemma AddingAskNeverAllows(i: Input, k: nat, ask: Grant)
    requires k <= |i.learned| && ask.alwaysAsk
    requires Allowed(i.(learned := i.learned[..k] + [ask] + i.learned[k..]))
    ensures Allowed(i)
  {
    var t := i.(learned := i.learned[..k] + [ask] + i.learned[k..]);
    AllowExactly(t);
    AllowExactly(i);
    ModeKnown(t);
    EligibleIgnores(t, i);
    AddingHistory(i, k, ask, t);
  }

  lemma AddingHistory(i: Input, k: nat, ask: Grant, t: Input)
    requires k <= |i.learned| && ask.alwaysAsk && t == i.(learned := i.learned[..k] + [ask] + i.learned[k..])
    requires HistoryPermits(t)
    ensures HistoryPermits(i)
    ensures SomeGrantCovers(t) ==> SomeGrantCovers(i)
    ensures SomeLeaseCovers(t) <==> SomeLeaseCovers(i)
  {
    assert t.learned[k] == ask;
    assert forall g :: g in t.learned <==> g in i.learned || g == ask by {
      assert i.learned == i.learned[..k] + i.learned[k..];
    }
    assert !GrantCovers(t, ask);
    assert forall g :: GrantCovers(t, g) == GrantCovers(i, g);
  }

  /** Any reported blocker denies, and the reason says so. */
  lemma BlockersDeny(i: Input)
    requires i.blockers != []
    ensures Decide(i).verdict == Deny && Decide(i).reason == FailClosedReason
    ensures Decide(i).blocker.Some?
  {
  }

  /** Denying is for blockers and the forbidden list alone; whatever is neither denied nor allowed goes
      to a person, with a reason that says why. */
  lemma DenyExactly(i: Input)
    ensures Decide(i).verdict == Deny <==> Blocked(i).Some? || Classified(i.scope.service, i.scope.operation).Some?
    ensures Decide(i).verdict == Deny ==>
      Decide(i).reason == (if Blocked(i).Some? then FailClosedReason else ForbiddenReason)
    ensures Decide(i).verdict == RequireApproval ==>
      Decide(i).reason in {HighRisk, BeyondLearnedScope, IdentityAmbiguous, RequiresConfirmation}
  {
    TableUnrolled(i, Automatable(i));
  }

  /** A person is asked for strong authentication exactly for high risk, and for two confirmations
      exactly for high risk in cautious mode; nobody else is asked for anything. */
  lemma AskedFor(i: Input)
    ensures var o := Decide(i);
      if o.verdict == RequireApproval then
        && (o.requirement == StrongAuth <==> i.assessment.level == High)
        && (o.requirement == StandardApproval <==> i.assessment.level != High)
        && (o.confirmations == 2 <==> i.assessment.level == High && i.mode == Cautious)
        && 1 <= o.confirmations <= 2
      else o.requirement == NoApproval && o.confirmations == 0
  {
    TableUnrolled(i, Automatable(i));
  }

  /** High risk, a scope beyond what was learned, and an ambiguous identity are named in this order,
      whatever else holds. */
  lemma AskingOrder(i: Input)
    requires Decide(i).verdict != Deny
    ensures i.assessment.level == High ==> Decide(i).reason == HighRisk
    ensures i.assessment.level != High && i.learned != [] && !SomeGrantCovers(i) ==>
      Decide(i).reason == BeyondLearnedScope
    ensures i.assessment.level != High && (i.learned == [] || SomeGrantCovers(i)) && i.found.ambiguous ==>
      Decide(i).reason == IdentityAmbiguous
  {
    TableUnrolled(i, Automatable(i));
    MatchedGrantExactly(i);
  }

  /** One more standing authorization never takes an allow away. */
  lemma AddingLeaseKeepsAllow(i: Input, k: nat, lease: ActiveLease)
    requires k <= |i.active| && Allowed(i)
    ensures Allowed(i.(active := i.active[..k] + [lease] + i.active[k..]))
  {
    var t := i.(active := i.active[..k] + [lease] + i.active[k..]);
    AllowExactly(i);
    AllowExactly(t);
    ModeKnown(i);
    EligibleIgnores(i, t);
    MoreLeases(i, k, lease, t);
  }

  lemma MoreLeases(i: Input, k: nat, lease: ActiveLease, t: Input)
    requires k <= |i.active| && t == i.(active := i.active[..k] + [lease] + i.active[k..])
    ensures SomeLeaseCovers(i) ==> SomeLeaseCovers(t)
    ensures HistoryPermits(t) <==> HistoryPermits(i)
    ensures SomeGrantCovers(t) <==> SomeGrantCovers(i)
  {
    assert i.active == i.active[..k] + i.active[k..];
    assert forall l :: l in i.active ==> l in t.active;
    assert forall g :: GrantCovers(t, g) == GrantCovers(i, g);
  }

  /** What each kind of allow is based on; the pipeline acts on these references. */
  lemma AllowBasis(i: Input)
    requires Allowed(i)
    ensures Validates(i.scope) && !i.ambiguous && i.assessment.level in {Low, Medium}
    ensures i.found.identity.Some? && !i.found.needsReview
    ensures Decide(i).matchedLeaseId != "" ==> Decide(i).reason == ActiveLeaseReason
    ensures Decide(i).reason == ActiveLeaseReason ==>
      exists l :: l in i.active && l.leaseId == Decide(i).matchedLeaseId
                  && CoversIgnoringWindow(l.scope, i.scope)
    ensures Decide(i).reason == TrustMemoryMatch ==>
      exists g :: g in i.learned && g.memoryId == Decide(i).matchedMemoryId
                  && CoversIgnoringWindow(g.scope, i.scope) && !g.alwaysAsk
    ensures Decide(i).reason in {ActiveLeaseReason, LowRisk, TrustMemoryMatch}
  {
    TableUnrolled(i, Automatable(i));
    AllowExactly(i);
    if MatchedGrant(i).Some? { assert GrantCovers(i, MatchedGrant(i).value); }
  }
}
