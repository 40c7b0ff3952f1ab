/**
 Risk engine (internal/core/risk): thirteen factors folded into a level, and the capability
 declarations (internal/adapter/registry/capability.go) that must agree with it.
 */
module Risk {
  import opened Results
  import opened Scopes

  datatype AgentTrust = Unverified | Known | Trusted | UnknownAgentTrust
  datatype DeviceTrust = DeviceTrusted | DeviceUntrusted | UnknownDeviceTrust

  datatype Factors = Factors(
    write: bool, production: bool, reversible: bool, resourceCount: int,
    destructive: bool, permissionChange: bool, secretAccess: bool, billing: bool,
    externalCommunication: bool, firstSeen: bool, beyondHistory: bool,
    agentTrust: AgentTrust, deviceTrust: DeviceTrust,
    declaredLabel: Level)

  /** The reasons a level can be explained by; the last twelve are also the rules. */
  datatype Factor =
    | DeclaredLabel | ReadOnly
    | Destructive | Irreversible | PermissionChange | SecretAccess | Billing | BulkChange
    | ProductionWrite | BeyondHistory | FirstSeen | AgentUnverified | UntrustedDevice
    | ExternalCommunication

  datatype Assessment = Assessment(level: Level, factors: seq<Factor>)

  const RULES: seq<Factor> := [
    Destructive, Irreversible, PermissionChange, SecretAccess, Billing, BulkChange,
    ProductionWrite, BeyondHistory, FirstSeen, AgentUnverified, UntrustedDevice,
    ExternalCommunication]

  predicate Triggered(rule: Factor, f: Factors) {
    match rule
    case DeclaredLabel => false
    case ReadOnly => false
    case Destructive => f.destructive
    case Irreversible => f.write && !f.reversible
    case PermissionChange => f.permissionChange
    case SecretAccess => f.secretAccess
    case Billing => f.billing
    case BulkChange => f.write && f.resourceCount != 1
    case ProductionWrite => f.write && f.production
    case BeyondHistory => f.write && f.beyondHistory
    case FirstSeen => f.write && f.firstSeen
    case AgentUnverified => f.write && f.agentTrust == Unverified
    case UntrustedDevice => f.write && f.deviceTrust == DeviceUntrusted
    case ExternalCommunication => f.write && f.externalCommunication
  }

  function AtLeastMedium(baseline: Level): Level {
    if LevelRank(baseline) > LevelRank(Medium) then baseline else Medium
  }

  function OneLevelUp(baseline: Level): Level {
    if baseline == Low then Medium else High
  }

  function Raise(rule: Factor, baseline: Level): Level {
    match rule
    case Destructive => High
    case Irreversible => High
    case PermissionChange => High
    case SecretAccess => High
    case Billing => High
    case BulkChange => High
    case BeyondHistory => OneLevelUp(baseline)
    case _ => AtLeastMedium(baseline)
  }

  predicate ValidFactors(f: Factors) {
    && f.declaredLabel != UnknownLevel
    && f.agentTrust != UnknownAgentTrust
    && f.deviceTrust != UnknownDeviceTrust
    && f.resourceCount >= 0
  }

  /** What one pass over `rules` leaves in `level` and appends to `reasons`. */
  function FoldLevel(rules: seq<Factor>, f: Factors): Level {
    if rules == [] then f.declaredLabel
    else
      var level := FoldLevel(rules[..|rules| - 1], f);
      var rule := rules[|rules| - 1];
      if Triggered(rule, f) && LevelRank(Raise(rule, f.declaredLabel)) > LevelRank(level)
      then Raise(rule, f.declaredLabel) else level
  }

  function FoldReasons(rules: seq<Factor>, f: Factors): seq<Factor> {
    if rules == [] then [DeclaredLabel] + (if f.write then [] else [ReadOnly])
    else
      var reasons := FoldReasons(rules[..|rules| - 1], f);
      var rule := rules[|rules| - 1];
      if Triggered(rule, f) then reasons + [rule] else reasons
  }

  function Assess(f: Factors): Result<Assessment> {
    if ValidFactors(f) then Ok(Assessment(FoldLevel(RULES, f), FoldReasons(RULES, f)))
    else Err(InvalidRequest)
  }

  /** Evaluate of engine.go: the loop over the rule table. */
  method Evaluate(f: Factors) returns (r: Result<Assessment>)
    ensures r == Assess(f)
  {
    if !ValidFactors(f) { return Err(InvalidRequest); }
    var baseline := f.declaredLabel;
    var level := baseline;
    var reasons := [DeclaredLabel];
    if !f.write { reasons := reasons + [ReadOnly]; }
    var i := 0;
    while i < |RULES|
      invariant 0 <= i <= |RULES|
      invariant level == FoldLevel(RULES[..i], f)
      invariant reasons == FoldReasons(RULES[..i], f)
    {
      var current := RULES[i];
      assert RULES[..i + 1][..i] == RULES[..i];
      if Triggered(current, f) {
        reasons := reasons + [current];
        var raised := Raise(current, baseline);
        if LevelRank(raised) > LevelRank(level) { level := raised; }
      }
      i := i + 1;
    }
    assert RULES[..i] == RULES;
    return Ok(Assessment(level, reasons));
  }

  // ----- The level is the maximum, whatever the order of the table -----

  /** `level` is the highest of the baseline and of everything the triggered rules raise to. */
  ghost predicate IsMaximum(level: Level, rules: seq<Factor>, f: Factors) {
    && LevelRank(level) >= LevelRank(f.declaredLabel)
    && (forall rule :: rule in rules && Triggered(rule, f) ==>
          LevelRank(Raise(rule, f.declaredLabel)) <= LevelRank(level))
    && (level == f.declaredLabel
        || exists rule :: rule in rules && Triggered(rule, f) && Raise(rule, f.declaredLabel) == level)
  }

  lemma {:induction false} FoldIsMaximum(rules: seq<Factor>, f: Factors)
    ensures IsMaximum(FoldLevel(rules, f), rules, f)
  {
    if rules != [] {
      var front := rules[..|rules| - 1];
      FoldIsMaximum(front, f);
      assert forall rule :: rule in rules <==> rule in front || rule == rules[|rules| - 1];
    }
  }

  lemma MaximumUnique(a: Level, b: Level, rules: seq<Factor>, others: seq<Factor>, f: Factors)
    requires forall rule :: rule in rules <==> rule in others
    requires IsMaximum(a, rules, f) && IsMaximum(b, others, f)
    ensures a == b
  {
  }

  /** Reordering or repeating rows of the table does not change the level. */
  lemma LevelOrderIndependent(rules: seq<Factor>, others: seq<Factor>, f: Factors)
    requires forall rule :: rule in rules <==> rule in others
    ensures FoldLevel(rules, f) == FoldLevel(others, f)
  {
    FoldIsMaximum(rules, f);
    FoldIsMaximum(others, f);
    MaximumUnique(FoldLevel(rules, f), FoldLevel(others, f), rules, others, f);
  }

  /** Every risky fact of `f` also holds of `g`, and the declared label is no lower. */
  ghost predicate NoRiskier(f: Factors, g: Factors) {
    && (f.write ==> g.write) && (f.production ==> g.production)
    && (g.reversible ==> f.reversible)
    && (g.resourceCount == 1 ==> f.resourceCount == 1)
    && (f.destructive ==> g.destructive) && (f.permissionChange ==> g.permissionChange)
    && (f.secretAccess ==> g.secretAccess) && (f.billing ==> g.billing)
    && (f.externalCommunication ==> g.externalCommunication)
    && (f.firstSeen ==> g.firstSeen) && (f.beyondHistory ==> g.beyondHistory)
    && (f.agentTrust == Unverified ==> g.agentTrust == Unverified)
    && (f.deviceTrust == DeviceUntrusted ==> g.deviceTrust == DeviceUntrusted)
    && LevelRank(f.declaredLabel) <= LevelRank(g.declaredLabel)
  }

  lemma RaiseMonotone(rule: Factor, low: Level, high: Level)
    requires LevelRank(low) <= LevelRank(high)
    requires low != UnknownLevel && high != UnknownLevel
    ensures LevelRank(Raise(rule, low)) <= LevelRank(Raise(rule, high))
  {
  }

  /** The assessed level is monotone in every risk flag and in the declared label. */
  lemma AssessMonotone(f: Factors, g: Factors)
    requires ValidFactors(f) && ValidFactors(g) && NoRiskier(f, g)
    ensures LevelRank(Assess(f).value.level) <= LevelRank(Assess(g).value.level)
  {
    FoldIsMaximum(RULES, f);
    FoldIsMaximum(RULES, g);
    var level := FoldLevel(RULES, f);
    if level != f.declaredLabel {
      var rule :| rule in RULES && Triggered(rule, f) && Raise(rule, f.declaredLabel) == level;
      TriggeredMonotone(rule, f, g);
      RaiseMonotone(rule, f.declaredLabel, g.declaredLabel);
    }
  }

  lemma TriggeredMonotone(rule: Factor, f: Factors, g: Factors)
    requires NoRiskier(f, g) && Triggered(rule, f)
    ensures Triggered(rule, g)
  {
  }

  /** An assessment never falls below the declared label, starts its reasons with it, and names
      read-only among them exactly when nothing is written. */
  lemma AssessFacts(f: Factors)
    requires Assess(f).Ok?
    ensures Assess(f).value.level != UnknownLevel
    ensures LevelRank(Assess(f).value.level) >= LevelRank(f.declaredLabel)
    ensures |Assess(f).value.factors| > 0 && Assess(f).value.factors[0] == DeclaredLabel
    ensures ReadOnly in Assess(f).value.factors <==> !f.write
  {
    FoldIsMaximum(RULES, f);
    ReasonsStart(RULES, f);
    EveryRuleListed(DeclaredLabel);
    EveryRuleListed(ReadOnly);
    ReasonsExactly(RULES, f, ReadOnly);
  }

  /** The reasons are the declared label, read-only for a read, and exactly the rules that triggered. */
  lemma {:induction false} ReasonsExactly(rules: seq<Factor>, f: Factors, reason: Factor)
    requires DeclaredLabel !in rules && ReadOnly !in rules
    ensures reason in FoldReasons(rules, f) <==>
      || reason == DeclaredLabel
      || (reason == ReadOnly && !f.write)
      || (reason in rules && Triggered(reason, f))
  {
    if rules != [] {
      var front, last := rules[..|rules| - 1], rules[|rules| - 1];
      assert rules == front + [last];
      ReasonsExactly(front, f, reason);
    }
  }

  lemma {:induction false} ReasonsStart(rules: seq<Factor>, f: Factors)
    ensures |FoldReasons(rules, f)| > 0 && FoldReasons(rules, f)[0] == DeclaredLabel
  {
    if rules != [] { ReasonsStart(rules[..|rules| - 1], f); }
  }

  // ----- Capability declarations -----

  datatype Rollback = NoRollback | ManualRollback | AutomaticRollback
  datatype Nature = Nature(
    destructive: bool, permissionChange: bool, secretAccess: bool, billing: bool,
    externalCommunication: bool)

  /** The part of registry.Capability the consistency checks look at. */
  datatype RiskDeclaration = RiskDeclaration(
    write: bool, riskLabel: Level, rollback: Rollback, idempotent: bool, nature: Nature)

  /** The six checks of validateConsistency that compare the declaration with the risk label. */
  predicate RiskConsistent(d: RiskDeclaration) {
    && (d.nature.destructive ==> d.riskLabel == High)
    && (d.nature.permissionChange ==> d.riskLabel == High)
    && (d.nature.secretAccess ==> d.riskLabel == High)
    && (d.nature.billing ==> d.riskLabel == High)
    && (d.write && d.rollback == NoRollback ==> d.riskLabel == High)
    && (d.write && d.nature.externalCommunication ==> d.riskLabel != Low)
  }

  /** The factors a declaration fixes on its own: one known resource, a trusted agent on a trusted
      device, no history against it. */
  function DeclaredFactors(d: RiskDeclaration): Factors {
    Factors(d.write, false, d.rollback != NoRollback, 1,
            d.nature.destructive, d.nature.permissionChange, d.nature.secretAccess,
            d.nature.billing, d.nature.externalCommunication, false, false,
            Trusted, DeviceTrusted, d.riskLabel)
  }

  lemma QuietRules(d: RiskDeclaration, rule: Factor)
    requires Triggered(rule, DeclaredFactors(d))
    ensures rule in [Destructive, Irreversible, PermissionChange, SecretAccess, Billing, ExternalCommunication]
  {
  }

  lemma EveryRuleListed(rule: Factor)
    ensures rule in RULES <==> rule != DeclaredLabel && rule != ReadOnly
  {
    assert RULES[0] == Destructive && RULES[1] == Irreversible && RULES[2] == PermissionChange;
    assert RULES[3] == SecretAccess && RULES[4] == Billing && RULES[5] == BulkChange;
    assert RULES[6] == ProductionWrite && RULES[7] == BeyondHistory && RULES[8] == FirstSeen;
    assert RULES[9] == AgentUnverified && RULES[10] == UntrustedDevice && RULES[11] == ExternalCommunication;
  }

  /** The declaration passes the six checks exactly when the engine, told nothing but the
      declaration, returns the declared label unchanged. */
  lemma ConsistencyIsFixpoint(d: RiskDeclaration)
    requires d.riskLabel != UnknownLevel
    ensures RiskConsistent(d) <==> Assess(DeclaredFactors(d)).value.level == d.riskLabel
  {
    var f := DeclaredFactors(d);
    FoldIsMaximum(RULES, f);
    if RiskConsistent(d) { ConsistentRaises(d); }
    if FoldLevel(RULES, f) == d.riskLabel {
      forall rule | Triggered(rule, f) ensures LevelRank(Raise(rule, f.declaredLabel)) <= LevelRank(d.riskLabel) {
        EveryRuleListed(rule);
      }
      BoundedRaises(d);
    }
  }

  /** No rule a consistent declaration triggers raises its label. */
  lemma ConsistentRaises(d: RiskDeclaration)
    requires RiskConsistent(d) && d.riskLabel != UnknownLevel
    ensures forall rule :: Triggered(rule, DeclaredFactors(d)) ==> Raise(rule, d.riskLabel) == d.riskLabel
  {
    forall rule | Triggered(rule, DeclaredFactors(d)) ensures Raise(rule, d.riskLabel) == d.riskLabel {
      QuietRules(d, rule);
    }
  }

  /** If no triggered rule raises the label, the six checks hold. */
  lemma BoundedRaises(d: RiskDeclaration)
    requires d.riskLabel != UnknownLevel
    requires forall rule :: Triggered(rule, DeclaredFactors(d)) ==>
      LevelRank(Raise(rule, d.riskLabel)) <= LevelRank(d.riskLabel)
    ensures RiskConsistent(d)
  {
    var f := DeclaredFactors(d);
    assert d.nature.destructive ==> Triggered(Destructive, f);
    assert d.write && d.rollback == NoRollback ==> Triggered(Irreversible, f);
    assert d.nature.permissionChange ==> Triggered(PermissionChange, f);
    assert d.nature.secretAccess ==> Triggered(SecretAccess, f);
    assert d.nature.billing ==> Triggered(Billing, f);
    assert d.write && d.nature.externalCommunication ==> Triggered(ExternalCommunication, f);
  }
}
