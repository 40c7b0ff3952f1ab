/**
 The first half of Handle (internal/core/pipeline/pipeline.go): what one request brings along, and
 how memories and standing leases become grants the decision engine can compare.
 */
module Assembly {
  import opened Results
  import opened Scopes
  import opened Tables
  import opened Protocol
  import opened Invariants
  import opened Stability
  import opened Stores
  import opened Learning
  import C = Catalogs
  import D = Decisions
  import I = Intents
  import M = Matcher
  import R = Risk

  datatype Facts = Facts(
    destructive: bool, permissionChange: bool, secretAccess: bool, billing: bool,
    externalCommunication: bool, resourceCount: int)

  /** What the caller has loaded: the stored request, the call it amounts to, the catalog to resolve
      it in, what the naming rules say about its environment, and the evidence about who acts. */
  datatype Inputs = Inputs(
    requestId: Id, operationId: Id, request: Request,
    call: C.NamedCall, catalog: C.Catalog, named: Environment,
    identities: seq<M.Identity>, workspaceBindings: seq<M.Binding>, resourceBindings: seq<M.Binding>,
    manualSelection: string,
    agentTrust: R.AgentTrust, deviceTrust: R.DeviceTrust, facts: Facts,
    readOnlyAutoAllow: bool, newService: bool, identityChanged: bool, newIdentity: bool, newResource: bool,
    blockers: seq<D.Blocker>)

  /** The row still asks for what was asked: everything but its status and preview is fixed. */
  predicate AsksFor(row: Request, asked: Request) {
    row == asked.(status := row.status, preview := row.preview)
  }

  /** What the pipeline demands of its caller: the call carries the fields and the change of the
      request, and its tool, if it is declared at all, is the one of its service and operation. */
  ghost predicate FromRequest(inputs: Inputs) {
    && inputs.call.fields == inputs.request.fields
    && inputs.call.desiredChange == inputs.request.desiredChange
    && (inputs.call.tool != "" && inputs.call.tool in inputs.catalog.byTool ==>
          var e := inputs.catalog.byTool[inputs.call.tool];
          e.service == inputs.request.service && e.capability.operation == inputs.request.operation)
  }

  const NOBODY := M.Identity("", "", "", UnknownEnvironment, false)

  function IdentityOf(found: M.Match): M.Identity {
    if found.identity.Some? then found.identity.value else NOBODY
  }

  // ----- toGrants, identitiesOf, standing: loops that collect -----

  function GrantsOf(items: seq<Item<Memory>>): seq<D.Grant> {
    if items == [] then []
    else
      var last := items[|items| - 1];
      GrantsOf(items[..|items| - 1])
        + (if Validates(last.row.scope)
           then [D.Grant(last.id, last.row.scope, last.row.behavior == AlwaysAskBehavior)] else [])
  }

  method ToGrants(items: seq<Item<Memory>>) returns (grants: seq<D.Grant>)
    ensures grants == GrantsOf(items)
  {
    grants := [];
    for i := 0 to |items|
      invariant grants == GrantsOf(items[..i])
    {
      assert items[..i + 1][..i] == items[..i];
      if Validates(items[i].row.scope) {
        grants := grants + [D.Grant(items[i].id, items[i].row.scope, items[i].row.behavior == AlwaysAskBehavior)];
      }
    }
    assert items[..|items|] == items;
  }

  /** Each grant is a remembered scope, no laxer than the lesson behind it. */
  lemma {:induction false} GrantsKnown(s: State, items: seq<Item<Memory>>)
    requires forall item :: item in items ==> Remembered(s, item)
    ensures forall g :: g in GrantsOf(items) ==>
      && g.memoryId in s.h.lessons && s.h.lessons[g.memoryId].scope == g.scope
      && (s.h.lessons[g.memoryId].behavior == AlwaysAskBehavior ==> g.alwaysAsk)
  {
    if items != [] {
      var last := items[|items| - 1];
      assert last in items;
      GrantsKnown(s, items[..|items| - 1]);
    }
  }

  method IdentitiesOf(items: seq<Item<Memory>>) returns (pinned: seq<Id>)
    ensures |pinned| == |items| && forall k :: 0 <= k < |items| ==> pinned[k] == items[k].row.identityId
  {
    pinned := [];
    for i := 0 to |items|
      invariant |pinned| == i && forall k :: 0 <= k < i ==> pinned[k] == items[k].row.identityId
    {
      pinned := pinned + [items[i].row.identityId];
    }
  }

  /** A lease that may stand in for a new one: this agent, this service, not expired. */
  predicate Stands(item: Item<Lease>, agent: Id, service: string, now: Instant) {
    && item.row.agentId == agent && item.row.service == service
    && Loaded(item.row.expiresAt) > now && Validates(item.row.scope)
  }

  function StandingOf(items: seq<Item<Lease>>, agent: Id, service: string, now: Instant): seq<D.ActiveLease> {
    if items == [] then []
    else
      var last := items[|items| - 1];
      StandingOf(items[..|items| - 1], agent, service, now)
        + (if Stands(last, agent, service, now) then [D.ActiveLease(last.id, last.row.scope)] else [])
  }

  method ToStanding(items: seq<Item<Lease>>, agent: Id, service: string, now: Instant)
    returns (covering: seq<D.ActiveLease>)
    ensures covering == StandingOf(items, agent, service, now)
  {
    covering := [];
    for i := 0 to |items|
      invariant covering == StandingOf(items[..i], agent, service, now)
    {
      assert items[..i + 1][..i] == items[..i];
      if Stands(items[i], agent, service, now) {
        covering := covering + [D.ActiveLease(items[i].id, items[i].row.scope)];
      }
    }
    assert items[..|items|] == items;
  }

  lemma {:induction false} StandingKnown(
    leases: map<Id, Lease>, items: seq<Item<Lease>>, agent: Id, service: string, now: Instant)
    requires forall item :: item in items ==> item.id != "" && item.id in leases && leases[item.id] == item.row
    ensures forall l :: l in StandingOf(items, agent, service, now) ==>
      && l.leaseId != "" && l.leaseId in leases && leases[l.leaseId].scope == l.scope
      && leases[l.leaseId].agentId == agent && leases[l.leaseId].service == service
      && Loaded(leases[l.leaseId].expiresAt) > now
  {
    if items != [] {
      assert items[|items| - 1] in items;
      StandingKnown(leases, items[..|items| - 1], agent, service, now);
    }
  }

  // ----- Risk factors -----

  /** Some memories are known and none of them covers the scope. */
  predicate BeyondHistory(items: seq<Item<Memory>>, converged: Scope) {
    items != []
    && forall item :: item in items ==>
         !(Validates(item.row.scope) && CoversIgnoringWindow(item.row.scope, converged))
  }

  method IsBeyondHistory(items: seq<Item<Memory>>, converged: Scope) returns (beyond: bool)
    ensures beyond == BeyondHistory(items, converged)
  {
    if items == [] { return false; }
    for i := 0 to |items|
      invariant forall j :: 0 <= j < i ==>
        !(Validates(items[j].row.scope) && CoversIgnoringWindow(items[j].row.scope, converged))
    {
      if Validates(items[i].row.scope) && CoversIgnoringWindow(items[i].row.scope, converged) {
        assert items[i] in items;
        return false;
      }
    }
    return true;
  }

  function FactorsOf(inputs: Inputs, parsed: I.Intent, converged: Scope, firstSeen: bool, beyond: bool): R.Factors {
    R.Factors(
      inputs.call.desiredChange != "", converged.environment == Production, parsed.reversible,
      if inputs.facts.resourceCount == 0 && !parsed.resourceAmbiguous then 1 else inputs.facts.resourceCount,
      inputs.facts.destructive, inputs.facts.permissionChange,
      inputs.facts.secretAccess || parsed.sensitiveData, inputs.facts.billing,
      inputs.facts.externalCommunication, firstSeen, beyond,
      inputs.agentTrust, inputs.deviceTrust, parsed.riskLabel)
  }

  /** Beyond-history, as a risk factor, and beyond-learned-scope, as a branch of the decision, test
      the same thing: whether the grants handed to the engine are many and none covers. */
  lemma {:induction false} CoveredByGrants(items: seq<Item<Memory>>, scope: Scope)
    ensures (exists g :: g in GrantsOf(items) && CoversIgnoringWindow(g.scope, scope)) <==>
            (exists item :: item in items && Validates(item.row.scope) && CoversIgnoringWindow(item.row.scope, scope))
  {
    if items != [] {
      var front, last := items[..|items| - 1], items[|items| - 1];
      CoveredByGrants(front, scope);
      assert items == front + [last];
      var grant := D.Grant(last.id, last.row.scope, last.row.behavior == AlwaysAskBehavior);
      assert Validates(last.row.scope) ==> grant in GrantsOf(items);
      assert forall g :: g in GrantsOf(items) <==> g in GrantsOf(front) || (Validates(last.row.scope) && g == grant);
    }
  }

  lemma BeyondHistoryMeansNoGrant(items: seq<Item<Memory>>, scope: Scope)
    ensures BeyondHistory(items, scope) <==>
      items != [] && forall g :: g in GrantsOf(items) ==> !CoversIgnoringWindow(g.scope, scope)
  {
    CoveredByGrants(items, scope);
  }

  function InputOf(
    inputs: Inputs, mode: D.Mode, found: M.Match, converged: I.Converged, assessment: R.Assessment,
    learned: seq<D.Grant>, active: seq<D.ActiveLease>): D.Input
  {
    D.Input(
      mode, inputs.request.agentId, inputs.agentTrust, inputs.call.desiredChange != "",
      found, converged.scope, converged.ambiguous, assessment,
      inputs.readOnlyAutoAllow, inputs.newService, inputs.identityChanged,
      inputs.newIdentity, inputs.newResource, learned, active, inputs.blockers)
  }

  function TargetOf(inputs: Inputs, parsed: I.Intent): M.Target {
    M.Target(parsed.service, inputs.request.workspaceId, parsed.resourceKey)
  }

  function EvidenceOf(inputs: Inputs, pinned: seq<Id>): M.Evidence {
    M.Evidence(inputs.workspaceBindings, inputs.resourceBindings, pinned, inputs.identities, inputs.manualSelection)
  }

  function ScopeInputOf(inputs: Inputs, parsed: I.Intent, identity: M.Identity): I.ScopeInput {
    I.ScopeInput(parsed, inputs.request.agentId, inputs.request.workspaceId, identity, 0, 0)
  }

  function PinnedBy(memories: seq<Item<Memory>>): seq<Id> {
    seq(|memories|, k requires 0 <= k < |memories| => memories[k].row.identityId)
  }

  /** The decision input is what the six stages before it say, for some clock reading `now`. */
  ghost predicate InputFor(
    inputs: Inputs, mode: D.Mode, input: D.Input, memories: seq<Item<Memory>>, now: Instant)
  {
    && C.ResolvedCall(inputs.catalog, inputs.call, inputs.named).Ok?
    && var parsed := C.ResolvedCall(inputs.catalog, inputs.call, inputs.named).value;
    && M.Matched(TargetOf(inputs, parsed), EvidenceOf(inputs, PinnedBy(memories))) == Ok(input.found)
    && I.ResolveScope(ScopeInputOf(inputs, parsed, IdentityOf(input.found)), now)
       == Ok(I.Converged(input.scope, input.ambiguous))
    && R.Assess(FactorsOf(inputs, parsed, input.scope, memories == [], BeyondHistory(memories, input.scope)))
       == Ok(input.assessment)
    && input == InputOf(inputs, mode, input.found, I.Converged(input.scope, input.ambiguous), input.assessment,
                        GrantsOf(memories), input.active)
  }

  /** The first of the stages that fails on what was read, as a blocker. */
  ghost function Hindrance(inputs: Inputs, memories: seq<Item<Memory>>, now: Instant): Option<D.Blocker> {
    var understood := C.ResolvedCall(inputs.catalog, inputs.call, inputs.named);
    if understood.Err? then Some(D.CapabilityNotOfferedBlocker)
    else LaterHindrance(inputs, understood.value, memories, now)
  }

  ghost function LaterHindrance(
    inputs: Inputs, parsed: I.Intent, memories: seq<Item<Memory>>, now: Instant): Option<D.Blocker>
  {
    var found := M.Matched(TargetOf(inputs, parsed), EvidenceOf(inputs, PinnedBy(memories)));
    if found.Err? then Some(D.IdentityAmbiguityUnresolvable)
    else
      var converged := I.ResolveScope(ScopeInputOf(inputs, parsed, IdentityOf(found.value)), now);
      if converged.Err? then Some(D.ScopeUndeterminable)
      else
        var scope := converged.value.scope;
        if R.Assess(FactorsOf(inputs, parsed, scope, memories == [], BeyondHistory(memories, scope))).Err?
        then Some(D.RiskUnknown) else None
  }

  datatype Resolved = Ready(input: D.Input) | Stopped(blocker: D.Blocker)

  datatype Located = Located(found: M.Match, converged: I.Converged) | Lost(blocker: D.Blocker)

  /** From memories to identity and scope. */
  method Locate(inputs: Inputs, parsed: I.Intent, memories: seq<Item<Memory>>, now: Instant) returns (r: Located)
    ensures r.Located? ==>
      && M.Matched(TargetOf(inputs, parsed), EvidenceOf(inputs, PinnedBy(memories))) == Ok(r.found)
      && I.ResolveScope(ScopeInputOf(inputs, parsed, IdentityOf(r.found)), now) == Ok(r.converged)
    ensures r.Lost? ==> LaterHindrance(inputs, parsed, memories, now) == Some(r.blocker)
  {
    var pinned := IdentitiesOf(memories);
    assert pinned == PinnedBy(memories);
    var found := M.MatchRequest(TargetOf(inputs, parsed), EvidenceOf(inputs, pinned));
    if found.Err? { return Lost(D.IdentityAmbiguityUnresolvable); }
    var converged := I.ResolveScope(ScopeInputOf(inputs, parsed, IdentityOf(found.value)), now);
    if converged.Err? { return Lost(D.ScopeUndeterminable); }
    return Located(found.value, converged.value);
  }

  /** From identity, scope and standing leases to the decision input. */
  method Complete(
    inputs: Inputs, mode: D.Mode, parsed: I.Intent, memories: seq<Item<Memory>>, now: Instant,
    located: Located, standing: seq<D.ActiveLease>) returns (r: Resolved)
    requires C.ResolvedCall(inputs.catalog, inputs.call, inputs.named) == Ok(parsed) && located.Located?
    requires M.Matched(TargetOf(inputs, parsed), EvidenceOf(inputs, PinnedBy(memories))) == Ok(located.found)
    requires I.ResolveScope(ScopeInputOf(inputs, parsed, IdentityOf(located.found)), now) == Ok(located.converged)
    ensures r.Ready? ==> InputFor(inputs, mode, r.input, memories, now) && r.input.active == standing
    ensures r.Ready? ==> r.input.learned == GrantsOf(memories)
    ensures LaterHindrance(inputs, parsed, memories, now) ==
            if r.Stopped? then Some(r.blocker) else None
  {
    var scope := located.converged.scope;
    var beyond := IsBeyondHistory(memories, scope);
    var assessed := R.Evaluate(FactorsOf(inputs, parsed, scope, memories == [], beyond));
    if assessed.Err? { return Stopped(D.RiskUnknown); }
    var grants := ToGrants(memories);
    return Ready(InputOf(inputs, mode, located.found, located.converged, assessed.value, grants, standing));
  }

  /** A request whose identity stays ambiguous never gets as far as a decision: its scope lacks an
      identity, and the pipeline fails closed on that. */
  lemma AmbiguousFailsClosed(inputs: Inputs, mode: D.Mode, input: D.Input, memories: seq<Item<Memory>>, now: Instant)
    requires InputFor(inputs, mode, input, memories, now)
    ensures !input.found.ambiguous && input.found.identity.Some?
    ensures I.Minimal(input.scope, input.ambiguous) && input.scope.notBefore == now
    ensures input.scope.identityId == input.found.identity.value.id
  {
    var parsed := C.ResolvedCall(inputs.catalog, inputs.call, inputs.named).value;
    M.MatchIsResolvable(TargetOf(inputs, parsed), EvidenceOf(inputs, PinnedBy(memories)));
    I.ResolvedIsMinimal(ScopeInputOf(inputs, parsed, IdentityOf(input.found)), now);
  }

  /** What is decided on is what the request asked for, in every dimension the request names, and it
      is assessed as a read exactly when it changes nothing. */
  lemma DecidedAsAsked(inputs: Inputs, mode: D.Mode, input: D.Input, memories: seq<Item<Memory>>, now: Instant)
    requires InputFor(inputs, mode, input, memories, now) && FromRequest(inputs)
    ensures Concerns(inputs.request, input.scope, input.assessment.factors)
    ensures input.write <==> inputs.request.desiredChange != ""
  {
    var parsed := C.ResolvedCall(inputs.catalog, inputs.call, inputs.named).value;
    C.ResolvedAsDeclared(inputs.catalog, inputs.call, inputs.named);
    I.ResolvedIsMinimal(ScopeInputOf(inputs, parsed, IdentityOf(input.found)), now);
    R.AssessFacts(FactorsOf(inputs, parsed, input.scope, memories == [], BeyondHistory(memories, input.scope)));
  }

  /** What was read at two earlier moments of the run is still known now. */
  lemma InputFromReads(
    a: State, b: State, s: State, input: D.Input,
    memories: seq<Item<Memory>>, leases: seq<Item<Lease>>, agent: Id, service: string, now: Instant)
    requires Inv(b) && Evolves(a, s) && Evolves(b, s)
    requires forall item :: item in memories ==> Remembered(a, item)
    requires forall item :: item in leases ==> item.id in b.db.leases && b.db.leases[item.id] == item.row
    requires input.learned == GrantsOf(memories) && input.active == StandingOf(leases, agent, service, now)
    ensures InputKnown(s, input)
  {
    GrantsKnown(a, memories);
    forall item | item in leases ensures item.id != "" {
      InvLease(b, item.id);
    }
    StandingKnown(b.db.leases, leases, agent, service, now);
    forall l | l in input.active ensures l.leaseId in s.db.leases && s.db.leases[l.leaseId].scope == l.scope {
      assert LeaseEvolves(b.db.leases[l.leaseId], s.db.leases[l.leaseId]);
    }
  }

  // ----- From the decision engine to the protocol -----

  /** Every learned grant goes back to a lesson that is no laxer, every active one to a stored lease. */
  ghost predicate InputKnown(s: State, input: D.Input) {
    && (forall g :: g in input.learned ==>
          && g.memoryId in s.h.lessons && s.h.lessons[g.memoryId].scope == g.scope
          && (s.h.lessons[g.memoryId].behavior == AlwaysAskBehavior ==> g.alwaysAsk))
    && (forall l :: l in input.active ==>
          l.leaseId != "" && l.leaseId in s.db.leases && s.db.leases[l.leaseId].scope == l.scope)
  }

  function PlanOf(input: D.Input): Plan {
    Plan(input.scope, input.assessment.level, input.assessment.factors,
         if input.found.identity.Some? then input.found.identity.value.id else "", D.Decide(input))
  }

  /** Whatever the engine decides on such an input, the protocol may act on. */
  lemma DecisionIsJustified(s: State, input: D.Input)
    requires InputKnown(s, input) && I.Minimal(input.scope, input.ambiguous)
    ensures Justified(s, PlanOf(input))
  {
    var o := D.Decide(input);
    if o.verdict == D.AutoAllow {
      D.AllowBasis(input);
      if o.reason == D.ActiveLeaseReason {
        var l :| l in input.active && l.leaseId == o.matchedLeaseId && CoversIgnoringWindow(l.scope, input.scope);
        assert l.leaseId in s.db.leases;
      }
      if o.reason == D.TrustMemoryMatch {
        var g :| g in input.learned && g.memoryId == o.matchedMemoryId
                 && CoversIgnoringWindow(g.scope, input.scope) && !g.alwaysAsk;
        assert g.memoryId in s.h.lessons;
      }
    }
  }
}
