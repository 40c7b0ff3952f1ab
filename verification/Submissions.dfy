/**
 How a stored request enters the pipeline (internal/orchestration/submissions.go): the inputs of a
 decision are put together in one place, from the request itself and from what the registry and the
 repositories say about it.
 */
module Submissions {
  import opened Results
  import opened Scopes
  import opened Tables
  import opened Protocol
  import opened Assembly
  import C = Catalogs
  import D = Decisions
  import I = Intents
  import M = Matcher
  import R = Risk

  /** The part of registry.Capability the faces look at. */
  datatype Offer = Offer(write: bool, resourceKeys: seq<string>, facts: Facts)

  /** What stands around a request: the compiled-in capabilities by service and operation, and what the
      repositories answer about its agent, the agent's device, the declarations and the identities. */
  datatype Surroundings = Surroundings(
    registry: map<string, map<string, Offer>>,
    agentTrust: Result<R.AgentTrust>, deviceTrust: Result<R.DeviceTrust>,
    declarations: Result<seq<C.Declaration>>, identities: Result<seq<M.Identity>>,
    named: Environment)

  const NO_FACTS := Facts(false, false, false, false, false, 0)

  /** Registry.Capability: None is capability_not_offered. */
  function OfferOf(registry: map<string, map<string, Offer>>, service: string, operation: string): Option<Offer> {
    if service in registry && operation in registry[service] then Some(registry[service][operation]) else None
  }

  /** soleEnvironment: with one candidate its mark is already certain; with several nothing is. */
  function SoleEnvironment(identities: seq<M.Identity>): Environment {
    if |identities| == 1 then identities[0].environment else UnknownEnvironment
  }

  /** No declared name holds the separator the catalog joins them with. */
  ghost predicate PlainNames(around: Surroundings) {
    around.declarations.Ok? ==> forall e :: e in C.EntriesOf(around.declarations.value) ==> C.SeparatorFree(e)
  }

  /** Everything the repositories are asked for is answered, and the declarations load. */
  ghost predicate Answerable(around: Surroundings) {
    && around.agentTrust.Ok? && around.deviceTrust.Ok? && around.identities.Ok?
    && around.declarations.Ok? && C.Loadable(around.declarations.value)
  }

  /** inputsFor: the call is made of the request alone, and a capability the registry does not know
      becomes a blocker instead of an error, so that its refusal reaches the ledger. */
  method InputsFor(requestId: Id, operationId: Id, request: Request, around: Surroundings) returns (r: Result<Inputs>)
    ensures r.Ok? <==> Answerable(around)
    ensures r.Ok? ==>
      && r.value.requestId == requestId && r.value.operationId == operationId && r.value.request == request
      && (r.value.blockers == if OfferOf(around.registry, request.service, request.operation).None?
                              then [D.CapabilityNotOfferedBlocker] else [])
      && r.value.identities == around.identities.value
    ensures r.Ok? && PlainNames(around) ==> FromRequest(r.value)
  {
    var offer := OfferOf(around.registry, request.service, request.operation);
    var agentTrust :- around.agentTrust;
    var deviceTrust :- around.deviceTrust;
    var declarations :- around.declarations;
    var catalog :- C.NewCatalog(declarations);
    var identities :- around.identities;
    var tool := C.ToolFor(catalog, request.service, request.operation);
    C.ToolForExact(catalog, C.EntriesOf(declarations));
    assert PlainNames(around) ==> C.NamesOwn(catalog, request.service, request.operation);
    return Ok(Inputs(
      requestId, operationId, request,
      C.NamedCall(if tool.Some? then tool.value else "", request.fields, request.desiredChange,
                  SoleEnvironment(identities)),
      catalog, around.named, identities, [], [], "", agentTrust, deviceTrust,
      if offer.Some? then offer.value.facts else NO_FACTS,
      false, false, false, false, false,
      if offer.Some? then [] else [D.CapabilityNotOfferedBlocker]));
  }
}
