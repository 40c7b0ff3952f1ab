/**
 From a parsed call to a minimal scope: the resource fields of an intent
 (internal/core/intent/resolver.go) and the scope resolver (internal/core/scope/resolver.go).
 */
module Intents {
  import opened Results
  import opened Scopes
  import M = Matcher

  /** A JSON field of the request: text, or anything else. */
  datatype Field = Text(text: string) | Other

  /** Every value of the resource stands, as text, in the field of that name. */
  predicate TakenFrom(resource: ResourceMap, fields: map<string, Field>) {
    forall key :: key in resource ==> key in fields && fields[key] == Text(resource[key])
  }

  datatype Extract = Extract(resource: ResourceMap, ambiguous: bool)

  /** What the loop over the declared keys collects. */
  function Extracted(fields: map<string, Field>, keys: seq<string>): Result<Extract> {
    if keys == [] then Ok(Extract(map[], false))
    else
      var key := keys[|keys| - 1];
      var front :- Extracted(fields, keys[..|keys| - 1]);
      if key !in fields then Err(InvalidRequest)
      else if fields[key].Other? || fields[key].text == "" then Err(InvalidRequest)
      else Ok(Extract(front.resource[key := fields[key].text],
                      front.ambiguous || WildcardText(fields[key].text)))
  }

  lemma {:induction false} FailedStaysFailed(fields: map<string, Field>, keys: seq<string>, n: nat)
    requires n <= |keys| && Extracted(fields, keys[..n]).Err?
    ensures Extracted(fields, keys) == Err(InvalidRequest)
    decreases |keys| - n
  {
    if n == |keys| {
      assert keys[..n] == keys;
      OnlyInvalid(fields, keys);
    } else {
      assert keys[..n + 1][..n] == keys[..n];
      FailedStaysFailed(fields, keys, n + 1);
    }
  }

  lemma {:induction false} OnlyInvalid(fields: map<string, Field>, keys: seq<string>)
    ensures Extracted(fields, keys).Err? ==> Extracted(fields, keys) == Err(InvalidRequest)
  {
    if keys != [] { OnlyInvalid(fields, keys[..|keys| - 1]); }
  }

  method ExtractResource(fields: map<string, Field>, keys: seq<string>) returns (r: Result<Extract>)
    ensures r == Extracted(fields, keys)
  {
    var resource: ResourceMap := map[];
    var ambiguous := false;
    for i := 0 to |keys|
      invariant Extracted(fields, keys[..i]) == Ok(Extract(resource, ambiguous))
    {
      var key := keys[i];
      assert keys[..i + 1][..i] == keys[..i];
      if key !in fields || fields[key].Other? || fields[key].text == "" {
        FailedStaysFailed(fields, keys, i + 1);
        return Err(InvalidRequest);
      }
      if WildcardText(fields[key].text) { ambiguous := true; }
      resource := resource[key := fields[key].text];
    }
    assert keys[..|keys|] == keys;
    return Ok(Extract(resource, ambiguous));
  }

  /** An extracted resource has exactly the declared keys, no empty value, and is ambiguous exactly
      when it holds a wildcard. */
  lemma {:induction false} ExtractedFacts(fields: map<string, Field>, keys: seq<string>)
    requires Extracted(fields, keys).Ok?
    ensures var e := Extracted(fields, keys).value;
      && e.resource.Keys == (set k | k in keys)
      && TakenFrom(e.resource, fields)
      && Definite(e.resource)
      && (e.ambiguous <==> HasWildcard(e.resource))
  {
    if keys != [] {
      ExtractedFacts(fields, keys[..|keys| - 1]);
      var front := Extracted(fields, keys[..|keys| - 1]).value;
      var key := keys[|keys| - 1];
      var e := Extracted(fields, keys).value;
      assert forall k :: k in keys <==> k in keys[..|keys| - 1] || k == key;
      if WildcardText(fields[key].text) { assert e.resource[key] == fields[key].text; }
      if k :| k in front.resource && WildcardText(front.resource[k]) {
        assert e.resource[k] == front.resource[k];
      }
    }
  }

  /** A structured intent. Its resource comes out of ExtractResource, which is where the two
      constraints on it are proved. */
  datatype IntentFields = Intent(
    service: string, operation: string, resource: ResourceMap, resourceKey: string,
    environment: Environment, reversible: bool, sensitiveData: bool,
    riskLabel: Level, resourceAmbiguous: bool)

  type Intent = i: IntentFields |
      Definite(i.resource) && (i.resourceAmbiguous <==> HasWildcard(i.resource))
    witness Intent("", "", map[], "", Production, true, false, Low, false)

  datatype ScopeInput = ScopeInput(
    intent: Intent, agentId: string, workspaceId: string, identity: M.Identity,
    duration: int, requestLimit: int)

  datatype Converged = Converged(scope: Scope, ambiguous: bool)

  function CheckInput(i: ScopeInput): Option<Code> {
    if i.identity.id != "" && i.intent.service != "" && i.identity.service != i.intent.service
    then Some(Internal)
    else if i.identity.environment != UnknownEnvironment && i.identity.environment != i.intent.environment
    then Some(Internal)
    else if i.duration < 0 then Some(InvalidRequest)
    else if i.requestLimit < 0 then Some(InvalidRequest)
    else None
  }

  function ResolveScope(i: ScopeInput, now: Instant): Result<Converged> {
    if CheckInput(i).Some? then Err(CheckInput(i).value)
    else
      var duration := if i.duration == 0 then DEFAULT_DURATION else i.duration;
      var limit := if i.requestLimit == 0 then DEFAULT_REQUEST_LIMIT else i.requestLimit;
      var resolved := Scope(
        i.agentId, i.workspaceId, i.intent.service, i.identity.id, i.identity.accountLabel,
        i.intent.resource, i.intent.resourceKey, i.intent.operation,
        now, now + duration, limit, i.intent.environment, i.intent.riskLabel);
      if !Validates(resolved) then Err(InvalidRequest)
      else Ok(Converged(resolved, i.intent.resourceAmbiguous))
  }

  /** A scope the pipeline converges on for one request: all ten dimensions, fifteen minutes from
      now, one use, nothing but definite resource values. */
  ghost predicate Minimal(scope: Scope, ambiguous: bool) {
    && Validates(scope)
    && scope.expiresAt == scope.notBefore + DEFAULT_DURATION
    && scope.requestLimit == DEFAULT_REQUEST_LIMIT
    && Definite(scope.resource)
    && (ambiguous <==> HasWildcard(scope.resource))
  }

  lemma ResolvedIsMinimal(i: ScopeInput, now: Instant)
    requires ResolveScope(i, now).Ok? && i.duration == 0 && i.requestLimit == 0
    ensures var c := ResolveScope(i, now).value;
      && Minimal(c.scope, c.ambiguous)
      && c.scope.notBefore == now
      && c.scope.service == i.intent.service == i.identity.service
      && c.scope.identityId == i.identity.id
      && c.scope.agentId == i.agentId && c.scope.workspaceId == i.workspaceId
      && c.scope.operation == i.intent.operation && c.scope.resource == i.intent.resource
  {
  }
}
