/**
 The capability catalog (internal/core/intent/capability.go): the enabled declarations as two lookup
 tables, and the resolution of a call against them (internal/core/intent/resolver.go, intent.go).
 */
module Catalogs {
  import opened Results
  import opened Scopes
  import opened Text
  import opened Intents

  /** One capability as its declaration states it; None is a flag the declaration leaves out. */
  datatype ToolCapability = ToolCapability(
    tool: string, operation: string, verb: string, path: string, risk: Level,
    idempotent: Option<bool>, reversible: Option<bool>, sensitiveData: Option<bool>,
    resourceKeys: seq<string>)

  /** `capabilities` is None when the stored text is no list of capabilities. */
  datatype Declaration = Declaration(service: string, enabled: bool, capabilities: Option<seq<ToolCapability>>)

  datatype CatalogEntry = CatalogEntry(service: string, capability: ToolCapability)

  datatype Catalog = Catalog(byTool: map<string, CatalogEntry>, byOperation: map<string, CatalogEntry>)

  const NUL := '\0'

  /** operationKeyOf. */
  function OperationKey(service: string, operation: string): string {
    service + [NUL] + operation
  }

  function KeyOf(e: CatalogEntry): string { OperationKey(e.service, e.capability.operation) }

  /** Capability.validate: every item of the declaration is there. */
  predicate FullyDeclared(c: ToolCapability) {
    && c.tool != "" && c.operation != "" && c.verb != "" && c.path != ""
    && c.risk != UnknownLevel
    && c.idempotent.Some? && c.reversible.Some? && c.sensitiveData.Some?
    && c.resourceKeys != [] && "" !in c.resourceKeys
  }

  predicate Readable(d: Declaration) {
    && d.capabilities.Some? && d.capabilities.value != []
    && forall k :: 0 <= k < |d.capabilities.value| ==> FullyDeclared(d.capabilities.value[k])
  }

  // ----- What a list of declarations offers -----

  function EntriesIn(d: Declaration): seq<CatalogEntry> {
    if d.enabled && d.capabilities.Some?
    then seq(|d.capabilities.value|, k requires 0 <= k < |d.capabilities.value| =>
               CatalogEntry(d.service, d.capabilities.value[k]))
    else []
  }

  function EntriesOf(declarations: seq<Declaration>): seq<CatalogEntry> {
    if declarations == [] then []
    else EntriesOf(declarations[..|declarations| - 1]) + EntriesIn(declarations[|declarations| - 1])
  }

  /** No tool name and no operation of a service is declared twice. */
  ghost predicate Distinct(entries: seq<CatalogEntry>) {
    forall j, k :: 0 <= j < k < |entries| ==>
      entries[j].capability.tool != entries[k].capability.tool && KeyOf(entries[j]) != KeyOf(entries[k])
  }

  ghost predicate Loadable(declarations: seq<Declaration>) {
    && (forall d :: d in declarations && d.enabled ==> Readable(d))
    && Distinct(EntriesOf(declarations))
  }

  /** Both tables hold exactly these entries, each under its own name. */
  ghost predicate Indexes(catalog: Catalog, entries: seq<CatalogEntry>) {
    && (forall k :: 0 <= k < |entries| ==> Indexed(catalog, entries[k]))
    && (forall tool :: tool in catalog.byTool ==>
          catalog.byTool[tool].capability.tool == tool && catalog.byTool[tool] in entries)
    && (forall key :: key in catalog.byOperation ==>
          KeyOf(catalog.byOperation[key]) == key && catalog.byOperation[key] in entries)
  }

  ghost predicate Indexed(catalog: Catalog, e: CatalogEntry) {
    && e.capability.tool in catalog.byTool && catalog.byTool[e.capability.tool] == e
    && KeyOf(e) in catalog.byOperation && catalog.byOperation[KeyOf(e)] == e
  }

  lemma {:induction false} EntriesOfPrefix(declarations: seq<Declaration>, n: nat)
    requires n <= |declarations|
    ensures EntriesOf(declarations[..n]) <= EntriesOf(declarations)
    decreases |declarations| - n
  {
    if n == |declarations| {
      assert declarations[..n] == declarations;
    } else {
      EntriesOfPrefix(declarations, n + 1);
      assert declarations[..n + 1][..n] == declarations[..n];
    }
  }

  /** What repeats a name early on repeats it for good. */
  lemma RepeatedStays(entries: seq<CatalogEntry>, longer: seq<CatalogEntry>)
    requires entries <= longer && !Distinct(entries)
    ensures !Distinct(longer)
  {
    var j, k :| 0 <= j < k < |entries|
      && (entries[j].capability.tool == entries[k].capability.tool || KeyOf(entries[j]) == KeyOf(entries[k]));
    assert longer[j] == entries[j] && longer[k] == entries[k];
  }

  lemma Repeated(catalog: Catalog, seen: seq<CatalogEntry>, e: CatalogEntry)
    requires Indexes(catalog, seen)
    requires e.capability.tool in catalog.byTool || KeyOf(e) in catalog.byOperation
    ensures !Distinct(seen + [e])
  {
    var other := if e.capability.tool in catalog.byTool then catalog.byTool[e.capability.tool]
                 else catalog.byOperation[KeyOf(e)];
    var j :| 0 <= j < |seen| && seen[j] == other;
    assert (seen + [e])[j] == other && (seen + [e])[|seen|] == e;
  }

  lemma AddedIndexed(catalog: Catalog, seen: seq<CatalogEntry>, e: CatalogEntry)
    requires Indexes(catalog, seen)
    requires e.capability.tool !in catalog.byTool && KeyOf(e) !in catalog.byOperation
    ensures Indexes(Added(catalog, e), seen + [e])
  {
    var next, more := Added(catalog, e), seen + [e];
    forall k | 0 <= k < |more| ensures Indexed(next, more[k]) {
      if k < |seen| { assert Indexed(catalog, seen[k]); }
    }
    assert more[|seen|] == e;
    assert forall x :: x in seen ==> x in more;
  }

  lemma AddedDistinct(catalog: Catalog, seen: seq<CatalogEntry>, e: CatalogEntry)
    requires Indexes(catalog, seen) && Distinct(seen)
    requires e.capability.tool !in catalog.byTool && KeyOf(e) !in catalog.byOperation
    ensures Distinct(seen + [e])
  {
    var more := seen + [e];
    forall j, k | 0 <= j < k < |more|
      ensures more[j].capability.tool != more[k].capability.tool && KeyOf(more[j]) != KeyOf(more[k])
    {
      assert Indexed(catalog, seen[j]);
    }
  }

  function Added(catalog: Catalog, e: CatalogEntry): Catalog {
    Catalog(catalog.byTool[e.capability.tool := e], catalog.byOperation[KeyOf(e) := e])
  }

  /** NewCatalog: one bad or repeated declaration refuses all of them; disabled ones do not count. */
  method NewCatalog(declarations: seq<Declaration>) returns (r: Result<Catalog>)
    ensures r.Ok? <==> Loadable(declarations)
    ensures r.Ok? ==> Indexes(r.value, EntriesOf(declarations))
    ensures r.Err? ==> r.code == InvalidConfiguration
  {
    var catalog := Catalog(map[], map[]);
    for i := 0 to |declarations|
      invariant Indexes(catalog, EntriesOf(declarations[..i])) && Distinct(EntriesOf(declarations[..i]))
      invariant forall d :: d in declarations[..i] && d.enabled ==> Readable(d)
    {
      var declaration := declarations[i];
      assert declarations[..i + 1] == declarations[..i] + [declaration];
      assert declarations[..i + 1][..i] == declarations[..i];
      if !declaration.enabled { continue; }
      if !Readable(declaration) { return Err(InvalidConfiguration); }
      var more := AddEach(catalog, declaration, EntriesOf(declarations[..i]));
      if more.Err? {
        EntriesOfPrefix(declarations, i + 1);
        RepeatedStays(EntriesOf(declarations[..i + 1]), EntriesOf(declarations));
        return more;
      }
      catalog := more.value;
    }
    assert declarations[..|declarations|] == declarations;
    return Ok(catalog);
  }

  /** The capabilities of one declaration. */
  method AddEach(catalog: Catalog, declaration: Declaration, ghost seen: seq<CatalogEntry>) returns (r: Result<Catalog>)
    requires Indexes(catalog, seen) && Distinct(seen) && declaration.enabled && declaration.capabilities.Some?
    ensures r.Ok? ==>
      && Indexes(r.value, seen + EntriesIn(declaration)) && Distinct(seen + EntriesIn(declaration))
    ensures r.Err? ==> r.code == InvalidConfiguration && !Distinct(seen + EntriesIn(declaration))
  {
    var capabilities := declaration.capabilities.value;
    ghost var own := EntriesIn(declaration);
    var grown := catalog;
    assert seen + own[..0] == seen;
    for k := 0 to |capabilities|
      invariant Indexes(grown, seen + own[..k]) && Distinct(seen + own[..k])
    {
      var added := CatalogEntry(declaration.service, capabilities[k]);
      assert seen + own[..k + 1] == seen + own[..k] + [added];
      if added.capability.tool in grown.byTool || KeyOf(added) in grown.byOperation {
        Repeated(grown, seen + own[..k], added);
        RepeatedStays(seen + own[..k + 1], seen + own);
        return Err(InvalidConfiguration);
      }
      AddedIndexed(grown, seen + own[..k], added);
      AddedDistinct(grown, seen + own[..k], added);
      grown := Added(grown, added);
    }
    assert own[..|capabilities|] == own;
    return Ok(grown);
  }

  // ----- The tool of an operation -----

  /** ToolFor. */
  function ToolFor(catalog: Catalog, service: string, operation: string): Option<string> {
    var key := OperationKey(service, operation);
    if key in catalog.byOperation then Some(catalog.byOperation[key].capability.tool) else None
  }

  /** The tool found for a service and an operation is that service's tool for that operation. */
  ghost predicate NamesItsOwn(catalog: Catalog) {
    forall service, operation :: NamesOwn(catalog, service, operation)
  }

  ghost predicate NamesOwn(catalog: Catalog, service: string, operation: string) {
    var tool := ToolFor(catalog, service, operation);
    tool.Some? ==>
      && tool.value in catalog.byTool
      && catalog.byTool[tool.value].service == service
      && catalog.byTool[tool.value].capability.operation == operation
  }

  predicate SeparatorFree(e: CatalogEntry) {
    NUL !in e.service && NUL !in e.capability.operation
  }

  lemma KeyApart(a: string, b: string, c: string, d: string)
    requires OperationKey(a, b) == OperationKey(c, d) && NUL !in c && NUL !in d
    ensures a == c && b == d
  {
    var key := OperationKey(a, b);
    assert key[|a|] == NUL && key == c + [NUL] + d;
    assert forall i :: 0 <= i < |c| ==> key[i] == c[i] && c[i] in c;
    assert forall i :: |c| < i < |key| ==> key[i] == d[i - |c| - 1] && d[i - |c| - 1] in d;
    assert a == key[..|a|] && b == key[|a| + 1..];
    assert c == key[..|c|] && d == key[|c| + 1..];
  }

  /** Another way to cut a key that holds a second NUL. */
  lemma KeyCutTwice(e: CatalogEntry) returns (service: string, operation: string)
    requires !SeparatorFree(e)
    ensures OperationKey(service, operation) == KeyOf(e) && service != e.service
  {
    var s, o := e.service, e.capability.operation;
    if NUL in s {
      var i :| 0 <= i < |s| && s[i] == NUL;
      service, operation := s[..i], s[i + 1..] + [NUL] + o;
      assert s == s[..i] + [NUL] + s[i + 1..];
      assert OperationKey(service, operation) == KeyOf(e);
    } else {
      var i :| 0 <= i < |o| && o[i] == NUL;
      service, operation := s + [NUL] + o[..i], o[i + 1..];
      assert o == o[..i] + [NUL] + o[i + 1..];
      assert OperationKey(service, operation) == KeyOf(e);
    }
  }

  /** ToolFor never answers with the tool of another service or operation, whatever it is asked,
      exactly when no declared service and no declared operation holds the separator. */
  lemma ToolForExact(catalog: Catalog, entries: seq<CatalogEntry>)
    requires Indexes(catalog, entries)
    ensures NamesItsOwn(catalog) <==> forall e :: e in entries ==> SeparatorFree(e)
  {
    if forall e :: e in entries ==> SeparatorFree(e) {
      forall service, operation ensures NamesOwn(catalog, service, operation) {
        var key := OperationKey(service, operation);
        if key in catalog.byOperation {
          var e := catalog.byOperation[key];
          assert e in entries && Indexed(catalog, e);
          KeyApart(service, operation, e.service, e.capability.operation);
        }
      }
    }
    if e :| e in entries && !SeparatorFree(e) {
      var service, operation := KeyCutTwice(e);
      assert Indexed(catalog, e);
      assert !NamesOwn(catalog, service, operation);
    }
  }

  /** Whatever is declared is found, under its own tool name. */
  lemma DeclaredIsFound(catalog: Catalog, entries: seq<CatalogEntry>, e: CatalogEntry)
    requires Indexes(catalog, entries) && e in entries
    ensures ToolFor(catalog, e.service, e.capability.operation) == Some(e.capability.tool)
    ensures e.capability.tool in catalog.byTool && catalog.byTool[e.capability.tool] == e
  {
    assert Indexed(catalog, e);
  }

  // ----- Resolving a call -----

  /** A call by tool name. `environment` is the mark of the one identity it can only run under. */
  datatype NamedCall = NamedCall(
    tool: string, fields: map<string, Field>, desiredChange: string, environment: Environment)

  function Pairs(keys: seq<string>, resource: ResourceMap): seq<string>
    requires forall k :: k in keys ==> k in resource
  {
    seq(|keys|, i requires 0 <= i < |keys| => keys[i] + "=" + resource[keys[i]])
  }

  /** The resource as text: its fields in ascending order, whatever order the map yields them in. */
  ghost function ResourceText(resource: ResourceMap): string {
    AscendingSpec(resource.Keys);
    Join(Pairs(Ascending(resource.Keys), resource), ';')
  }

  method SortedKeys(keys: set<string>) returns (sorted: seq<string>)
    ensures sorted == Ascending(keys)
  {
    sorted := [];
    var rest := keys;
    while rest != {}
      invariant rest <= keys && sorted + Ascending(rest) == Ascending(keys)
      decreases |rest|
    {
      ghost var least := LeastString(rest);
      assert IsLeast(rest, least);
      var key :| key in rest && IsLeast(rest, key);
      LeastIsFirst(rest, key);
      sorted := sorted + [key];
      rest := rest - {key};
    }
  }

  lemma LeastIsFirst(keys: set<string>, key: string)
    requires IsLeast(keys, key)
    ensures Ascending(keys) == [key] + Ascending(keys - {key})
  {
    var first := Ascending(keys)[0];
    if first != key {
      LexTransitive(first, key, first);
      LexIrreflexive(first);
    }
  }

  /** ResourceKeyOf. */
  method ResourceKeyOf(resource: ResourceMap) returns (key: string)
    ensures key == ResourceText(resource)
  {
    var keys := SortedKeys(resource.Keys);
    AscendingSpec(resource.Keys);
    var parts := [];
    for i := 0 to |keys|
      invariant parts == Pairs(keys, resource)[..i]
    {
      parts := parts + [keys[i] + "=" + resource[keys[i]]];
    }
    assert Pairs(keys, resource)[..|keys|] == Pairs(keys, resource);
    return Join(parts, ';');
  }

  /** resolveEnvironment: the declared mark, else what the naming rules say, else production. */
  function EnvironmentOf(declared: Environment, named: Environment): (r: Environment)
    ensures r != UnknownEnvironment
  {
    if declared != UnknownEnvironment then declared
    else if named != UnknownEnvironment then named
    else Production
  }

  /** Intent.validate. */
  predicate IntentComplete(i: IntentFields) {
    && i.service != "" && i.operation != ""
    && |i.resource| > 0 && i.resourceKey != ""
    && i.environment != UnknownEnvironment && i.riskLabel != UnknownLevel
  }

  function IntentOf(e: CatalogEntry, found: Extract, key: string, environment: Environment): IntentFields
    requires FullyDeclared(e.capability)
  {
    Intent(e.service, e.capability.operation, found.resource, key, environment,
           e.capability.reversible.value, e.capability.sensitiveData.value, e.capability.risk, found.ambiguous)
  }

  /** What a call by tool name resolves to. `named` is what the naming rules of the installation say
      about its resource. */
  ghost function ResolvedCall(catalog: Catalog, call: NamedCall, named: Environment): Result<Intent> {
    if call.tool == "" then Err(InvalidRequest)
    else if call.tool !in catalog.byTool then Err(CapabilityNotOffered)
    else
      var e := catalog.byTool[call.tool];
      var found :- Extracted(call.fields, e.capability.resourceKeys);
      if !FullyDeclared(e.capability) then Err(CapabilityNotOffered)
      else
        var parsed := IntentOf(e, found, ResourceText(found.resource), EnvironmentOf(call.environment, named));
        ExtractedFacts(call.fields, e.capability.resourceKeys);
        if IntentComplete(parsed) then Ok(parsed) else Err(CapabilityNotOffered)
  }

  /** Resolve. */
  method ResolveCall(catalog: Catalog, call: NamedCall, named: Environment) returns (r: Result<Intent>)
    ensures r == ResolvedCall(catalog, call, named)
  {
    if call.tool == "" { return Err(InvalidRequest); }
    if call.tool !in catalog.byTool { return Err(CapabilityNotOffered); }
    var e := catalog.byTool[call.tool];
    var found := ExtractResource(call.fields, e.capability.resourceKeys);
    if found.Err? { return Err(found.code); }
    if !FullyDeclared(e.capability) { return Err(CapabilityNotOffered); }
    var key := ResourceKeyOf(found.value.resource);
    ExtractedFacts(call.fields, e.capability.resourceKeys);
    var parsed := IntentOf(e, found.value, key, EnvironmentOf(call.environment, named));
    if !IntentComplete(parsed) { return Err(CapabilityNotOffered); }
    return Ok(parsed);
  }

  /** An intent is its tool's declaration applied to the fields of the call: the declared service and
      operation, exactly the declared resource keys, and nothing that was not in the call. */
  lemma ResolvedAsDeclared(catalog: Catalog, call: NamedCall, named: Environment)
    requires ResolvedCall(catalog, call, named).Ok?
    ensures call.tool in catalog.byTool
    ensures var e, i := catalog.byTool[call.tool], ResolvedCall(catalog, call, named).value;
      && i.service == e.service && i.operation == e.capability.operation
      && i.resource.Keys == (set k | k in e.capability.resourceKeys)
      && TakenFrom(i.resource, call.fields)
      && i.riskLabel == e.capability.risk
  {
    ExtractedFacts(call.fields, catalog.byTool[call.tool].capability.resourceKeys);
  }
}
