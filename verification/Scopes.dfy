/**
 Scope (internal/core/scope/scope.go): the ten dimensions of one authorization and the
 coverage test every later stage relies on.
 */
module Scopes {

  /** Nanoseconds since Go's zero time (1 January of year 1, UTC); `time.Time{}` is 0. */
  type Instant = int

  const ZERO_TIME: Instant := 0
  const SECOND := 1_000_000_000
  const MINUTE := 60 * SECOND

  /** DefaultDuration, DefaultRequestLimit and TaskRequestLimit of resolver.go. */
  const DEFAULT_DURATION := 15 * MINUTE
  const DEFAULT_REQUEST_LIMIT := 1
  const TASK_REQUEST_LIMIT := 20

  datatype Level = Low | Medium | High | UnknownLevel

  datatype Environment = Production | NonProduction | UnknownEnvironment

  type ResourceMap = map<string, string>

  datatype Scope = Scope(
    agentId: string, workspaceId: string, service: string,
    identityId: string, account: string,
    resource: ResourceMap, resourceKey: string, operation: string,
    notBefore: Instant, expiresAt: Instant,
    requestLimit: int, environment: Environment, riskCeiling: Level)

  function LevelRank(level: Level): nat {
    match level
    case Low => 1
    case Medium => 2
    case High => 3
    case UnknownLevel => 0
  }

  /** All ten dimensions filled in. */
  predicate Validates(s: Scope) {
    && s.agentId != ""
    && s.workspaceId != ""
    && s.service != ""
    && s.identityId != "" && s.account != ""
    && |s.resource| > 0 && s.resourceKey != ""
    && s.operation != ""
    && s.notBefore != ZERO_TIME && s.expiresAt > s.notBefore
    && s.requestLimit > 0
    && s.environment != UnknownEnvironment
    && LevelRank(s.riskCeiling) > 0
  }

  predicate WildcardText(text: string) {
    '*' in text || '?' in text
  }

  predicate HasWildcard(resource: ResourceMap) {
    exists key :: key in resource && WildcardText(resource[key])
  }

  /** Go's `m[key]` on a string map: a missing key reads as "". */
  function Lookup(resource: ResourceMap, key: string): string {
    if key in resource then resource[key] else ""
  }

  /** sameResource: a length test, then a zero-value lookup of every key of `left` in `right`. */
  predicate SameResource(left: ResourceMap, right: ResourceMap) {
    && |left| == |right|
    && forall key :: key in left ==> Lookup(right, key) == left[key]
  }

  predicate Covers(s: Scope, other: Scope) {
    && Validates(s) && Validates(other)
    && !HasWildcard(s.resource) && !HasWildcard(other.resource)
    && s.agentId == other.agentId
    && s.workspaceId == other.workspaceId
    && s.service == other.service
    && s.identityId == other.identityId
    && s.account == other.account
    && s.operation == other.operation
    && s.environment == other.environment
    && SameResource(s.resource, other.resource)
    && other.notBefore >= s.notBefore && other.expiresAt <= s.expiresAt
    && other.requestLimit <= s.requestLimit
    && LevelRank(other.riskCeiling) <= LevelRank(s.riskCeiling)
  }

  function WithWindowOf(other: Scope, s: Scope): Scope {
    other.(notBefore := s.notBefore, expiresAt := s.expiresAt)
  }

  predicate CoversIgnoringWindow(s: Scope, other: Scope) {
    Covers(s, WithWindowOf(other, s))
  }

  /** No value is the empty string; intent extraction guarantees it for every resolved request. */
  predicate Definite(resource: ResourceMap) {
    forall key :: key in resource ==> resource[key] != ""
  }

  // ----- sameResource against map equality -----

  /** Two maps of one size, the keys of the first all keys of the second, have the same keys. */
  lemma SameSizeKeys(left: ResourceMap, right: ResourceMap)
    requires |left| == |right|
    requires left.Keys <= right.Keys
    ensures left.Keys == right.Keys
  {
    assert |left.Keys| == |left| && |right.Keys| == |right|;
    if left.Keys < right.Keys {
      StrictSubsetSmaller(left.Keys, right.Keys);
    }
  }

  lemma StrictSubsetSmaller<T>(a: set<T>, b: set<T>)
    requires a < b
    ensures |a| < |b|
  {
    assert b == a + (b - a);
    assert |b| == |a| + |b - a|;
  }

  lemma SameResourceIsEquality(left: ResourceMap, right: ResourceMap)
    requires Definite(left)
    ensures SameResource(left, right) <==> left == right
  {
    if SameResource(left, right) {
      forall key | key in left ensures key in right && right[key] == left[key] {
        assert Lookup(right, key) == left[key];
      }
      SameSizeKeys(left, right);
    }
  }

  lemma FreshKey(resource: ResourceMap) returns (unused: string)
    ensures unused !in resource
  {
    unused := FreshString(resource.Keys);
  }

  /** A string outside a finite set: longer than every member. */
  lemma FreshString(keys: set<string>) returns (unused: string)
    ensures forall key :: key in keys ==> |key| < |unused|
    decreases |keys|
  {
    if keys == {} {
      unused := "x";
    } else {
      var key :| key in keys;
      var other := FreshString(keys - {key});
      unused := other + key + "x";
      forall k | k in keys ensures |k| < |unused| {
        if k != key { assert k in keys - {key}; }
      }
    }
  }

  /** `left` with `key` renamed to `unused` and given the value `value`. */
  function Renamed(left: ResourceMap, key: string, unused: string, value: string): ResourceMap {
    (left - {key})[unused := value]
  }

  lemma RenamedSize(left: ResourceMap, key: string, unused: string, value: string)
    requires key in left && unused !in left
    ensures |Renamed(left, key, unused, value)| == |left|
  {
    var rest := left - {key};
    assert rest.Keys == left.Keys - {key};
    assert |rest| == |rest.Keys| && |left| == |left.Keys|;
    assert Renamed(left, key, unused, value).Keys == rest.Keys + {unused};
    assert |Renamed(left, key, unused, value)| == |Renamed(left, key, unused, value).Keys|;
  }

  /** An empty value lets sameResource accept a map with a different key. */
  lemma EmptyValueConfuses(left: ResourceMap, key: string, unused: string)
    requires key in left && left[key] == "" && unused !in left
    ensures SameResource(left, Renamed(left, key, unused, "")) && left != Renamed(left, key, unused, "")
  {
    RenamedSize(left, key, unused, "");
    assert key !in Renamed(left, key, unused, "");
  }

  /** sameResource is map equality for every right-hand side exactly when no left value is empty. */
  lemma SameResourceExact(left: ResourceMap)
    ensures (forall right :: SameResource(left, right) <==> left == right) <==> Definite(left)
  {
    if Definite(left) {
      forall right ensures SameResource(left, right) <==> left == right {
        SameResourceIsEquality(left, right);
      }
    } else {
      var key :| key in left && left[key] == "";
      var unused := FreshKey(left);
      EmptyValueConfuses(left, key, unused);
    }
  }

  // ----- Coverage is an order -----

  lemma CoversReflexive(s: Scope)
    ensures Covers(s, s) <==> Validates(s) && !HasWildcard(s.resource)
  {
    assert forall key :: key in s.resource ==> Lookup(s.resource, key) == s.resource[key];
  }

  lemma CoversTransitive(a: Scope, b: Scope, c: Scope)
    requires Definite(a.resource)
    requires Covers(a, b) && Covers(b, c)
    ensures Covers(a, c)
  {
    SameResourceIsEquality(a.resource, b.resource);
  }

  lemma CoversAntisymmetric(a: Scope, b: Scope)
    requires Definite(a.resource)
    requires Covers(a, b) && Covers(b, a)
    ensures a == b.(resourceKey := a.resourceKey)
  {
    SameResourceIsEquality(a.resource, b.resource);
  }

  /** Two scopes through which transitivity fails when `a` has an empty resource value at `key`. */
  function MiddleScope(a: Scope, key: string, unused: string): Scope {
    a.(resource := Renamed(a.resource, key, unused, ""))
  }

  function FarScope(a: Scope, key: string): Scope {
    a.(resource := a.resource[key := "x"])
  }

  lemma EmptyValueBreaksTransitivity(a: Scope, key: string, unused: string)
    requires Covers(a, a)
    requires key in a.resource && a.resource[key] == "" && unused !in a.resource
    ensures Covers(a, MiddleScope(a, key, unused))
    ensures Covers(MiddleScope(a, key, unused), FarScope(a, key))
    ensures !Covers(a, FarScope(a, key))
  {
    var b := MiddleScope(a, key, unused);
    var c := FarScope(a, key);
    EmptyValueConfuses(a.resource, key, unused);
    RenamedSize(a.resource, key, unused, "");
    assert c.resource.Keys == a.resource.Keys;
    assert |c.resource| == |c.resource.Keys| && |a.resource| == |a.resource.Keys|;
    forall k | k in b.resource ensures Lookup(c.resource, k) == b.resource[k] && !WildcardText(b.resource[k]) {
      if k != unused { assert k in a.resource && !WildcardText(a.resource[k]); }
    }
    forall k | k in c.resource ensures !WildcardText(c.resource[k]) {
      if k != key { assert !WildcardText(a.resource[k]); }
    }
    assert Lookup(c.resource, key) == "x";
  }

  /** For a scope that covers anything at all, coverage is transitive from it exactly when none of
      its resource values is empty. */
  lemma CoversTransitiveExact(a: Scope)
    requires Covers(a, a)
    ensures (forall b, c :: Covers(a, b) && Covers(b, c) ==> Covers(a, c)) <==> Definite(a.resource)
  {
    if Definite(a.resource) {
      forall b, c | Covers(a, b) && Covers(b, c) ensures Covers(a, c) {
        CoversTransitive(a, b, c);
      }
    } else {
      var key :| key in a.resource && a.resource[key] == "";
      var unused := FreshKey(a.resource);
      EmptyValueBreaksTransitivity(a, key, unused);
    }
  }

  lemma CoversImpliesIgnoringWindow(s: Scope, other: Scope)
    requires Covers(s, other)
    ensures CoversIgnoringWindow(s, other)
  {
  }

  /** The window is rewritten at each link, and the chain still holds. */
  lemma CoversIgnoringWindowTransitive(a: Scope, b: Scope, c: Scope)
    requires Definite(a.resource)
    requires CoversIgnoringWindow(a, b) && CoversIgnoringWindow(b, c)
    ensures CoversIgnoringWindow(a, c)
  {
    SameResourceIsEquality(a.resource, b.resource);
  }

  /** What a caller may read off a successful coverage test. */
  lemma CoveredAgrees(s: Scope, other: Scope)
    requires CoversIgnoringWindow(s, other)
    ensures s.agentId == other.agentId && s.workspaceId == other.workspaceId
    ensures s.service == other.service && s.operation == other.operation
    ensures s.identityId == other.identityId && s.account == other.account
    ensures s.environment == other.environment
    ensures other.requestLimit <= s.requestLimit
    ensures LevelRank(other.riskCeiling) <= LevelRank(s.riskCeiling)
    ensures !HasWildcard(s.resource) && !HasWildcard(other.resource)
    ensures Definite(s.resource) ==> s.resource == other.resource
  {
    if Definite(s.resource) { SameResourceIsEquality(s.resource, other.resource); }
  }
}
