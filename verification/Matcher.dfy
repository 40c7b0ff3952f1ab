/**
 Credential matcher (internal/core/matcher/matcher.go): one request, four levels of candidate
 references, one identity or an ambiguity for the user.
 */
module Matcher {
  import opened Results
  import opened Scopes
  import opened Text

  datatype Identity = Identity(
    id: string, service: string, accountLabel: string, environment: Environment,
    needsReview: bool)

  datatype BindingKind = WorkspaceKind | ResourceKind

  datatype Binding = Binding(
    kind: BindingKind, service: string, workspaceId: string, resourceKey: string,
    identityId: string)

  datatype MatchLevel =
    WorkspaceBinding | ResourceBinding | TrustMemory | SoleIdentity | ManualSelection

  datatype Target = Target(service: string, workspaceId: string, resourceKey: string)

  datatype Evidence = Evidence(
    workspaceBindings: seq<Binding>, resourceBindings: seq<Binding>,
    memoryIdentityIds: seq<string>, identities: seq<Identity>, manualSelection: string)

  datatype Match = Match(
    identity: Option<Identity>, level: Option<MatchLevel>,
    ambiguous: bool, candidates: seq<Identity>, needsReview: bool)

  // ----- Specification -----

  predicate WorkspaceHit(target: Target, b: Binding) {
    b.kind == WorkspaceKind && b.service == target.service && b.workspaceId == target.workspaceId
  }

  predicate ResourceHit(target: Target, b: Binding) {
    b.kind == ResourceKind && b.service == target.service && b.resourceKey == target.resourceKey
  }

  function WorkspaceIds(target: Target, bindings: seq<Binding>): set<string> {
    if target.workspaceId == "" then {}
    else set b | b in bindings && WorkspaceHit(target, b) :: b.identityId
  }

  function ResourceIds(target: Target, bindings: seq<Binding>): set<string> {
    if target.resourceKey == "" then {}
    else set b | b in bindings && ResourceHit(target, b) :: b.identityId
  }

  function Members(ids: seq<string>): set<string> {
    set id | id in ids
  }

  function IdsOf(identities: seq<Identity>): set<string> {
    set x | x in identities :: x.id
  }

  /** The `byID` map after the loop: a later identity replaces an earlier one with its id. */
  function ById(identities: seq<Identity>): map<string, Identity> {
    if identities == [] then map[]
    else
      var last := identities[|identities| - 1];
      ById(identities[..|identities| - 1])[last.id := last]
  }

  lemma {:induction false} ByIdKeys(identities: seq<Identity>)
    ensures ById(identities).Keys == IdsOf(identities)
    ensures forall id :: id in ById(identities) ==>
      ById(identities)[id] in identities && ById(identities)[id].id == id
  {
    if identities != [] {
      var front := identities[..|identities| - 1];
      ByIdKeys(front);
      assert forall x :: x in identities <==> x in front || x == identities[|identities| - 1];
    }
  }

  /** The known ids among the candidates. */
  function KnownIds(ids: set<string>, identities: seq<Identity>): set<string> {
    ids * IdsOf(identities)
  }

  ghost predicate IsSelection(chosen: seq<Identity>, ids: set<string>, identities: seq<Identity>) {
    && SortedStrings(IdSeq(chosen))
    && (forall x :: x in IdSeq(chosen) <==> x in KnownIds(ids, identities))
    && (forall x :: x in chosen ==> x.id in ById(identities) && ById(identities)[x.id] == x)
  }

  function IdSeq(identities: seq<Identity>): (r: seq<string>)
    ensures |r| == |identities|
    ensures forall i :: 0 <= i < |r| ==> r[i] == identities[i].id
  {
    seq(|identities|, i requires 0 <= i < |identities| => identities[i].id)
  }

  /** The selection: known candidates, once each, ascending by id. */
  ghost function Selected(ids: set<string>, identities: seq<Identity>): (chosen: seq<Identity>)
    ensures IsSelection(chosen, ids, identities)
  {
    ByIdKeys(identities);
    var order := Ascending(KnownIds(ids, identities));
    AscendingSpec(KnownIds(ids, identities));
    assert forall i :: 0 <= i < |order| ==> order[i] in order && order[i] in KnownIds(ids, identities);
    var chosen := seq(|order|, i requires 0 <= i < |order| => ById(identities)[order[i]]);
    assert IdSeq(chosen) == order;
    chosen
  }

  lemma SelectionUnique(a: seq<Identity>, b: seq<Identity>, ids: set<string>, identities: seq<Identity>)
    requires IsSelection(a, ids, identities) && IsSelection(b, ids, identities)
    ensures a == b
  {
    SortedUnique(IdSeq(a), IdSeq(b));
    assert |a| == |IdSeq(a)| == |IdSeq(b)| == |b|;
    forall i | 0 <= i < |a| ensures a[i] == b[i] {
      assert IdSeq(a)[i] == IdSeq(b)[i];
      assert a[i] in a && b[i] in b;
    }
  }

  function Hit(identity: Identity, level: MatchLevel): Match {
    Match(Some(identity), Some(level), false, [], identity.needsReview)
  }

  function WithId(candidates: seq<Identity>, id: string): (found: Option<Identity>)
    ensures found.Some? ==> found.value in candidates && found.value.id == id
    ensures found.None? ==> forall x :: x in candidates ==> x.id != id
  {
    if candidates == [] then None
    else if candidates[0].id == id then Some(candidates[0])
    else WithId(candidates[1..], id)
  }

  function ManualOrAmbiguous(candidates: seq<Identity>, selection: string): Match {
    var chosen := if selection == "" then None else WithId(candidates, selection);
    if chosen.Some? then Hit(chosen.value, ManualSelection)
    else Match(None, None, true, candidates, false)
  }

  predicate AllUsable(service: string, identities: seq<Identity>) {
    forall x :: x in identities ==> x.service == service && x.id != ""
  }

  /** The literal list of levels, strongest first. */
  function Levels(target: Target, inputs: Evidence): seq<(MatchLevel, set<string>)> {
    [ (WorkspaceBinding, WorkspaceIds(target, inputs.workspaceBindings)),
      (ResourceBinding, ResourceIds(target, inputs.resourceBindings)),
      (TrustMemory, Members(inputs.memoryIdentityIds)),
      (SoleIdentity, IdsOf(inputs.identities)) ]
  }

  ghost function FirstSpeaking(levels: seq<(MatchLevel, set<string>)>, inputs: Evidence): Result<Match> {
    if levels == [] then Err(Internal)
    else
      var chosen := Selected(levels[0].1, inputs.identities);
      if |chosen| == 0 then FirstSpeaking(levels[1..], inputs)
      else if |chosen| == 1 then Ok(Hit(chosen[0], levels[0].0))
      else Ok(ManualOrAmbiguous(chosen, inputs.manualSelection))
  }

  ghost function Matched(target: Target, inputs: Evidence): Result<Match> {
    if target.service == "" then Err(InvalidRequest)
    else if !AllUsable(target.service, inputs.identities) then Err(Internal)
    else if inputs.identities == [] then Err(CredentialNotAuthorized)
    else FirstSpeaking(Levels(target, inputs), inputs)
  }

  // ----- The loops -----

  method WorkspaceCandidates(target: Target, bindings: seq<Binding>) returns (matched: seq<string>)
    ensures Members(matched) == WorkspaceIds(target, bindings)
  {
    matched := [];
    if target.workspaceId == "" { return; }
    for i := 0 to |bindings|
      invariant forall id :: id in matched <==>
        exists b :: b in bindings[..i] && WorkspaceHit(target, b) && b.identityId == id
    {
      assert forall b :: b in bindings[..i + 1] <==> b in bindings[..i] || b == bindings[i];
      if WorkspaceHit(target, bindings[i]) { matched := matched + [bindings[i].identityId]; }
    }
    assert bindings[..|bindings|] == bindings;
  }

  method ResourceCandidates(target: Target, bindings: seq<Binding>) returns (matched: seq<string>)
    ensures Members(matched) == ResourceIds(target, bindings)
  {
    matched := [];
    if target.resourceKey == "" { return; }
    for i := 0 to |bindings|
      invariant forall id :: id in matched <==>
        exists b :: b in bindings[..i] && ResourceHit(target, b) && b.identityId == id
    {
      assert forall b :: b in bindings[..i + 1] <==> b in bindings[..i] || b == bindings[i];
      if ResourceHit(target, bindings[i]) { matched := matched + [bindings[i].identityId]; }
    }
    assert bindings[..|bindings|] == bindings;
  }

  method IdentityIds(identities: seq<Identity>) returns (ids: seq<string>)
    ensures Members(ids) == IdsOf(identities)
  {
    ids := [];
    for i := 0 to |identities|
      invariant forall id :: id in ids <==> id in IdsOf(identities[..i])
    {
      assert forall x :: x in identities[..i + 1] <==> x in identities[..i] || x == identities[i];
      ids := ids + [identities[i].id];
    }
    assert identities[..|identities|] == identities;
  }

  /** Where sort.Slice puts one more identity into an ascending list. */
  method InsertById(sorted: seq<Identity>, x: Identity) returns (r: seq<Identity>)
    requires SortedStrings(IdSeq(sorted)) && x.id !in IdSeq(sorted)
    ensures SortedStrings(IdSeq(r))
    ensures forall y :: y in r <==> y in sorted || y == x
  {
    var k := |sorted|;
    while k > 0 && LexLess(x.id, sorted[k - 1].id)
      invariant 0 <= k <= |sorted|
      invariant forall j :: k <= j < |sorted| ==> LexLess(x.id, sorted[j].id)
    {
      k := k - 1;
    }
    r := sorted[..k] + [x] + sorted[k..];
    forall i, j | 0 <= i < j < |r| ensures LexLess(IdSeq(r)[i], IdSeq(r)[j]) {
      InsertedOrder(sorted, x, k, i, j);
    }
  }

  lemma InsertedOrder(sorted: seq<Identity>, x: Identity, k: nat, i: nat, j: nat)
    requires k <= |sorted| && i < j <= |sorted|
    requires SortedStrings(IdSeq(sorted)) && x.id !in IdSeq(sorted)
    requires forall j :: k <= j < |sorted| ==> LexLess(x.id, sorted[j].id)
    requires k > 0 ==> !LexLess(x.id, sorted[k - 1].id)
    ensures var r := sorted[..k] + [x] + sorted[k..]; LexLess(r[i].id, r[j].id)
  {
    var ids := IdSeq(sorted);
    if k > 0 {
      LexTotal(x.id, sorted[k - 1].id);
      assert ids[k - 1] in ids;
    }
    if i < k && j == k {
      if i < k - 1 {
        assert LexLess(ids[i], ids[k - 1]);
        LexTransitive(ids[i], ids[k - 1], x.id);
      }
    } else if i < k && j > k {
      assert LexLess(ids[i], ids[j - 1]);
    } else if i < k {
      assert LexLess(ids[i], ids[j]);
    } else if i > k {
      assert LexLess(ids[i - 1], ids[j - 1]);
    }
  }

  method SelectIdentities(candidateIds: seq<string>, available: seq<Identity>)
    returns (matched: seq<Identity>)
    ensures matched == Selected(Members(candidateIds), available)
  {
    var byId: map<string, Identity> := map[];
    for i := 0 to |available|
      invariant byId == ById(available[..i])
    {
      assert available[..i + 1][..i] == available[..i];
      byId := byId[available[i].id := available[i]];
    }
    assert available[..|available|] == available;
    ByIdKeys(available);

    var seen: set<string> := {};
    matched := [];
    for i := 0 to |candidateIds|
      invariant forall id :: id in seen <==> id in candidateIds[..i] && id in byId
      invariant forall id :: id in IdSeq(matched) <==> id in seen
      invariant forall x :: x in matched ==> x.id in byId && byId[x.id] == x
      invariant SortedStrings(IdSeq(matched))
    {
      var id := candidateIds[i];
      assert forall c :: c in candidateIds[..i + 1] <==> c in candidateIds[..i] || c == id;
      if id in byId && id !in seen {
        var before := matched;
        seen := seen + {id};
        matched := InsertById(matched, byId[id]);
        IdsAfterInsert(before, matched, byId[id]);
      }
    }
    assert candidateIds[..|candidateIds|] == candidateIds;
    SelectionUnique(matched, Selected(Members(candidateIds), available),
                    Members(candidateIds), available);
  }

  lemma IdsAfterInsert(before: seq<Identity>, after: seq<Identity>, x: Identity)
    requires forall y :: y in after <==> y in before || y == x
    ensures forall id :: id in IdSeq(after) <==> id in IdSeq(before) || id == x.id
  {
    forall id ensures id in IdSeq(after) <==> id in IdSeq(before) || id == x.id {
      InIdSeq(after, id);
      InIdSeq(before, id);
    }
  }

  lemma InIdSeq(identities: seq<Identity>, id: string)
    ensures id in IdSeq(identities) <==> exists x :: x in identities && x.id == id
  {
    if id in IdSeq(identities) {
      var i :| 0 <= i < |identities| && IdSeq(identities)[i] == id;
      assert identities[i] in identities;
    }
    if x :| x in identities && x.id == id {
      var i :| 0 <= i < |identities| && identities[i] == x;
      assert IdSeq(identities)[i] == id;
    }
  }

  method MatchRequest(target: Target, inputs: Evidence) returns (r: Result<Match>)
    ensures r == Matched(target, inputs)
  {
    if target.service == "" { return Err(InvalidRequest); }
    for i := 0 to |inputs.identities|
      invariant AllUsable(target.service, inputs.identities[..i])
    {
      var identity := inputs.identities[i];
      assert identity in inputs.identities;
      if identity.service != target.service { return Err(Internal); }
      if identity.id == "" { return Err(Internal); }
    }
    assert inputs.identities[..|inputs.identities|] == inputs.identities;
    var available := inputs.identities;
    if |available| == 0 { return Err(CredentialNotAuthorized); }

    var byWorkspace := WorkspaceCandidates(target, inputs.workspaceBindings);
    var byResource := ResourceCandidates(target, inputs.resourceBindings);
    var own := IdentityIds(available);
    var levels := [(WorkspaceBinding, byWorkspace), (ResourceBinding, byResource),
                   (TrustMemory, inputs.memoryIdentityIds), (SoleIdentity, own)];
    ghost var spec := Levels(target, inputs);
    for i := 0 to |levels|
      invariant FirstSpeaking(spec, inputs) == FirstSpeaking(spec[i..], inputs)
    {
      var matched := SelectIdentities(levels[i].1, available);
      assert spec[i..][0] == spec[i] && spec[i..][1..] == spec[i + 1..];
      assert spec[i] == (levels[i].0, Members(levels[i].1));
      if |matched| == 1 { return Ok(Hit(matched[0], levels[i].0)); }
      if |matched| > 1 { return Ok(ManualOrAmbiguous(matched, inputs.manualSelection)); }
    }
    return Err(Internal);
  }

  // ----- Properties -----

  lemma SelectedFacts(ids: set<string>, identities: seq<Identity>)
    ensures forall x :: x in Selected(ids, identities) ==> x in identities
    ensures |Selected(ids, identities)| == 0 <==> KnownIds(ids, identities) == {}
    ensures SortedStrings(IdSeq(Selected(ids, identities)))
  {
    ByIdKeys(identities);
    var chosen := Selected(ids, identities);
    if |chosen| > 0 { assert IdSeq(chosen)[0] in IdSeq(chosen); }
  }

  /** Identities sharing no id are looked up the same way in any order. */
  lemma ByIdOrderIndependent(a: seq<Identity>, b: seq<Identity>)
    requires forall x :: x in a <==> x in b
    requires forall x, y :: x in a && y in a && x.id == y.id ==> x == y
    ensures ById(a) == ById(b)
  {
    ByIdKeys(a);
    ByIdKeys(b);
    assert IdsOf(a) == IdsOf(b);
    forall id | id in ById(a) ensures ById(a)[id] == ById(b)[id] {
      assert ById(b)[id] in a;
    }
  }

  lemma SelectedOrderIndependent(ids: set<string>, a: seq<Identity>, b: seq<Identity>)
    requires forall x :: x in a <==> x in b
    requires forall x, y :: x in a && y in a && x.id == y.id ==> x == y
    ensures Selected(ids, a) == Selected(ids, b)
  {
    ByIdOrderIndependent(a, b);
    assert IdsOf(a) == IdsOf(b);
    SelectionUnique(Selected(ids, a), Selected(ids, b), ids, a);
  }

  /** Only which references and identities occur matters, not their order or multiplicity. */
  ghost predicate SameEvidence(a: Evidence, b: Evidence) {
    && (forall x :: x in a.workspaceBindings <==> x in b.workspaceBindings)
    && (forall x :: x in a.resourceBindings <==> x in b.resourceBindings)
    && (forall x :: x in a.memoryIdentityIds <==> x in b.memoryIdentityIds)
    && (forall x :: x in a.identities <==> x in b.identities)
    && a.manualSelection == b.manualSelection
  }

  lemma MatchOrderIndependent(target: Target, a: Evidence, b: Evidence)
    requires SameEvidence(a, b)
    requires forall x, y :: x in a.identities && y in a.identities && x.id == y.id ==> x == y
    ensures Matched(target, a) == Matched(target, b)
  {
    assert a.identities == [] <==> b.identities == [] by {
      if a.identities != [] { assert a.identities[0] in b.identities; }
      if b.identities != [] { assert b.identities[0] in a.identities; }
    }
    var la, lb := Levels(target, a), Levels(target, b);
    assert WorkspaceIds(target, a.workspaceBindings) == WorkspaceIds(target, b.workspaceBindings);
    assert ResourceIds(target, a.resourceBindings) == ResourceIds(target, b.resourceBindings);
    assert Members(a.memoryIdentityIds) == Members(b.memoryIdentityIds);
    assert IdsOf(a.identities) == IdsOf(b.identities);
    assert la == lb;
    SpeakingOrderIndependent(la, a, b);
  }

  lemma {:induction false} SpeakingOrderIndependent(levels: seq<(MatchLevel, set<string>)>, a: Evidence, b: Evidence)
    requires SameEvidence(a, b)
    requires forall x, y :: x in a.identities && y in a.identities && x.id == y.id ==> x == y
    ensures FirstSpeaking(levels, a) == FirstSpeaking(levels, b)
    decreases |levels|
  {
    if levels != [] {
      SelectedOrderIndependent(levels[0].1, a.identities, b.identities);
      SpeakingOrderIndependent(levels[1..], a, b);
    }
  }

  /** The first level naming a known identity decides; what weaker levels say is not looked at. */
  lemma {:induction false} FirstLevelDecides(levels: seq<(MatchLevel, set<string>)>, inputs: Evidence, k: nat)
    requires k < |levels|
    requires forall i :: 0 <= i < k ==> KnownIds(levels[i].1, inputs.identities) == {}
    requires KnownIds(levels[k].1, inputs.identities) != {}
    ensures FirstSpeaking(levels, inputs) == FirstSpeaking([levels[k]], inputs)
    ensures FirstSpeaking(levels, inputs).Ok?
  {
    SelectedFacts(levels[0].1, inputs.identities);
    SelectedFacts(levels[k].1, inputs.identities);
    if k > 0 {
      forall i | 0 <= i < k - 1 ensures KnownIds(levels[1..][i].1, inputs.identities) == {} {
        assert levels[1..][i] == levels[i + 1];
      }
      FirstLevelDecides(levels[1..], inputs, k - 1);
    }
  }

  /** What decision.resolvableMatch asks of a match. */
  predicate Resolvable(m: Match) {
    if m.ambiguous then |m.candidates| >= 2 && m.identity.None? && m.level.None?
    else m.identity.Some? && m.identity.value.id != "" && m.level.Some?
  }

  /** A match is one of the given identities, or at least two of them in ascending order. */
  lemma {:induction false} SpeakingResult(levels: seq<(MatchLevel, set<string>)>, inputs: Evidence)
    requires forall x :: x in inputs.identities ==> x.id != ""
    requires FirstSpeaking(levels, inputs).Ok?
    ensures var m := FirstSpeaking(levels, inputs).value;
      && Resolvable(m)
      && (m.identity.Some? ==> m.identity.value in inputs.identities
                               && m.needsReview == m.identity.value.needsReview)
      && (m.ambiguous ==> SortedStrings(IdSeq(m.candidates))
                          && forall x :: x in m.candidates ==> x in inputs.identities)
    decreases |levels|
  {
    var chosen := Selected(levels[0].1, inputs.identities);
    SelectedFacts(levels[0].1, inputs.identities);
    if |chosen| == 0 {
      SpeakingResult(levels[1..], inputs);
    } else {
      assert chosen[0] in chosen;
    }
  }

  /** Whatever matches satisfies the decision engine; and with usable identities something always does. */
  lemma MatchIsResolvable(target: Target, inputs: Evidence)
    ensures Matched(target, inputs).Ok? <==>
      target.service != "" && inputs.identities != [] && AllUsable(target.service, inputs.identities)
    ensures Matched(target, inputs).Ok? ==>
      var m := Matched(target, inputs).value;
      && Resolvable(m)
      && (m.identity.Some? ==> m.identity.value in inputs.identities)
      && (m.ambiguous ==> SortedStrings(IdSeq(m.candidates))
                          && forall x :: x in m.candidates ==> x in inputs.identities)
  {
    if target.service != "" && inputs.identities != [] && AllUsable(target.service, inputs.identities) {
      var levels := Levels(target, inputs);
      var first := inputs.identities[0];
      assert first in inputs.identities && first.id in KnownIds(levels[3].1, inputs.identities);
      var k := 0;
      while k < 3 && KnownIds(levels[k].1, inputs.identities) == {}
        invariant 0 <= k <= 3
        invariant forall i :: 0 <= i < k ==> KnownIds(levels[i].1, inputs.identities) == {}
      {
        k := k + 1;
      }
      FirstLevelDecides(levels, inputs, k);
      SpeakingResult(levels, inputs);
    }
  }
}
