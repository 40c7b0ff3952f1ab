/**
 trust.Manager (internal/core/trust/manager.go): what may be remembered of an approval, and which
 memories still speak.
 */
module Learning {
  import opened Results
  import opened Scopes
  import opened Tables
  import opened Protocol
  import opened Invariants
  import opened Stability
  import opened Guarantees
  import opened Stores
  import D = Decisions

  const MAX_TTL := 90 * 24 * 60 * MINUTE

  datatype GenerateRequest = GenerateRequest(
    approved: Scope, learned: Scope, approvalId: Id, riskLevel: Level, behavior: Behavior, ttl: int)

  function CheckGenerate(g: GenerateRequest): Option<Code> {
    if !Validates(g.approved) || !Validates(g.learned) then Some(InvalidRequest)
    else if !CoversIgnoringWindow(g.approved, g.learned) then Some(InvalidRequest)
    else if g.riskLevel != Low && g.riskLevel != Medium then Some(InvalidRequest)
    else if g.approvalId == "" then Some(InvalidRequest)
    else if g.ttl < 0 || g.ttl > MAX_TTL then Some(InvalidRequest)
    else None
  }

  /** Whatever passes the check is no wider than what was approved in any dimension but time, never
      high-risk, and its ceiling is at most both the approval's level and the learned ceiling. */
  lemma LearnedIsNarrower(g: GenerateRequest, inner: Scope)
    requires CheckGenerate(g).None? && Definite(g.approved.resource) && CoversIgnoringWindow(g.learned, inner)
    ensures CoversIgnoringWindow(g.approved, inner)
    ensures g.riskLevel in {Low, Medium}
    ensures LevelRank(LowerOf(g.riskLevel, g.learned.riskCeiling)) <= LevelRank(g.riskLevel)
    ensures LevelRank(LowerOf(g.riskLevel, g.learned.riskCeiling)) <= LevelRank(g.approved.riskCeiling)
  {
    CoversIgnoringWindowTransitive(g.approved, g.learned, inner);
    CoveredAgrees(g.approved, g.learned);
  }

  /** What can be remembered as it was approved. */
  predicate Learnable(scope: Scope, level: Level) {
    !HasWildcard(scope.resource) && level in {Low, Medium}
  }

  /** A scope passes the check as it was approved exactly when its resource has no wildcard and the
      risk is low or medium: a scope with a wildcard does not even cover itself. */
  lemma LearnableAsApproved(scope: Scope, aid: Id, level: Level, behavior: Behavior)
    requires Validates(scope) && aid != ""
    ensures CheckGenerate(GenerateRequest(scope, scope, aid, level, behavior, 0)).None? <==> Learnable(scope, level)
  {
    CoversReflexive(scope);
    assert WithWindowOf(scope, scope) == scope;
  }

  /** Nothing was learned from this approval. */
  ghost predicate NoMemoryFrom(memories: map<Id, Memory>, aid: Id) {
    forall m :: m in memories ==> memories[m].createdFrom != aid
  }

  ghost predicate MayLearn(s: State, t: Tid, g: GenerateRequest) {
    var pc := Thr(s, t).pc;
    && pc.Issued? && pc.approvalId == g.approvalId && LearnOf(pc.action) == Some(g.behavior)
    && Known(s, g.approvalId)
    && g.learned == g.approved == DecisionFor(s, g.approvalId).scope
    && g.riskLevel == DecisionFor(s, g.approvalId).riskLevel && g.ttl == 0
  }

  lemma MayLearnStays(a: State, b: State, t: Tid, g: GenerateRequest)
    requires Evolves(a, b) && Thr(b, t) == Thr(a, t) && MayLearn(a, t, g)
    ensures MayLearn(b, t, g)
  {
    KnownStays(a, b, g.approvalId);
  }

  lemma LearnBacked(s: State, t: Tid, g: GenerateRequest, mid: Id, at: Instant) returns (next: State)
    requires MayLearn(s, t, g) && CheckGenerate(g).None? && at <= s.db.now && mid !in s.h.lessons
    ensures var pc := Thr(s, t).pc;
      var effect := InsertMemory(s.db, mid, MemoryRow(g.learned, g.riskLevel, g.behavior, g.approvalId, at));
      effect.Some? ==>
        && Leads(s, t, Learn(mid, at), next) && next.db == effect.value
        && next.h.lessons.Keys == s.h.lessons.Keys + {mid}
        && Thr(next, t) == Thread(Taught(pc.approvalId, pc.action, pc.from), Thr(s, t).meter)
  {
    next := s;
    if CanLearn(s, t, mid, at) {
      LeadsExactly(s, t, Act.Learn(mid, at), DoLearn(s, t, mid, at));
      next := DoLearn(s, t, mid, at);
    }
  }

  /** A memory row that was read still goes back to a lesson. */
  ghost predicate Remembered(s: State, item: Item<Memory>) {
    && item.id in s.h.lessons && s.h.lessons[item.id].scope == item.row.scope
    && (s.h.lessons[item.id].behavior == AlwaysAskBehavior ==> item.row.behavior == AlwaysAskBehavior)
  }

  lemma MemoryRemembered(s: State, mid: Id)
    requires Inv(s) && mid in s.db.memories
    ensures Remembered(s, Item(mid, s.db.memories[mid]))
  {
    InvTables(s);
    assert MemoryOk(s, mid);
  }

  lemma AllRemembered(store: Store, items: seq<Item<Memory>>)
    requires store.Valid()
    requires forall k :: 0 <= k < |items| ==>
      items[k].id in store.memories && items[k].row == store.memories[items[k].id]
    ensures forall item :: item in items ==> Remembered(store.Cur(), item)
  {
    RunInv(store.run, |store.run.acts|);
    forall item | item in items ensures Remembered(store.Cur(), item) {
      MemoryRemembered(store.Cur(), item.id);
    }
  }

  predicate StillValid(item: Item<Memory>, now: Instant) {
    Loaded(item.row.expiresAt) > now
  }

  function Unexpired(items: seq<Item<Memory>>, now: Instant): seq<Item<Memory>> {
    if items == [] then []
    else
      var last := items[|items| - 1];
      Unexpired(items[..|items| - 1], now) + (if StillValid(last, now) then [last] else [])
  }

  lemma {:induction false} UnexpiredExactly(items: seq<Item<Memory>>, now: Instant, item: Item<Memory>)
    ensures item in Unexpired(items, now) <==> item in items && StillValid(item, now)
  {
    if items != [] {
      UnexpiredExactly(items[..|items| - 1], now, item);
      assert items == items[..|items| - 1] + [items[|items| - 1]];
    }
  }

  predicate Speaks(row: Memory, agent: Id, workspace: Id, service: string, now: Instant) {
    row.active && row.agentId == agent && row.workspaceId == workspace && row.service == service
    && Loaded(row.expiresAt) > now
  }

  /** Exactly the rows that speak. */
  ghost predicate Recalled(
    items: seq<Item<Memory>>, rows: map<Id, Memory>, agent: Id, workspace: Id, service: string, now: Instant)
  {
    forall item :: item in items <==>
      item.id in rows && rows[item.id] == item.row && Speaks(item.row, agent, workspace, service, now)
  }

  lemma ListedRows(items: seq<Item<Memory>>, rows: map<Id, Memory>, wanted: set<Id>)
    requires Lists(items, rows, wanted) && wanted <= rows.Keys
    ensures forall m :: m in wanted ==> Item(m, rows[m]) in items
  {
    forall m | m in wanted ensures Item(m, rows[m]) in items {
      var k :| 0 <= k < |items| && items[k].id == m;
      assert items[k] == Item(m, rows[m]);
    }
  }

  lemma SilencedOneMore(
    before: map<Id, Memory>, prior: map<Id, Memory>, targets: seq<Item<Memory>>, i: nat, wanted: set<Id>)
    requires i < |targets| && Lists(targets, before, wanted) && Silenced(before, prior, FirstIds(targets, i))
    ensures var id := targets[i].id;
      && id in prior && prior[id] == before[id]
      && Silenced(before, prior[id := prior[id].(active := false)], FirstIds(targets, i + 1))
  {
    assert FirstIds(targets, i + 1) == FirstIds(targets, i) + {targets[i].id};
    assert targets[i].id !in FirstIds(targets, i);
  }

  lemma ListedFirst(items: seq<Item<Memory>>, rows: map<Id, Memory>, wanted: set<Id>)
    requires Lists(items, rows, wanted)
    ensures FirstIds(items, |items|) == wanted
  {
    forall x | x in wanted ensures x in FirstIds(items, |items|) {
      var k :| 0 <= k < |items| && items[k].id == x;
      assert items[k].id in FirstIds(items, |items|);
    }
  }

  lemma NoMemoryLeft(before: map<Id, Memory>, after: map<Id, Memory>, iid: Id)
    requires Silenced(before, after, MemoriesOf(before, iid))
    ensures MemoriesOf(after, iid) == {}
  {
    forall m | m in after ensures m !in MemoriesOf(after, iid) {
      assert m in before;
    }
  }

  function InvalidateActs(ids: seq<Id>): seq<Act> {
    if ids == [] then [] else InvalidateActs(ids[..|ids| - 1]) + [Act.Invalidate(ids[|ids| - 1])]
  }

  lemma InvalidateActsMore(ids: seq<Id>, id: Id)
    ensures InvalidateActs(ids + [id]) == InvalidateActs(ids) + [Act.Invalidate(id)]
  {
    assert (ids + [id])[..|ids|] == ids;
  }

  /** The memories at these ids lost their force, the others are as they were. */
  ghost predicate Silenced(before: map<Id, Memory>, after: map<Id, Memory>, ids: set<Id>) {
    && after.Keys == before.Keys
    && forall m :: m in before ==> after[m] == if m in ids then before[m].(active := false) else before[m]
  }

  function FirstIds(items: seq<Item<Memory>>, n: nat): set<Id>
    requires n <= |items|
  {
    set k | 0 <= k < n :: items[k].id
  }

  class TrustManager {
    const store: Store

    constructor (store: Store)
      ensures this.store == store
    {
      this.store := store;
    }

    /** Generate remembers the learned scope exactly, or nothing. */
    method Generate(g: GenerateRequest, ghost me: Tid) returns (r: Result<Id>, ghost acts: seq<Act>)
      requires store.Valid() && MayLearn(store.Cur(), me, g)
      modifies store
      ensures store.Acted(me, acts)
      ensures r.Err? ==> acts == [] && Thr(store.Cur(), me) == Thr(old(store.Cur()), me)
      ensures CheckGenerate(g).Some? ==> r == Err(CheckGenerate(g).value)
      ensures r.Ok? ==>
        && r.value in store.memories && store.memories[r.value].scope == g.learned
        && store.memories[r.value].behavior == g.behavior && store.memories[r.value].createdFrom == g.approvalId
        && |acts| == 1 && acts[0].Learn? && acts[0].mid == r.value
        && Thr(store.Cur(), me).pc ==
           Taught(g.approvalId, Thr(old(store.Cur()), me).pc.action, Thr(old(store.Cur()), me).pc.from)
      ensures store.alone ==>
        && (r.Ok? <==> CheckGenerate(g).None? && NoMemoryFrom(old(store.memories), g.approvalId))
        && store.Rows() == old(store.Rows()).(memories := store.memories)
        && (r.Err? ==> store.memories == old(store.memories))
    {
      acts := [];
      ghost var first := store.run;
      ContinuesReflexive(first);
      var refused := CheckGenerate(g);
      if refused.Some? { return Err(refused.value), acts; }
      var at := store.now;
      store.Yield(me);
      LaterEvolves(first, store.run);
      MayLearnStays(Last(first), store.Cur(), me, g);
      var mid := store.NewId();
      ghost var before := store.run;
      ghost var next := LearnBacked(store.Cur(), me, g, mid, at);
      var row := MemoryRow(g.learned, g.riskLevel, g.behavior, g.approvalId, at);
      var done := store.CreateMemory(mid, row, me, Learn(mid, at), next);
      if done.Err? { return Err(done.code), acts; }
      ContinuesTransitive(first, before, store.run);
      return Ok(mid), [Learn(mid, at)];
    }

    /** Match lists the active memories of agent, workspace and service that have not expired. */
    method Match(agent: Id, workspace: Id, service: string, ghost me: Tid)
      returns (r: Result<seq<Item<Memory>>>)
      requires store.Valid()
      modifies store
      ensures store.Acted(me, []) && Thr(store.Cur(), me) == Thr(old(store.Cur()), me)
      ensures r.Ok? ==> forall item :: item in r.value ==>
        Remembered(store.Cur(), item) && Speaks(item.row, agent, workspace, service, store.now)
      ensures store.alone ==>
        && r.Ok? && store.Rows() == old(store.Rows())
        && Recalled(r.value, store.memories, agent, workspace, service, store.now)
    {
      store.Yield(me);
      var candidates :- store.MatchMemories(agent, workspace, service);
      AllRemembered(store, candidates);
      var usable := Filter(candidates, store.now);
      forall item ensures item in usable <==> item in candidates && StillValid(item, store.now) {
        UnexpiredExactly(candidates, store.now, item);
      }
      if store.alone { ListedRows(candidates, store.memories, MemoriesFor(store.memories, agent, workspace, service)); }
      return Ok(usable);
    }

    method Filter(candidates: seq<Item<Memory>>, now: Instant) returns (usable: seq<Item<Memory>>)
      ensures usable == Unexpired(candidates, now)
    {
      usable := [];
      for i := 0 to |candidates|
        invariant usable == Unexpired(candidates[..i], now)
      {
        assert candidates[..i + 1][..i] == candidates[..i];
        if StillValid(candidates[i], now) { usable := usable + [candidates[i]]; }
      }
      assert candidates[..|candidates|] == candidates;
    }

    /** TightenBehavior: the one change of a memory there is, and only towards asking. */
    method TightenBehavior(id: Id, ghost me: Tid) returns (r: Result<()>)
      requires store.Valid()
      modifies store
      ensures store.Acted(me, if r.Ok? then [Act.Tighten(id)] else [])
      ensures r.Ok? ==> id in store.memories && store.memories[id].behavior == AlwaysAskBehavior
      ensures store.alone ==>
        && (r.Ok? <==> && id in old(store.memories) && old(store.memories)[id].active
                       && old(store.memories)[id].behavior == AutoAllowBehavior)
        && (r.Err? ==> store.memories == old(store.memories))
        && store.Rows() == old(store.Rows()).(memories := store.memories)
    {
      ghost var first := store.run;
      store.Yield(me);
      ghost var mid := store.run;
      r := store.TightenBehavior(id, me);
      if r.Ok? { ContinuesTransitive(first, mid, store.run); }
    }

    /** Delete. */
    method Delete(id: Id, ghost me: Tid) returns (r: Result<()>)
      requires store.Valid()
      modifies store
      ensures store.Acted(me, if r.Ok? then [Act.Delete(id)] else [])
      ensures r.Ok? ==> id !in store.memories
      ensures store.alone ==>
        && (r.Ok? <==> id in old(store.memories))
        && store.memories == (if r.Ok? then old(store.memories) - {id} else old(store.memories))
        && store.Rows() == old(store.Rows()).(memories := store.memories)
    {
      ghost var first := store.run;
      store.Yield(me);
      ghost var mid := store.run;
      r := store.DeleteMemory(id, me);
      if r.Ok? { ContinuesTransitive(first, mid, store.run); }
    }

    /** InvalidateForIdentity silences every active memory of an identity, one at a time, and stops at
        the first failure. */
    method InvalidateForIdentity(iid: Id, ghost me: Tid) returns (invalidated: seq<Id>, failure: Option<Code>)
      requires store.Valid()
      modifies store
      ensures store.Acted(me, InvalidateActs(invalidated))
      ensures store.alone ==> failure.None?
      ensures store.alone ==> Silenced(old(store.memories), store.memories, MemoriesOf(old(store.memories), iid))
      ensures store.alone ==> store.Rows() == old(store.Rows()).(memories := store.memories)
    {
      invalidated, failure := [], None;
      ghost var first := store.run;
      ContinuesReflexive(first);
      store.Yield(me);
      var listing := store.ActiveMemoriesByIdentity(iid);
      if listing.Err? { return invalidated, Some(listing.code); }
      var targets := listing.value;
      for i := 0 to |targets|
        invariant store.Acted(me, InvalidateActs(invalidated)) && failure.None?
        invariant store.alone ==> Silenced(old(store.memories), store.memories, FirstIds(targets, i))
        invariant store.alone ==> store.Rows() == old(store.Rows()).(memories := store.memories)
      {
        var id := targets[i].id;
        ghost var mid, prior := store.run, store.memories;
        var done := InvalidateOne(id, me);
        ContinuesTransitive(first, mid, store.run);
        if store.alone {
          SilencedOneMore(old(store.memories), prior, targets, i, MemoriesOf(old(store.memories), iid));
        }
        if done.Err? { return invalidated, Some(done.code); }
        InvalidateActsMore(invalidated, id);
        invalidated := invalidated + [id];
      }
      if store.alone { ListedFirst(targets, old(store.memories), MemoriesOf(old(store.memories), iid)); }
    }

    method InvalidateOne(id: Id, ghost me: Tid) returns (r: Result<()>)
      requires store.Valid()
      modifies store
      ensures store.Acted(me, if r.Ok? then [Act.Invalidate(id)] else [])
      ensures store.alone ==>
        && (r.Ok? <==> id in old(store.memories) && old(store.memories)[id].active)
        && (r.Ok? ==> store.memories == old(store.memories)[id := old(store.memories)[id].(active := false)])
        && store.Rows() == old(store.Rows()).(memories := store.memories)
    {
      ghost var first := store.run;
      store.Yield(me);
      ghost var mid := store.run;
      r := store.InvalidateMemory(id, me);
      if r.Ok? { ContinuesTransitive(first, mid, store.run); }
    }
  }
}
