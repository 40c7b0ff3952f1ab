/**
 lease.Manager (internal/core/lease/manager.go), step by step over the shared store. Every method
 says which acts it takes, in order, on every path; what those acts keep is proved of the protocol.
 */
module Leasing {
  import opened Results
  import opened Scopes
  import opened Tables
  import opened Protocol
  import opened Invariants
  import opened Stability
  import opened Guarantees
  import opened Stores
  import D = Decisions

  // ----- What a thread may rely on -----

  lemma Sound(store: Store)
    requires store.Valid()
    ensures Inv(store.Cur())
  {
    RunInv(store.run, |store.run.acts|);
  }

  // ----- lease.Manager -----

  /** The thread stands where issueLease is reached, and asks for what it may ask for. */
  ghost predicate MayIssue(s: State, t: Tid, granted: Scope, approvalId: Id, memoryId: Id, bound: bool) {
    var pc := Thr(s, t).pc;
    if approvalId == "" then
      && AutoPc(pc) && pc.outcome.matchedLeaseId == "" && pc.decisionId in s.db.decisions && pc.since <= s.db.now
      && granted == IssuedScope(s, pc) && memoryId == s.db.decisions[pc.decisionId].memoryId && !bound
    else
      && pc.Booked? && pc.approvalId == approvalId && Allows(pc.action) && Known(s, approvalId)
      && granted == IssuedScope(s, pc) && memoryId == DecisionFor(s, approvalId).memoryId
      && bound == SessionBound(pc.action) && pc.since <= s.db.now
  }

  lemma MayIssueStays(a: State, b: State, t: Tid, granted: Scope, approvalId: Id, memoryId: Id, bound: bool)
    requires Evolves(a, b) && Thr(b, t) == Thr(a, t) && MayIssue(a, t, granted, approvalId, memoryId, bound)
    ensures MayIssue(b, t, granted, approvalId, memoryId, bound)
  {
    if approvalId != "" { KnownStays(a, b, approvalId); }
  }

  function IssueAct(approvalId: Id, lid: Id, at: Instant): Act {
    if approvalId == "" then IssueAuto(lid, at) else IssueApproved(lid, at)
  }

  lemma IssueBacked(s: State, t: Tid, granted: Scope, approvalId: Id, memoryId: Id, bound: bool, lid: Id, at: Instant)
    returns (next: State)
    requires MayIssue(s, t, granted, approvalId, memoryId, bound)
    requires Validates(granted) && granted.expiresAt > at && Thr(s, t).pc.since <= at <= s.db.now && lid != ""
    ensures var effect := InsertLease(s.db, lid, LeaseRow(granted, approvalId, memoryId, bound));
      effect.Some? ==>
        && Leads(s, t, IssueAct(approvalId, lid, at), next) && next.db == effect.value
        && next.h.lessons == s.h.lessons && Thr(next, t) == AfterIssue(Thr(s, t), lid)
  {
    var effect := InsertLease(s.db, lid, LeaseRow(granted, approvalId, memoryId, bound));
    next := s;
    if effect.Some? {
      if approvalId == "" {
        LeadsExactly(s, t, Act.IssueAuto(lid, at), DoIssueAuto(s, t, lid, at));
        next := DoIssueAuto(s, t, lid, at);
      } else {
        LeadsExactly(s, t, Act.IssueApproved(lid, at), DoIssueApproved(s, t, lid, at));
        next := DoIssueApproved(s, t, lid, at);
      }
    }
  }

  function AfterIssue(th: Thread, lid: Id): Thread
    requires th.pc.Noted? || th.pc.Booked?
  {
    var pc := th.pc;
    Thread(if pc.Noted? then Holding(pc.requestId, pc.decisionId, lid)
           else Issued(pc.approvalId, pc.action, pc.from), th.meter)
  }

  /** No lease was issued on this approval. */
  ghost predicate NoLeaseOn(leases: map<Id, Lease>, aid: Id) {
    forall l :: l in leases ==> leases[l].approvalId != aid
  }

  /** The sequential meaning of Use. */
  predicate UsableFor(row: Lease, requested: Scope, at: Instant) {
    Validates(requested) && Validates(row.scope) && CoversIgnoringWindow(row.scope, requested) && Consumable(row, at)
  }

  function UsedRow(row: Lease): Lease {
    row.(used := row.used + 1,
         status := if row.limit != 0 && row.used + 1 >= row.limit then Exhausted else row.status)
  }

  /** What Use does, in order, as far as it gets. */
  ghost predicate UseActs(acts: seq<Act>, lid: Id, requested: Scope, ok: bool) {
    || (!ok && acts == [])
    || (acts != [] && acts[0] == CheckMeter(lid, requested)
        && exists at :: CountActs(acts[1..], at, ok))
  }

  ghost predicate CountActs(acts: seq<Act>, at: Instant, ok: bool) {
    || (!ok && acts == [])
    || acts == [Act.Consume(at)]
    || (ok && acts == [Act.Consume(at), Act.Exhaust])
  }

  lemma CheckBacked(s: State, t: Tid, lid: Id, requested: Scope) returns (next: State)
    requires Thr(s, t).meter.Off? && lid in s.db.leases && CoversIgnoringWindow(s.db.leases[lid].scope, requested)
    ensures Leads(s, t, CheckMeter(lid, requested), next) && next.db == s.db && next.h.lessons == s.h.lessons
    ensures Thr(next, t) == Thread(Thr(s, t).pc, Checked(lid, requested))
  {
    LeadsExactly(s, t, Act.CheckMeter(lid, requested), DoCheckMeter(s, t, lid, requested));
    next := DoCheckMeter(s, t, lid, requested);
  }

  lemma ConsumeBacked(s: State, t: Tid, at: Instant) returns (next: State)
    requires Thr(s, t).meter.Checked? && at <= s.db.now
    ensures var lid := Thr(s, t).meter.leaseId;
      var effect := UpdateLeaseUse(s.db, lid, at);
      effect.Some? ==>
        && Leads(s, t, Act.Consume(at), next) && next.db == effect.value && next.h.lessons == s.h.lessons
        && Thr(next, t) == Thread(Thr(s, t).pc, AfterCount(s.db.leases[lid], lid, |s.h.uses|))
  {
    next := s;
    if CanConsume(s, t, at) {
      LeadsExactly(s, t, Act.Consume(at), DoConsume(s, t, at));
      next := DoConsume(s, t, at);
    }
  }

  lemma ExhaustBacked(s: State, t: Tid) returns (next: State)
    requires Thr(s, t).meter.Counted?
    ensures var m := Thr(s, t).meter;
      var effect := UpdateLeaseStatus(s.db, m.leaseId, Exhausted);
      effect.Some? ==>
        && Leads(s, t, Act.Exhaust, next) && next.db == effect.value && next.h.lessons == s.h.lessons
        && Thr(next, t) == Thread(Thr(s, t).pc, Paid(m.leaseId, m.index))
  {
    next := s;
    if CanExhaust(s, t) {
      LeadsExactly(s, t, Act.Exhaust, DoExhaust(s, t));
      next := DoExhaust(s, t);
    }
  }

  // A statement that is nobody's step in particular leaves the history alone.

  lemma RevokeBacked(s: State, t: Tid, lid: Id) returns (next: State)
    ensures var effect := UpdateLeaseStatus(s.db, lid, Revoked);
      effect.Some? ==> Leads(s, t, Act.Revoke(lid), next) && next == State(effect.value, s.h)
  {
    next := s;
    if CanRevoke(s, t, lid) {
      LeadsExactly(s, t, Act.Revoke(lid), DoRevoke(s, t, lid));
      next := DoRevoke(s, t, lid);
    }
  }

  lemma SweepBacked(s: State, t: Tid, lid: Id, at: Instant) returns (next: State)
    requires at <= s.db.now && lid in s.db.leases && s.db.leases[lid].expiresAt <= Stored(at)
    ensures var effect := UpdateLeaseStatus(s.db, lid, LeaseStatus.Expired);
      effect.Some? ==> Leads(s, t, SweepLease(lid, at), next) && next == State(effect.value, s.h)
  {
    next := s;
    if CanSweepLease(s, t, lid, at) {
      LeadsExactly(s, t, Act.SweepLease(lid, at), DoSweepLease(s, t, lid, at));
      next := DoSweepLease(s, t, lid, at);
    }
  }

  /** A lease once due stays due. */
  lemma StillDue(a: Run, b: Run, lid: Id, at: Instant)
    requires Legal(a) && Legal(b) && Continues(a, b)
    requires lid in Last(a).db.leases && Last(a).db.leases[lid].expiresAt <= Stored(at)
    ensures lid in Last(b).db.leases && Last(b).db.leases[lid].expiresAt <= Stored(at)
  {
    LaterEvolves(a, b);
    assert LeaseEvolves(Last(a).db.leases[lid], Last(b).db.leases[lid]);
  }

  function Ids<T>(items: seq<Item<T>>): set<Id> {
    set k | 0 <= k < |items| :: items[k].id
  }

  lemma IdsMore<T>(listed: seq<Item<T>>, i: nat)
    requires i < |listed|
    ensures Ids(listed[..i + 1]) == Ids(listed[..i]) + {listed[i].id}
  {
    var next := listed[..i + 1];
    assert next[i].id == listed[i].id;
    forall x | x in Ids(listed[..i]) ensures x in Ids(next) {
      var k :| 0 <= k < i && listed[..i][k].id == x;
      assert next[k].id == x;
    }
  }

  function SweepActs(closed: seq<Id>, at: Instant): seq<Act> {
    if closed == [] then [] else SweepActs(closed[..|closed| - 1], at) + [SweepLease(closed[|closed| - 1], at)]
  }

  function DueAt(leases: map<Id, Lease>, at: Instant): set<Id> {
    set l | l in leases && leases[l].status == Active && leases[l].expiresAt <= Stored(at)
  }

  /** Closing the next listed lease. */
  lemma SweptOneMore(before: map<Id, Lease>, prior: map<Id, Lease>, due: seq<Item<Lease>>, i: nat, wanted: set<Id>)
    requires i < |due| && Lists(due, before, wanted) && Swept(before, prior, Ids(due[..i]))
    ensures var id := due[i].id;
      && id in prior && prior[id] == before[id]
      && Swept(before, prior[id := prior[id].(status := LeaseStatus.Expired)], Ids(due[..i + 1]))
  {
    var id := due[i].id;
    assert id !in Ids(due[..i]);
    IdsMore(due, i);
  }

  lemma ListedIds<T>(items: seq<Item<T>>, rows: map<Id, T>, wanted: set<Id>)
    requires Lists(items, rows, wanted)
    ensures Ids(items) == wanted
  {
    forall x | x in wanted ensures x in Ids(items) {
      var k :| 0 <= k < |items| && items[k].id == x;
      assert items[k].id in Ids(items);
    }
  }

  lemma SweepActsMore(closed: seq<Id>, id: Id, at: Instant)
    ensures SweepActs(closed + [id], at) == SweepActs(closed, at) + [SweepLease(id, at)]
  {
    assert (closed + [id])[..|closed|] == closed;
  }

  /** What a sweep at `at` does to the rows listed as due. */
  ghost predicate Swept(before: map<Id, Lease>, after: map<Id, Lease>, closed: set<Id>) {
    && after.Keys == before.Keys
    && forall l :: l in before ==>
         after[l] == if l in closed then before[l].(status := LeaseStatus.Expired) else before[l]
  }

  class LeaseManager {
    const store: Store

    constructor (store: Store)
      ensures this.store == store
    {
      this.store := store;
    }

    /** Issue. On success exactly one act, the insertion of the granted scope as a fresh lease. */
    method Issue(granted: Scope, approvalId: Id, memoryId: Id, bound: bool, ghost me: Tid) returns (r: Result<Id>)
      requires store.Valid() && MayIssue(store.Cur(), me, granted, approvalId, memoryId, bound)
      modifies store
      ensures store.Valid() && Continues(old(store.run), store.run)
      ensures r.Err? ==> Own(store.run.acts, me) == Own(old(store.run.acts), me)
                         && Thr(store.Cur(), me) == Thr(old(store.Cur()), me)
      ensures r.Ok? ==>
        && Validates(granted) && r.value in store.leases
        && store.leases[r.value] == LeaseRow(granted, approvalId, memoryId, bound)
        && Thr(store.Cur(), me) == AfterIssue(Thr(old(store.Cur()), me), r.value)
        && (exists at :: at < granted.expiresAt &&
              Own(store.run.acts, me) == Own(old(store.run.acts), me) + [IssueAct(approvalId, r.value, at)])
      ensures !Validates(granted) ==> r == Err(InvalidRequest)
      ensures store.alone ==>
        && (r.Ok? <==> Validates(granted) && granted.expiresAt > old(store.now)
                       && (approvalId == "" || NoLeaseOn(old(store.leases), approvalId)))
        && store.Rows() == old(store.Rows()).(leases := store.leases)
        && store.leases == (if r.Ok? then old(store.leases)[r.value := LeaseRow(granted, approvalId, memoryId, bound)]
                            else old(store.leases))
    {
      ghost var before := store.run;
      ContinuesReflexive(before);
      if !Validates(granted) { return Err(InvalidRequest); }
      var at := store.now;
      if granted.expiresAt <= at { return Err(InvalidRequest); }
      store.Yield(me);
      LaterEvolves(before, store.run);
      MayIssueStays(Last(before), store.Cur(), me, granted, approvalId, memoryId, bound);
      var lid := store.NewId();
      ghost var next := IssueBacked(store.Cur(), me, granted, approvalId, memoryId, bound, lid, at);
      var row := LeaseRow(granted, approvalId, memoryId, bound);
      ghost var mid := store.run;
      var done := store.IssueLease(lid, row, me, IssueAct(approvalId, lid, at), next);
      if done.Err? { return Err(done.code); }
      ContinuesTransitive(before, mid, store.run);
      return Ok(lid);
    }

    /** Use. The row is read and the request found inside its scope, then one statement tests and
        counts, then a lease that is used up is closed. Used alone the result is exact; otherwise the
        acts say how far it got, and a lease was counted on exactly when Consume is among them. */
    method Use(id: Id, requested: Scope, ghost me: Tid) returns (r: Result<Lease>, ghost acts: seq<Act>)
      requires store.Valid() && Thr(store.Cur(), me).meter.Off?
      modifies store
      ensures store.Valid() && Continues(old(store.run), store.run)
      ensures Thr(store.Cur(), me).pc == Thr(old(store.Cur()), me).pc
      ensures r.Ok? ==> Thr(store.Cur(), me).meter.Paid? && Thr(store.Cur(), me).meter.leaseId == id
      ensures Own(store.run.acts, me) == Own(old(store.run.acts), me) + acts && UseActs(acts, id, requested, r.Ok?)
      ensures !Validates(requested) ==> r == Err(InvalidRequest)
      ensures store.alone ==>
        && (r.Ok? <==> id in old(store.leases) && UsableFor(old(store.leases)[id], requested, old(store.now)))
        && store.leases == (if r.Ok? then old(store.leases)[id := UsedRow(old(store.leases)[id])]
                            else old(store.leases))
        && (r.Ok? ==> r.value == store.leases[id])
        && store.Rows() == old(store.Rows()).(leases := store.leases)
    {
      acts := [];
      ghost var first := store.run;
      ContinuesReflexive(first);
      if !Validates(requested) { return Err(InvalidRequest), acts; }
      var admitted := Admit(id, requested, me);
      if admitted.Err? { return Err(admitted.code), acts; }
      acts := [CheckMeter(id, requested)];
      var at := store.now;
      ghost var mid := store.run;
      store.Yield(me);
      ContinuesTransitive(first, mid, store.run);
      mid := store.run;
      ghost var count: seq<Act>;
      r, count := Count(id, at, me);
      ContinuesTransitive(first, mid, store.run);
      acts := acts + count;
      assert acts[1..] == count;
    }

    /** The first half of Use: is the request inside the scope the lease was issued with? */
    method Admit(id: Id, requested: Scope, ghost me: Tid) returns (r: Result<()>)
      requires store.Valid() && Thr(store.Cur(), me).meter.Off?
      modifies store
      ensures store.Valid() && Continues(old(store.run), store.run)
      ensures Own(store.run.acts, me) ==
              Own(old(store.run.acts), me) + (if r.Ok? then [CheckMeter(id, requested)] else [])
      ensures Thr(store.Cur(), me) ==
              (if r.Ok? then Thread(Thr(old(store.Cur()), me).pc, Checked(id, requested))
               else Thr(old(store.Cur()), me))
      ensures store.alone ==>
        && (r.Ok? <==> id in old(store.leases) && Validates(old(store.leases)[id].scope)
                       && CoversIgnoringWindow(old(store.leases)[id].scope, requested))
        && store.Rows() == old(store.Rows())
    {
      ghost var first := store.run;
      store.Yield(me);
      var row :- store.LeaseById(id);
      if !Validates(row.scope) { return Err(InvalidRequest); }
      if !CoversIgnoringWindow(row.scope, requested) { return Err(CredentialNotAuthorized); }
      ghost var mid := store.run;
      ghost var next := CheckBacked(store.Cur(), me, id, requested);
      store.Note(me, CheckMeter(id, requested), next);
      ContinuesTransitive(first, mid, store.run);
      return Ok(());
    }

    /** The second half of Use, from the statement that counts. */
    method Count(id: Id, at: Instant, ghost me: Tid) returns (r: Result<Lease>, ghost acts: seq<Act>)
      requires store.Valid() && Thr(store.Cur(), me).meter.Checked? && Thr(store.Cur(), me).meter.leaseId == id
      requires at <= store.now
      modifies store
      ensures store.Valid() && Continues(old(store.run), store.run)
      ensures Thr(store.Cur(), me).pc == Thr(old(store.Cur()), me).pc
      ensures r.Ok? ==> Thr(store.Cur(), me).meter.Paid? && Thr(store.Cur(), me).meter.leaseId == id
      ensures Own(store.run.acts, me) == Own(old(store.run.acts), me) + acts && CountActs(acts, at, r.Ok?)
      ensures store.alone ==>
        && (r.Ok? <==> id in old(store.leases) && Consumable(old(store.leases)[id], at))
        && store.leases == (if r.Ok? then old(store.leases)[id := UsedRow(old(store.leases)[id])]
                            else old(store.leases))
        && (r.Ok? ==> r.value == store.leases[id])
        && store.Rows() == old(store.Rows()).(leases := store.leases)
    {
      acts := [];
      ghost var first := store.run;
      ContinuesReflexive(first);
      ghost var next := ConsumeBacked(store.Cur(), me, at);
      var counted := store.Consume(id, at, me, next);
      if counted.Err? { return Err(counted.code), acts; }
      acts := [Act.Consume(at)];
      if counted.value.limit == 0 || counted.value.used < counted.value.limit { return counted, acts; }
      ghost var mid := store.run;
      r := CloseUsedUp(id, me);
      ContinuesTransitive(first, mid, store.run);
      Rebracket(Own(first.acts, me), acts, if r.Ok? then [Act.Exhaust] else []);
      if r.Ok? { acts := acts + [Act.Exhaust]; }
    }

    /** The use that reached the limit closes the lease at once. */
    method CloseUsedUp(id: Id, ghost me: Tid) returns (r: Result<Lease>)
      requires store.Valid() && Thr(store.Cur(), me).meter.Counted? && Thr(store.Cur(), me).meter.leaseId == id
      modifies store
      ensures store.Acted(me, if r.Ok? then [Act.Exhaust] else [])
      ensures Thr(store.Cur(), me).pc == Thr(old(store.Cur()), me).pc
      ensures r.Ok? ==> Thr(store.Cur(), me).meter.Paid? && Thr(store.Cur(), me).meter.leaseId == id
      ensures store.alone ==>
        && (r.Ok? <==> id in old(store.leases) && old(store.leases)[id].status == Active)
        && store.leases == (if r.Ok? then old(store.leases)[id := old(store.leases)[id].(status := Exhausted)]
                            else old(store.leases))
        && (r.Ok? ==> r.value == store.leases[id])
        && store.Rows() == old(store.Rows()).(leases := store.leases)
    {
      ghost var first := store.run;
      store.Yield(me);
      ghost var mid := store.run;
      ghost var next := ExhaustBacked(store.Cur(), me);
      r := store.CloseLease(id, Exhausted, me, Act.Exhaust, next);
      if r.Ok? { ContinuesTransitive(first, mid, store.run); }
    }

    /** Revoke. */
    method Revoke(id: Id, ghost me: Tid) returns (r: Result<Lease>)
      requires store.Valid()
      modifies store
      ensures store.Acted(me, if r.Ok? then [Act.Revoke(id)] else [])
      ensures Thr(store.Cur(), me) == Thr(old(store.Cur()), me)
      ensures r.Ok? ==> id in store.leases && store.leases[id] == r.value && r.value.status == Revoked
      ensures store.alone ==>
        && (r.Ok? <==> id in old(store.leases) && old(store.leases)[id].status == Active)
        && (r.Ok? ==> store.leases == old(store.leases)[id := old(store.leases)[id].(status := Revoked)])
        && store.Rows() == old(store.Rows()).(leases := store.leases)
    {
      ghost var first := store.run;
      store.Yield(me);
      ghost var mid := store.run;
      ghost var next := RevokeBacked(store.Cur(), me, id);
      r := store.CloseLease(id, Revoked, me, Act.Revoke(id), next);
      if r.Ok? { ContinuesTransitive(first, mid, store.run); }
    }

    /** Shorten: the new expiry must lie before the old one; equality is refused too. */
    method Shorten(id: Id, expiresAt: Instant, ghost me: Tid) returns (r: Result<Lease>)
      requires store.Valid()
      modifies store
      ensures store.Acted(me, if r.Ok? then [Act.Shorten(id, Stored(expiresAt))] else [])
      ensures r.Ok? ==> id in store.leases && store.leases[id] == r.value && r.value.expiresAt == Stored(expiresAt)
      ensures expiresAt == ZERO_TIME ==> r == Err(InvalidRequest)
      ensures store.alone ==>
        (r.Ok? <==> && expiresAt != ZERO_TIME && id in old(store.leases) && old(store.leases)[id].status == Active
                    && Stored(expiresAt) < old(store.leases)[id].expiresAt)
    {
      ghost var first := store.run;
      ContinuesReflexive(first);
      if expiresAt == ZERO_TIME { return Err(InvalidRequest); }
      store.Yield(me);
      ghost var mid := store.run;
      r := store.ShortenLease(id, expiresAt, me);
      if r.Ok? { ContinuesTransitive(first, mid, store.run); }
    }

    /** Sweep closes what is due, one lease at a time, and stops at the first failure; what it closed
        stays closed. Alone it closes exactly the active leases that are due, and touches no other. */
    method Sweep(ghost me: Tid) returns (closed: seq<Id>, failure: Option<Code>)
      requires store.Valid()
      modifies store
      ensures exists at :: at >= old(store.now) && store.Acted(me, SweepActs(closed, at))
      ensures store.alone ==>
        failure.None? && Swept(old(store.leases), store.leases, DueAt(old(store.leases), old(store.now)))
    {
      closed, failure := [], None;
      ghost var first := store.run;
      ContinuesReflexive(first);
      var at := store.now;
      assert store.Acted(me, SweepActs([], at));
      store.Yield(me);
      var listing := store.LeasesDueBefore(at);
      if listing.Err? { return closed, Some(listing.code); }
      var due := listing.value;
      ListedIds(due, store.leases, DueAt(store.leases, at));
      ghost var mid := store.run;
      closed, failure := CloseEach(due, at, me);
      ContinuesTransitive(first, mid, store.run);
      assert store.Acted(me, SweepActs(closed, at));
    }

    /** The loop of Sweep. */
    method CloseEach(due: seq<Item<Lease>>, at: Instant, ghost me: Tid) returns (closed: seq<Id>, failure: Option<Code>)
      requires store.Valid() && at <= store.now && Lists(due, store.leases, DueAt(store.leases, at))
      modifies store
      ensures store.Acted(me, SweepActs(closed, at))
      ensures store.alone ==> failure.None? && Swept(old(store.leases), store.leases, Ids(due))
    {
      closed, failure := [], None;
      ghost var listed := store.run;
      ContinuesReflexive(listed);
      for i := 0 to |due|
        invariant store.Acted(me, SweepActs(closed, at)) && failure.None? && at <= store.now
        invariant store.alone ==> Swept(old(store.leases), store.leases, Ids(due[..i]))
      {
        var id := due[i].id;
        ghost var mid, prior := store.run, store.leases;
        var done := CloseDue(id, at, listed, me);
        ContinuesTransitive(listed, mid, store.run);
        if store.alone { SweptOneMore(old(store.leases), prior, due, i, DueAt(old(store.leases), at)); }
        if done.Err? { return closed, Some(done.code); }
        SweepActsMore(closed, id, at);
        closed := closed + [id];
      }
      assert due[..|due|] == due;
    }

    /** One lease of a sweep's listing. */
    method CloseDue(id: Id, at: Instant, ghost listed: Run, ghost me: Tid) returns (r: Result<Lease>)
      requires store.Valid() && at <= store.now
      requires Legal(listed) && Continues(listed, store.run)
      requires id in Last(listed).db.leases && Last(listed).db.leases[id].expiresAt <= Stored(at)
      modifies store
      ensures store.Acted(me, if r.Ok? then [SweepLease(id, at)] else [])
      ensures Continues(listed, store.run) && at <= store.now
      ensures store.alone ==>
        && (r.Ok? <==> id in old(store.leases) && old(store.leases)[id].status == Active)
        && (r.Ok? ==> store.leases == old(store.leases)[id := old(store.leases)[id].(status := LeaseStatus.Expired)])
    {
      ghost var first := store.run;
      store.Yield(me);
      ghost var mid := store.run;
      ContinuesTransitive(listed, first, mid);
      StillDue(listed, mid, id, at);
      ghost var next := SweepBacked(store.Cur(), me, id, at);
      r := store.CloseLease(id, LeaseStatus.Expired, me, SweepLease(id, at), next);
      ContinuesReflexive(store.run);
      if r.Ok? {
        ContinuesTransitive(first, mid, store.run);
        ContinuesTransitive(listed, mid, store.run);
      }
    }
  }
}
