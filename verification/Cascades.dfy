/**
 The background passes of the pipeline (internal/core/pipeline/expire.go, identity.go, agent.go):
 expiring what nobody answered, and the two disconnect cascades, whose orders are opposite on purpose.
 */
module Cascades {
  import opened Results
  import opened Scopes
  import opened Tables
  import opened Protocol
  import opened Invariants
  import opened Stability
  import opened Guarantees
  import opened Stores
  import opened Leasing
  import opened Approving
  import opened Learning
  import opened LateLeases

  // ----- Revoking a listing -----

  lemma BookRevocationBacked(s: State, t: Tid, lid: Id) returns (next: State)
    requires lid in s.db.leases
    ensures Leads(s, t, Act.BookRevocation(lid), next) && next == State(Append(s.db, LeaseRevokedEvent(lid)), s.h)
  {
    LeadsExactly(s, t, Act.BookRevocation(lid), DoBookRevocation(s, t, lid));
    next := DoBookRevocation(s, t, lid);
  }

  lemma LeaseLater(a: Run, b: Run, lid: Id)
    requires Legal(a) && Legal(b) && Continues(a, b) && lid in Last(a).db.leases
    ensures lid in Last(b).db.leases && LeaseEvolves(Last(a).db.leases[lid], Last(b).db.leases[lid])
  {
    LaterEvolves(a, b);
  }

  function RevokeActs(ids: seq<Id>): seq<Act> {
    if ids == [] then []
    else RevokeActs(ids[..|ids| - 1]) + [Act.BookRevocation(ids[|ids| - 1]), Act.Revoke(ids[|ids| - 1])]
  }

  lemma RevokeActsMore(ids: seq<Id>, id: Id)
    ensures RevokeActs(ids + [id]) == RevokeActs(ids) + [Act.BookRevocation(id), Act.Revoke(id)]
  {
    assert (ids + [id])[..|ids|] == ids;
  }

  /** Every one of these leases was written down as revoked, and is closed. */
  ghost predicate AllClosed(leases: map<Id, Lease>, ledger: seq<Event>, ids: seq<Id>) {
    forall k :: 0 <= k < |ids| ==>
      ids[k] in leases && leases[ids[k]].status != Active && LeaseRevokedEvent(ids[k]) in ledger
  }

  lemma AllClosedLater(a: Run, b: Run, ids: seq<Id>)
    requires Legal(a) && Legal(b) && Continues(a, b) && AllClosed(Last(a).db.leases, Last(a).db.ledger, ids)
    ensures AllClosed(Last(b).db.leases, Last(b).db.ledger, ids)
  {
    LaterEvolves(a, b);
    forall k | 0 <= k < |ids|
      ensures ids[k] in Last(b).db.leases && Last(b).db.leases[ids[k]].status != Active
      ensures LeaseRevokedEvent(ids[k]) in Last(b).db.ledger
    {
      assert LeaseEvolves(Last(a).db.leases[ids[k]], Last(b).db.leases[ids[k]]);
      LedgerKeeps(Last(a).db, Last(b).db, LeaseRevokedEvent(ids[k]));
    }
  }

  /** Revoking exactly these leases, and changing nothing else about any lease. */
  ghost predicate RevokedRows(before: map<Id, Lease>, after: map<Id, Lease>, ids: set<Id>) {
    && after.Keys == before.Keys
    && forall l :: l in before ==> after[l] == if l in ids then before[l].(status := Revoked) else before[l]
  }

  lemma RevokedOneMore(before: map<Id, Lease>, prior: map<Id, Lease>, listed: seq<Item<Lease>>, i: nat, wanted: set<Id>)
    requires i < |listed| && Lists(listed, before, wanted) && RevokedRows(before, prior, Ids(listed[..i]))
    ensures var id := listed[i].id;
      && id in prior && prior[id] == before[id]
      && RevokedRows(before, prior[id := prior[id].(status := Revoked)], Ids(listed[..i + 1]))
  {
    var id := listed[i].id;
    assert id !in Ids(listed[..i]);
    IdsMore(listed, i);
  }

  lemma NoneLeft(before: map<Id, Lease>, after: map<Id, Lease>, iid: Id)
    requires RevokedRows(before, after, LeasesOf(before, iid))
    ensures LeasesOf(after, iid) == {}
  {
    forall l | l in after ensures l !in LeasesOf(after, iid) {
      assert l in before;
    }
  }

  lemma NoSessionLeft(before: map<Id, Lease>, after: map<Id, Lease>, agent: Id)
    requires RevokedRows(before, after, SessionLeasesOf(before, agent))
    ensures SessionLeasesOf(after, agent) == {}
  {
    forall l | l in after ensures l !in SessionLeasesOf(after, agent) {
      assert l in before;
    }
  }

  lemma LeasesOfIdentity(rows: map<Id, Lease>, iid: Id)
    ensures LeasesOf(rows, iid) == ActiveUnder(rows, IdentityOf(iid))
  {
  }

  lemma LeasesOfSession(rows: map<Id, Lease>, agent: Id)
    ensures SessionLeasesOf(rows, agent) == ActiveUnder(rows, SessionOf(agent))
  {
  }

  /** Once everything that was listed is closed, no lease from before the listing is left. */
  lemma NoneOfTheOld(
    before: Run, listing: Run, after: Run, items: seq<Item<Lease>>, closed: seq<Id>, subject: Subject)
    requires Legal(before) && Legal(listing) && Legal(after)
    requires Continues(before, listing) && Continues(listing, after)
    requires Lists(items, Last(listing).db.leases, ActiveUnder(Last(listing).db.leases, subject))
    requires |closed| == |items| && forall k :: 0 <= k < |closed| ==> closed[k] == items[k].id
    requires AllClosed(Last(after).db.leases, Last(after).db.ledger, closed)
    ensures ActiveUnder(Last(after).db.leases, subject) !! Last(before).db.leases.Keys
  {
    LaterEvolves(before, listing);
    forall lid | lid in ActiveUnder(Last(listing).db.leases, subject)
      ensures lid !in ActiveUnder(Last(after).db.leases, subject)
    {
      var k :| 0 <= k < |items| && items[k].id == lid;
      assert closed[k] == lid;
    }
    forall lid | lid in ActiveUnder(Last(after).db.leases, subject) ensures lid !in Last(before).db.leases {
      if lid in Last(listing).db.leases { StillUnder(listing, after, lid, subject); }
    }
  }

  // ----- Expiring -----

  /** What ExpireApprovals may do: close, write down, set the request aside. It never issues. */
  predicate ExpiryAct(act: Act) {
    act.ExpireApproval? || act.BookExpiry? || act.AdvanceExpired?
  }

  predicate ExpiryActs(acts: seq<Act>) {
    forall k :: 0 <= k < |acts| ==> ExpiryAct(acts[k])
  }

  lemma {:induction false} ClosingIsExpiry(expired: seq<Id>, at: Instant)
    ensures ExpiryActs(ExpireActs(expired, at))
  {
    if expired != [] { ClosingIsExpiry(expired[..|expired| - 1], at); }
  }

  /** The expiry of this approval is on the ledger. */
  ghost predicate Told(s: State, aid: Id) {
    Known(s, aid) && s.db.approvals[aid].status == ApprovalStatus.Expired
    && ApprovalExpiredEvent(aid, s.db.approvals[aid].decisionId) in s.db.ledger
  }

  /** The approval leads to a request, by way of a decision whose scope reads back. */
  ghost predicate Readable(s: State, aid: Id) {
    Known(s, aid) && Validates(DecisionFor(s, aid).scope)
  }

  lemma EveryApprovalReadable(s: State, aid: Id)
    requires Inv(s) && aid in s.db.approvals
    ensures Readable(s, aid)
  {
    ApprovalKnown(s, aid);
    InvDecision(s, s.db.approvals[aid].decisionId);
  }

  function RejectedAt(requests: map<Id, Request>, rid: Id): map<Id, Request>
    requires rid in requests
  {
    requests[rid := requests[rid].(status := RequestStatus.Rejected)]
  }

  /** The request behind the approval has been set aside. */
  ghost predicate Turned(s: State, aid: Id) {
    Known(s, aid) && s.db.requests[DecisionFor(s, aid).requestId].status == RequestStatus.Rejected
  }

  ghost predicate AllTurned(s: State, ids: seq<Id>) {
    forall k :: 0 <= k < |ids| ==> Turned(s, ids[k])
  }

  /** Setting one more request aside leaves the others set aside. */
  lemma TurnedOneMore(a: State, b: State, ids: seq<Id>, aid: Id)
    requires AllTurned(a, ids) && Known(a, aid)
    requires b.db.approvals == a.db.approvals && b.db.decisions == a.db.decisions
    requires b.db.requests == RejectedAt(a.db.requests, DecisionFor(a, aid).requestId)
    ensures AllTurned(b, ids + [aid])
  {
    forall k | 0 <= k < |ids + [aid]| ensures Turned(b, (ids + [aid])[k]) {
      if k < |ids| { assert Turned(a, ids[k]); }
    }
  }

  lemma ToldLater(a: Run, b: Run, ids: seq<Id>)
    requires Legal(a) && Legal(b) && Continues(a, b)
    requires forall k :: 0 <= k < |ids| ==> Told(Last(a), ids[k])
    ensures forall k :: 0 <= k < |ids| ==> Told(Last(b), ids[k])
  {
    LaterEvolves(a, b);
    forall k | 0 <= k < |ids| ensures Told(Last(b), ids[k]) {
      assert Told(Last(a), ids[k]);
      KnownLater(a, b, ids[k]);
      LedgerKeeps(Last(a).db, Last(b).db, ApprovalExpiredEvent(ids[k], Last(a).db.approvals[ids[k]].decisionId));
    }
  }

  lemma StillTold(a: Run, b: Run, aid: Id)
    requires Legal(a) && Legal(b) && Continues(a, b) && Told(Last(a), aid)
    ensures Told(Last(b), aid) && DecisionFor(Last(b), aid) == DecisionFor(Last(a), aid)
  {
    ToldLater(a, b, [aid]);
    assert Told(Last(b), [aid][0]);
    KnownLater(a, b, aid);
  }

  lemma BookExpiryBacked(s: State, t: Tid, aid: Id) returns (next: State)
    requires Known(s, aid) && s.db.approvals[aid].status == ApprovalStatus.Expired
    ensures Leads(s, t, Act.BookExpiry(aid), next)
    ensures next == State(Append(s.db, ApprovalExpiredEvent(aid, s.db.approvals[aid].decisionId)), s.h)
    ensures Told(next, aid)
  {
    LeadsExactly(s, t, Act.BookExpiry(aid), DoBookExpiry(s, t, aid));
    next := DoBookExpiry(s, t, aid);
    assert next.db.ledger[|s.db.ledger|] == ApprovalExpiredEvent(aid, s.db.approvals[aid].decisionId);
  }

  lemma AdvanceExpiredBacked(s: State, t: Tid, aid: Id, from: RequestStatus) returns (next: State)
    requires Known(s, aid) && s.db.approvals[aid].status == ApprovalStatus.Expired
    ensures var effect := UpdateRequestStatus(s.db, DecisionFor(s, aid).requestId, from, RequestStatus.Rejected);
      effect.Some? ==> Leads(s, t, Act.AdvanceExpired(aid, from), next) && next == State(effect.value, s.h)
  {
    next := s;
    if CanAdvanceExpired(s, t, aid, from) {
      LeadsExactly(s, t, Act.AdvanceExpired(aid, from), DoAdvanceExpired(s, t, aid, from));
      next := DoAdvanceExpired(s, t, aid, from);
    }
  }

  class Cascade {
    const store: Store
    const leases: LeaseManager
    const memories: TrustManager
    const approvals: ApprovalManager

    ghost predicate Wired() {
      leases.store == store && memories.store == store && approvals.store == store
    }

    constructor (store: Store, timeout: nat)
      ensures this.store == store && Wired()
    {
      this.store := store;
      leases := new LeaseManager(store);
      memories := new TrustManager(store);
      approvals := new ApprovalManager(store, timeout);
    }

    /** One lease: written down, then revoked. */
    method RevokeOne(id: Id, ghost me: Tid) returns (r: Result<Lease>, ghost acts: seq<Act>)
      requires Wired() && store.Valid() && id in store.leases
      modifies store
      ensures store.Acted(me, acts)
      ensures r.Err? ==> acts in {[], [Act.BookRevocation(id)]}
      ensures r.Ok? ==>
        && acts == [Act.BookRevocation(id), Act.Revoke(id)]
        && id in store.leases && store.leases[id].status == Revoked && LeaseRevokedEvent(id) in store.ledger
      ensures store.alone ==>
        && (r.Ok? <==> old(store.leases)[id].status == Active)
        && (r.Ok? ==> store.leases == old(store.leases)[id := old(store.leases)[id].(status := Revoked)])
        && store.Rows() == old(store.Rows()).(leases := store.leases, ledger := store.ledger)
    {
      acts := [];
      ghost var first := store.run;
      store.Yield(me);
      ghost var mid := store.run;
      LeaseLater(first, mid, id);
      ghost var next := BookRevocationBacked(store.Cur(), me, id);
      var wrote := store.Write(LeaseRevokedEvent(id), me, Act.BookRevocation(id), next);
      if wrote.Err? { return Err(wrote.code), acts; }
      ContinuesTransitive(first, mid, store.run);
      acts := [Act.BookRevocation(id)];
      assert store.ledger[|store.ledger| - 1] == LeaseRevokedEvent(id);
      mid := store.run;
      r := leases.Revoke(id, me);
      ContinuesTransitive(first, mid, store.run);
      LaterEvolves(mid, store.run);
      LedgerKeeps(Last(mid).db, store.Rows(), LeaseRevokedEvent(id));
      Rebracket(Own(first.acts, me), acts, if r.Ok? then [Act.Revoke(id)] else []);
      if r.Ok? { acts := acts + [Act.Revoke(id)]; }
    }

    /** revokeLeasesOf, revokeSessionLeasesOf: one at a time, the ledger before the lease. */
    method RevokeEach(listed: seq<Item<Lease>>, ghost wanted: set<Id>, ghost me: Tid)
      returns (revoked: seq<Id>, failure: Option<Code>, ghost more: seq<Act>)
      requires Wired() && store.Valid() && Lists(listed, store.leases, wanted)
      requires forall id :: id in wanted ==> id in store.leases && store.leases[id].status == Active
      modifies store
      ensures store.Acted(me, RevokeActs(revoked) + more) && |more| <= 1
      ensures failure.None? ==> more == []
      ensures more != [] ==> |revoked| < |listed| && more == [Act.BookRevocation(listed[|revoked|].id)]
      ensures AllClosed(store.leases, store.ledger, revoked)
      ensures failure.None? ==> |revoked| == |listed| && forall k :: 0 <= k < |revoked| ==> revoked[k] == listed[k].id
      ensures store.alone ==> failure.None? && RevokedRows(old(store.leases), store.leases, Ids(listed))
      ensures store.alone ==> store.Rows() == old(store.Rows()).(leases := store.leases, ledger := store.ledger)
    {
      revoked, failure, more := [], None, [];
      ghost var first := store.run;
      ContinuesReflexive(first);
      for i := 0 to |listed|
        invariant store.Acted(me, RevokeActs(revoked)) && failure.None? && more == []
        invariant AllClosed(store.leases, store.ledger, revoked)
        invariant |revoked| == i && forall k :: 0 <= k < i ==> revoked[k] == listed[k].id
        invariant store.alone ==> RevokedRows(old(store.leases), store.leases, Ids(listed[..i]))
        invariant store.alone ==> store.Rows() == old(store.Rows()).(leases := store.leases, ledger := store.ledger)
      {
        var id := listed[i].id;
        ghost var mid, prior := store.run, store.leases;
        LeaseLater(first, mid, id);
        var done: Result<Lease>;
        ghost var acts: seq<Act>;
        done, acts := RevokeOne(id, me);
        ContinuesTransitive(first, mid, store.run);
        AllClosedLater(mid, store.run, revoked);
        if store.alone { RevokedOneMore(old(store.leases), prior, listed, i, wanted); }
        Rebracket(Own(first.acts, me), RevokeActs(revoked), acts);
        if done.Err? { return revoked, Some(done.code), acts; }
        RevokeActsMore(revoked, id);
        revoked := revoked + [id];
      }
      assert listed[..|listed|] == listed;
      assert RevokeActs(revoked) + [] == RevokeActs(revoked);
    }

    /** DisconnectIdentity: first the leases, then the memories, and only then the status. `found` is what
        looking up the identity gave. When it succeeds, whatever else goes on, the active leases of the
        identity that are left were all issued since it began, and there are none if nobody was poised to
        issue one by then and nobody has planned for the identity since. */
    method DisconnectIdentity(iid: Id, operationId: Id, found: Result<()>, ghost me: Tid)
      returns (r: Result<()>, revoked: seq<Id>, invalidated: seq<Id>, ghost more: seq<Act>)
      requires Wired() && store.Valid()
      modifies store
      ensures store.Acted(me, RevokeActs(revoked) + more + InvalidateActs(invalidated)
                              + (if r.Ok? then [Act.ReviewIdentity(iid)] else []))
      ensures AllClosed(store.leases, store.ledger, revoked)
      ensures more != [] ==> r.Err? && invalidated == []
      ensures r.Ok? ==> iid in store.underReview && OnlyLate(old(store.run), store.run, IdentityOf(iid))
      ensures iid == "" || operationId == "" ==> r == Err(InvalidRequest) && revoked == [] && invalidated == []
      ensures iid != "" && operationId != "" && found.Err? ==>
        r == Err(found.code) && revoked == [] && invalidated == [] && more == []
      ensures store.alone && iid != "" && operationId != "" && found.Ok? ==>
        && r.Ok? && LeasesOf(store.leases, iid) == {} && MemoriesOf(store.memories, iid) == {}
    {
      r, revoked, invalidated, more := Err(InvalidRequest), [], [], [];
      ghost var first := store.run;
      ContinuesReflexive(first);
      if iid == "" || operationId == "" { return; }
      if found.Err? { r := found; return; }
      var failure;
      failure, revoked, more := RevokeAllOf(iid, me);
      if failure.Some? { r := Err(failure.value); return; }
      ghost var mid, gone := store.run, store.run;
      invalidated, failure := memories.InvalidateForIdentity(iid, me);
      ContinuesTransitive(first, mid, store.run);
      AllClosedLater(mid, store.run, revoked);
      if store.alone { NoMemoryLeft(Last(mid).db.memories, store.memories, iid); }
      Rebracket(Own(first.acts, me), RevokeActs(revoked) + more, InvalidateActs(invalidated));
      if failure.Some? { r := Err(failure.value); return; }
      ContinuesTransitive(gone, mid, store.run);
      mid := store.run;
      r := Review(iid, me);
      ContinuesTransitive(gone, mid, store.run);
      ContinuesTransitive(first, mid, store.run);
      AllClosedLater(mid, store.run, revoked);
      GoneForGood(first, gone, store.run, IdentityOf(iid));
      LeavesOnlyLate(first, store.run, IdentityOf(iid));
      Rebracket(Own(first.acts, me), RevokeActs(revoked) + more + InvalidateActs(invalidated),
                if r.Ok? then [Act.ReviewIdentity(iid)] else []);
    }

    method RevokeAllOf(iid: Id, ghost me: Tid) returns (failure: Option<Code>, revoked: seq<Id>, ghost more: seq<Act>)
      requires Wired() && store.Valid()
      modifies store
      ensures store.Acted(me, RevokeActs(revoked) + more) && AllClosed(store.leases, store.ledger, revoked)
      ensures more != [] ==> failure.Some?
      ensures store.alone ==> failure.None? && LeasesOf(store.leases, iid) == {}
      ensures failure.None? ==> ActiveUnder(store.leases, IdentityOf(iid)) !! old(store.leases).Keys
    {
      failure, revoked, more := None, [], [];
      ghost var first := store.run;
      store.Yield(me);
      var listing := store.ActiveLeasesByIdentity(iid);
      if listing.Err? { failure := Some(listing.code); return; }
      ghost var mid, before := store.run, store.leases;
      ghost var wanted := LeasesOf(store.leases, iid);
      revoked, failure, more := RevokeEach(listing.value, wanted, me);
      ContinuesTransitive(first, mid, store.run);
      LeasesOfIdentity(before, iid);
      if failure.None? { NoneOfTheOld(first, mid, store.run, listing.value, revoked, IdentityOf(iid)); }
      if store.alone {
        ListedIds(listing.value, before, wanted);
        NoneLeft(before, store.leases, iid);
      }
    }

    method Review(iid: Id, ghost me: Tid) returns (r: Result<()>)
      requires store.Valid()
      modifies store
      ensures store.Acted(me, if r.Ok? then [Act.ReviewIdentity(iid)] else [])
      ensures r.Ok? ==> iid in store.underReview
      ensures store.alone ==> r.Ok? && store.leases == old(store.leases) && store.memories == old(store.memories)
    {
      ghost var first := store.run;
      store.Yield(me);
      ghost var mid := store.run;
      r := store.MarkForReview(iid, me);
      if r.Ok? { ContinuesTransitive(first, mid, store.run); }
    }

    /** DisconnectAgent: first the session, then the leases bound to it. When it succeeds, whatever else
        goes on, the bound leases that are left were all issued since the session had ended, and there are
        none if nobody was poised to issue one by then and nobody has planned for the agent since. */
    method DisconnectAgent(agent: Id, operationId: Id, ghost me: Tid)
      returns (r: Result<()>, revoked: seq<Id>, ghost ended: seq<Act>, ghost more: seq<Act>, ghost since: Run)
      requires Wired() && store.Valid()
      modifies store
      ensures store.Acted(me, ended + (RevokeActs(revoked) + more))
      ensures ended in {[], [Act.EndSession(agent)]} && (ended == [] ==> r.Err? && revoked == [] && more == [])
      ensures AllClosed(store.leases, store.ledger, revoked)
      ensures r.Ok? ==>
        && more == [] && agent in store.endedSessions
        && Legal(since) && agent in Last(since).db.endedSessions
        && Continues(old(store.run), since) && Continues(since, store.run)
        && OnlyLate(since, store.run, SessionOf(agent))
      ensures agent == "" || operationId == "" ==> r == Err(InvalidRequest) && ended == []
      ensures store.alone && agent != "" && operationId != "" ==>
        && r.Ok? && agent in store.endedSessions && SessionLeasesOf(store.leases, agent) == {}
    {
      r, revoked, ended, more := Err(InvalidRequest), [], [], [];
      ghost var first := store.run;
      since := first;
      ContinuesReflexive(first);
      if agent == "" || operationId == "" { return; }
      store.Yield(me);
      ghost var mid := store.run;
      var gone := store.Disconnect(agent, me);
      if gone.Err? { r := Err(gone.code); return; }
      ContinuesTransitive(first, mid, store.run);
      ended := [Act.EndSession(agent)];
      since := store.run;
      var failure;
      failure, revoked, more := RevokeSession(agent, me);
      ContinuesTransitive(first, since, store.run);
      Rebracket(Own(first.acts, me), ended, RevokeActs(revoked) + more);
      if failure.Some? { r := Err(failure.value); return; }
      LaterEvolves(since, store.run);
      LeavesOnlyLate(since, store.run, SessionOf(agent));
      r := Ok(());
    }

    method RevokeSession(agent: Id, ghost me: Tid)
      returns (failure: Option<Code>, revoked: seq<Id>, ghost more: seq<Act>)
      requires Wired() && store.Valid()
      modifies store
      ensures store.Acted(me, RevokeActs(revoked) + more) && AllClosed(store.leases, store.ledger, revoked)
      ensures more != [] ==> failure.Some?
      ensures store.alone ==> failure.None? && SessionLeasesOf(store.leases, agent) == {}
      ensures failure.None? ==> ActiveUnder(store.leases, SessionOf(agent)) !! old(store.leases).Keys
      ensures store.alone ==> store.endedSessions == old(store.endedSessions)
    {
      failure, revoked, more := None, [], [];
      ghost var first := store.run;
      store.Yield(me);
      var listing := store.SessionLeasesByAgent(agent);
      if listing.Err? { failure := Some(listing.code); return; }
      ghost var mid, before := store.run, store.leases;
      ghost var wanted := SessionLeasesOf(store.leases, agent);
      revoked, failure, more := RevokeEach(listing.value, wanted, me);
      ContinuesTransitive(first, mid, store.run);
      LeasesOfSession(before, agent);
      if failure.None? { NoneOfTheOld(first, mid, store.run, listing.value, revoked, SessionOf(agent)); }
      if store.alone {
        ListedIds(listing.value, before, wanted);
        NoSessionLeft(before, store.leases, agent);
      }
    }

    // ----- ExpireApprovals -----

    /** ExpireApprovals closes the whole batch first and then writes it down item by item, stopping at
        the first failure: what it has counted is on the ledger, and it never issues anything. Alone it
        closes, writes down and sets aside exactly what was pending and due. */
    method ExpireApprovals(ghost me: Tid)
      returns (closed: nat, failure: Option<Code>, ghost expired: seq<Id>, ghost acts: seq<Act>)
      requires Wired() && store.Valid()
      modifies store
      ensures store.Acted(me, acts) && ExpiryActs(acts)
      ensures closed <= |expired| && forall k :: 0 <= k < closed ==> Told(store.Cur(), expired[k])
      ensures failure.None? ==> closed == |expired|
      ensures store.alone ==>
        && failure.None? && (forall a :: a in expired <==> a in DuePending(old(store.approvals), old(store.now)))
        && forall k :: 0 <= k < |expired| ==> Turned(store.Cur(), expired[k])
    {
      closed, failure := 0, None;
      ghost var first := store.run;
      var batch: seq<Id>;
      ghost var at: Instant;
      batch, failure, at := approvals.Expire(me);
      expired, acts := batch, ExpireActs(batch, at);
      ClosingIsExpiry(batch, at);
      if failure.Some? { return; }
      ghost var mid := store.run;
      ghost var more: seq<Act>;
      closed, failure, more := TellEach(batch, me);
      ContinuesTransitive(first, mid, store.run);
      Rebracket(Own(first.acts, me), acts, more);
      acts := acts + more;
    }

    /** The loop over the closed batch. */
    method TellEach(batch: seq<Id>, ghost me: Tid) returns (closed: nat, failure: Option<Code>, ghost acts: seq<Act>)
      requires store.Valid() && forall k :: 0 <= k < |batch| ==> ExpiredRow(store.approvals, batch[k])
      modifies store
      ensures store.Acted(me, acts) && ExpiryActs(acts)
      ensures closed <= |batch| && forall k :: 0 <= k < closed ==> Told(store.Cur(), batch[k])
      ensures failure.None? ==> closed == |batch|
      ensures store.alone ==> failure.None? && AllTurned(store.Cur(), batch)
    {
      closed, failure, acts := 0, None, [];
      ghost var first := store.run;
      ContinuesReflexive(first);
      assert batch[..0] == [];
      while closed < |batch|
        invariant closed <= |batch| && failure.None?
        invariant store.Acted(me, acts) && ExpiryActs(acts)
        invariant forall k :: 0 <= k < |batch| ==> ExpiredRow(store.approvals, batch[k])
        invariant forall k :: 0 <= k < closed ==> Told(store.Cur(), batch[..closed][k])
        invariant store.alone ==> AllTurned(store.Cur(), batch[..closed])
      {
        var aid := batch[closed];
        ghost var mid := store.run;
        RunInv(mid, |mid.acts|);
        EveryApprovalReadable(Last(mid), aid);
        var told: Result<()>;
        ghost var more: seq<Act>;
        told, more := Tell(aid, me);
        ContinuesTransitive(first, mid, store.run);
        ToldLater(mid, store.run, batch[..closed]);
        StillExpired(mid, store.run, batch);
        Rebracket(Own(first.acts, me), acts, more);
        acts := acts + more;
        if told.Err? {
          assert forall k :: 0 <= k < closed ==> Told(store.Cur(), batch[..closed][k]);
          failure := Some(told.code);
          return;
        }
        assert batch[..closed + 1] == batch[..closed] + [aid];
        if store.alone { TurnedOneMore(Last(mid), store.Cur(), batch[..closed], aid); }
        closed := closed + 1;
      }
      assert batch[..closed] == batch;
    }

    /** One expired approval: the reads, the entry, the status of its request. */
    method Tell(aid: Id, ghost me: Tid) returns (r: Result<()>, ghost acts: seq<Act>)
      requires store.Valid() && ExpiredRow(store.approvals, aid)
      modifies store
      ensures store.Acted(me, acts) && ExpiryActs(acts)
      ensures r.Ok? ==> Told(store.Cur(), aid)
      ensures store.alone && Readable(old(store.Cur()), aid) ==>
        && r.Ok? && store.Rows() ==
           old(store.Rows()).(requests := RejectedAt(old(store.requests), old(DecisionFor(store.Cur(), aid)).requestId),
                              ledger := store.ledger)
    {
      acts := [];
      ghost var first := store.run;
      ContinuesReflexive(first);
      RunInv(first, |first.acts|);
      ApprovalKnown(store.Cur(), aid);
      var did := store.approvals[aid].decisionId;
      store.Yield(me);
      KnownLater(first, store.run, aid);
      var record := store.DecisionById(did);
      if record.Err? { return Err(record.code), acts; }
      ghost var mid := store.run;
      store.Yield(me);
      ContinuesTransitive(first, mid, store.run);
      KnownLater(first, store.run, aid);
      var request := store.RequestById(record.value.requestId);
      if request.Err? { return Err(request.code), acts; }
      if !Validates(record.value.scope) { return Err(InvalidRequest), acts; }
      mid := store.run;
      r, acts := TellRead(aid, record.value.requestId, request.value.status, me);
      ContinuesTransitive(first, mid, store.run);
    }

    method TellRead(aid: Id, rid: Id, from: RequestStatus, ghost me: Tid) returns (r: Result<()>, ghost acts: seq<Act>)
      requires store.Valid() && ExpiredRow(store.approvals, aid) && Known(store.Cur(), aid)
      requires DecisionFor(store.Cur(), aid).requestId == rid
      modifies store
      ensures store.Acted(me, acts) && ExpiryActs(acts)
      ensures r.Ok? ==> Told(store.Cur(), aid)
      ensures store.alone && old(store.requests)[rid].status == from ==>
        && r.Ok? && store.Rows() ==
           old(store.Rows()).(requests := RejectedAt(old(store.requests), rid), ledger := store.ledger)
    {
      acts := [];
      ghost var first := store.run;
      ContinuesReflexive(first);
      store.Yield(me);
      KnownLater(first, store.run, aid);
      ghost var mid := store.run;
      ghost var next := BookExpiryBacked(store.Cur(), me, aid);
      var event := ApprovalExpiredEvent(aid, store.approvals[aid].decisionId);
      var wrote := store.Write(event, me, Act.BookExpiry(aid), next);
      if wrote.Err? { return Err(wrote.code), acts; }
      ContinuesTransitive(first, mid, store.run);
      acts := [Act.BookExpiry(aid)];
      mid := store.run;
      KnownLater(first, mid, aid);
      r := AdvanceRejected(aid, rid, from, me);
      ContinuesTransitive(first, mid, store.run);
      Rebracket(Own(first.acts, me), acts, if r.Ok? then [Act.AdvanceExpired(aid, from)] else []);
      if r.Ok? { acts := acts + [Act.AdvanceExpired(aid, from)]; }
    }

    /** advance, for the request of an expired approval that is on the ledger. */
    method AdvanceRejected(aid: Id, rid: Id, from: RequestStatus, ghost me: Tid) returns (r: Result<()>)
      requires store.Valid() && Told(store.Cur(), aid) && DecisionFor(store.Cur(), aid).requestId == rid
      modifies store
      ensures store.Acted(me, if r.Ok? then [Act.AdvanceExpired(aid, from)] else [])
      ensures Told(store.Cur(), aid)
      ensures store.alone && rid in old(store.requests) && old(store.requests)[rid].status == from ==>
        r.Ok? && store.Rows() == old(store.Rows()).(requests := RejectedAt(old(store.requests), rid))
    {
      ghost var first := store.run;
      store.Yield(me);
      StillTold(first, store.run, aid);
      ghost var mid := store.run;
      ghost var next := AdvanceExpiredBacked(store.Cur(), me, aid, from);
      var advanced := store.AdvanceRequest(rid, from, RequestStatus.Rejected, me, Act.AdvanceExpired(aid, from), next);
      if advanced.Err? { return Err(advanced.code); }
      ContinuesTransitive(first, mid, store.run);
      StillTold(mid, store.run, aid);
      return Ok(());
    }
  }
}
