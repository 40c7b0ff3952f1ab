/**
 approval.Manager (internal/core/approval/manager.go): open an item once per decision, settle it
 once, replay the same choice, expire what nobody answered.
 */
module Approving {
  import opened Results
  import opened Scopes
  import opened Tables
  import opened Protocol
  import opened Invariants
  import opened Stability
  import opened Guarantees
  import opened Stores
  import opened Leasing
  import D = Decisions

  /** `choice` is None for an action text the table does not know. */
  datatype SettleRequest = SettleRequest(
    approvalId: Id, choice: Option<Action>, riskLevel: Level, strongAuthCompleted: bool,
    requirement: D.Requirement, requiredConfirmations: int, confirmations: int)

  datatype Settlement = Settlement(
    approval: Approval, allowed: bool, requestLimit: nat, sessionBound: bool,
    learn: Option<Behavior>, replayed: bool)

  function CheckSettle(request: SettleRequest): (r: Result<Action>)
    ensures r.Ok? ==> request.choice == Some(r.value) && Offered(request.riskLevel, r.value)
    ensures r.Ok? && Allows(r.value) ==>
      && (request.requirement == D.StrongAuth ==> request.strongAuthCompleted)
      && request.confirmations >= request.requiredConfirmations && request.confirmations >= 1
  {
    if request.choice.None? then Err(InvalidRequest)
    else if !Offered(request.riskLevel, request.choice.value) then Err(Forbidden)
    else if !Allows(request.choice.value) then Ok(request.choice.value)
    else if request.requirement == D.StrongAuth && !request.strongAuthCompleted then Err(Unauthenticated)
    else if request.confirmations < (if request.requiredConfirmations < 1 then 1 else request.requiredConfirmations)
    then Err(InvalidRequest)
    else Ok(request.choice.value)
  }

  function Consequence(action: Action, approval: Approval, replayed: bool): Settlement {
    Settlement(approval, Allows(action), LimitOf(action), SessionBound(action), LearnOf(action), replayed)
  }

  /** No approval was opened on this decision. */
  ghost predicate NoApprovalOn(approvals: map<Id, Approval>, did: Id) {
    forall a :: a in approvals ==> approvals[a].decisionId != did
  }

  // ----- Backing -----

  lemma ReviewBacked(s: State, t: Tid, aid: Id, action: Action, from: RequestStatus) returns (next: State)
    requires Thr(s, t).pc.Idle? && Known(s, aid) && Offered(DecisionFor(s, aid).riskLevel, action)
    ensures Leads(s, t, Review(aid, action, from), next) && next.db == s.db && next.h.lessons == s.h.lessons
    ensures Thr(next, t) == Thread(Reviewing(aid, action, from), Thr(s, t).meter)
  {
    LeadsExactly(s, t, Act.Review(aid, action, from), DoReview(s, t, aid, action, from));
    next := DoReview(s, t, aid, action, from);
  }

  lemma WinBacked(s: State, t: Tid, at: Instant) returns (next: State)
    requires Thr(s, t).pc.Reviewing? && at <= s.db.now
    ensures var pc := Thr(s, t).pc;
      var effect := UpdateApproval(s.db, pc.approvalId, pc.action, StatusFor(pc.action), Stored(at));
      effect.Some? ==>
        && Leads(s, t, SettleWin(at), next) && next.db == effect.value && next.h.lessons == s.h.lessons
        && Thr(next, t) == Thread(Won(pc.approvalId, pc.action, pc.from), Thr(s, t).meter)
  {
    next := s;
    if CanSettleWin(s, t, at) {
      LeadsExactly(s, t, Act.SettleWin(at), DoSettleWin(s, t, at));
      next := DoSettleWin(s, t, at);
    }
  }

  lemma OpenBacked(s: State, t: Tid, aid: Id, deadline: int) returns (next: State)
    requires Thr(s, t).pc.Noted? && Thr(s, t).pc.outcome.verdict == D.RequireApproval && aid != ""
    ensures var pc := Thr(s, t).pc;
      var effect := InsertApproval(s.db, aid, Approval(pc.decisionId, None, Pending, deadline, None));
      effect.Some? ==>
        && Leads(s, t, OpenApproval(aid, deadline), next) && next.db == effect.value
        && next.h.lessons == s.h.lessons
        && Thr(next, t) == Thread(Asked(pc.requestId, pc.decisionId), Thr(s, t).meter)
  {
    next := s;
    if CanOpenApproval(s, t, aid, deadline) {
      LeadsExactly(s, t, Act.OpenApproval(aid, deadline), DoOpenApproval(s, t, aid, deadline));
      next := DoOpenApproval(s, t, aid, deadline);
    }
  }

  lemma FindBacked(s: State, t: Tid, aid: Id) returns (next: State)
    requires Thr(s, t).pc.Noted? && Thr(s, t).pc.outcome.verdict == D.RequireApproval
    requires aid in s.db.approvals && s.db.approvals[aid].decisionId == Thr(s, t).pc.decisionId
    ensures Leads(s, t, FindApproval(aid), next) && next.db == s.db && next.h.lessons == s.h.lessons
    ensures Thr(next, t) == Thread(Asked(Thr(s, t).pc.requestId, Thr(s, t).pc.decisionId), Thr(s, t).meter)
  {
    LeadsExactly(s, t, Act.FindApproval(aid), DoFindApproval(s, t, aid));
    next := DoFindApproval(s, t, aid);
  }

  lemma ExpireBacked(s: State, t: Tid, aid: Id, at: Instant) returns (next: State)
    requires at <= s.db.now && aid in s.db.approvals && s.db.approvals[aid].expiresAt <= Stored(at)
    ensures var effect := UpdateApproval(s.db, aid, Deny, ApprovalStatus.Expired, Stored(at));
      effect.Some? ==> Leads(s, t, ExpireApproval(aid, at), next) && next == State(effect.value, s.h)
  {
    next := s;
    if CanExpireApproval(s, t, aid, at) {
      LeadsExactly(s, t, Act.ExpireApproval(aid, at), DoExpireApproval(s, t, aid, at));
      next := DoExpireApproval(s, t, aid, at);
    }
  }

  lemma KnownLater(a: Run, b: Run, aid: Id)
    requires Legal(a) && Legal(b) && Continues(a, b) && Known(Last(a), aid)
    ensures Known(Last(b), aid) && DecisionFor(Last(b), aid) == DecisionFor(Last(a), aid)
    ensures Last(b).db.approvals[aid].decisionId == Last(a).db.approvals[aid].decisionId
    ensures Last(b).db.approvals[aid].expiresAt == Last(a).db.approvals[aid].expiresAt
    ensures Last(a).db.now <= Last(b).db.now
    ensures Last(a).db.approvals[aid].status != Pending ==> Last(b).db.approvals[aid] == Last(a).db.approvals[aid]
  {
    LaterEvolves(a, b);
    KnownStays(Last(a), Last(b), aid);
    assert ApprovalEvolves(Last(a).db.approvals[aid], Last(b).db.approvals[aid]);
  }

  /** Every approval leads to its decision and its request. */
  lemma ApprovalKnown(s: State, aid: Id)
    requires Inv(s) && aid in s.db.approvals
    ensures Known(s, aid) && aid != ""
  {
    InvApproval(s, aid);
    InvDecision(s, s.db.approvals[aid].decisionId);
  }

  /** An approval that carries a person's action was settled the way that action says. */
  lemma SettledAs(s: State, aid: Id, action: Action)
    requires Inv(s) && aid in s.db.approvals
    requires s.db.approvals[aid].action == Some(action) && s.db.approvals[aid].status != ApprovalStatus.Expired
    ensures s.db.approvals[aid].status == StatusFor(action)
  {
    InvApproval(s, aid);
  }

  /** How far Settle got once its checks passed. */
  ghost predicate SettleActs(acts: seq<Act>, aid: Id, action: Action, from: RequestStatus, r: Result<Settlement>) {
    var review := Review(aid, action, from);
    if r.Ok? && !r.value.replayed then exists at :: acts == [review, SettleWin(at)] else acts == [review]
  }

  function ExpireActs(expired: seq<Id>, at: Instant): seq<Act> {
    if expired == [] then []
    else ExpireActs(expired[..|expired| - 1], at) + [ExpireApproval(expired[|expired| - 1], at)]
  }

  lemma ExpireActsMore(expired: seq<Id>, aid: Id, at: Instant)
    ensures ExpireActs(expired + [aid], at) == ExpireActs(expired, at) + [ExpireApproval(aid, at)]
  {
    assert (expired + [aid])[..|expired|] == expired;
  }

  predicate ExpiredRow(approvals: map<Id, Approval>, aid: Id) {
    aid in approvals && approvals[aid].status == ApprovalStatus.Expired && approvals[aid].action == Some(Deny)
  }

  /** What has expired stays expired. */
  lemma StillExpired(a: Run, b: Run, expired: seq<Id>)
    requires Legal(a) && Legal(b) && Continues(a, b)
    requires forall k :: 0 <= k < |expired| ==> ExpiredRow(Last(a).db.approvals, expired[k])
    ensures forall k :: 0 <= k < |expired| ==> ExpiredRow(Last(b).db.approvals, expired[k])
  {
    LaterEvolves(a, b);
    forall k | 0 <= k < |expired| ensures ExpiredRow(Last(b).db.approvals, expired[k]) {
      assert ExpiredRow(Last(a).db.approvals, expired[k]);
      assert ApprovalEvolves(Last(a).db.approvals[expired[k]], Last(b).db.approvals[expired[k]]);
    }
  }

  // ----- Closing a listing -----

  function DuePending(approvals: map<Id, Approval>, at: Instant): set<Id> {
    set a | a in approvals && approvals[a].status == Pending && approvals[a].expiresAt <= Stored(at)
  }

  function ClosedRow(row: Approval, at: Instant): Approval {
    row.(action := Some(Deny), status := ApprovalStatus.Expired, decidedAt := Some(Stored(at)))
  }

  /** Exactly these approvals were closed at `at`. */
  ghost predicate Lapsed(before: map<Id, Approval>, after: map<Id, Approval>, ids: set<Id>, at: Instant) {
    && after.Keys == before.Keys
    && forall a :: a in before ==> after[a] == if a in ids then ClosedRow(before[a], at) else before[a]
  }

  lemma MemberIds(due: seq<Item<Approval>>, ids: seq<Id>)
    requires |ids| <= |due| && forall k :: 0 <= k < |ids| ==> ids[k] == due[k].id
    ensures |ids| == |due| ==> forall a :: a in ids <==> a in Ids(due)
  {
    if |ids| == |due| {
      forall a | a in Ids(due) ensures a in ids {
        var k :| 0 <= k < |due| && due[k].id == a;
        assert ids[k] == a;
      }
    }
  }

  lemma LapsedOneMore(
    before: map<Id, Approval>, prior: map<Id, Approval>, due: seq<Item<Approval>>, i: nat, wanted: set<Id>, at: Instant)
    requires i < |due| && Lists(due, before, wanted) && Lapsed(before, prior, Ids(due[..i]), at)
    ensures var id := due[i].id;
      && id in prior && prior[id] == before[id]
      && Lapsed(before, prior[id := ClosedRow(prior[id], at)], Ids(due[..i + 1]), at)
  {
    assert due[i].id !in Ids(due[..i]);
    IdsMore(due, i);
  }

  class ApprovalManager {
    const store: Store
    const timeout: nat

    constructor (store: Store, timeout: nat)
      ensures this.store == store && this.timeout == timeout
    {
      this.store := store;
      this.timeout := timeout;
    }

    /** Open returns the approval that already stands for the decision, or creates the one. */
    method Open(did: Id, ghost me: Tid) returns (r: Result<Id>, ghost acts: seq<Act>)
      requires store.Valid() && Thr(store.Cur(), me).pc.Noted?
      requires Thr(store.Cur(), me).pc.outcome.verdict == D.RequireApproval
      requires did == Thr(store.Cur(), me).pc.decisionId
      modifies store
      ensures store.Acted(me, acts)
      ensures r.Err? ==> acts == [] && Thr(store.Cur(), me) == Thr(old(store.Cur()), me)
      ensures store.alone && did != "" ==>
        && r.Ok? && store.Rows() == old(store.Rows()).(approvals := store.approvals)
        && store.approvals ==
           (if NoApprovalOn(old(store.approvals), did)
            then old(store.approvals)[r.value := Approval(did, None, Pending, Stored(old(store.now) + timeout), None)]
            else old(store.approvals))
      ensures r.Ok? ==>
        && r.value in store.approvals && store.approvals[r.value].decisionId == did
        && (acts == [FindApproval(r.value)] || exists deadline :: acts == [OpenApproval(r.value, deadline)])
        && Thr(store.Cur(), me) ==
           Thread(Asked(Thr(old(store.Cur()), me).pc.requestId, did), Thr(old(store.Cur()), me).meter)
    {
      acts := [];
      ghost var first := store.run;
      ContinuesReflexive(first);
      if did == "" { return Err(InvalidRequest), acts; }
      store.Yield(me);
      var existing := store.ApprovalByDecision(did);
      if existing.Ok? {
        ghost var mid := store.run;
        ghost var next := FindBacked(store.Cur(), me, existing.value);
        store.Note(me, FindApproval(existing.value), next);
        ContinuesTransitive(first, mid, store.run);
        return existing, [FindApproval(existing.value)];
      }
      if existing.code != NotFound { return existing, acts; }
      var at := store.now;
      ghost var mid := store.run;
      store.Yield(me);
      ContinuesTransitive(first, mid, store.run);
      r, acts := Create(did, at, me, first);
    }

    /** The insertion; the UNIQUE index on the decision turns a second one into a conflict. */
    method Create(did: Id, at: Instant, ghost me: Tid, ghost first: Run) returns (r: Result<Id>, ghost acts: seq<Act>)
      requires store.Valid() && Thr(store.Cur(), me).pc.Noted?
      requires Thr(store.Cur(), me).pc.outcome.verdict == D.RequireApproval
      requires did == Thr(store.Cur(), me).pc.decisionId && Continues(first, store.run)
      modifies store
      ensures store.Acted(me, acts) && Continues(first, store.run)
      ensures r.Err? ==> acts == [] && Thr(store.Cur(), me) == Thr(old(store.Cur()), me)
      ensures store.alone && NoApprovalOn(old(store.approvals), did) ==>
        && r.Ok? && store.Rows() == old(store.Rows()).(approvals := store.approvals)
        && store.approvals ==
           old(store.approvals)[r.value := Approval(did, None, Pending, Stored(at + timeout), None)]
      ensures r.Ok? ==>
        && r.value in store.approvals && store.approvals[r.value].decisionId == did
        && acts == [OpenApproval(r.value, Stored(at + timeout))]
        && Thr(store.Cur(), me) ==
           Thread(Asked(Thr(old(store.Cur()), me).pc.requestId, did), Thr(old(store.Cur()), me).meter)
    {
      ghost var before := store.run;
      ContinuesReflexive(before);
      var aid := store.NewId();
      var deadline := Stored(at + timeout);
      ghost var next := OpenBacked(store.Cur(), me, aid, deadline);
      var done := store.CreateApproval(
        aid, Approval(did, None, Pending, deadline, None), me, OpenApproval(aid, deadline), next);
      if done.Err? { return Err(done.code), []; }
      ContinuesTransitive(first, before, store.run);
      return Ok(aid), [OpenApproval(aid, deadline)];
    }

    /** Settle: the conditional update decides who settles; whoever loses may only replay the same
        choice. On success the thread either won or the approval already carries the same action. */
    method Settle(request: SettleRequest, ghost from: RequestStatus, ghost me: Tid)
      returns (r: Result<Settlement>, ghost acts: seq<Act>)
      requires store.Valid() && Thr(store.Cur(), me).pc.Idle? && Known(store.Cur(), request.approvalId)
      requires request.riskLevel == DecisionFor(store.Cur(), request.approvalId).riskLevel
      modifies store
      ensures store.Acted(me, acts)
      ensures CheckSettle(request).Err? ==> acts == [] && r == Err(CheckSettle(request).code)
      ensures CheckSettle(request).Ok? ==>
        var aid, action := request.approvalId, CheckSettle(request).value;
        && SettleActs(acts, aid, action, from, r)
        && (r.Ok? ==>
              && aid in store.approvals && store.approvals[aid] == r.value.approval
              && r.value.approval.action == Some(action) && r.value.approval.status == StatusFor(action)
              && r.value == Consequence(action, r.value.approval, r.value.replayed)
              && (!r.value.replayed ==>
                    Thr(store.Cur(), me) == Thread(Won(aid, action, from), Thr(old(store.Cur()), me).meter)))
        && (store.alone ==>
              var was := old(store.approvals)[aid];
              && (r.Ok? <==> || was.status == Pending
                             || (was.action == Some(action) && was.status != ApprovalStatus.Expired))
              && (r.Ok? ==> (r.value.replayed <==> was.status != Pending))
              && (r.Err? ==> r.code == Conflict))
      ensures store.alone ==>
        && store.Rows() == old(store.Rows()).(approvals := store.approvals)
        && (r.Err? || r.value.replayed ==> store.approvals == old(store.approvals))
    {
      acts := [];
      ghost var first := store.run;
      ContinuesReflexive(first);
      var checked := CheckSettle(request);
      if checked.Err? { return Err(checked.code), acts; }
      var aid, action := request.approvalId, checked.value;
      ghost var next := ReviewBacked(store.Cur(), me, aid, action, from);
      store.Note(me, Review(aid, action, from), next);
      acts := [Review(aid, action, from)];
      var at := store.now;
      ghost var mid := store.run;
      store.Yield(me);
      ContinuesTransitive(first, mid, store.run);
      mid := store.run;
      var won: Result<Approval>;
      won := Attempt(aid, action, at, me);
      if won.Ok? {
        ContinuesTransitive(first, mid, store.run);
        return Ok(Consequence(action, won.value, false)), acts + [SettleWin(at)];
      }
      if won.code != Conflict { return Err(won.code), acts; }
      r := Replay(aid, action, me);
      ContinuesTransitive(first, mid, store.run);
    }

    /** The conditional update of a pending approval. */
    method Attempt(aid: Id, action: Action, at: Instant, ghost me: Tid) returns (r: Result<Approval>)
      requires store.Valid() && Thr(store.Cur(), me).pc.Reviewing? && at <= store.now
      requires Thr(store.Cur(), me).pc.approvalId == aid && Thr(store.Cur(), me).pc.action == action
      modifies store
      ensures store.Acted(me, if r.Ok? then [SettleWin(at)] else [])
      ensures r.Err? ==> store.run == old(store.run)
      ensures store.alone ==> (r.Ok? <==> aid in old(store.approvals) && old(store.approvals)[aid].status == Pending)
      ensures store.alone && r.Err? ==> r.code == Conflict && store.Rows() == old(store.Rows())
      ensures store.alone ==> store.Rows() == old(store.Rows()).(approvals := store.approvals)
      ensures r.Ok? ==>
        && aid in store.approvals && store.approvals[aid] == r.value
        && r.value.action == Some(action) && r.value.status == StatusFor(action)
        && Thr(store.Cur(), me) ==
           Thread(Won(aid, action, Thr(old(store.Cur()), me).pc.from), Thr(old(store.Cur()), me).meter)
    {
      ContinuesReflexive(store.run);
      ghost var next := WinBacked(store.Cur(), me, at);
      r := store.SettleApproval(aid, action, StatusFor(action), at, me, SettleWin(at), next);
    }

    /** Somebody settled it before: the same action is replayed, anything else is a conflict. */
    method Replay(aid: Id, action: Action, ghost me: Tid) returns (r: Result<Settlement>)
      requires store.Valid()
      modifies store
      ensures store.Acted(me, []) && Thr(store.Cur(), me) == Thr(old(store.Cur()), me)
      ensures store.alone ==> store.Rows() == old(store.Rows())
      ensures store.alone && aid in old(store.approvals) ==>
        var was := old(store.approvals)[aid];
        && (r.Ok? <==> was.action == Some(action) && was.status != ApprovalStatus.Expired)
        && (r.Err? ==> r.code == Conflict)
      ensures r.Ok? ==>
        && aid in store.approvals && store.approvals[aid] == r.value.approval
        && r.value.approval.action == Some(action) && r.value.approval.status == StatusFor(action)
        && r.value == Consequence(action, r.value.approval, true)
    {
      store.Yield(me);
      var settled :- store.ApprovalById(aid);
      if settled.action != Some(action) || settled.status == ApprovalStatus.Expired { return Err(Conflict); }
      RunInv(store.run, |store.run.acts|);
      SettledAs(store.Cur(), aid, action);
      return Ok(Consequence(action, settled, true));
    }

    /** Expire closes what is due, one approval at a time, and stops at the first failure; it never
        returns anything to issue from. Alone it closes exactly the pending approvals that are due. */
    method Expire(ghost me: Tid) returns (expired: seq<Id>, failure: Option<Code>, ghost at: Instant)
      requires store.Valid()
      modifies store
      ensures store.Acted(me, ExpireActs(expired, at)) && old(store.now) <= at
      ensures Thr(store.Cur(), me) == Thr(old(store.Cur()), me)
      ensures forall k :: 0 <= k < |expired| ==> ExpiredRow(store.approvals, expired[k])
      ensures store.alone ==>
        && failure.None? && (forall a :: a in expired <==> a in DuePending(old(store.approvals), at))
        && Lapsed(old(store.approvals), store.approvals, DuePending(old(store.approvals), at), at)
        && at == old(store.now) && store.Rows() == old(store.Rows()).(approvals := store.approvals)
    {
      expired, failure := [], None;
      ghost var first := store.run;
      ContinuesReflexive(first);
      var now := store.now;
      at := now;
      assert store.Acted(me, ExpireActs([], at));
      store.Yield(me);
      var listing := store.ApprovalsDueBefore(now);
      if listing.Err? { return expired, Some(listing.code), at; }
      var due := listing.value;
      ListedIds(due, store.approvals, DuePending(store.approvals, now));
      ghost var mid := store.run;
      expired, failure := CloseEach(due, now, me);
      ContinuesTransitive(first, mid, store.run);
      MemberIds(due, expired);
    }

    /** The loop of Expire. */
    method CloseEach(due: seq<Item<Approval>>, at: Instant, ghost me: Tid)
      returns (expired: seq<Id>, failure: Option<Code>)
      requires store.Valid() && at <= store.now && Lists(due, store.approvals, DuePending(store.approvals, at))
      modifies store
      ensures store.Acted(me, ExpireActs(expired, at))
      ensures Thr(store.Cur(), me) == Thr(old(store.Cur()), me)
      ensures forall k :: 0 <= k < |expired| ==> ExpiredRow(store.approvals, expired[k])
      ensures |expired| <= |due| && forall k :: 0 <= k < |expired| ==> expired[k] == due[k].id
      ensures store.alone ==>
        && failure.None? && |expired| == |due| && Lapsed(old(store.approvals), store.approvals, Ids(due), at)
        && store.Rows() == old(store.Rows()).(approvals := store.approvals)
    {
      expired, failure := [], None;
      ghost var listed := store.run;
      ContinuesReflexive(listed);
      RunInv(listed, |listed.acts|);
      for i := 0 to |due|
        invariant store.Acted(me, ExpireActs(expired, at)) && failure.None? && at <= store.now
        invariant Thr(store.Cur(), me) == Thr(old(store.Cur()), me)
        invariant |expired| == i && forall k :: 0 <= k < i ==> expired[k] == due[k].id
        invariant forall k :: 0 <= k < |expired| ==> ExpiredRow(store.approvals, expired[k])
        invariant store.alone ==>
          && Lapsed(old(store.approvals), store.approvals, Ids(due[..i]), at)
          && store.Rows() == old(store.Rows()).(approvals := store.approvals)
      {
        var aid := due[i].id;
        ghost var mid, prior := store.run, store.approvals;
        ApprovalKnown(Last(listed), aid);
        var done := CloseDue(aid, at, listed, me);
        ContinuesTransitive(listed, mid, store.run);
        StillExpired(mid, store.run, expired);
        if store.alone { LapsedOneMore(old(store.approvals), prior, due, i, DuePending(old(store.approvals), at), at); }
        if done.Err? { return expired, Some(done.code); }
        ExpireActsMore(expired, aid, at);
        expired := expired + [aid];
      }
      assert due[..|due|] == due;
    }

    /** One approval of the listing. */
    method CloseDue(aid: Id, at: Instant, ghost listed: Run, ghost me: Tid) returns (r: Result<Approval>)
      requires store.Valid() && at <= store.now && Legal(listed) && Continues(listed, store.run)
      requires Known(Last(listed), aid) && Last(listed).db.approvals[aid].expiresAt <= Stored(at)
      modifies store
      ensures store.Acted(me, if r.Ok? then [ExpireApproval(aid, at)] else [])
      ensures Continues(listed, store.run) && at <= store.now
      ensures Thr(store.Cur(), me) == Thr(old(store.Cur()), me)
      ensures r.Ok? ==> ExpiredRow(store.approvals, aid)
      ensures store.alone ==>
        && (r.Ok? <==> aid in old(store.approvals) && old(store.approvals)[aid].status == Pending)
        && (r.Ok? ==> store.approvals == old(store.approvals)[aid := ClosedRow(old(store.approvals)[aid], at)])
        && store.Rows() == old(store.Rows()).(approvals := store.approvals)
    {
      ghost var first := store.run;
      store.Yield(me);
      ghost var mid := store.run;
      ContinuesTransitive(listed, first, mid);
      KnownLater(listed, mid, aid);
      ghost var next := ExpireBacked(store.Cur(), me, aid, at);
      r := store.SettleApproval(aid, Deny, ApprovalStatus.Expired, at, me, ExpireApproval(aid, at), next);
      ContinuesReflexive(store.run);
      if r.Ok? {
        ContinuesTransitive(first, mid, store.run);
        ContinuesTransitive(listed, mid, store.run);
      }
    }
  }
}
