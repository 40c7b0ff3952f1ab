/**
 The store the managers share: the tables as fields, one method per statement of
 internal/store/queries, and a ghost record of the run so far.

 A statement is atomic. Between two statements of one thread the others may run: that is Yield.
 Any statement may fail for reasons of its own, unless the store is used by one thread alone and
 without faults (`alone`), which is how the exact sequential results are stated.
 */
module Stores {
  import opened Results
  import opened Scopes
  import opened Tables
  import opened Protocol
  import opened Invariants
  import opened Stability
  import opened Guarantees
  import D = Decisions

  // ----- Listings -----

  datatype Item<T> = Item(id: Id, row: T)

  /** Every wanted row, once, as it stood when it was read. */
  ghost predicate Lists<T>(items: seq<Item<T>>, rows: map<Id, T>, wanted: set<Id>) {
    && (forall k :: 0 <= k < |items| ==>
          items[k].id in wanted && items[k].id in rows && items[k].row == rows[items[k].id])
    && (forall id :: id in wanted ==> exists k :: 0 <= k < |items| && items[k].id == id)
    && (forall j, k :: 0 <= j < k < |items| ==> items[j].id != items[k].id)
  }

  method Enumerate<T>(rows: map<Id, T>, wanted: set<Id>) returns (items: seq<Item<T>>)
    requires wanted <= rows.Keys
    ensures Lists(items, rows, wanted)
  {
    items := [];
    var rest := wanted;
    while rest != {}
      invariant rest <= wanted
      invariant Lists(items, rows, wanted - rest)
      decreases |rest|
    {
      ghost var before, left := items, rest;
      var id :| id in rest;
      items := items + [Item(id, rows[id])];
      rest := rest - {id};
      assert forall k :: 0 <= k < |before| ==> items[k] == before[k];
      forall x | x in wanted - rest ensures exists k :: 0 <= k < |items| && items[k].id == x {
        if x == id {
          assert items[|before|].id == x;
        } else {
          assert x in wanted - left;
          var k :| 0 <= k < |before| && before[k].id == x;
          assert items[k].id == x;
        }
      }
    }
    assert wanted - rest == wanted;
  }

  lemma Rebracket(a: seq<Act>, b: seq<Act>, c: seq<Act>)
    ensures (a + b) + c == a + (b + c)
  {
  }

  /** What is in one run stays in every run that continues it. */
  lemma LaterEvolves(a: Run, b: Run)
    requires Legal(a) && Legal(b) && Continues(a, b)
    ensures Evolves(Last(a), Last(b))
  {
    assert Repeats(a, b, |a.acts|);
    RunEvolves(b, |a.acts|, |b.acts|);
  }

  function LeasesOf(rows: map<Id, Lease>, iid: Id): set<Id> {
    set l | l in rows && rows[l].status == Active && rows[l].identityId == iid
  }

  function SessionLeasesOf(rows: map<Id, Lease>, agent: Id): set<Id> {
    set l | l in rows && rows[l].status == Active && rows[l].agentId == agent && rows[l].sessionBound
  }

  function MemoriesFor(rows: map<Id, Memory>, agent: Id, workspace: Id, service: string): set<Id> {
    set m | m in rows && rows[m].active && rows[m].agentId == agent
            && rows[m].workspaceId == workspace && rows[m].service == service
  }

  function MemoriesOf(rows: map<Id, Memory>, iid: Id): set<Id> {
    set m | m in rows && rows[m].active && rows[m].identityId == iid
  }

  method FreshId(known: set<Id>) returns (id: Id)
    ensures id != "" && id !in known
  {
    id := "x";
    var rest := known;
    while rest != {}
      invariant rest <= known
      invariant id != "" && forall k :: k in known - rest ==> |k| < |id|
      decreases |rest|
    {
      var k :| k in rest;
      id := id + k;
      rest := rest - {k};
    }
    assert known - rest == known;
  }

  // Statements that are nobody's step in particular, as steps.

  lemma ShortenOnly(s: State, t: Tid, lid: Id, deadline: int)
    requires UpdateLeaseExpiry(s.db, lid, deadline).Some?
    ensures Leads(s, t, Act.Shorten(lid, deadline), State(UpdateLeaseExpiry(s.db, lid, deadline).value, s.h))
  {
    LeadsExactly(s, t, Act.Shorten(lid, deadline), DoShorten(s, t, lid, deadline));
  }

  lemma InvalidateOnly(s: State, t: Tid, mid: Id)
    requires Tables.InvalidateMemory(s.db, mid).Some?
    ensures Leads(s, t, Act.Invalidate(mid), State(Tables.InvalidateMemory(s.db, mid).value, s.h))
  {
    LeadsExactly(s, t, Act.Invalidate(mid), DoInvalidate(s, t, mid));
  }

  lemma TightenOnly(s: State, t: Tid, mid: Id)
    requires TightenMemory(s.db, mid).Some?
    ensures Leads(s, t, Act.Tighten(mid), State(TightenMemory(s.db, mid).value, s.h))
  {
    LeadsExactly(s, t, Act.Tighten(mid), DoTighten(s, t, mid));
  }

  lemma DeleteOnly(s: State, t: Tid, mid: Id)
    requires Tables.DeleteMemory(s.db, mid).Some?
    ensures Leads(s, t, Act.Delete(mid), State(Tables.DeleteMemory(s.db, mid).value, s.h))
  {
    LeadsExactly(s, t, Act.Delete(mid), DoDelete(s, t, mid));
  }

  class Store {
    var now: Instant
    var requests: map<Id, Request>
    var decisions: map<Id, Decision>
    var approvals: map<Id, Approval>
    var leases: map<Id, Lease>
    var memories: map<Id, Memory>
    var ledger: seq<Event>
    var underReview: set<Id>
    var endedSessions: set<Id>

    /** Every id ever handed out. */
    var spent: set<Id>

    const alone: bool
    ghost var run: Run

    function Rows(): Db
      reads this
    {
      Db(now, requests, decisions, approvals, leases, memories, ledger, underReview, endedSessions)
    }

    /** The fields are where the run has led. */
    ghost predicate Valid()
      reads this
    {
      Legal(run) && Last(run).db == Rows() && Last(run).h.lessons.Keys <= spent
    }

    ghost function Cur(): State
      requires Valid()
      reads this
    {
      Last(run)
    }

    constructor (alone: bool)
      ensures Valid() && this.alone == alone && run == Run([], [GENESIS])
    {
      this.alone := alone;
      now, requests, decisions, approvals, leases, memories, ledger, underReview, endedSessions :=
        ZERO_TIME, map[], map[], map[], map[], map[], [], {}, {};
      spent := {};
      run := Run([], [GENESIS]);
    }

    /** If the statement takes effect, this act of `me` is what it amounts to. */
    ghost predicate Backed(me: Tid, act: Act, effect: Option<Db>, next: State)
      requires Valid()
      reads this
    {
      effect.Some? ==> Leads(Cur(), me, act, next) && next.db == effect.value && next.h.lessons.Keys <= spent
    }

    /** Where a statement leads that is nobody's step in particular. */
    ghost function Only(effect: Option<Db>): State
      requires Valid()
      reads this
    {
      State(if effect.Some? then effect.value else Rows(), Cur().h)
    }

    /** Either exactly this act happened, or nothing did. */
    twostate predicate Committed(me: Tid, act: Act, done: bool, effect: Option<Db>, next: State)
      requires old(Valid())
      reads this
    {
      && Valid()
      && (done ==>
            && effect.Some? && Rows() == effect.value && Cur() == next
            && Continues(old(run), run) && Own(run.acts, me) == Own(old(run.acts), me) + [act])
      && (!done ==> run == old(run) && Rows() == old(Rows()))
      && (alone ==> (done <==> effect.Some?))
    }

    /** `me` did nothing, and nobody touched what it alone may touch. */
    twostate predicate Interfered(me: Tid)
      requires old(Valid())
      reads this
    {
      && Valid() && Continues(old(run), run)
      && Own(run.acts, me) == Own(old(run.acts), me)
      && Thr(Cur(), me) == Thr(old(Cur()), me) && old(now) <= now
      && (alone ==> run == old(run) && Rows() == old(Rows()))
    }

    /** Since the method began `me` took exactly these acts, whatever others did in between. */
    twostate predicate Acted(me: Tid, acts: seq<Act>)
      reads this
    {
      && Valid() && Continues(old(run), run)
      && Own(run.acts, me) == Own(old(run.acts), me) + acts
    }

    /** Other threads run: whatever they do is legal, and none of it is an act of `me`. */
    method Yield(ghost me: Tid)
      requires Valid()
      modifies this
      ensures Interfered(me)
    {
      ContinuesReflexive(run);
    }

    /** The driver, the disk or the process fails. */
    method Fault() returns (fault: bool)
      ensures alone ==> !fault
    {
      fault := *;
      if alone { fault := false; }
    }

    ghost method Record(me: Tid, act: Act, next: State)
      requires Legal(run) && Leads(Last(run), me, act, next)
      modifies this`run
      ensures Legal(run) && Last(run) == next
      ensures Continues(old(run), run) && Own(run.acts, me) == Own(old(run.acts), me) + [act]
    {
      ExtendedLegal(run, me, act, next);
      OwnExtended(run.acts, Entry(me, act), me);
      run := Extended(run, me, act, next);
    }

    /** A local step of `me`: the tables do not move. */
    ghost method Note(me: Tid, act: Act, next: State)
      requires Valid() && Leads(Cur(), me, act, next)
      requires next.db == Rows() && next.h.lessons == Cur().h.lessons
      modifies this`run
      ensures Valid() && Cur() == next
      ensures Continues(old(run), run) && Own(run.acts, me) == Own(old(run.acts), me) + [act]
    {
      Record(me, act, next);
    }

    /** A ULID is never handed out twice, and no stored row has it yet. */
    method NewId() returns (id: Id)
      requires Valid()
      modifies this`spent
      ensures Valid() && id != "" && id in spent && id !in Cur().h.lessons
      ensures id !in requests && id !in decisions && id !in approvals && id !in leases && id !in memories
    {
      id := FreshId(spent + requests.Keys + decisions.Keys + approvals.Keys + leases.Keys + memories.Keys);
      spent := spent + {id};
    }

    /** Time passes. */
    method Elapse(to: Instant, ghost me: Tid)
      requires Valid() && to >= now
      modifies this
      ensures Acted(me, [Tick(to)]) && Thr(Cur(), me) == Thr(old(Cur()), me)
      ensures Rows() == old(Rows()).(now := to)
    {
      ghost var next := DoTick(Cur(), me, to);
      LeadsExactly(Cur(), me, Tick(to), next);
      now := to;
      Record(me, Tick(to), next);
    }

    // ----- Reads -----

    method RequestById(id: Id) returns (r: Result<Request>)
      requires Valid()
      ensures r.Ok? ==> id in requests && r.value == requests[id]
      ensures r.Err? ==> r.code == Internal || (r.code == NotFound && id !in requests)
      ensures alone && id in requests ==> r.Ok?
    {
      var fault := Fault();
      if fault { return Err(Internal); }
      if id !in requests { return Err(NotFound); }
      return Ok(requests[id]);
    }

    method DecisionById(id: Id) returns (r: Result<Decision>)
      requires Valid()
      ensures r.Ok? ==> id in decisions && r.value == decisions[id]
      ensures r.Err? ==> r.code == Internal || (r.code == NotFound && id !in decisions)
      ensures alone && id in decisions ==> r.Ok?
    {
      var fault := Fault();
      if fault { return Err(Internal); }
      if id !in decisions { return Err(NotFound); }
      return Ok(decisions[id]);
    }

    method ApprovalById(id: Id) returns (r: Result<Approval>)
      requires Valid()
      ensures r.Ok? ==> id in approvals && r.value == approvals[id]
      ensures r.Err? ==> r.code == Internal || (r.code == NotFound && id !in approvals)
      ensures alone && id in approvals ==> r.Ok?
    {
      var fault := Fault();
      if fault { return Err(Internal); }
      if id !in approvals { return Err(NotFound); }
      return Ok(approvals[id]);
    }

    /** At most one approval per decision, so any is the one. */
    method ApprovalByDecision(did: Id) returns (r: Result<Id>)
      requires Valid()
      ensures r.Ok? ==> r.value in approvals && approvals[r.value].decisionId == did
      ensures r.Err? && r.code == NotFound ==> forall a :: a in approvals ==> approvals[a].decisionId != did
      ensures r.Err? ==> r.code in {NotFound, Internal}
      ensures alone && r.Err? ==> r.code == NotFound
    {
      var fault := Fault();
      if fault { return Err(Internal); }
      if a :| a in approvals && approvals[a].decisionId == did { return Ok(a); }
      return Err(NotFound);
    }

    method LeaseById(id: Id) returns (r: Result<Lease>)
      requires Valid()
      ensures r.Ok? ==> id in leases && r.value == leases[id]
      ensures r.Err? ==> r.code == Internal || (r.code == NotFound && id !in leases)
      ensures alone && id in leases ==> r.Ok?
    {
      var fault := Fault();
      if fault { return Err(Internal); }
      if id !in leases { return Err(NotFound); }
      return Ok(leases[id]);
    }

    method LeaseByApproval(aid: Id) returns (r: Result<Id>)
      requires Valid()
      ensures r.Ok? ==> aid != "" && r.value in leases && leases[r.value].approvalId == aid
      ensures r.Err? && r.code == NotFound ==> aid == "" || forall l :: l in leases ==> leases[l].approvalId != aid
      ensures r.Err? ==> r.code in {NotFound, Internal}
      ensures alone && r.Err? ==> r.code == NotFound
    {
      if aid == "" { return Err(NotFound); }
      var fault := Fault();
      if fault { return Err(Internal); }
      if l :| l in leases && leases[l].approvalId == aid { return Ok(l); }
      return Err(NotFound);
    }

    method MemoryById(id: Id) returns (r: Result<Memory>)
      requires Valid()
      ensures r.Ok? ==> id in memories && r.value == memories[id]
      ensures r.Err? ==> r.code == Internal || (r.code == NotFound && id !in memories)
      ensures alone && id in memories ==> r.Ok?
    {
      var fault := Fault();
      if fault { return Err(Internal); }
      if id !in memories { return Err(NotFound); }
      return Ok(memories[id]);
    }

    /** The ORDER BY and the LIMIT of a listing are left open: any order, every row. */
    method ActiveLeases() returns (r: Result<seq<Item<Lease>>>)
      requires Valid()
      ensures r.Ok? ==> Lists(r.value, leases, set l | l in leases && leases[l].status == Active)
      ensures r.Err? ==> r.code == Internal && !alone
    {
      var fault := Fault();
      if fault { return Err(Internal); }
      var items := Enumerate(leases, set l | l in leases && leases[l].status == Active);
      return Ok(items);
    }

    method ActiveLeasesByIdentity(iid: Id) returns (r: Result<seq<Item<Lease>>>)
      requires Valid()
      ensures r.Ok? ==> Lists(r.value, leases, LeasesOf(leases, iid))
      ensures r.Err? ==> r.code == Internal && !alone
    {
      var fault := Fault();
      if fault { return Err(Internal); }
      var items := Enumerate(leases, LeasesOf(leases, iid));
      return Ok(items);
    }

    method SessionLeasesByAgent(agent: Id) returns (r: Result<seq<Item<Lease>>>)
      requires Valid()
      ensures r.Ok? ==> Lists(r.value, leases, SessionLeasesOf(leases, agent))
      ensures r.Err? ==> r.code == Internal && !alone
    {
      var fault := Fault();
      if fault { return Err(Internal); }
      var items := Enumerate(leases, SessionLeasesOf(leases, agent));
      return Ok(items);
    }

    method LeasesDueBefore(at: Instant) returns (r: Result<seq<Item<Lease>>>)
      requires Valid()
      ensures r.Ok? ==> Lists(r.value, leases,
        set l | l in leases && leases[l].status == Active && leases[l].expiresAt <= Stored(at))
      ensures r.Err? ==> r.code == Internal && !alone
    {
      var fault := Fault();
      if fault { return Err(Internal); }
      var items := Enumerate(leases,
        set l | l in leases && leases[l].status == Active && leases[l].expiresAt <= Stored(at));
      return Ok(items);
    }

    method ApprovalsDueBefore(at: Instant) returns (r: Result<seq<Item<Approval>>>)
      requires Valid()
      ensures r.Ok? ==> Lists(r.value, approvals,
        set a | a in approvals && approvals[a].status == Pending && approvals[a].expiresAt <= Stored(at))
      ensures r.Err? ==> r.code == Internal && !alone
    {
      var fault := Fault();
      if fault { return Err(Internal); }
      var items := Enumerate(approvals,
        set a | a in approvals && approvals[a].status == Pending && approvals[a].expiresAt <= Stored(at));
      return Ok(items);
    }

    method MatchMemories(agent: Id, workspace: Id, service: string) returns (r: Result<seq<Item<Memory>>>)
      requires Valid()
      ensures r.Ok? ==> Lists(r.value, memories, MemoriesFor(memories, agent, workspace, service))
      ensures r.Err? ==> r.code == Internal && !alone
    {
      var fault := Fault();
      if fault { return Err(Internal); }
      var items := Enumerate(memories, MemoriesFor(memories, agent, workspace, service));
      return Ok(items);
    }

    method ActiveMemoriesByIdentity(iid: Id) returns (r: Result<seq<Item<Memory>>>)
      requires Valid()
      ensures r.Ok? ==> Lists(r.value, memories, MemoriesOf(memories, iid))
      ensures r.Err? ==> r.code == Internal && !alone
    {
      var fault := Fault();
      if fault { return Err(Internal); }
      var items := Enumerate(memories, MemoriesOf(memories, iid));
      return Ok(items);
    }

    // ----- capability_requests -----

    method CreateRequest(id: Id, row: Request, ghost me: Tid) returns (r: Result<Request>)
      requires Valid() && row.status == Received
      modifies this
      ensures Committed(me, Act.CreateRequest(id, row), r.Ok?,
                        old(InsertRequest(Rows(), id, row)),
                        old(Only(InsertRequest(Rows(), id, row))))
      ensures r.Ok? ==> r.value == row && id in requests && requests[id] == row
    {
      var fault := Fault();
      if fault { return Err(Internal); }
      if id in requests { return Err(Conflict); }
      ghost var next := Only(InsertRequest(Rows(), id, row));
      LeadsExactly(Cur(), me, Act.CreateRequest(id, row), DoCreateRequest(Cur(), me, id, row));
      requests := requests[id := row];
      Record(me, Act.CreateRequest(id, row), next);
      return Ok(row);
    }

    method AdvanceRequest(
      id: Id, from: RequestStatus, to: RequestStatus, ghost me: Tid, ghost act: Act, ghost next: State)
      returns (r: Result<Request>)
      requires Valid() && Backed(me, act, UpdateRequestStatus(Rows(), id, from, to), next)
      modifies this
      ensures Committed(me, act, r.Ok?, old(UpdateRequestStatus(Rows(), id, from, to)), next)
      ensures r.Ok? ==> id in requests && r.value == requests[id] && r.value.status == to
    {
      var fault := Fault();
      if fault { return Err(Internal); }
      if id !in requests || requests[id].status != from { return Err(Conflict); }
      requests := requests[id := requests[id].(status := to)];
      Record(me, act, next);
      return Ok(requests[id]);
    }

    // ----- decisions -----

    method CreateDecision(id: Id, row: Decision, ghost me: Tid, ghost act: Act, ghost next: State)
      returns (r: Result<()>)
      requires Valid() && Backed(me, act, InsertDecision(Rows(), id, row), next)
      modifies this
      ensures Committed(me, act, r.Ok?, old(InsertDecision(Rows(), id, row)), next)
    {
      var fault := Fault();
      if fault { return Err(Internal); }
      if id in decisions || exists d :: d in decisions && decisions[d].requestId == row.requestId {
        return Err(Conflict);
      }
      decisions := decisions[id := row];
      Record(me, act, next);
      return Ok(());
    }

    // ----- approvals -----

    method CreateApproval(id: Id, row: Approval, ghost me: Tid, ghost act: Act, ghost next: State)
      returns (r: Result<()>)
      requires Valid() && Backed(me, act, InsertApproval(Rows(), id, row), next)
      modifies this
      ensures Committed(me, act, r.Ok?, old(InsertApproval(Rows(), id, row)), next)
    {
      var fault := Fault();
      if fault { return Err(Internal); }
      if id in approvals || exists a :: a in approvals && approvals[a].decisionId == row.decisionId {
        return Err(Conflict);
      }
      approvals := approvals[id := row];
      Record(me, act, next);
      return Ok(());
    }

    /** A conflict means that the approval was no longer pending; any other failure means nothing. */
    method SettleApproval(
      id: Id, action: Action, status: ApprovalStatus, at: Instant, ghost me: Tid, ghost act: Act, ghost next: State)
      returns (r: Result<Approval>)
      requires Valid() && Backed(me, act, UpdateApproval(Rows(), id, action, status, Stored(at)), next)
      modifies this
      ensures Committed(me, act, r.Ok?, old(UpdateApproval(Rows(), id, action, status, Stored(at))), next)
      ensures r.Ok? ==> id in approvals && r.value == approvals[id]
      ensures r.Err? ==> r.code in {Conflict, Internal}
      ensures r.Err? && r.code == Conflict ==> id !in approvals || approvals[id].status != Pending
      ensures alone && r.Err? ==> r.code == Conflict
    {
      var fault := Fault();
      if fault { return Err(Internal); }
      if id !in approvals || approvals[id].status != Pending { return Err(Conflict); }
      approvals := approvals[id :=
        approvals[id].(action := Some(action), status := status, decidedAt := Some(Stored(at)))];
      Record(me, act, next);
      return Ok(approvals[id]);
    }

    // ----- leases -----

    method IssueLease(id: Id, row: Lease, ghost me: Tid, ghost act: Act, ghost next: State) returns (r: Result<()>)
      requires Valid() && Backed(me, act, InsertLease(Rows(), id, row), next)
      modifies this
      ensures Committed(me, act, r.Ok?, old(InsertLease(Rows(), id, row)), next)
    {
      var fault := Fault();
      if fault { return Err(Internal); }
      if id in leases || (row.approvalId != "" && exists l :: l in leases && leases[l].approvalId == row.approvalId) {
        return Err(Conflict);
      }
      leases := leases[id := row];
      Record(me, act, next);
      return Ok(());
    }

    /** One statement tests that the lease is active, unexpired and below its limit, and counts. */
    method Consume(id: Id, at: Instant, ghost me: Tid, ghost next: State) returns (r: Result<Lease>)
      requires Valid() && Backed(me, Act.Consume(at), UpdateLeaseUse(Rows(), id, at), next)
      modifies this
      ensures Committed(me, Act.Consume(at), r.Ok?, old(UpdateLeaseUse(Rows(), id, at)), next)
      ensures r.Ok? ==> id in leases && r.value == leases[id]
    {
      var fault := Fault();
      if fault { return Err(Internal); }
      if id !in leases || !Consumable(leases[id], at) { return Err(Conflict); }
      leases := leases[id := leases[id].(used := leases[id].used + 1)];
      Record(me, Act.Consume(at), next);
      return Ok(leases[id]);
    }

    method CloseLease(id: Id, status: LeaseStatus, ghost me: Tid, ghost act: Act, ghost next: State)
      returns (r: Result<Lease>)
      requires Valid() && status != Active
      requires Backed(me, act, UpdateLeaseStatus(Rows(), id, status), next)
      modifies this
      ensures Committed(me, act, r.Ok?, old(UpdateLeaseStatus(Rows(), id, status)), next)
      ensures r.Ok? ==> id in leases && r.value == leases[id]
    {
      var fault := Fault();
      if fault { return Err(Internal); }
      if id !in leases || leases[id].status != Active { return Err(Conflict); }
      leases := leases[id := leases[id].(status := status)];
      Record(me, act, next);
      return Ok(leases[id]);
    }

    /** The new expiry is both written and compared, so the statement cannot extend a lease. */
    method ShortenLease(id: Id, expiresAt: Instant, ghost me: Tid) returns (r: Result<Lease>)
      requires Valid()
      modifies this
      ensures Committed(me, Act.Shorten(id, Stored(expiresAt)), r.Ok?,
                        old(UpdateLeaseExpiry(Rows(), id, Stored(expiresAt))),
                        old(Only(UpdateLeaseExpiry(Rows(), id, Stored(expiresAt)))))
      ensures r.Ok? ==> id in leases && r.value == leases[id]
    {
      var fault := Fault();
      if fault { return Err(Internal); }
      if id !in leases || leases[id].status != Active || leases[id].expiresAt <= Stored(expiresAt) {
        return Err(InvalidRequest);
      }
      ghost var next := Only(UpdateLeaseExpiry(Rows(), id, Stored(expiresAt)));
      ShortenOnly(Cur(), me, id, Stored(expiresAt));
      leases := leases[id := leases[id].(expiresAt := Stored(expiresAt))];
      Record(me, Act.Shorten(id, Stored(expiresAt)), next);
      return Ok(leases[id]);
    }

    // ----- trust_memories -----

    method CreateMemory(id: Id, row: Memory, ghost me: Tid, ghost act: Act, ghost next: State) returns (r: Result<()>)
      requires Valid() && Backed(me, act, InsertMemory(Rows(), id, row), next)
      modifies this
      ensures Committed(me, act, r.Ok?, old(InsertMemory(Rows(), id, row)), next)
    {
      var fault := Fault();
      if fault { return Err(Internal); }
      if id in memories || exists m :: m in memories && memories[m].createdFrom == row.createdFrom {
        return Err(Conflict);
      }
      memories := memories[id := row];
      Record(me, act, next);
      return Ok(());
    }

    method InvalidateMemory(id: Id, ghost me: Tid) returns (r: Result<()>)
      requires Valid()
      modifies this
      ensures Committed(me, Act.Invalidate(id), r.Ok?,
                        old(Tables.InvalidateMemory(Rows(), id)),
                        old(Only(Tables.InvalidateMemory(Rows(), id))))
    {
      var fault := Fault();
      if fault { return Err(Internal); }
      if id !in memories || !memories[id].active { return Err(Conflict); }
      ghost var next := Only(Tables.InvalidateMemory(Rows(), id));
      InvalidateOnly(Cur(), me, id);
      memories := memories[id := memories[id].(active := false)];
      Record(me, Act.Invalidate(id), next);
      return Ok(());
    }

    method TightenBehavior(id: Id, ghost me: Tid) returns (r: Result<()>)
      requires Valid()
      modifies this
      ensures Committed(me, Act.Tighten(id), r.Ok?,
                        old(TightenMemory(Rows(), id)),
                        old(Only(TightenMemory(Rows(), id))))
    {
      var fault := Fault();
      if fault { return Err(Internal); }
      if id !in memories || !memories[id].active || memories[id].behavior != AutoAllowBehavior {
        return Err(Conflict);
      }
      ghost var next := Only(TightenMemory(Rows(), id));
      TightenOnly(Cur(), me, id);
      memories := memories[id := memories[id].(behavior := AlwaysAskBehavior)];
      Record(me, Act.Tighten(id), next);
      return Ok(());
    }

    method DeleteMemory(id: Id, ghost me: Tid) returns (r: Result<()>)
      requires Valid()
      modifies this
      ensures Committed(me, Act.Delete(id), r.Ok?,
                        old(Tables.DeleteMemory(Rows(), id)),
                        old(Only(Tables.DeleteMemory(Rows(), id))))
    {
      var fault := Fault();
      if fault { return Err(Internal); }
      if id !in memories { return Err(NotFound); }
      ghost var next := Only(Tables.DeleteMemory(Rows(), id));
      DeleteOnly(Cur(), me, id);
      memories := memories - {id};
      Record(me, Act.Delete(id), next);
      return Ok(());
    }

    // ----- audit_events, identities, sessions -----

    method Write(event: Event, ghost me: Tid, ghost act: Act, ghost next: State) returns (r: Result<()>)
      requires Valid() && Backed(me, act, Some(Append(Rows(), event)), next)
      modifies this
      ensures Committed(me, act, r.Ok?, old(Some(Append(Rows(), event))), next)
    {
      var fault := Fault();
      if fault { return Err(Internal); }
      ledger := ledger + [event];
      Record(me, act, next);
      return Ok(());
    }

    method MarkForReview(iid: Id, ghost me: Tid) returns (r: Result<()>)
      requires Valid()
      modifies this
      ensures Committed(me, Act.ReviewIdentity(iid), r.Ok?,
                        old(Some(Rows().(underReview := underReview + {iid}))),
                        old(Only(Some(Rows().(underReview := underReview + {iid})))))
    {
      var fault := Fault();
      if fault { return Err(Internal); }
      ghost var next := Only(Some(Rows().(underReview := underReview + {iid})));
      LeadsExactly(Cur(), me, Act.ReviewIdentity(iid), DoReviewIdentity(Cur(), me, iid));
      underReview := underReview + {iid};
      Record(me, Act.ReviewIdentity(iid), next);
      return Ok(());
    }

    method Disconnect(agent: Id, ghost me: Tid) returns (r: Result<()>)
      requires Valid()
      modifies this
      ensures Committed(me, Act.EndSession(agent), r.Ok?,
                        old(Some(Rows().(endedSessions := endedSessions + {agent}))),
                        old(Only(Some(Rows().(endedSessions := endedSessions + {agent})))))
    {
      var fault := Fault();
      if fault { return Err(Internal); }
      ghost var next := Only(Some(Rows().(endedSessions := endedSessions + {agent})));
      LeadsExactly(Cur(), me, Act.EndSession(agent), DoEndSession(Cur(), me, agent));
      endedSessions := endedSessions + {agent};
      Record(me, Act.EndSession(agent), next);
      return Ok(());
    }
  }
}
