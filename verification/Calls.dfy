/**
 The two faces that spend leases: mcpCalls (internal/cli/mcpcalls.go) decides, meters, sends and
 records; proxyLeases (internal/cli/proxyports.go) looks for a standing lease that covers a call.
 */
module Calls {
  import opened Results
  import opened Scopes
  import opened Tables
  import opened Protocol
  import opened Invariants
  import opened Stability
  import opened Guarantees
  import opened Stores
  import opened Leasing
  import opened Assembly
  import opened Pipelines
  import opened Submissions
  import C = Catalogs
  import D = Decisions
  import I = Intents

  // ----- Steps of execute -----

  lemma StartBacked(s: State, t: Tid) returns (next: State)
    requires Thr(s, t).pc.Passed?
    ensures var pc := Thr(s, t).pc;
      var effect := UpdateRequestStatus(s.db, pc.requestId, RequestStatus.AutoAllowed, Executing);
      effect.Some? ==>
        && Leads(s, t, Act.StartRun, next) && next.db == effect.value && next.h.lessons == s.h.lessons
        && Thr(next, t) == Thread(Running(pc.requestId, pc.decisionId, pc.leaseId), Thr(s, t).meter)
  {
    next := s;
    if CanStartRun(s, t) {
      LeadsExactly(s, t, Act.StartRun, DoStartRun(s, t));
      next := DoStartRun(s, t);
    }
  }

  /** The request that goes out, and where that leaves the thread. */
  lemma SendBacked(s: State, t: Tid, lid: Id) returns (next: State)
    requires Inv(s) && Thr(s, t).pc.Running? && Thr(s, t).pc.leaseId == lid
    requires Thr(s, t).meter.Paid? && Thr(s, t).meter.leaseId == lid
    ensures Leads(s, t, Act.Send, next) && next.db == s.db && next.h.lessons == s.h.lessons
    ensures lid in s.db.leases && Thr(s, t).pc.requestId in s.db.requests
    ensures var pc := Thr(s, t).pc;
      && Thr(next, t) == Thread(Sent(pc.requestId, pc.decisionId, pc.leaseId), Off)
      && next.h.sends == s.h.sends + [SendingOf(s, pc)]
  {
    InvThread(s, t);
    var pc := Thr(s, t).pc;
    InvDecision(s, pc.decisionId);
    InvIndexes(s);
    LeadsExactly(s, t, Act.Send, DoSend(s, t));
    next := DoSend(s, t);
  }

  lemma NoteRunBacked(s: State, t: Tid, succeeded: bool) returns (next: State)
    requires Thr(s, t).pc.Sent? || (Thr(s, t).pc.Running? && !succeeded)
    ensures Leads(s, t, NoteRun(succeeded), next)
    ensures var pc := Thr(s, t).pc;
      next == State(Append(s.db, AdapterExecutedEvent(pc.requestId, pc.leaseId, succeeded)), s.h)
  {
    LeadsExactly(s, t, Act.NoteRun(succeeded), DoNoteRun(s, t, succeeded));
    next := DoNoteRun(s, t, succeeded);
  }

  lemma FinishBacked(s: State, t: Tid, ending: RequestStatus) returns (next: State)
    requires (Thr(s, t).pc.Sent? && ending in {Succeeded, Failed}) || (Thr(s, t).pc.Running? && ending == Failed)
    ensures var effect := UpdateRequestStatus(s.db, Thr(s, t).pc.requestId, Executing, ending);
      effect.Some? ==>
        && Leads(s, t, FinishRun(ending), next) && next.db == effect.value && next.h.lessons == s.h.lessons
        && Thr(next, t) == Thread(Idle, Thr(s, t).meter)
  {
    next := s;
    if CanFinishRun(s, t, ending) {
      LeadsExactly(s, t, Act.FinishRun(ending), DoFinishRun(s, t, ending));
      next := DoFinishRun(s, t, ending);
    }
  }

  lemma DropBacked(s: State, t: Tid) returns (next: State)
    ensures Leads(s, t, DropMeter, next) && next.db == s.db && next.h.lessons == s.h.lessons
    ensures Thr(next, t) == Thread(Thr(s, t).pc, Off)
  {
    LeadsExactly(s, t, Act.DropMeter, DoDropMeter(s, t));
    next := DoDropMeter(s, t);
  }

  /** The row of the lease and the row of the request say what goes out. */
  ghost predicate Carries(db: Db, rid: Id, lid: Id, scope: Scope, body: string) {
    && lid in db.leases && db.leases[lid].scope == scope
    && rid in db.requests && db.requests[rid].desiredChange == body
  }

  lemma CarriesLater(a: Run, b: Run, rid: Id, lid: Id, scope: Scope, body: string)
    requires Legal(a) && Legal(b) && Continues(a, b) && Carries(Last(a).db, rid, lid, scope, body)
    ensures Carries(Last(b).db, rid, lid, scope, body)
  {
    LaterEvolves(a, b);
    assert LeaseEvolves(Last(a).db.leases[lid], Last(b).db.leases[lid]);
    assert RequestEvolves(Last(a).db.requests[rid], Last(b).db.requests[rid]);
  }

  lemma LeaseScopeLater(a: Run, b: Run, lid: Id)
    requires Legal(a) && Legal(b) && Continues(a, b) && lid in Last(a).db.leases
    ensures lid in Last(b).db.leases && Last(b).db.leases[lid].scope == Last(a).db.leases[lid].scope
  {
    LaterEvolves(a, b);
    assert LeaseEvolves(Last(a).db.leases[lid], Last(b).db.leases[lid]);
  }

  function Ending(succeeded: bool): RequestStatus {
    if succeeded then Succeeded else Failed
  }

  /** What is left to do once the outcome of a run is known: the ledger, then the status. Either may
      fail on its own; a failed run tries both. */
  predicate Closing(acts: seq<Act>, succeeded: bool) {
    acts in {[], [NoteRun(succeeded)], [FinishRun(Ending(succeeded))],
             [NoteRun(succeeded), FinishRun(Ending(succeeded))]}
  }

  /** A run, as far as it got: start, meter, at most one send and only once metered, then its closing. */
  ghost predicate ExecuteActs(acts: seq<Act>, lid: Id, scope: Scope, r: Result<bool>) {
    || (acts == [] && r.Err?)
    || exists use: seq<Act>, sent: bool, closing: seq<Act>, ok: bool ::
         && ExecuteParts(acts, use, sent, closing)
         && UseActs(use, lid, scope, sent) && Closing(closing, ok) && (ok ==> sent)
         && (r.Ok? ==> sent && ok == r.value && |closing| == 2)
  }

  predicate ExecuteParts(acts: seq<Act>, use: seq<Act>, sent: bool, closing: seq<Act>) {
    acts == [Act.StartRun] + use + (if sent then [Act.Send] else []) + closing
  }

  lemma Rebracket3(a: seq<Act>, b: seq<Act>, c: seq<Act>, d: seq<Act>)
    ensures (a + b) + (c + d) == a + (b + c + d)
  {
  }

  lemma Rebracket4(a: seq<Act>, use: seq<Act>, send: seq<Act>, closing: seq<Act>)
    ensures (a + [Act.StartRun]) + ((use + send) + closing) == a + ([Act.StartRun] + use + send + closing)
  {
  }

  lemma ClosingOf(noted: seq<Act>, finish: seq<Act>, succeeded: bool)
    requires noted in {[], [NoteRun(succeeded)]} && finish in {[], [FinishRun(Ending(succeeded))]}
    ensures Closing(noted + finish, succeeded)
    ensures noted != [] && finish != [] ==> noted + finish == [NoteRun(succeeded), FinishRun(Ending(succeeded))]
  {
    if noted == [] { assert noted + finish == finish; }
    if finish == [] { assert noted + finish == noted; }
    if noted != [] && finish != [] {
      assert noted + finish == [NoteRun(succeeded), FinishRun(Ending(succeeded))];
    }
  }

  lemma ExecuteShape(use: seq<Act>, sent: bool, closing: seq<Act>, ok: bool, lid: Id, scope: Scope, r: Result<bool>)
    requires UseActs(use, lid, scope, sent) && Closing(closing, ok) && (ok ==> sent)
    requires r.Ok? ==> sent && ok == r.value && |closing| == 2
    ensures var acts := [Act.StartRun] + use + (if sent then [Act.Send] else []) + closing;
      ExecuteActs(acts, lid, scope, r) && (sent <==> Act.Send in acts)
  {
    assert ExecuteParts([Act.StartRun] + use + (if sent then [Act.Send] else []) + closing, use, sent, closing);
    if use != [] { assert use == [use[0]] + use[1..]; }
  }

  // ----- What a sequential call depends on and leaves behind -----

  /** One more use of this lease, or none. */
  function CountedOnce(before: map<Id, Lease>, lid: Id, once: bool): map<Id, Lease> {
    if once && lid in before then before[lid := UsedRow(before[lid])] else before
  }

  /** The run was closed, on the ledger and in the status, and success is claimed only of a success. */
  ghost predicate Ended(db: Db, rid: Id, lid: Id, r: Result<bool>) {
    && rid in db.requests && db.requests[rid].status in {Succeeded, Failed}
    && AdapterExecutedEvent(rid, lid, db.requests[rid].status == Succeeded) in db.ledger
    && (r.Ok? ==> (r.value <==> db.requests[rid].status == Succeeded))
    && (db.requests[rid].status == Succeeded ==> r.Ok?)
  }

  datatype CallOutcome = Executed(succeeded: bool) | Refused(verdict: D.Verdict)

  function AnswerOf(done: Result<bool>): Result<CallOutcome> {
    if done.Err? then Err(done.code) else Ok(Executed(done.value))
  }

  predicate UsedUp(row: Lease) {
    row.limit != 0 && row.used >= row.limit
  }

  /** What a sequential call answers: the verdict, or what became of the run. The lease is the standing
      one or one made for this scope; it is counted once if the request went out. */
  ghost predicate Answered(on: Grounds, before: Db, after: Db, rid: Id, sent: bool, r: Result<CallOutcome>) {
    var o := OutcomeOn(on, before.now);
    if o.verdict != D.AutoAllow then
      r == Ok(Refused(o.verdict)) && !sent && after.leases == before.leases
    else
      && on.basis.Some?
      && exists lid ::
           && LeasesThen(before.leases, after.leases, on.basis.value.scope, o, lid, sent)
           && (sent <==> o.matchedLeaseId == "" || !UsedUp(before.leases[lid]))
           && exists done :: r == AnswerOf(done) && Ended(after, rid, lid, done)
  }

  ghost predicate LeasesThen(
    before: map<Id, Lease>, after: map<Id, Lease>, scope: Scope, o: D.Outcome, lid: Id, sent: bool)
  {
    if o.matchedLeaseId != "" then
      lid == o.matchedLeaseId && lid in before && after == CountedOnce(before, lid, sent)
    else
      && Validates(scope)
      && after == CountedOnce(before[lid := LeaseRow(scope, "", o.matchedMemoryId, false)], lid, sent)
  }

  /** The lease of an allowed decision, standing or new, lets the call through unless it is used up. */
  lemma NewLeaseUsable(scope: Scope, memoryId: Id)
    requires I.Minimal(scope, false)
    ensures UsableFor(LeaseRow(scope, "", memoryId, false), scope, scope.notBefore)
  {
    CoversReflexive(scope);
    assert WithWindowOf(scope, scope) == scope;
  }

  lemma StandingRowUsable(row: Lease, now: Instant)
    requires row.status == Active && Loaded(row.expiresAt) > now && Validates(row.scope)
    requires !HasWildcard(row.scope.resource)
    ensures UsableFor(row, row.scope, now) <==> !UsedUp(row)
  {
    CoversReflexive(row.scope);
    assert WithWindowOf(row.scope, row.scope) == row.scope;
  }

  /** Every lease resolve may answer with is active and unexpired, with the scope that is stored. */
  lemma ListedStand(s: State, listed: seq<Item<Lease>>, agent: Id, service: string)
    requires Inv(s) && Lists(listed, s.db.leases, ActiveIds(s.db.leases))
    ensures forall l :: l in StandingOf(listed, agent, service, s.db.now) ==>
      && l.leaseId in s.db.leases && s.db.leases[l.leaseId].scope == l.scope
      && s.db.leases[l.leaseId].status == Active && Loaded(s.db.leases[l.leaseId].expiresAt) > s.db.now
  {
    var standing := map l | l in s.db.leases && s.db.leases[l].status == Active :: s.db.leases[l];
    forall item | item in listed ensures item.id != "" && item.id in standing && standing[item.id] == item.row {
      InvLease(s, item.id);
    }
    StandingKnown(standing, listed, agent, service, s.db.now);
  }

  lemma StandingLeaseUsable(s: State, on: Grounds, mode: D.Mode)
    requires Inv(s) && Resolves(on, mode, s.db) && on.basis.Some? && D.Allowed(on.basis.value)
    requires D.Decide(on.basis.value).matchedLeaseId != ""
    ensures var lid := D.Decide(on.basis.value).matchedLeaseId;
      && lid in s.db.leases && Validates(s.db.leases[lid].scope)
      && (UsableFor(s.db.leases[lid], s.db.leases[lid].scope, s.db.now) <==> !UsedUp(s.db.leases[lid]))
  {
    var input := on.basis.value;
    var parsed := C.ResolvedCall(on.inputs.catalog, on.inputs.call, on.inputs.named).value;
    ListedStand(s, on.listed, on.inputs.request.agentId, parsed.service);
    D.AllowBasis(input);
    var l :| l in input.active && l.leaseId == D.Decide(input).matchedLeaseId
             && CoversIgnoringWindow(l.scope, input.scope);
    StandingRowUsable(s.db.leases[l.leaseId], s.db.now);
  }

  lemma NewLeaseOf(on: Grounds, mode: D.Mode, db: Db)
    requires Resolves(on, mode, db) && on.basis.Some? && D.Allowed(on.basis.value)
    ensures I.Minimal(on.basis.value.scope, false) && on.basis.value.scope.notBefore == db.now
  {
    AmbiguousFailsClosed(on.inputs, mode, on.basis.value, on.read, db.now);
    D.AllowBasis(on.basis.value);
  }

  /** From what Handle left and what execute did to what the call answers. */
  lemma RunAnswers(
    s: State, on: Grounds, mode: D.Mode, mid: map<Id, Lease>, after: Db, rid: Id, h: HandleResult,
    sent: bool, done: Result<bool>)
    requires Inv(s) && Resolves(on, mode, s.db)
    requires h.outcome == OutcomeOn(on, s.db.now) && h.outcome.verdict == D.AutoAllow
    requires LeasesLeft(s.db.leases, mid, on, h) && h.leaseId.Some? && h.leaseId.value in mid
    requires var lid := h.leaseId.value;
      && (sent <==> UsableFor(mid[lid], mid[lid].scope, s.db.now))
      && after.leases == CountedOnce(mid, lid, sent)
      && (Validates(mid[lid].scope) ==> Ended(after, rid, lid, done))
    ensures Answered(on, s.db, after, rid, sent, AnswerOf(done))
  {
    var lid := h.leaseId.value;
    if h.outcome.matchedLeaseId != "" {
      StandingLeaseUsable(s, on, mode);
    } else {
      NewLeaseOf(on, mode, s.db);
      NewLeaseUsable(on.basis.value.scope, h.outcome.matchedMemoryId);
    }
    assert LeasesThen(s.db.leases, after.leases, on.basis.value.scope, h.outcome, lid, sent);
  }

  /** The answer does not depend on which other requests are stored. */
  lemma OtherRequestsAside(
    on: Grounds, mode: D.Mode, before: Db, stored: Db, after: Db, rid: Id, sent: bool, r: Result<CallOutcome>)
    requires stored == before.(requests := stored.requests)
    requires Resolves(on, mode, stored) && Answered(on, stored, after, rid, sent, r)
    ensures Resolves(on, mode, before) && Answered(on, before, after, rid, sent, r)
  {
  }

  lemma FreshIsUndecided(store: Store, rid: Id)
    requires store.Valid() && rid !in store.requests
    ensures Undecided(store.decisions, rid)
  {
    Sound(store);
    forall d | d in store.decisions ensures store.decisions[d].requestId != rid {
      InvDecision(store.Cur(), d);
    }
  }

  /** The text of a JSON object. */
  type Encoded = text: string | text != "" witness "{}"

  /** One tool call. `arguments` is None when they are no JSON object; `change` is the text of those
      arguments that are no resource fields. */
  datatype ToolCall = ToolCall(
    agentId: Id, workspaceId: Id, service: string, operation: string,
    arguments: Option<map<string, I.Field>>, change: Encoded)

  function Named(arguments: map<string, I.Field>, keys: seq<string>): map<string, I.Field> {
    map k | k in arguments && k in keys :: arguments[k]
  }

  /** What a call stores: resource and change apart, and no change for a capability that only reads. */
  function RowFor(call: ToolCall, registry: map<string, map<string, Offer>>): Result<Request> {
    var offer := OfferOf(registry, call.service, call.operation);
    if offer.None? then Err(CapabilityNotOffered)
    else if call.arguments.None? then Err(InvalidRequest)
    else Ok(Request(
      call.agentId, call.workspaceId, call.service, call.operation,
      Named(call.arguments.value, offer.value.resourceKeys),
      if offer.value.write then call.change else "", Received, ""))
  }

  /** splitArguments: every argument ends up on exactly one side. */
  method SplitArguments(arguments: map<string, I.Field>, keys: seq<string>)
    returns (resource: map<string, I.Field>, rest: map<string, I.Field>)
    ensures resource == Named(arguments, keys)
    ensures resource + rest == arguments && resource.Keys !! rest.Keys
  {
    resource, rest := map[], arguments;
    for i := 0 to |keys|
      invariant resource == Named(arguments, keys[..i])
      invariant rest == arguments - (set k | k in keys[..i])
    {
      var key := keys[i];
      assert keys[..i + 1] == keys[..i] + [key];
      if key in rest {
        resource := resource[key := rest[key]];
        rest := rest - {key};
      }
    }
    assert keys[..|keys|] == keys;
  }

  /** Handle took the automatic branch to its end for this request. */
  ghost predicate AllowedActs(acts: seq<Act>, rid: Id) {
    && |acts| == 5 && acts[0].Assemble? && acts[0].rid == rid && acts[0].plan.outcome.verdict == D.AutoAllow
    && acts[1].RecordDecision? && acts[2] == NoteVerdict
    && (acts[3].IssueAuto? || acts[3].ReuseLease?) && acts[4] == AdvanceVerdict
  }

  /** The engine allowed it, for what was asked. */
  ghost predicate AllowedOn(acts: seq<Act>, rid: Id, asked: Request, on: Option<Grounds>) {
    && AllowedActs(acts, rid) && on.Some? && on.value.basis.Some? && D.Allowed(on.value.basis.value)
    && Concerns(asked, acts[0].plan.scope, acts[0].plan.factors)
  }

  lemma AllowedShape(acts: seq<Act>, rid: Id, r: Result<HandleResult>)
    requires HandleActs(acts, rid, r) && r.Ok? && r.value.outcome.verdict == D.AutoAllow
    ensures AllowedActs(acts, rid)
  {
    if acts[0].Assemble? {
      var rest := acts[1..];
      assert rest[|rest| - 1] == AdvanceVerdict && |rest[2..|rest| - 1]| == 1;
      assert rest[2..|rest| - 1][0] == acts[3];
    }
  }

  class McpCalls {
    const store: Store
    const leases: LeaseManager
    const pipeline: Pipeline

    ghost predicate Wired() {
      leases.store == store && pipeline.store == store && pipeline.Wired()
    }

    constructor (pipeline: Pipeline)
      requires pipeline.Wired()
      ensures this.pipeline == pipeline && store == pipeline.store && Wired()
    {
      this.pipeline := pipeline;
      store := pipeline.store;
      leases := pipeline.leases;
    }

    /** The outside world: it answers with success or failure, or not at all. What is handed to it is
        what the run records as sent. */
    method Exchange(scope: Scope, body: string, ghost recorded: Sending) returns (reply: Result<bool>)
      requires recorded.service == scope.service && recorded.operation == scope.operation
      requires recorded.resource == scope.resource && recorded.identityId == scope.identityId
      requires recorded.body == body
    {
      var answered: bool, ok: bool := *, *;
      if answered { return Ok(ok); }
      return Err(Internal);
    }

    /** record, then advance. */
    method Close(rid: Id, lid: Id, succeeded: bool, insist: bool, ghost me: Tid)
      returns (r: Result<()>, ghost acts: seq<Act>)
      requires store.Valid()
      requires Thr(store.Cur(), me).pc.Sent? || (Thr(store.Cur(), me).pc.Running? && !succeeded)
      requires Thr(store.Cur(), me).pc.requestId == rid && Thr(store.Cur(), me).pc.leaseId == lid
      modifies store
      ensures store.Acted(me, acts) && Closing(acts, succeeded)
      ensures r.Ok? ==>
        && acts == [NoteRun(succeeded), FinishRun(Ending(succeeded))]
        && AdapterExecutedEvent(rid, lid, succeeded) in store.ledger
        && rid in store.requests && store.requests[rid].status == Ending(succeeded)
      ensures store.alone ==>
        && (r.Ok? <==> InStatus(old(store.requests), rid, Executing))
        && store.Rows() == old(store.Rows()).(requests := store.requests, ledger := store.ledger)
    {
      acts := [];
      ghost var first := store.run;
      store.Yield(me);
      ghost var mid := store.run;
      ghost var next := NoteRunBacked(store.Cur(), me, succeeded);
      var wrote := store.Write(AdapterExecutedEvent(rid, lid, succeeded), me, NoteRun(succeeded), next);
      if wrote.Ok? {
        ContinuesTransitive(first, mid, store.run);
        acts := [NoteRun(succeeded)];
        assert store.ledger[|store.ledger| - 1] == AdapterExecutedEvent(rid, lid, succeeded);
      } else if !insist {
        return wrote, acts;
      }
      mid := store.run;
      ghost var finish: seq<Act>;
      r, finish := AdvanceFinished(rid, lid, succeeded, me);
      ContinuesTransitive(first, mid, store.run);
      if wrote.Ok? {
        LaterEvolves(mid, store.run);
        LedgerKeeps(Last(mid).db, store.Rows(), AdapterExecutedEvent(rid, lid, succeeded));
      } else {
        r := wrote;
      }
      Rebracket(Own(first.acts, me), acts, finish);
      ClosingOf(acts, finish, succeeded);
      acts := acts + finish;
    }

    method AdvanceFinished(rid: Id, lid: Id, succeeded: bool, ghost me: Tid)
      returns (r: Result<()>, ghost acts: seq<Act>)
      requires store.Valid()
      requires Thr(store.Cur(), me).pc.Sent? || (Thr(store.Cur(), me).pc.Running? && !succeeded)
      requires Thr(store.Cur(), me).pc.requestId == rid
      modifies store
      ensures store.Acted(me, acts) && acts == if r.Ok? then [FinishRun(Ending(succeeded))] else []
      ensures r.Ok? ==> rid in store.requests && store.requests[rid].status == Ending(succeeded)
      ensures store.alone ==>
        && (r.Ok? <==> InStatus(old(store.requests), rid, Executing))
        && store.Rows() == old(store.Rows()).(requests := store.requests)
    {
      acts := [];
      ghost var first := store.run;
      store.Yield(me);
      ghost var mid := store.run;
      ghost var next := FinishBacked(store.Cur(), me, Ending(succeeded));
      var done := store.AdvanceRequest(rid, Executing, Ending(succeeded), me, FinishRun(Ending(succeeded)), next);
      if done.Err? { return Err(done.code), acts; }
      ContinuesTransitive(first, mid, store.run);
      return Ok(()), [FinishRun(Ending(succeeded))];
    }

    /** Meter, then send: nothing goes out that was not counted first. `sent` says whether it went out. */
    method Spend(rid: Id, lid: Id, scope: Scope, body: string, ghost me: Tid)
      returns (reply: Result<bool>, sent: bool, ghost use: seq<Act>)
      requires Wired() && store.Valid() && Thr(store.Cur(), me).meter.Off? && Thr(store.Cur(), me).pc.Running?
      requires Thr(store.Cur(), me).pc.requestId == rid && Thr(store.Cur(), me).pc.leaseId == lid
      requires Carries(store.Rows(), rid, lid, scope, body)
      modifies store
      ensures store.Acted(me, use + (if sent then [Act.Send] else [])) && UseActs(use, lid, scope, sent)
      ensures reply.Ok? ==> sent
      ensures var pc := Thr(store.Cur(), me).pc;
        (if sent then pc.Sent? else pc.Running?) && pc.requestId == rid && pc.leaseId == lid
      ensures store.alone ==>
        && (sent <==> UsableFor(old(store.leases)[lid], scope, old(store.now)))
        && store.Rows() == old(store.Rows()).(leases := CountedOnce(old(store.leases), lid, sent))
    {
      sent := false;
      ghost var first := store.run;
      var paid: Result<Lease>;
      paid, use := leases.Use(lid, scope, me);
      if paid.Err? {
        Rebracket(Own(first.acts, me), use, []);
        return Err(paid.code), sent, use;
      }
      ghost var mid := store.run;
      Sound(store);
      CarriesLater(first, mid, rid, lid, scope, body);
      ghost var next := SendBacked(store.Cur(), me, lid);
      store.Note(me, Act.Send, next);
      ContinuesTransitive(first, mid, store.run);
      Rebracket(Own(first.acts, me), use, [Act.Send]);
      sent := true;
      reply := Exchange(scope, body, SendingOf(Last(mid), Running(rid, Thr(Last(mid), me).pc.decisionId, lid)));
    }

    /** execute: a scope that does not read back stops it before anything happens; otherwise the status
        moves, the lease is metered, the request goes out and the outcome is written down. */
    method Execute(rid: Id, lid: Id, granted: Lease, ghost me: Tid) returns (r: Result<bool>, ghost acts: seq<Act>)
      requires Wired() && store.Valid() && Thr(store.Cur(), me).pc.Passed? && Thr(store.Cur(), me).meter.Off?
      requires Thr(store.Cur(), me).pc.requestId == rid && Thr(store.Cur(), me).pc.leaseId == lid
      requires lid in store.leases && store.leases[lid].scope == granted.scope
      modifies store
      ensures store.Acted(me, acts) && ExecuteActs(acts, lid, granted.scope, r)
      ensures r.Ok? ==>
        && rid in store.requests && store.requests[rid].status == Ending(r.value)
        && AdapterExecutedEvent(rid, lid, r.value) in store.ledger
      ensures store.alone && InStatus(old(store.requests), rid, RequestStatus.AutoAllowed) ==>
        var sent := Act.Send in acts;
        && (sent <==> UsableFor(old(store.leases)[lid], granted.scope, old(store.now)))
        && store.leases == CountedOnce(old(store.leases), lid, sent) && store.now == old(store.now)
        && (Validates(granted.scope) ==> Ended(store.Rows(), rid, lid, r))
    {
      acts := [];
      ghost var first := store.run;
      ContinuesReflexive(first);
      if !Validates(granted.scope) { return Err(InvalidRequest), acts; }
      var started := Start(rid, me);
      if started.Err? { return Err(started.code), acts; }
      ghost var mid := store.run;
      LeaseScopeLater(first, mid, lid);
      ghost var use: seq<Act>, sent: bool, closing: seq<Act>, ok: bool;
      r, use, sent, closing, ok := Conduct(rid, lid, granted.scope, started.value.desiredChange, me);
      ContinuesTransitive(first, mid, store.run);
      acts := [Act.StartRun] + use + (if sent then [Act.Send] else []) + closing;
      Rebracket4(Own(first.acts, me), use, if sent then [Act.Send] else [], closing);
      ExecuteShape(use, sent, closing, ok, lid, granted.scope, r);
    }

    /** Once the request is executing: meter, send, close. */
    method Conduct(rid: Id, lid: Id, scope: Scope, body: string, ghost me: Tid)
      returns (r: Result<bool>, ghost use: seq<Act>, ghost sent: bool, ghost closing: seq<Act>, ghost ok: bool)
      requires Wired() && store.Valid() && Thr(store.Cur(), me).pc.Running? && Thr(store.Cur(), me).meter.Off?
      requires Thr(store.Cur(), me).pc.requestId == rid && Thr(store.Cur(), me).pc.leaseId == lid
      requires Carries(store.Rows(), rid, lid, scope, body)
      modifies store
      ensures store.Acted(me, (use + (if sent then [Act.Send] else [])) + closing)
      ensures UseActs(use, lid, scope, sent) && Closing(closing, ok) && (ok ==> sent)
      ensures r.Ok? ==>
        && sent && ok == r.value && |closing| == 2
        && rid in store.requests && store.requests[rid].status == Ending(r.value)
        && AdapterExecutedEvent(rid, lid, r.value) in store.ledger
      ensures store.alone && InStatus(old(store.requests), rid, Executing) ==>
        && (sent <==> UsableFor(old(store.leases)[lid], scope, old(store.now)))
        && store.leases == CountedOnce(old(store.leases), lid, sent) && store.now == old(store.now)
        && Ended(store.Rows(), rid, lid, r)
    {
      ghost var first := store.run;
      var reply: Result<bool>;
      var out: bool;
      reply, out, use := Spend(rid, lid, scope, body, me);
      sent := out;
      var succeeded := reply.Ok? && reply.value;
      ok := succeeded;
      ghost var mid := store.run;
      var closed: Result<()>;
      closed, closing := Close(rid, lid, succeeded, reply.Err?, me);
      ContinuesTransitive(first, mid, store.run);
      Rebracket(Own(first.acts, me), use + (if sent then [Act.Send] else []), closing);
      r := if reply.Err? then Err(reply.code) else if closed.Err? then Err(closed.code) else Ok(succeeded);
    }

    method Start(rid: Id, ghost me: Tid) returns (r: Result<Request>)
      requires store.Valid() && Thr(store.Cur(), me).pc.Passed? && Thr(store.Cur(), me).pc.requestId == rid
      modifies store
      ensures store.Acted(me, if r.Ok? then [Act.StartRun] else [])
      ensures r.Ok? ==> rid in store.requests && store.requests[rid] == r.value
      ensures r.Ok? ==>
        var pc := Thr(old(store.Cur()), me).pc;
        Thr(store.Cur(), me) == Thread(Running(rid, pc.decisionId, pc.leaseId), Thr(old(store.Cur()), me).meter)
      ensures store.alone ==>
        && (r.Ok? <==> InStatus(old(store.requests), rid, RequestStatus.AutoAllowed))
        && (r.Ok? ==> store.requests[rid].status == Executing)
        && store.Rows() == old(store.Rows()).(requests := store.requests)
    {
      ghost var first := store.run;
      store.Yield(me);
      ghost var mid := store.run;
      ghost var next := StartBacked(store.Cur(), me);
      r := store.AdvanceRequest(rid, RequestStatus.AutoAllowed, Executing, me, Act.StartRun, next);
      if r.Ok? { ContinuesTransitive(first, mid, store.run); }
    }

    /** open: a request is stored, as received, before anything is decided about it. */
    method Open(call: ToolCall, registry: map<string, map<string, Offer>>, ghost me: Tid) returns (r: Result<Id>)
      requires store.Valid()
      modifies store
      ensures RowFor(call, registry).Err? ==> r == Err(RowFor(call, registry).code)
      ensures r.Err? ==> store.Acted(me, [])
      ensures r.Ok? ==>
        && RowFor(call, registry).Ok? && store.Acted(me, [Act.CreateRequest(r.value, RowFor(call, registry).value)])
        && r.value != "" && r.value in store.requests && store.requests[r.value] == RowFor(call, registry).value
      ensures Thr(store.Cur(), me) == Thr(old(store.Cur()), me)
      ensures store.alone ==>
        && (r.Ok? <==> RowFor(call, registry).Ok?)
        && (r.Ok? ==> && r.value !in old(store.requests) && Undecided(old(store.decisions), r.value))
        && store.Rows() == old(store.Rows()).(requests := store.requests)
    {
      ghost var first := store.run;
      ContinuesReflexive(first);
      var offer := OfferOf(registry, call.service, call.operation);
      if offer.None? { return Err(CapabilityNotOffered); }
      if call.arguments.None? { return Err(InvalidRequest); }
      var resource, _ := SplitArguments(call.arguments.value, offer.value.resourceKeys);
      var row := Request(
        call.agentId, call.workspaceId, call.service, call.operation,
        resource, if offer.value.write then call.change else "", Received, "");
      var rid := store.NewId();
      FreshIsUndecided(store, rid);
      store.Yield(me);
      ghost var mid := store.run;
      var created := store.CreateRequest(rid, row, me);
      if created.Err? { return Err(created.code); }
      ContinuesTransitive(first, mid, store.run);
      return Ok(rid);
    }

    /** Decide: the inputs of the stored request, then the pipeline. */
    method Decide(rid: Id, operationId: Id, request: Request, around: Surroundings, ghost me: Tid)
      returns (r: Result<HandleResult>, ghost decided: seq<Act>, ghost on: Option<Grounds>)
      requires Wired() && store.Valid() && Thr(store.Cur(), me) == Thread(Idle, Off)
      requires rid in store.requests && store.requests[rid] == request && PlainNames(around)
      modifies store
      ensures store.Acted(me, decided) && HandleActs(decided, rid, r)
      ensures r.Ok? && r.value.outcome.verdict == D.AutoAllow ==>
        && AllowedOn(decided, rid, request, on)
        && MayRun(store, me, rid, decided[0].plan.scope, r.value.leaseId.value)
        && Thr(store.Cur(), me).meter.Off?
      ensures r.Ok? ==> rid in store.requests && store.requests[rid].status == r.value.status
      ensures on.Some? <==> Answerable(around)
      ensures on.Some? ==> on.value.inputs.request == request
      ensures r.Ok? ==> on.Some? && rid != "" && operationId != ""
      ensures store.alone && on.Some? && rid != "" && operationId != "" ==>
        && Resolves(on.value, pipeline.mode, old(store.Rows())) && store.now == old(store.now)
        && (r.Ok? <==> && request.status == Received
                       && (on.value.basis.Some? ==> Undecided(old(store.decisions), rid)))
        && (r.Ok? ==>
              && r.value.outcome == OutcomeOn(on.value, store.now)
              && LeasesLeft(old(store.leases), store.leases, on.value, r.value))
    {
      decided, on := [], None;
      ContinuesReflexive(store.run);
      var inputs := InputsFor(rid, operationId, request, around);
      if inputs.Err? { return Err(inputs.code), decided, on; }
      ghost var went: Grounds;
      r, decided, went := pipeline.Handle(inputs.value, me);
      on := Some(went);
      if r.Ok? && r.value.outcome.verdict == D.AutoAllow { AllowedShape(decided, rid, r); }
    }

    /** Call: open, decide, and only for an automatic allow execute. A refusal sends nothing, and what is
        executed was decided for what this very call stored. Alone the answer is the decision on what is
        stored, and an allowed call goes out exactly unless the lease it reuses is used up. */
    method Call(call: ToolCall, operationId: Id, around: Surroundings, ghost me: Tid)
      returns (r: Result<CallOutcome>, ghost rid: Id, ghost decided: seq<Act>, ghost executed: seq<Act>,
               ghost on: Option<Grounds>)
      requires Wired() && store.Valid() && Thr(store.Cur(), me) == Thread(Idle, Off) && PlainNames(around)
      modifies store
      ensures rid == "" ==> r.Err? && store.Acted(me, [])
      ensures rid != "" ==>
        && RowFor(call, around.registry).Ok?
        && var asked := RowFor(call, around.registry).value;
        && store.Acted(me, [Act.CreateRequest(rid, asked)] + decided + executed)
        && (executed != [] ==> AllowedOn(decided, rid, asked, on))
      ensures r.Ok? && r.value.Refused? ==> executed == [] && r.value.verdict != D.AutoAllow
      ensures r.Ok? && r.value.Executed? ==>
        && rid in store.requests && store.requests[rid].status == Ending(r.value.succeeded)
        && exists lid :: AdapterExecutedEvent(rid, lid, r.value.succeeded) in store.ledger
      ensures store.alone ==> (rid != "" <==> RowFor(call, around.registry).Ok?)
      ensures store.alone && rid != "" && operationId != "" ==>
        && (on.Some? <==> Answerable(around))
        && (on.None? ==> r.Err? && executed == [])
        && (on.Some? ==>
              && on.value.inputs.request == RowFor(call, around.registry).value
              && Resolves(on.value, pipeline.mode, old(store.Rows()))
              && Answered(on.value, old(store.Rows()), store.Rows(), rid, Act.Send in executed, r))
    {
      rid, decided, executed, on := "", [], [], None;
      ghost var first := store.run;
      var entered := Open(call, around.registry, me);
      if entered.Err? { return Err(entered.code), rid, decided, executed, on; }
      rid := entered.value;
      ghost var asked := [Act.CreateRequest(rid, RowFor(call, around.registry).value)];
      ghost var mid := store.run;
      r, decided, executed, on := Answer(entered.value, operationId, store.requests[entered.value], around, me);
      ContinuesTransitive(first, mid, store.run);
      Rebracket3(Own(first.acts, me), asked, decided, executed);
      if store.alone && operationId != "" && on.Some? {
        OtherRequestsAside(on.value, pipeline.mode, old(store.Rows()), Last(mid).db, store.Rows(), rid,
                           Act.Send in executed, r);
      }
    }

    /** The call once its request is stored. */
    method Answer(rid: Id, operationId: Id, request: Request, around: Surroundings, ghost me: Tid)
      returns (r: Result<CallOutcome>, ghost decided: seq<Act>, ghost executed: seq<Act>, ghost on: Option<Grounds>)
      requires Wired() && store.Valid() && Thr(store.Cur(), me) == Thread(Idle, Off)
      requires rid in store.requests && store.requests[rid] == request && PlainNames(around)
      modifies store
      ensures store.Acted(me, decided + executed)
      ensures executed != [] ==> AllowedOn(decided, rid, request, on)
      ensures r.Ok? && r.value.Refused? ==> executed == [] && r.value.verdict != D.AutoAllow
      ensures r.Ok? && r.value.Executed? ==>
        && rid in store.requests && store.requests[rid].status == Ending(r.value.succeeded)
        && exists lid :: AdapterExecutedEvent(rid, lid, r.value.succeeded) in store.ledger
      ensures on.Some? <==> Answerable(around)
      ensures on.None? ==> r.Err? && executed == []
      ensures on.Some? ==> on.value.inputs.request == request
      ensures store.alone && on.Some? && rid != "" && operationId != ""
              && request.status == Received && Undecided(old(store.decisions), rid) ==>
        && Resolves(on.value, pipeline.mode, old(store.Rows()))
        && Answered(on.value, old(store.Rows()), store.Rows(), rid, Act.Send in executed, r)
    {
      executed := [];
      ghost var first := store.run;
      var handled: Result<HandleResult>;
      handled, decided, on := Decide(rid, operationId, request, around, me);
      assert decided + [] == decided;
      if handled.Err? { return Err(handled.code), decided, executed, on; }
      var verdict := handled.value.outcome.verdict;
      if verdict != D.AutoAllow { return Ok(Refused(verdict)), decided, executed, on; }
      ghost var mid, middle := store.run, store.leases;
      var lid := handled.value.leaseId.value;
      var done: Result<bool>;
      done, executed := Execute(rid, lid, store.leases[lid], me);
      ContinuesTransitive(first, mid, store.run);
      Rebracket(Own(first.acts, me), decided, executed);
      r := AnswerOf(done);
      if store.alone && request.status == Received && Undecided(old(store.decisions), rid) {
        RunInv(first, |first.acts|);
        RunAnswers(Last(first), on.value, pipeline.mode, middle, store.Rows(), rid, handled.value,
                   Act.Send in executed, done);
      }
    }
  }

  // ----- proxyLeases.Authorize -----

  datatype Caller = Caller(agentId: Id, workspaceId: Id)

  datatype Route = Route(service: string, operation: string, resource: ResourceMap, resourceKey: string)

  datatype ProxyGrant = ProxyGrant(leaseId: Id, identityId: Id)

  /** requestedScope: five dimensions from the call, the rest from the lease itself. */
  function Requested(issued: Scope, caller: Caller, route: Route): Scope {
    issued.(agentId := caller.agentId, workspaceId := caller.workspaceId, service := route.service,
            operation := route.operation, resource := route.resource, resourceKey := route.resourceKey)
  }

  predicate Prefilter(row: Lease, caller: Caller, route: Route) {
    row.agentId == caller.agentId && row.service == route.service
  }

  predicate Covering(row: Lease, caller: Caller, route: Route, at: Instant) {
    UsableFor(row, Requested(row.scope, caller, route), at)
  }

  /** The search: the first listed lease that covers the call, with or without the column filter. */
  function FirstCovering(items: seq<Item<Lease>>, caller: Caller, route: Route, at: Instant, filtered: bool)
    : Option<Id>
  {
    if items == [] then None
    else if (!filtered || Prefilter(items[0].row, caller, route)) && Covering(items[0].row, caller, route, at)
    then Some(items[0].id)
    else FirstCovering(items[1..], caller, route, at, filtered)
  }

  /** A lease that covers a call agrees with it on everything the call shows, so the column filter
      never hides one. */
  lemma CoveringAgrees(row: Lease, caller: Caller, route: Route, at: Instant)
    requires ColumnsAgree(row) && Definite(row.scope.resource) && Covering(row, caller, route, at)
    ensures row.scope.agentId == caller.agentId && row.scope.workspaceId == caller.workspaceId
    ensures row.scope.service == route.service && row.scope.operation == route.operation
    ensures row.scope.resource == route.resource
    ensures Prefilter(row, caller, route)
  {
    CoveredAgrees(row.scope, Requested(row.scope, caller, route));
  }

  /** The search finds the same lease without its agent and service filter. */
  lemma {:induction false} FilterIsIrrelevant(items: seq<Item<Lease>>, caller: Caller, route: Route, at: Instant)
    requires forall item :: item in items ==> ColumnsAgree(item.row) && Definite(item.row.scope.resource)
    ensures FirstCovering(items, caller, route, at, true) == FirstCovering(items, caller, route, at, false)
  {
    if items != [] {
      assert items[0] in items;
      if Covering(items[0].row, caller, route, at) { CoveringAgrees(items[0].row, caller, route, at); }
      FilterIsIrrelevant(items[1..], caller, route, at);
    }
  }

  /** What Authorize leaves behind when nobody else runs: one lease counted once, or nothing. */
  ghost predicate Authorized(
    before: map<Id, Lease>, after: map<Id, Lease>, found: Option<Id>, caller: Caller, route: Route, at: Instant,
    r: Result<ProxyGrant>)
  {
    if found.None? then r == Err(CredentialNotAuthorized) && after == before
    else
      && found.value in before && Covering(before[found.value], caller, route, at)
      && r == Ok(ProxyGrant(found.value, before[found.value].identityId))
      && after == before[found.value := UsedRow(before[found.value])]
  }

  /** On success exactly one lease was counted once more, and it agrees with the call on agent,
      workspace, service, operation and resource; on failure no count moved. */
  lemma AuthorizedMeans(
    before: map<Id, Lease>, after: map<Id, Lease>, found: Option<Id>, caller: Caller, route: Route, at: Instant,
    r: Result<ProxyGrant>)
    requires forall l :: l in before ==> ColumnsAgree(before[l]) && Definite(before[l].scope.resource)
    requires Authorized(before, after, found, caller, route, at, r)
    ensures r.Err? ==> after == before
    ensures r.Ok? ==>
      && r.value.leaseId in before && after.Keys == before.Keys
      && after[r.value.leaseId].used == before[r.value.leaseId].used + 1
      && (forall l :: l in before && l != r.value.leaseId ==> after[l] == before[l])
      && var scope := before[r.value.leaseId].scope;
      && scope.agentId == caller.agentId && scope.workspaceId == caller.workspaceId
      && scope.service == route.service && scope.operation == route.operation
      && scope.resource == route.resource && scope.identityId == r.value.identityId
  {
    if r.Ok? { CoveringAgrees(before[r.value.leaseId], caller, route, at); }
  }

  class ProxyLeases {
    const store: Store
    const leases: LeaseManager

    ghost predicate Wired() {
      leases.store == store
    }

    constructor (store: Store)
      ensures this.store == store && Wired()
    {
      this.store := store;
      leases := new LeaseManager(store);
    }

    /** Authorize. `filter` is the column test the source makes to save work; the answer does not
        depend on it. */
    method Authorize(caller: Caller, route: Route, filter: bool, ghost me: Tid)
      returns (r: Result<ProxyGrant>, ghost listed: seq<Item<Lease>>)
      requires Wired() && store.Valid() && Thr(store.Cur(), me).meter.Off?
      modifies store
      ensures store.Valid() && Continues(old(store.run), store.run)
      ensures r.Ok? ==> Thr(store.Cur(), me).meter.Paid? && Thr(store.Cur(), me).meter.leaseId == r.value.leaseId
      ensures store.alone ==>
        && Lists(listed, old(store.leases), set l | l in old(store.leases) && old(store.leases)[l].status == Active)
        && Authorized(old(store.leases), store.leases, FirstCovering(listed, caller, route, old(store.now), false),
                      caller, route, old(store.now), r)
    {
      listed := [];
      ghost var first := store.run;
      store.Yield(me);
      var active := store.ActiveLeases();
      if active.Err? { return Err(active.code), listed; }
      listed := active.value;
      Sound(store);
      ColumnsListed(store.Cur(), listed);
      FilterIsIrrelevant(listed, caller, route, store.now);
      ghost var mid := store.run;
      r := Search(active.value, caller, route, filter, me);
      ContinuesTransitive(first, mid, store.run);
    }

    /** The loop over the listing; a failed Use, for whatever reason, moves on to the next lease. */
    method Search(items: seq<Item<Lease>>, caller: Caller, route: Route, filter: bool, ghost me: Tid)
      returns (r: Result<ProxyGrant>)
      requires Wired() && store.Valid() && Thr(store.Cur(), me).meter.Off?
      requires forall item :: item in items ==> item.id in store.leases && store.leases[item.id] == item.row
      modifies store
      ensures store.Valid() && Continues(old(store.run), store.run)
      ensures r.Ok? ==> Thr(store.Cur(), me).meter.Paid? && Thr(store.Cur(), me).meter.leaseId == r.value.leaseId
      ensures store.alone ==>
        Authorized(old(store.leases), store.leases, FirstCovering(items, caller, route, old(store.now), filter),
                   caller, route, old(store.now), r)
    {
      ghost var first := store.run;
      ContinuesReflexive(first);
      for i := 0 to |items|
        invariant store.Valid() && Continues(first, store.run) && Thr(store.Cur(), me).meter.Off?
        invariant store.alone ==> store.leases == old(store.leases) && store.now == old(store.now)
        invariant store.alone ==>
          FirstCovering(items, caller, route, old(store.now), filter)
          == FirstCovering(items[i..], caller, route, old(store.now), filter)
      {
        var candidate := items[i];
        assert items[i..][0] == candidate && items[i..][1..] == items[i + 1..];
        if filter && !Prefilter(candidate.row, caller, route) { continue; }
        ghost var mid := store.run;
        var used := Try(candidate, caller, route, me);
        ContinuesTransitive(first, mid, store.run);
        if used.Ok? { return Ok(ProxyGrant(candidate.id, used.value.identityId)); }
      }
      return Err(CredentialNotAuthorized);
    }

    /** One candidate: the scope it would have to cover, and the attempt to use it. */
    method Try(candidate: Item<Lease>, caller: Caller, route: Route, ghost me: Tid) returns (r: Result<Lease>)
      requires Wired() && store.Valid() && Thr(store.Cur(), me).meter.Off?
      modifies store
      ensures store.Valid() && Continues(old(store.run), store.run)
      ensures r.Err? ==> Thr(store.Cur(), me).meter.Off?
      ensures r.Ok? ==> Thr(store.Cur(), me).meter.Paid? && Thr(store.Cur(), me).meter.leaseId == candidate.id
      ensures store.alone && candidate.id in old(store.leases) && old(store.leases)[candidate.id] == candidate.row ==>
        && (r.Ok? <==> Covering(candidate.row, caller, route, old(store.now)))
        && store.leases == (if r.Ok? then old(store.leases)[candidate.id := UsedRow(candidate.row)]
                            else old(store.leases))
        && (r.Ok? ==> r.value == store.leases[candidate.id]) && store.now == old(store.now)
    {
      ghost var first := store.run;
      ghost var acts: seq<Act>;
      r, acts := leases.Use(candidate.id, Requested(candidate.row.scope, caller, route), me);
      if r.Err? {
        ghost var mid := store.run;
        ghost var next := DropBacked(store.Cur(), me);
        store.Note(me, DropMeter, next);
        ContinuesTransitive(first, mid, store.run);
      }
    }
  }

  lemma ColumnsListed(s: State, items: seq<Item<Lease>>)
    requires Inv(s)
    requires forall k :: 0 <= k < |items| ==> items[k].id in s.db.leases && items[k].row == s.db.leases[items[k].id]
    ensures forall item :: item in items ==> ColumnsAgree(item.row) && Definite(item.row.scope.resource)
  {
    forall item | item in items ensures ColumnsAgree(item.row) && Definite(item.row.scope.resource) {
      InvLease(s, item.id);
    }
  }
}
