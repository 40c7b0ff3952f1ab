/**
 What the guarantees over runs say about a store as it stands: any store that the classes of this
 project have worked on, by any number of threads.
 */
module Promises {
  import opened Results
  import opened Scopes
  import opened Tables
  import opened Protocol
  import opened Invariants
  import opened Stability
  import opened Guarantees
  import opened Stores
  import D = Decisions

  /** No lease is overspent, and an exhausted one is used up. */
  lemma NoLeaseOverspent(store: Store, lid: Id)
    requires store.Valid() && lid in store.leases
    ensures store.leases[lid].used <= store.leases[lid].limit
    ensures store.leases[lid].status == Exhausted ==> store.leases[lid].used == store.leases[lid].limit
    ensures HasWildcard(store.leases[lid].scope.resource) ==> store.leases[lid].used == 0
  {
    MeteringHolds(store.run, |store.run.acts|, lid);
  }

  /** The ledger warrants this lease by this decision: an automatic allow, or a person's consent to an
      approval that is approved. */
  ghost predicate Warranted(db: Db, row: Lease, did: Id) {
    && did in db.decisions
    && if row.approvalId == "" then
         AutoAllowedEvent(did) in db.ledger && db.decisions[did].verdict == D.AutoAllow
       else
         && UserAllowedEvent(row.approvalId, did) in db.ledger && row.approvalId in db.approvals
         && db.approvals[row.approvalId].status == ApprovalStatus.Approved
         && db.approvals[row.approvalId].decisionId == did
  }

  lemma EveryLeaseIsWarranted(store: Store, lid: Id) returns (did: Id)
    requires store.Valid() && lid in store.leases
    ensures Warranted(store.Rows(), store.leases[lid], did)
  {
    RunInv(store.run, |store.run.acts|);
    InvLease(store.Cur(), lid);
    did := store.Cur().h.origin[lid];
  }

  /** A rejected, expired or pending approval has no lease; an approved one has at most one. */
  lemma AtMostOneLease(store: Store, l1: Id, l2: Id)
    requires store.Valid() && l1 in store.leases && l2 in store.leases
    requires store.leases[l1].approvalId == store.leases[l2].approvalId != ""
    ensures l1 == l2
    ensures store.leases[l1].approvalId in store.approvals
    ensures store.approvals[store.leases[l1].approvalId].status == ApprovalStatus.Approved
  {
    OneLeasePerApproval(store.run, |store.run.acts|, l1, l2);
  }

  /** A request is served only on its own automatic allow. */
  lemma ServedMeansAllowed(store: Store, rid: Id) returns (did: Id)
    requires store.Valid() && rid in store.requests && ServedStatus(store.requests[rid].status)
    ensures did in store.decisions && store.decisions[did].requestId == rid
    ensures store.decisions[did].verdict == D.AutoAllow
  {
    did := OnlyAllowedExecute(store.run, |store.run.acts|, rid);
  }
}
