/** The admin store-approval route: `POST` moves a seller's store to
    "approved" (and activates it) or "rejected", `GET` lists the stores still
    waiting ("pending") or turned down ("rejected"). */
module StoreApproval {
  import opened Js
  import opened Entities
  import opened AuthAdmin

  const Approved: string := "approved"
  const Rejected: string := "rejected"
  const Pending: string := "pending"

  datatype Response =
    | NotAuthorized
    /** The success message: the status followed by " successfully". */
    | Done(message: string)
    /** An exception caught by the handler: an `update` whose store id is
        missing or names no store. */
    | Failed
    | StoreList(stores: map<string, StoreRecord>)

  function Status(r: Response): int {
    match r
    case NotAuthorized => 401
    case Failed => 400
    case _ => 200
  }

  /** The status followed by " successfully"; an absent status prints as "undefined". */
  function Message(status: Option<string>): string {
    (if status.Some? then status.value else "undefined") + " successfully"
  }

  /** The record after the update the handler makes for `status`. */
  function Transition(s: StoreRecord, status: string): (r: StoreRecord)
    ensures r.name == s.name && r.userId == s.userId
  {
    if status == Approved then s.(status := Approved, isActive := true)
    else if status == Rejected then s.(status := Rejected)
    else s
  }

  /** `GET`: the stores whose status is "pending" or "rejected". */
  function AwaitingReview(stores: map<string, StoreRecord>): (r: map<string, StoreRecord>)
    ensures forall id :: id in r <==> id in stores && stores[id].status in {Pending, Rejected}
    ensures forall id :: id in r ==> r[id] == stores[id]
  {
    map id | id in stores && stores[id].status in {Pending, Rejected} :: stores[id]
  }

  class StoreTable {
    var stores: map<string, StoreRecord>

    constructor (stores: map<string, StoreRecord>)
      ensures this.stores == stores
    {
      this.stores := stores;
    }

    /** `POST /api/admin/approve-store` with a body holding the store id and the new status. */
    method Review(caller: Caller, storeId: Option<string>, status: Option<string>) returns (resp: Response)
      modifies this
      ensures !IsAdminCaller(caller) ==> resp == NotAuthorized && stores == old(stores)
      ensures IsAdminCaller(caller) && status.Some? && status.value in {Approved, Rejected} ==>
        if storeId.Some? && storeId.value in old(stores) then
          && resp == Done(Message(status))
          && stores == old(stores)[storeId.value := Transition(old(stores)[storeId.value], status.value)]
        else resp == Failed && stores == old(stores)
      ensures IsAdminCaller(caller) && !(status.Some? && status.value in {Approved, Rejected}) ==>
        resp == Done(Message(status)) && stores == old(stores)
    {
      var isAdmin := IsAdminCaller(caller);
      if !isAdmin {
        return NotAuthorized;
      }
      if status == Some(Approved) || status == Some(Rejected) {
        if storeId.None? || storeId.value !in stores {
          return Failed;
        }
        stores := stores[storeId.value := Transition(stores[storeId.value], status.value)];
      }
      resp := Done(Message(status));
    }

    /** `GET /api/admin/approve-store`. */
    method ListAwaiting(caller: Caller) returns (resp: Response)
      ensures IsAdminCaller(caller) ==> resp == StoreList(AwaitingReview(stores))
      ensures !IsAdminCaller(caller) ==> resp == NotAuthorized
    {
      var isAdmin := IsAdminCaller(caller);
      if !isAdmin {
        return NotAuthorized;
      }
      resp := StoreList(AwaitingReview(stores));
    }
  }

  // ---------------------------------------------------------------------
  // The status transitions
  // ---------------------------------------------------------------------

  /** Approving sets the status and activates the store. */
  lemma ApproveActivates(s: StoreRecord)
    ensures Transition(s, Approved).status == "approved" && Transition(s, Approved).isActive
  {
  }

  /** Rejecting sets the status and leaves the active flag as it was. */
  lemma RejectKeepsActivity(s: StoreRecord)
    ensures Transition(s, Rejected).status == "rejected"
    ensures Transition(s, Rejected).isActive == s.isActive
  {
  }

  /** Any other status changes nothing, yet is reported as done. */
  lemma OtherStatusIsNoOp(s: StoreRecord, status: string)
    requires status != "approved" && status != "rejected"
    ensures Transition(s, status) == s
    ensures Message(Some(status)) == status + " successfully" && Status(Done(Message(Some(status)))) == 200
  {
  }

  /** Reviewing twice with the same status is the same as once. */
  lemma TransitionIdempotent(s: StoreRecord, status: string)
    ensures Transition(Transition(s, status), status) == Transition(s, status)
  {
  }

  /** An approved store leaves the review list, a rejected one stays on it,
      and the records of the other stores are unchanged. */
  lemma ReviewMovesStore(stores: map<string, StoreRecord>, id: string, status: string)
    requires id in stores && status in {Approved, Rejected}
    ensures var after := stores[id := Transition(stores[id], status)];
      && (status == Approved ==> id !in AwaitingReview(after))
      && (status == Rejected ==> id in AwaitingReview(after))
      && (forall other :: other != id ==> (other in AwaitingReview(after) <==> other in AwaitingReview(stores)))
  {
  }
}
