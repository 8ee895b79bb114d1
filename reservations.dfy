/**
 * The "My reservations" page: the status label, which buttons a card shows
 * and enables, and the page's bookkeeping of the card whose return or delete
 * is in flight.
 */
module Reservations {
  import opened Wrappers
  import opened Types

  /** `statusLabel(status)` on the status string the backend sent. */
  function StatusLabel(status: string): (text: string)
    ensures status == "ACTIVE" ==> text == "Active"
    ensures status == "FINISHED" ==> text == "Returned"
    ensures status != "ACTIVE" && status != "FINISHED" ==> text == status
  {
    if status == "ACTIVE" then "Active"
    else if status == "FINISHED" then "Returned"
    else status
  }

  /** The two statuses the client knows get distinct labels, neither of which is a raw status. */
  lemma StatusLabelsOfKnownStatuses(s: ReservationStatus)
    ensures StatusLabel(ReservationStatusName(s)) == (if s == ReservationActive then "Active" else "Returned")
    ensures StatusLabel(ReservationStatusName(s)) != ReservationStatusName(s)
  {
  }

  /** `canReturn`: only an ACTIVE reservation can be returned. */
  predicate CanReturn(r: Reservation) {
    r.status == ReservationActive
  }

  /** `canDelete`: the Delete button is offered to admins only, whatever the reservation. */
  predicate CanDelete(viewer: Option<User>) {
    viewer.Some? && viewer.value.role == Admin
  }

  /** What a card renders of its buttons. */
  datatype CardView = CardView(
    status: string,
    returnDisabled: bool,
    returnLabel: string,
    deleteShown: bool,
    deleteDisabled: bool,
    deleteLabel: string)

  /** `ReservationCard`: the button state for reservation `r` and the card's flags. */
  function RenderCard(r: Reservation, returning: bool, deleting: bool, canDelete: bool): (v: CardView)
    ensures v.status == StatusLabel(ReservationStatusName(r.status))
    ensures v.returnDisabled <==> !CanReturn(r) || returning || deleting
    ensures v.returnLabel == if returning then "Returning…" else "Return"
    ensures v.deleteShown <==> canDelete
    ensures v.deleteDisabled <==> returning || deleting
    ensures v.deleteLabel == if deleting then "Deleting…" else "Delete"
  {
    CardView(
      StatusLabel(ReservationStatusName(r.status)),
      !(r.status == ReservationActive) || returning || deleting,
      if returning then "Returning…" else "Return",
      canDelete,
      returning || deleting,
      if deleting then "Deleting…" else "Delete")
  }

  /** The page: which card's return or delete is in flight. */
  class ReservationsPage {
    var returningId: Option<int>
    var deletingId: Option<int>
    /** Whether the return and the delete mutations are pending. */
    var returnPending: bool
    var deletePending: bool

    constructor ()
      ensures returningId.None? && deletingId.None? && !returnPending && !deletePending
    {
      returningId, deletingId := None, None;
      returnPending, deletePending := false, false;
    }

    /** `returning` for the card of reservation `id`. */
    predicate IsReturning(id: int)
      reads this
    {
      returningId == Some(id) && returnPending
    }

    /** `deleting` for the card of reservation `id`. */
    predicate IsDeleting(id: int)
      reads this
    {
      deletingId == Some(id) && deletePending
    }

    /** The card of reservation `r` as the page renders it for `viewer`. */
    function Card(r: Reservation, viewer: Option<User>): (v: CardView)
      reads this
      ensures v.returnDisabled <==> !CanReturn(r) || IsReturning(r.id) || IsDeleting(r.id)
      ensures v.deleteShown <==> CanDelete(viewer)
      ensures v.deleteDisabled <==> IsReturning(r.id) || IsDeleting(r.id)
    {
      RenderCard(r, IsReturning(r.id), IsDeleting(r.id), CanDelete(viewer))
    }

    /**
     * `onReturn(id)`, given the answer to the confirmation: declined, nothing
     * happens; confirmed, the card is marked and the return mutation starts
     * for `id` (`started`).
     */
    method OnReturn(id: int, confirmed: bool) returns (started: Option<int>)
      modifies this`returningId, this`returnPending
      ensures !confirmed ==> started.None? && returningId == old(returningId) && returnPending == old(returnPending)
      ensures confirmed ==> started == Some(id) && returningId == Some(id) && returnPending
      ensures confirmed ==> IsReturning(id) && forall other :: other != id ==> !IsReturning(other)
      ensures confirmed ==> forall r: Reservation, viewer: Option<User> :: r.id == id ==>
                Card(r, viewer).returnDisabled && Card(r, viewer).deleteDisabled && Card(r, viewer).returnLabel == "Returning…"
    {
      started := None;
      if !confirmed {
        return;
      }
      returningId := Some(id);
      returnPending := true;
      started := Some(id);
    }

    /** The return mutation settles, with success or failure alike: no card is returning. */
    method OnReturnSettled()
      modifies this`returningId, this`returnPending
      ensures returningId.None? && !returnPending
      ensures forall id :: !IsReturning(id)
      ensures forall r: Reservation, viewer: Option<User> :: Card(r, viewer).returnLabel == "Return"
    {
      returningId := None;
      returnPending := false;
    }

    /** `onDelete(id)`, given the answer to the confirmation. */
    method OnDelete(id: int, confirmed: bool) returns (started: Option<int>)
      modifies this`deletingId, this`deletePending
      ensures !confirmed ==> started.None? && deletingId == old(deletingId) && deletePending == old(deletePending)
      ensures confirmed ==> started == Some(id) && deletingId == Some(id) && deletePending
      ensures confirmed ==> IsDeleting(id) && forall other :: other != id ==> !IsDeleting(other)
      ensures confirmed ==> forall r: Reservation, viewer: Option<User> :: r.id == id ==>
                Card(r, viewer).returnDisabled && Card(r, viewer).deleteDisabled && Card(r, viewer).deleteLabel == "Deleting…"
    {
      started := None;
      if !confirmed {
        return;
      }
      deletingId := Some(id);
      deletePending := true;
      started := Some(id);
    }

    /** The delete mutation settles: no card is deleting. */
    method OnDeleteSettled()
      modifies this`deletingId, this`deletePending
      ensures deletingId.None? && !deletePending
      ensures forall id :: !IsDeleting(id)
      ensures forall r: Reservation, viewer: Option<User> :: Card(r, viewer).deleteLabel == "Delete"
    {
      deletingId := None;
      deletePending := false;
    }
  }
}
