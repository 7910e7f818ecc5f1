/** The provider "My Bookings" screen (src/pages/provider/ProviderBookings.tsx): the same
    search, status filter and pagination as the admin screen, the status-dependent actions,
    and the details modal. */
module ProviderBookings {
  import opened Common
  import opened Listing
  import opened BookingRows

  const PageSize: int := 10

  /** The mock data: every booking belongs to provider 1. */
  const Bookings: seq<BookingRow> := seq(20, i requires 0 <= i < 20 => FixtureRow(i, 1))

  /** Every fixture booking is the signed-in provider's, and the name lookups succeed. */
  lemma BookingsAreProviders()
    ensures |Bookings| == 20
    ensures forall k :: 0 <= k < |Bookings| ==> WellFormed(Bookings[k]) && Bookings[k].providerNo == 1
  {
  }

  /** `currentBookings`: at most ten matching bookings, the page `page` of the filtered list,
      and none past the last page. */
  function CurrentBookings(rows: seq<BookingRow>, term: string, f: StatusFilter, page: int)
    : (r: seq<BookingRow>)
    requires forall k :: 0 <= k < |rows| ==> WellFormed(rows[k])
    ensures |r| <= PageSize
    ensures forall k :: 0 <= k < |r| ==> r[k] in rows && Matches(r[k], term, f)
    ensures var filtered := FilterBookings(rows, term, f);
            1 <= page && (page - 1) * PageSize <= |filtered| ==>
              r == filtered[(page - 1) * PageSize..Min(page * PageSize, |filtered|)]
    ensures var filtered := FilterBookings(rows, term, f);
            TotalPages(|filtered|, PageSize) < page ==> r == []
  {
    var filtered := FilterBookings(rows, term, f);
    if TotalPages(|filtered|, PageSize) < page then
      PageBeyondEndIsEmpty(filtered, page, PageSize);
      PageItems(filtered, page, PageSize)
    else
      PageItems(filtered, page, PageSize)
  }

  datatype Action = ViewDetails | Accept | Decline | MarkCompleted

  /** The buttons that depend on the status: Accept and Decline for a pending booking, Mark as
      Completed for a confirmed one, nothing for a completed or cancelled one. */
  function StatusActions(s: BookingStatus): (actions: seq<Action>)
    ensures Accept in actions <==> s == Pending
    ensures Decline in actions <==> s == Pending
    ensures MarkCompleted in actions <==> s == Confirmed
    ensures ViewDetails !in actions
    ensures actions == [] <==> s == Completed || s == Cancelled
  {
    match s
    case Pending => [Accept, Decline]
    case Confirmed => [MarkCompleted]
    case Completed => []
    case Cancelled => []
  }

  /** A table row: the View button always, then the status actions. */
  function RowButtons(s: BookingStatus): (buttons: seq<Action>)
    ensures |buttons| >= 1 && buttons[0] == ViewDetails
    ensures buttons[1..] == StatusActions(s)
  {
    [ViewDetails] + StatusActions(s)
  }

  /** `selectedBooking.notes || 'No additional notes provided.'` */
  function NotesText(notes: Option<string>): (text: string)
    ensures Truthy(notes) ==> text == notes.value
    ensures !Truthy(notes) ==> text == "No additional notes provided."
    ensures text != ""
  {
    if Truthy(notes) then notes.value else "No additional notes provided."
  }

  /** What the details modal shows about a booking. */
  datatype ModalView = ModalView(
    id: string,
    statusColor: string,
    icon: StatusIcon,
    clientName: string,
    serviceName: string,
    timeSlot: string,
    notes: string,
    actions: seq<Action>)

  /** The modal is rendered exactly when a booking is selected, and offers the same status
      actions as that booking's row, without View. */
  function Modal(selected: Option<BookingRow>): (m: Option<ModalView>)
    ensures m.Some? <==> selected.Some?
    ensures m.Some? ==> m.value.id == selected.value.id
    ensures m.Some? ==> [ViewDetails] + m.value.actions == RowButtons(selected.value.status)
    ensures m.Some? ==> m.value.notes != ""
  {
    match selected
    case None => None
    case Some(b) =>
      Some(ModalView(b.id, StatusColor(b.status), IconFor(b.status), ClientName(b),
                     ServiceName(b), b.timeSlot, NotesText(b.notes), StatusActions(b.status)))
  }

  /** The booking-details part of the screen's state. */
  class DetailsState {
    var selected: Option<BookingRow>

    constructor()
      ensures selected == None
    {
      selected := None;
    }

    /** `handleViewBooking`: the clicked booking becomes the selected one. */
    method ViewBooking(b: BookingRow)
      modifies this
      ensures selected == Some(b)
      ensures Modal(selected).Some? && Modal(selected).value.id == b.id
    {
      selected := Some(b);
    }

    /** `handleCloseDetails`: nothing is selected and the modal disappears. */
    method CloseDetails()
      modifies this
      ensures selected == None
      ensures Modal(selected) == None
    {
      selected := None;
    }
  }
}
