/** The admin "Bookings" screen (src/pages/admin/AdminBookings.tsx): the fixture of twenty
    bookings, ten per page, and the row actions. */
module AdminBookings {
  import opened Common
  import opened Listing
  import opened BookingRows

  const PageSize: int := 10

  /** The mock data: booking i is assigned provider `i % 3 + 1`. */
  const Bookings: seq<BookingRow> := seq(20, i requires 0 <= i < 20 => FixtureRow(i, i % 3 + 1))

  lemma BookingsWellFormed()
    ensures |Bookings| == 20
    ensures forall k :: 0 <= k < |Bookings| ==> WellFormed(Bookings[k])
  {
  }

  /** `currentBookings`: the page `page` of the filtered bookings, at most ten contiguous
      bookings that all match. */
  function CurrentBookings(rows: seq<BookingRow>, term: string, f: StatusFilter, page: int)
    : (r: seq<BookingRow>)
    requires forall k :: 0 <= k < |rows| ==> WellFormed(rows[k])
    ensures |r| <= PageSize
    ensures forall k :: 0 <= k < |r| ==> r[k] in rows && Matches(r[k], term, f)
    ensures var filtered := FilterBookings(rows, term, f);
            1 <= page && (page - 1) * PageSize <= |filtered| ==>
              r == filtered[(page - 1) * PageSize..Min(page * PageSize, |filtered|)]
    ensures var filtered := FilterBookings(rows, term, f);
            TotalPages(|filtered|, PageSize) < page ==> r == []
  {
    var filtered := FilterBookings(rows, term, f);
    if TotalPages(|filtered|, PageSize) < page then
      PageBeyondEndIsEmpty(filtered, page, PageSize);
      PageItems(filtered, page, PageSize)
    else
      PageItems(filtered, page, PageSize)
  }

  /** `totalPages`. */
  function PageCount(rows: seq<BookingRow>, term: string, f: StatusFilter): nat
    requires forall k :: 0 <= k < |rows| ==> WellFormed(rows[k])
  {
    TotalPages(|FilterBookings(rows, term, f)|, PageSize)
  }

  /** In the twenty-booking fixture every status occurs exactly five times, so the status
      filter 'pending' with an empty search shows five bookings, all on page 1. */
  lemma FixtureStatusCounts(s: BookingStatus)
    ensures |FilterBookings(Bookings, "", OnlyStatus(s))| == 5
    ensures PageCount(Bookings, "", OnlyStatus(s)) == 1
  {
    forall i | 0 <= i < |Bookings|
      ensures WellFormed(Bookings[i]) && Bookings[i].status == StatusAt(i % 4)
    {
      assert Bookings[i] == FixtureRow(i, i % 3 + 1);
    }
    CyclicStatusCount(Bookings, s, 20);
    assert Bookings[..20] == Bookings;
    assert FilterBookings(Bookings, "", OnlyStatus(s)) == Filter(Bookings, Keep("", OnlyStatus(s)));
  }

  datatype RowAction = ViewDetails | EditBooking | CancelBooking

  /** The action buttons of a row: the same three whatever the status, so Cancel is offered
      even for a booking that is completed or already cancelled; none has a handler. */
  function RowActions(status: BookingStatus): (actions: seq<RowAction>)
    ensures |actions| == 3
    ensures ViewDetails in actions && EditBooking in actions && CancelBooking in actions
  {
    [ViewDetails, EditBooking, CancelBooking]
  }
}
