/** The booking rows that the admin and provider booking screens list, the mock fixture both
    screens build, their shared search-and-status filter, and the status badge. */
module BookingRows {
  import opened Common
  import opened Listing

  /** A booking as the fixtures build it; clientNo, providerNo and serviceNo are the numbers
      after the dash in `client-N`, `provider-N` and `service-N`. Dates are left out. */
  datatype BookingRow = BookingRow(
    id: string,
    clientNo: int,
    providerNo: int,
    serviceNo: int,
    timeSlot: string,
    status: BookingStatus,
    total: int,
    notes: Option<string>)

  const ClientNames: seq<string> :=
    ["John Doe", "Jane Smith", "Emily Wilson", "Michael Brown", "Sarah Johnson"]

  const ServiceNames: seq<string> :=
    ["Plumbing Repair", "Electrical Wiring", "House Cleaning", "Appliance Installation"]

  /** The name lookups `clientNames[n - 1]` and `serviceNames[n - 1]` find a name; the search
      calls `toLowerCase` on the names, so a row without one makes the filter throw. */
  predicate WellFormed(b: BookingRow) {
    1 <= b.clientNo <= |ClientNames| && 1 <= b.serviceNo <= |ServiceNames|
  }

  function ClientName(b: BookingRow): string {
    if 1 <= b.clientNo <= |ClientNames| then ClientNames[b.clientNo - 1] else ""
  }

  function ServiceName(b: BookingRow): string {
    if 1 <= b.serviceNo <= |ServiceNames| then ServiceNames[b.serviceNo - 1] else ""
  }

  /** The status drop-down: 'all' or one status. */
  datatype StatusFilter = AllStatuses | OnlyStatus(status: BookingStatus)

  /** The filter callback: the term is found, ignoring case, in the booking id, the client's
      name or the service's name, and the status filter is 'all' or the booking's status. */
  predicate Matches(b: BookingRow, term: string, f: StatusFilter) {
    var matchesSearch := Includes(b.id, term) || Includes(ClientName(b), term) ||
                         Includes(ServiceName(b), term);
    var matchesStatus := f == AllStatuses || f.status == b.status;
    matchesSearch && matchesStatus
  }

  function Keep(term: string, f: StatusFilter): BookingRow -> bool {
    b => Matches(b, term, f)
  }

  /** `bookings.filter(...)`: exactly the matching bookings, in their original order. */
  function FilterBookings(rows: seq<BookingRow>, term: string, f: StatusFilter): (r: seq<BookingRow>)
    requires forall k :: 0 <= k < |rows| ==> WellFormed(rows[k])
    ensures forall k :: 0 <= k < |r| ==> r[k] in rows && Matches(r[k], term, f)
    ensures forall k :: 0 <= k < |rows| && Matches(rows[k], term, f) ==> rows[k] in r
    ensures exists idx :: AtPositions(r, rows, idx) &&
                          forall j :: 0 <= j < |rows| ==> (Matches(rows[j], term, f) <==> j in idx)
  {
    FilterKeepsOrder(rows, Keep(term, f));
    Filter(rows, Keep(term, f))
  }

  /** With an empty term only the status filter decides. */
  lemma EmptyTermMatchesByStatus(b: BookingRow, f: StatusFilter)
    ensures Matches(b, "", f) <==> (f == AllStatuses || f.status == b.status)
  {
    EmptyTermIncluded(b.id);
  }

  /** The status cycle of both fixtures: `['pending', 'confirmed', 'completed', 'cancelled'][i % 4]`. */
  function StatusAt(k: int): BookingStatus
    requires 0 <= k < 4
  {
    [Pending, Confirmed, Completed, Cancelled][k]
  }

  function StatusIndex(s: BookingStatus): (k: int)
    ensures 0 <= k < 4 && StatusAt(k) == s
  {
    match s
    case Pending => 0
    case Confirmed => 1
    case Completed => 2
    case Cancelled => 3
  }

  /** In a list whose statuses cycle pending, confirmed, completed, cancelled, the first k
      rows hold ceil((k - StatusIndex(s)) / 4) rows with status s, and an empty search with
      the status filter s keeps exactly those. */
  lemma {:induction false} CyclicStatusCount(rows: seq<BookingRow>, s: BookingStatus, k: nat)
    requires k <= |rows|
    requires forall i :: 0 <= i < |rows| ==> rows[i].status == StatusAt(i % 4)
    ensures |Filter(rows[..k], Keep("", OnlyStatus(s)))| == (k + 3 - StatusIndex(s)) / 4
  {
    if k > 0 {
      var keep := Keep("", OnlyStatus(s));
      var b := rows[k - 1];
      var idx := StatusIndex(s);
      CyclicStatusCount(rows, s, k - 1);
      assert rows[..k] == rows[..k - 1] + [b];
      FilterSnoc(rows[..k - 1], b, keep);
      EmptyTermMatchesByStatus(b, OnlyStatus(s));
      CycleStep(k, idx);
      CycleCountStep(|Filter(rows[..k - 1], keep)|, |Filter(rows[..k], keep)|, k, idx, keep(b));
    }
  }

  /** Position k - 1 of the cycle holds status idx exactly when (k - 1) mod 4 is idx. */
  lemma CycleStep(k: int, idx: int)
    requires 0 < k && 0 <= idx < 4
    ensures StatusAt((k - 1) % 4) == StatusAt(idx) <==> (k - 1) % 4 == idx
  {
  }

  /** The closed-form count grows by one exactly at a row of the counted status. */
  lemma CycleCountStep(prev: int, now: int, k: int, idx: int, hit: bool)
    requires 0 < k && 0 <= idx < 4
    requires prev == (k + 2 - idx) / 4
    requires now == prev + (if hit then 1 else 0)
    requires hit <==> (k - 1) % 4 == idx
    ensures now == (k + 3 - idx) / 4
  {
  }

  /** Booking i of a 20-row fixture, given the provider number it is assigned. */
  function FixtureRow(i: nat, providerNo: int): (b: BookingRow)
    ensures WellFormed(b) && b.status == StatusAt(i % 4)
  {
    BookingRow(
      "booking-" + NatToString(i + 1),
      i % 5 + 1,
      providerNo,
      i % 4 + 1,
      NatToString(9 + i % 8) + ":00",
      StatusAt(i % 4),
      75 + (i % 5) * 25,
      if i % 3 == 0 then Some("Please bring all necessary tools and materials.") else None)
  }

  /** The badge colour classes of `getStatusColor`. */
  function StatusColor(s: BookingStatus): string {
    match s
    case Pending => "bg-amber-100 text-amber-800"
    case Confirmed => "bg-blue-100 text-blue-800"
    case Completed => "bg-green-100 text-green-800"
    case Cancelled => "bg-red-100 text-red-800"
  }

  datatype StatusIcon = Clock | Calendar | CheckCircle | XCircle

  /** The badge icon of `getStatusIcon`. */
  function IconFor(s: BookingStatus): StatusIcon {
    match s
    case Pending => Clock
    case Confirmed => Calendar
    case Completed => CheckCircle
    case Cancelled => XCircle
  }

  /** Each status has its own colour and its own icon. */
  lemma StatusBadgesDistinct(a: BookingStatus, b: BookingStatus)
    requires a != b
    ensures StatusColor(a) != StatusColor(b) && IconFor(a) != IconFor(b)
  {
  }
}
