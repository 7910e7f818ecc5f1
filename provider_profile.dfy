/** The provider profile page (src/pages/provider/ProviderProfile.tsx): the week the
    schedule lists, the lookup of a day's saved hours, the decision between deleting and
    upserting a day's row with the default times an edit falls back on, the values loading
    fills the form with, and the service checkboxes. The backend calls themselves are not
    modelled; a request is described by the value it would send. */
module ProviderProfile {
  import opened Common
  import opened Listing

  /** `daysOfWeek`: the order of the schedule's rows. */
  const DaysOfWeek: seq<DayOfWeek> :=
    [Monday, Tuesday, Wednesday, Thursday, Friday, Saturday, Sunday]

  /** The schedule lists every weekday once, starting on Monday. */
  lemma DaysOfWeekAreTheWeek()
    ensures |DaysOfWeek| == 7 && DaysOfWeek[0] == Monday && DaysOfWeek[6] == Sunday
    ensures forall d: DayOfWeek :: d in DaysOfWeek
    ensures forall i, j :: 0 <= i < j < |DaysOfWeek| ==> DaysOfWeek[i] != DaysOfWeek[j]
  {
    forall d: DayOfWeek
      ensures d in DaysOfWeek
    {
      match d
      case Monday => assert DaysOfWeek[0] == d;
      case Tuesday => assert DaysOfWeek[1] == d;
      case Wednesday => assert DaysOfWeek[2] == d;
      case Thursday => assert DaysOfWeek[3] == d;
      case Friday => assert DaysOfWeek[4] == d;
      case Saturday => assert DaysOfWeek[5] == d;
      case Sunday => assert DaysOfWeek[6] == d;
    }
  }

  /** A `provider_availability` row as the page reads it. */
  datatype Availability = Availability(day: DayOfWeek, startTime: string, endTime: string)

  /** `getAvailabilityForDay`: the first saved row for the day, if any. */
  function AvailabilityForDay(rows: seq<Availability>, day: DayOfWeek): (r: Option<Availability>)
    ensures r.None? <==> forall k :: 0 <= k < |rows| ==> rows[k].day != day
    ensures r.Some? ==> exists k :: 0 <= k < |rows| && rows[k] == r.value && r.value.day == day &&
                                   forall m :: 0 <= m < k ==> rows[m].day != day
    decreases |rows|
  {
    if rows == [] then None
    else if rows[0].day == day then Some(rows[0])
    else
      var r := AvailabilityForDay(rows[1..], day);
      assert forall k :: 1 <= k < |rows| ==> rows[k] == rows[1..][k - 1];
      if r.Some? then
        ghost var k :| 0 <= k < |rows[1..]| && rows[1..][k] == r.value && r.value.day == day &&
                       forall m :: 0 <= m < k ==> rows[1..][m].day != day;
        assert rows[k + 1] == r.value;
        r
      else r
  }

  /** The request `handleAvailabilityUpdate` sends. */
  datatype AvailabilityRequest =
    | DeleteDay(day: DayOfWeek)
    | UpsertDay(row: Availability)

  /** An empty start or end time removes the day's row; otherwise the day's hours are
      upserted as given. */
  function AvailabilityUpdate(day: DayOfWeek, startTime: string, endTime: string)
    : (req: AvailabilityRequest)
    ensures req.DeleteDay? <==> startTime == "" || endTime == ""
    ensures req.DeleteDay? ==> req.day == day
    ensures req.UpsertDay? ==> req.row == Availability(day, startTime, endTime)
  {
    if startTime == "" || endTime == "" then DeleteDay(day)
    else UpsertDay(Availability(day, startTime, endTime))
  }

  /** `s || fallback` on a string. */
  function OrDefault(s: Option<string>, fallback: string): string {
    if Truthy(s) then s.value else fallback
  }

  /** The start-time input's change: the end time is the saved one, or 17:00. */
  function StartTimeEdited(rows: seq<Availability>, day: DayOfWeek, value: string): AvailabilityRequest {
    var saved := AvailabilityForDay(rows, day);
    AvailabilityUpdate(day, value, OrDefault(if saved.Some? then Some(saved.value.endTime) else None, "17:00"))
  }

  /** The end-time input's change: the start time is the saved one, or 09:00. */
  function EndTimeEdited(rows: seq<Availability>, day: DayOfWeek, value: string): AvailabilityRequest {
    var saved := AvailabilityForDay(rows, day);
    AvailabilityUpdate(day, OrDefault(if saved.Some? then Some(saved.value.startTime) else None, "09:00"), value)
  }

  /** On a day with no saved row, a new start time is saved until 17:00 and a new end time
      from 09:00; clearing either input deletes the day whatever is saved. */
  lemma EditDefaults(rows: seq<Availability>, day: DayOfWeek, value: string)
    ensures (forall k :: 0 <= k < |rows| ==> rows[k].day != day) && value != "" ==>
              StartTimeEdited(rows, day, value) == UpsertDay(Availability(day, value, "17:00")) &&
              EndTimeEdited(rows, day, value) == UpsertDay(Availability(day, "09:00", value))
    ensures value == "" ==>
              StartTimeEdited(rows, day, value) == DeleteDay(day) &&
              EndTimeEdited(rows, day, value) == DeleteDay(day)
  {
  }

  /** On a day with saved hours, editing the start keeps the saved end and editing the end
      keeps the saved start. */
  lemma EditKeepsOtherSavedTime(rows: seq<Availability>, day: DayOfWeek, value: string, k: int)
    requires 0 <= k < |rows| && rows[k].day == day && value != ""
    requires forall m :: 0 <= m < k ==> rows[m].day != day
    requires rows[k].startTime != "" && rows[k].endTime != ""
    ensures StartTimeEdited(rows, day, value) == UpsertDay(Availability(day, value, rows[k].endTime))
    ensures EndTimeEdited(rows, day, value) == UpsertDay(Availability(day, rows[k].startTime, value))
  {
    var saved := AvailabilityForDay(rows, day);
    ghost var j :| 0 <= j < |rows| && rows[j] == saved.value && saved.value.day == day &&
                   forall m :: 0 <= m < j ==> rows[m].day != day;
    assert j == k;
  }

  /** The profile row loading reads, with absent columns as None. */
  datatype ProfileRow = ProfileRow(bio: Option<string>, hourlyRate: Option<real>, serviceIds: Option<seq<string>>)

  /** `id !== serviceId` as a filter callback. */
  function Other(id: string): string -> bool {
    x => x != id
  }

  /** Unchecking a service: every occurrence of its id goes and the rest stay in order. */
  function WithoutId(ids: seq<string>, id: string): (r: seq<string>)
    ensures id !in r
    ensures forall x :: x in r <==> x in ids && x != id
    ensures exists idx :: AtPositions(r, ids, idx) &&
                          forall j :: 0 <= j < |ids| ==> (ids[j] != id <==> j in idx)
  {
    FilterKeepsOrder(ids, Other(id));
    Filter(ids, Other(id))
  }

  /** Checking a service and then unchecking it leaves the list it had without that id; when
      the id was not there before, the list it had. */
  lemma CheckThenUncheck(ids: seq<string>, id: string)
    ensures WithoutId(ids + [id], id) == WithoutId(ids, id)
    ensures id !in ids ==> WithoutId(ids + [id], id) == ids
  {
    FilterSnoc(ids, id, Other(id));
    if id !in ids {
      FilterKeepsAll(ids, Other(id));
    }
  }

  /** A backend read: the value it returned, or the error it threw. */
  datatype Fetch<T> = Fetched(value: T) | FetchFailed(message: string)

  /** The profile form's state. */
  class ProfileEditor {
    var bio: string
    var hourlyRate: real
    var selectedServices: seq<string>
    var availability: seq<Availability>

    /** The initial state: empty bio, rate 0, no services, no hours. */
    constructor()
      ensures bio == "" && hourlyRate == 0.0 && selectedServices == [] && availability == []
    {
      bio := "";
      hourlyRate := 0.0;
      selectedServices := [];
      availability := [];
    }

    /** A service's checkbox is checked when its id is selected. */
    predicate Checked(id: string)
      reads this
    {
      id in selectedServices
    }

    /** `loadProviderData` with the backend's two answers. A failed profile read throws
        before anything is set. Otherwise a profile fills the bio (or ''), the rate (or 0)
        and the selected ids (or []), and no profile leaves them; then a failed read of the
        hours throws and leaves the hours as they were, and a successful one sets them to the
        rows read, or none. A throw shows the "Failed to load provider data" toast. */
    method Load(profile: Fetch<Option<ProfileRow>>, rows: Fetch<Option<seq<Availability>>>)
      returns (toast: Option<string>)
      modifies this
      ensures profile.FetchFailed? ==>
                bio == old(bio) && hourlyRate == old(hourlyRate) &&
                selectedServices == old(selectedServices) && availability == old(availability)
      ensures profile.Fetched? && profile.value.Some? ==>
                var p := profile.value.value;
                bio == OrDefault(p.bio, "") &&
                hourlyRate == (if p.hourlyRate.Some? then p.hourlyRate.value else 0.0) &&
                selectedServices == (if p.serviceIds.Some? then p.serviceIds.value else [])
      ensures profile.Fetched? && profile.value.None? ==>
                bio == old(bio) && hourlyRate == old(hourlyRate) && selectedServices == old(selectedServices)
      ensures profile.Fetched? && rows.FetchFailed? ==> availability == old(availability)
      ensures profile.Fetched? && rows.Fetched? ==>
                availability == if rows.value.Some? then rows.value.value else []
      ensures toast.Some? <==> profile.FetchFailed? || rows.FetchFailed?
      ensures toast.Some? ==> toast.value == "Failed to load provider data"
    {
      if profile.FetchFailed? {
        return Some("Failed to load provider data");
      }
      if profile.value.Some? {
        var p := profile.value.value;
        bio := OrDefault(p.bio, "");
        hourlyRate := if p.hourlyRate.Some? then p.hourlyRate.value else 0.0;
        selectedServices := if p.serviceIds.Some? then p.serviceIds.value else [];
      }
      if rows.FetchFailed? {
        return Some("Failed to load provider data");
      }
      availability := if rows.value.Some? then rows.value.value else [];
      toast := None;
    }

    /** A checkbox change: checking appends the id, unchecking removes it everywhere. */
    method ToggleService(id: string, checked: bool)
      modifies this
      ensures checked ==> selectedServices == old(selectedServices) + [id] && Checked(id)
      ensures !checked ==> selectedServices == WithoutId(old(selectedServices), id) && !Checked(id)
      ensures forall x :: x != id ==> (Checked(x) <==> x in old(selectedServices))
      ensures bio == old(bio) && hourlyRate == old(hourlyRate) && availability == old(availability)
    {
      if checked {
        selectedServices := selectedServices + [id];
      } else {
        selectedServices := WithoutId(selectedServices, id);
      }
    }

    /** The bio textarea. */
    method SetBio(text: string)
      modifies this
      ensures bio == text
      ensures hourlyRate == old(hourlyRate) && selectedServices == old(selectedServices)
      ensures availability == old(availability)
    {
      bio := text;
    }
  }
}
