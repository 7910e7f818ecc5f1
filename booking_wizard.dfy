/** The three-step booking page (src/pages/BookingPage.tsx): the service lookup with its
    not-found view, step 1 (a date from the two-week grid and a time slot), step 2 (contact
    details with their rules) and the step-3 confirmation. Dates are abstract: a moment is a
    day number and the milliseconds since that day's midnight, and the `yyyy-MM-dd` string
    the page stores is represented by the day number. */
module BookingWizard {
  import opened Common
  import opened FormRules
  import opened ServiceCatalog

  /** The page's own catalog: the first two services of the mock catalog. */
  const BookingServices: seq<Service> := Catalog[..2]

  const MillisPerDay: int := 86400000

  /** A JavaScript `Date` as the page uses it: a day and a time within it. */
  datatype Moment = Moment(day: int, millis: int)

  predicate ValidMoment(m: Moment) {
    0 <= m.millis < MillisPerDay
  }

  /** The date buttons are midnights. */
  function Midnight(day: int): Moment {
    Moment(day, 0)
  }

  /** `date < today`, comparing the two instants. */
  predicate IsPast(date: Moment, now: Moment) {
    date.day < now.day || (date.day == now.day && date.millis < now.millis)
  }

  /** Today's own button is disabled at every instant except midnight itself, because the
      button's instant is midnight and `today` is the current instant; days after today
      are never disabled, days before it always are. */
  lemma TodayDisabledAfterMidnight(now: Moment, day: int)
    requires ValidMoment(now)
    ensures IsPast(Midnight(now.day), now) <==> now.millis > 0
    ensures day > now.day ==> !IsPast(Midnight(day), now)
    ensures day < now.day ==> IsPast(Midnight(day), now)
  {
  }

  /** `Partial<BookingFormData>`: the draft the wizard accumulates. */
  datatype Draft = Draft(
    date: Option<int>,
    timeSlot: Option<string>,
    address: Option<string>,
    phone: Option<string>,
    email: Option<string>,
    notes: Option<string>)

  const EmptyDraft: Draft := Draft(None, None, None, None, None, None)

  /** The fields the step-2 form registers. */
  datatype ContactForm = ContactForm(address: string, phone: string, email: string, notes: string)

  /** `{ ...bookingDetails, ...data }`: the form's fields override the draft's, and the date
      and slot the draft holds are kept. */
  function Merge(draft: Draft, data: ContactForm): (m: Draft)
    ensures m.date == draft.date && m.timeSlot == draft.timeSlot
    ensures m.address == Some(data.address) && m.phone == Some(data.phone)
    ensures m.email == Some(data.email) && m.notes == Some(data.notes)
  {
    draft.(address := Some(data.address), phone := Some(data.phone),
           email := Some(data.email), notes := Some(data.notes))
  }

  /** The step-2 rules: address and phone required, email required and matching the pattern,
      notes free. */
  datatype ContactErrors = ContactErrors(
    address: Option<string>,
    phone: Option<string>,
    email: Option<string>)

  function ContactFormErrors(data: ContactForm): ContactErrors {
    ContactErrors(
      Required(data.address, "Address is required"),
      Required(data.phone, "Phone number is required"),
      EmailRule(data.email))
  }

  predicate ContactFormValid(data: ContactForm) {
    ContactFormErrors(data) == ContactErrors(None, None, None)
  }

  /** The step-2 form is submitted when the browser accepts the email input and the rules
      pass. */
  predicate ContactFormSubmits(data: ContactForm) {
    BrowserAcceptsEmail(data.email) && ContactFormValid(data)
  }

  /** The step-2 rules pass exactly when the address and the phone are given and the email
      matches the pattern, whatever the notes; the form is submitted exactly when, in
      addition, the email is a valid address for the browser. */
  lemma ContactFormValidIff(data: ContactForm)
    ensures ContactFormValid(data) <==>
            data.address != "" && data.phone != "" && MatchesEmailPattern(data.email)
    ensures ContactFormSubmits(data) <==>
            data.address != "" && data.phone != "" && MatchesEmailPattern(data.email) &&
            HtmlEmail(data.email)
    ensures ContactFormSubmits(data) ==> ContactFormSubmits(data.(notes := ""))
  {
    EmailFieldPassesIff(data.email);
  }

  /** What the page renders. */
  datatype Screen = NotFound | Step(step: int)

  /** The order summary of step 2 and the confirmation of step 3. */
  datatype Receipt = Receipt(serviceName: string, date: Option<int>, timeSlot: Option<string>, total: real)

  class BookingPage {
    /** `services.find(s => s.id === serviceId)`. */
    const service: Option<Service>
    var currentStep: int
    var details: Draft
    var selectedDate: Moment
    var selectedSlot: Option<string>

    /** The step is 1 to 3, and from step 2 on the draft holds the chosen date and slot. */
    predicate Valid()
      reads this
    {
      && 1 <= currentStep <= 3
      && (currentStep >= 2 ==> details.date.Some? && Truthy(details.timeSlot))
    }

    /** The state hooks run before the not-found check: step 1, an empty draft, the current
        instant as the selected date and no slot. */
    constructor(services: seq<Service>, serviceId: string, now: Moment)
      ensures service == FindService(services, serviceId)
      ensures currentStep == 1 && details == EmptyDraft
      ensures selectedDate == now && selectedSlot == None
      ensures Valid()
    {
      service := FindService(services, serviceId);
      currentStep := 1;
      details := EmptyDraft;
      selectedDate := now;
      selectedSlot := None;
    }

    /** An unknown service shows the not-found view and never a step. */
    function View(): (s: Screen)
      reads this
      ensures s == NotFound <==> service.None?
      ensures s.Step? ==> s.step == currentStep
    {
      if service.None? then NotFound else Step(currentStep)
    }

    /** The Continue button of step 1 is disabled while `!selectedTimeSlot`, that is until a
        non-empty slot is chosen (the date is always a `Date` object, hence truthy). */
    predicate ContinueEnabled()
      reads this
    {
      Truthy(selectedSlot)
    }

    /** A click on the date button for `date`: ignored when the date is past, otherwise
        `handleDateSelect`, which selects the date and clears the slot. */
    method ClickDate(date: Moment, now: Moment)
      requires service.Some? && Valid()
      modifies this
      ensures Valid()
      ensures IsPast(date, now) ==> selectedDate == old(selectedDate) && selectedSlot == old(selectedSlot)
      ensures !IsPast(date, now) ==> selectedDate == date && selectedSlot == None
      ensures !IsPast(date, now) ==> !ContinueEnabled()
      ensures currentStep == old(currentStep) && details == old(details)
    {
      if !IsPast(date, now) {
        selectedDate := date;
        selectedSlot := None;
      }
    }

    /** `handleTimeSlotSelect`. */
    method SelectSlot(slot: string)
      requires service.Some? && Valid()
      modifies this
      ensures Valid()
      ensures selectedSlot == Some(slot)
      ensures ContinueEnabled() <==> slot != ""
      ensures currentStep == old(currentStep) && details == old(details)
      ensures selectedDate == old(selectedDate)
    {
      selectedSlot := Some(slot);
    }

    /** `handleContinue`: at step 1 with a non-empty slot, the draft takes the date and the slot and the
        wizard moves to step 2; at step 2 it moves to step 3; otherwise nothing happens. */
    method Continue()
      requires service.Some? && Valid()
      modifies this
      ensures Valid()
      ensures old(currentStep) == 1 && Truthy(old(selectedSlot)) ==>
                currentStep == 2 &&
                details == old(details).(date := Some(old(selectedDate).day),
                                         timeSlot := old(selectedSlot))
      ensures old(currentStep) == 1 && !Truthy(old(selectedSlot)) ==>
                currentStep == 1 && details == old(details)
      ensures old(currentStep) == 2 ==> currentStep == 3 && details == old(details)
      ensures old(currentStep) == 3 ==> currentStep == 3 && details == old(details)
      ensures selectedDate == old(selectedDate) && selectedSlot == old(selectedSlot)
    {
      if currentStep == 1 && Truthy(selectedSlot) {
        details := details.(date := Some(selectedDate.day), timeSlot := selectedSlot);
        currentStep := 2;
      } else if currentStep == 2 {
        currentStep := 3;
      }
    }

    /** `handleBack`: one step back, never below step 1; the draft is untouched. */
    method Back()
      requires service.Some? && Valid()
      modifies this
      ensures Valid()
      ensures currentStep == if old(currentStep) > 1 then old(currentStep) - 1 else 1
      ensures details == old(details)
      ensures selectedDate == old(selectedDate) && selectedSlot == old(selectedSlot)
    {
      if currentStep > 1 {
        currentStep := currentStep - 1;
      }
    }

    /** Submitting the step-2 form: the browser checks the email input, then react-hook-form
        calls `onSubmit` only when the fields pass their rules; `onSubmit` builds the merged record, which it only logs, and moves
        to step 3 without storing the record in the draft. */
    method Submit(data: ContactForm) returns (submitted: Option<Draft>)
      requires service.Some? && Valid() && currentStep == 2
      modifies this
      ensures Valid()
      ensures submitted.Some? <==> ContactFormSubmits(data)
      ensures submitted.Some? ==> submitted.value == Merge(old(details), data) && currentStep == 3
      ensures submitted.None? ==> currentStep == 2
      ensures details == old(details)
      ensures selectedDate == old(selectedDate) && selectedSlot == old(selectedSlot)
    {
      if ContactFormSubmits(data) {
        submitted := Some(Merge(details, data));
        currentStep := 3;
      } else {
        submitted := None;
      }
    }

    /** The summary of step 2 and the confirmation of step 3: the total is the service's price
        itself, with nothing added. */
    function Summary(): (r: Receipt)
      requires service.Some?
      reads this
      ensures r.total == service.value.price && r.serviceName == service.value.name
      ensures r.date == details.date && r.timeSlot == details.timeSlot
    {
      Receipt(service.value.name, details.date, details.timeSlot, service.value.price)
    }
  }

  /** The page knows services '1' and '2' only; any other id gives the not-found view. */
  lemma BookingLookup(id: string)
    ensures FindService(BookingServices, id).Some? <==> id == "1" || id == "2"
    ensures FindService(BookingServices, "1") == Some(Catalog[0])
  {
    CatalogShape();
    assert BookingServices == [Catalog[0], Catalog[1]];
  }
}
