# home_fix client logic, modelled in Dafny

home_fix is a React client for booking household services (plumbing, electrical work,
cleaning, carpentry, painting, gardening) over a hosted backend. This project models the
client-side decisions of that application and proves what they promise:

- the listing screens: the public services page, the admin bookings, services and users
  screens and the provider bookings screen. Each has a search and drop-down filter,
  JavaScript `slice` pagination, a `Math.ceil` page count, a window of at most five page
  buttons, and clamped previous/next arrows. This part is written once, generically
  (`Listing`), and instantiated per screen.
- the three-step booking wizard (`BookingWizard.BookingPage`): service lookup, date and
  slot choice, contact details, confirmation.
- the form rules of sign-up, sign-in and booking step 2. The email pattern
  `^[A-Z0-9._%+-]+@[A-Z0-9.-]+\.[A-Z]{2,}$` (case-insensitive) is written as character
  classes and proved equal to a direct check.
- the six-cell email-code page with its resend countdown (`OtpVerification.OtpPage`).
- the provider profile page: service checkboxes, weekday hours, delete-or-upsert decision.
- the service detail page: tabs and FAQ accordion.
- the authentication helpers: dashboard path, profile defaults, what `verifyOTP` and
  `signUp` report.

Screens whose state the source updates in place are classes with `modifies` clauses.
Filters, rules and lookups are functions with lemmas. Every backend answer (an error, a row,
a user) is a parameter: the model describes what the client does with each possible
answer, never the network call itself.

Observations about the code, as modelled:

- Pressing "next" on a screen with no matching rows moves from page 1 to page 0. The
  button is disabled only when the current page equals the page count
  (`Listing.ListingScreen.PressNext`).
- A page past the end shows an empty slice. The current page is not reset when the
  filter shrinks the list (`Listing.PageBeyondEndIsEmpty`).
- On the services page, category "plumbing" with prices 50 to 100 shows two services,
  Pipe Repair (85) and Bathroom Plumbing Services (95) (`ServicesPage.PlumbingPriceRange`).
- A maximum price of 0 hides every service, yet the "Active Filters" row and the price
  chip stay hidden, because they test truthiness (`ServicesPage.ZeroMaximumHiddenButFilters`).
- The booking grid disables today's own date button at every instant after midnight,
  because it compares a midnight against the current instant
  (`BookingWizard.TodayDisabledAfterMidnight`).
- `signUp` reports success even when creating the profile row fails; the failure is only
  logged (`Auth.SignUpIgnoresProfileError`).
- The three email inputs are `type="email"` inside forms without `noValidate`, so the
  browser's own address check runs before the react-hook-form rules. It refuses addresses
  the pattern admits, such as "a@b..co" (`FormRules.PatternAdmitsDoubleDot`), and a form
  submits only when both checks pass (`RegisterForm.SubmitsIff`).

## Model

| member | source | states |
|---|---|---|
| Common.FindService | src/pages/BookingPage.tsx:58 | `find` by id: None exactly when no entry has the id; otherwise the first entry with it |
| Common.ContainsIffOccurs | src/pages/ServicesPage.tsx:111-112 | case-insensitive `includes` holds exactly when the lower-cased term occurs at some position of the lower-cased text |
| Common.DurationUnit | src/pages/ServiceDetailPage.tsx:153 | the unit is "hours" exactly when the duration exceeds 1, otherwise "hour" |
| Listing.Filter | src/pages/admin/AdminBookings.tsx:67-81 | `Array.filter`: every kept item passes the callback and comes from the list, and every passing item is kept |
| Listing.FilterKeepsOrder | src/pages/admin/AdminBookings.tsx:67-81 | the result is the list restricted to an increasing sequence of positions, namely exactly the positions whose item passes |
| Listing.FilterAppend | src/pages/admin/AdminBookings.tsx:67-81 | filtering a concatenation is the concatenation of the filtered parts |
| Listing.FilterKeepsAll | src/pages/ServicesPage.tsx:96-117 | when every item passes, the filter returns the list itself |
| Listing.FilterKeepsNone | src/pages/ServicesPage.tsx:96-117 | when no item passes, the filter returns the empty list |
| Listing.FilterIdempotent | src/pages/ServicesPage.tsx:96-117 | filtering twice with the same callback equals filtering once |
| Listing.FilterExactlyOne | src/pages/admin/AdminServices.tsx:101-111 | when exactly one position passes, the result is that item alone |
| Listing.FilterExactlyTwo | src/pages/admin/AdminServices.tsx:101-111 | when exactly two positions pass, the result is those two items in list order |
| Listing.PageItems | src/pages/admin/AdminBookings.tsx:84-86 | page p (from 1) is items (p-1)*size up to min(p*size, n), at most `size` of them; past the end it is empty; page 0 is empty |
| Listing.TotalPages | src/pages/admin/AdminBookings.tsx:87 | `Math.ceil(n/size)`: zero exactly for no rows, covers all n rows, and the last page is non-empty |
| Listing.PagesPartitionList | src/pages/admin/AdminBookings.tsx:84-87 | pages 1 to totalPages concatenated give back the filtered list, in order, with nothing repeated |
| Listing.PagesThroughArePrefix | src/pages/admin/AdminBookings.tsx:84-86 | pages 1 to k concatenated are the first min(k*size, n) items |
| Listing.PageBeyondEndIsEmpty | src/pages/admin/AdminBookings.tsx:84-87 | a current page above the page count shows no rows |
| Listing.PageWindow | src/pages/admin/AdminBookings.tsx:267-278 | min(totalPages, 5) buttons, consecutive numbers within 1..totalPages, including the current page whenever it is in range |
| Listing.PrevPage | src/pages/admin/AdminBookings.tsx:260 | `Math.max(1, p-1)`: never below 1, one less from page 2 on |
| Listing.NextPage | src/pages/admin/AdminBookings.tsx:295 | `Math.min(totalPages, p+1)`: never above the page count, one more below it, 0 when there are no pages |
| Listing.ListingScreen.constructor | src/pages/admin/AdminBookings.tsx:61-64 | a screen starts with an empty term, its initial filter and page 1 |
| Listing.ListingScreen.SetSearchTerm | src/pages/admin/AdminBookings.tsx:61-63 | the term changes; the filter and the current page do not |
| Listing.ListingScreen.SetFilter | src/pages/admin/AdminBookings.tsx:62-63 | the filter changes; the term and the current page do not |
| Listing.ListingScreen.ChangePage | src/pages/admin/AdminBookings.tsx:282 | a page button sets the current page to its number |
| Listing.ListingScreen.PressPrevious | src/pages/admin/AdminBookings.tsx:259-261 | ignored on page 1; otherwise `Math.max(1, p-1)`; from page 1 or above it stays at least 1 and never grows |
| Listing.ListingScreen.PressNext | src/pages/admin/AdminBookings.tsx:294-296 | ignored when the page equals the count; otherwise `Math.min(totalPages, p+1)`; stays in 1..totalPages from inside it; with no pages it moves to 0 |
| BookingRows.FilterBookings | src/pages/admin/AdminBookings.tsx:67-81 | a booking is kept exactly when the term is in its id, client name or service name and the status filter is 'all' or its status; order is kept |
| BookingRows.EmptyTermMatchesByStatus | src/pages/admin/AdminBookings.tsx:72-80 | with an empty term a booking is kept exactly when the status filter admits it |
| BookingRows.StatusIndex | src/pages/admin/AdminBookings.tsx:29 | every status has a position in the fixture's four-status cycle |
| BookingRows.CyclicStatusCount | src/pages/admin/AdminBookings.tsx:22-29 | in rows whose statuses cycle pending, confirmed, completed, cancelled, the first k rows hold (k+3-i)/4 rows of the status at cycle position i |
| BookingRows.FixtureRow | src/pages/admin/AdminBookings.tsx:22-31 | fixture row i has resolvable client and service names and the status at position i mod 4 |
| BookingRows.StatusBadgesDistinct | src/pages/provider/ProviderBookings.tsx:98-126 | different statuses get different badge colours and different icons |
| AdminBookings.BookingsWellFormed | src/pages/admin/AdminBookings.tsx:22-34 | the fixture has 20 bookings, all with resolvable names |
| AdminBookings.CurrentBookings | src/pages/admin/AdminBookings.tsx:84-86 | at most ten matching bookings, exactly the page's slice of the filtered list, and none past the last page |
| AdminBookings.FixtureStatusCounts | src/pages/admin/AdminBookings.tsx:22-29 | each status filter with an empty term keeps 5 of the 20 bookings, one page |
| AdminBookings.RowActions | src/pages/admin/AdminBookings.tsx:234-242 | every row offers view, edit and cancel, whatever its status |
| ProviderBookings.BookingsAreProviders | src/pages/provider/ProviderBookings.tsx:21-32 | the 20 fixture bookings all belong to provider 1 and have resolvable names |
| ProviderBookings.CurrentBookings | src/pages/provider/ProviderBookings.tsx:76-79 | at most ten matching bookings, the page's slice of the filtered list, and none past the last page |
| ProviderBookings.StatusActions | src/pages/provider/ProviderBookings.tsx:230-244 | Accept and Decline exactly for pending, Mark Completed exactly for confirmed, nothing for completed or cancelled |
| ProviderBookings.RowButtons | src/pages/provider/ProviderBookings.tsx:226-244 | a row shows View first, then the status actions |
| ProviderBookings.NotesText | src/pages/provider/ProviderBookings.tsx:366 | empty or missing notes read "No additional notes provided."; the text is never empty |
| ProviderBookings.Modal | src/pages/provider/ProviderBookings.tsx:308-385 | the modal exists exactly when a booking is selected, shows its id, and offers the same status actions as its row |
| ProviderBookings.DetailsState.ViewBooking | src/pages/provider/ProviderBookings.tsx:90-92 | the clicked booking becomes the selected one and the modal shows it |
| ProviderBookings.DetailsState.CloseDetails | src/pages/provider/ProviderBookings.tsx:94-96 | nothing is selected and no modal is shown |
| ServiceCatalog.CatalogShape | src/pages/ServicesPage.tsx:8-81 | the catalog holds 8 services with ids "1" to "8" in order, all with positive prices |
| ServicesPage.KeepIff | src/pages/ServicesPage.tsx:96-117 | a service is kept exactly when a truthy category equals its own, both price bounds hold inclusively when set, and an empty term or a match in name or description holds |
| ServicesPage.FilteredServices | src/pages/ServicesPage.tsx:96-117 | the kept services are exactly those passing the callback, in catalog order |
| ServicesPage.ClearedFiltersKeepAll | src/pages/ServicesPage.tsx:138-142 | with no options and an empty term every service is shown |
| ServicesPage.FilterTwiceSame | src/pages/ServicesPage.tsx:96-117 | filtering the shown list again with the same options changes nothing |
| ServicesPage.PlumbingPriceRange | src/pages/ServicesPage.tsx:98-108 | plumbing with prices 50 to 100 shows services 1 and 5, in that order |
| ServicesPage.MinimumDropsCheaper | src/pages/ServicesPage.tsx:103-105 | a set minimum drops every service priced below it |
| ServicesPage.ZeroMinimumKeepsAll | src/pages/ServicesPage.tsx:103-105 | a minimum of 0 is still a bound (`!== undefined`) and keeps every service of non-negative price |
| ServicesPage.MinimumPriceBound | src/pages/ServicesPage.tsx:103 | a minimum of 100 drops the 85 service; a minimum of 0 is a real bound that keeps every service |
| ServicesPage.ZeroMaximumHiddenButFilters | src/pages/ServicesPage.tsx:241-257 | a maximum of 0 hides every positively priced service while neither the active-filter row nor the price chip shows |
| ServicesPage.HeadingNoun | src/pages/ServicesPage.tsx:292 | "Service" exactly for a count of 1, "Services" otherwise |
| ServicesPage.ServicesPageState.constructor | src/pages/ServicesPage.tsx:85-92 | the category option comes from a non-empty `category` query parameter; the prices are unset |
| ServicesPage.ServicesPageState.ChangeFilter | src/pages/ServicesPage.tsx:124-136 | only the changed key moves; a truthy category is written to the URL, a falsy one removed from it; a price change leaves the URL alone |
| ServicesPage.ServicesPageState.SetSearchTerm | src/pages/ServicesPage.tsx:111 | the term changes, the options and URL do not |
| ServicesPage.ServicesPageState.ClearFilters | src/pages/ServicesPage.tsx:138-142 | options empty, term empty, no query parameters; the whole catalog is shown and no active-filter row |
| AdminServices.FilterServices | src/pages/admin/AdminServices.tsx:101-111 | a service is kept exactly when the term is in its name or description and the category filter admits it; order is kept |
| AdminServices.CurrentServices | src/pages/admin/AdminServices.tsx:114-116 | at most five matching services, the page's slice of the filtered list, and none past the last page |
| AdminServices.EmptySearchMatches | src/pages/admin/AdminServices.tsx:101-111 | with an empty term a service is kept exactly when the category filter admits it |
| AdminServices.EmptySearchKeepsAll | src/pages/admin/AdminServices.tsx:101-111 | an empty term with 'all' keeps every service |
| AdminServices.EmptySearchCategoryOfTwo | src/pages/admin/AdminServices.tsx:101-111 | a category held by exactly two services keeps exactly those two, in order |
| AdminServices.EightServicesTwoPages | src/pages/admin/AdminServices.tsx:114-117 | eight unfiltered services make two pages, the first five and the last three |
| AdminServices.UnfilteredCatalog | src/pages/admin/AdminServices.tsx:101-117 | the catalog unfiltered is all 8 services, two pages of 5 and 3 |
| AdminServices.PlumbingServices | src/pages/admin/AdminServices.tsx:101-111 | the plumbing filter keeps exactly the services with ids 1 and 5 |
| AdminServices.CategoryColorsDistinct | src/pages/admin/AdminServices.tsx:128-145 | different categories get different colour classes |
| AdminServices.DurationLabel | src/pages/admin/AdminServices.tsx:248 | the label ends in "hours" exactly when the duration exceeds 1 |
| AdminUsers.FixtureUser | src/pages/admin/AdminUsers.tsx:20-24 | fixture user i has the role at position i mod 5 of client, client, client, provider, admin |
| AdminUsers.FilterUsers | src/pages/admin/AdminUsers.tsx:38-48 | a user is kept exactly when the term is in the name or email and the role filter admits the role; order is kept |
| AdminUsers.CurrentUsers | src/pages/admin/AdminUsers.tsx:51-54 | at most ten matching users, the page's slice of the filtered list, and none past the last page |
| AdminUsers.EmptyTermMatchesByRole | src/pages/admin/AdminUsers.tsx:38-48 | with an empty term a user is kept exactly when the role filter admits it |
| AdminUsers.CycleCountStep | src/pages/admin/AdminUsers.tsx:20-24 | the closed-form role count grows by one exactly at a row of that role |
| AdminUsers.CyclicRoleCount | src/pages/admin/AdminUsers.tsx:20-24 | among the first k users of a five-role cycle the count of each role has its closed form |
| AdminUsers.FixtureRoles | src/pages/admin/AdminUsers.tsx:20-24 | the 20 fixture users follow the five-role cycle |
| AdminUsers.TwentyCyclicUsers | src/pages/admin/AdminUsers.tsx:20-24 | twenty users in the cycle are 12 clients, 4 providers and 4 admins |
| AdminUsers.FixtureRoleCounts | src/pages/admin/AdminUsers.tsx:20-24 | the fixture has 12 clients, 4 providers and 4 admins |
| AdminUsers.RoleColorsDistinct | src/pages/admin/AdminUsers.tsx:65-76 | admin, provider and client get different colour classes |
| AdminUsers.RowActions | src/pages/admin/AdminUsers.tsx:178-197 | a row offers Verify exactly for a provider and Deactivate exactly for any other role |
| FormRules.IndexOf | src/pages/RegisterPage.tsx:119-125 | the first position of the character, or -1 when there is none |
| FormRules.LastIndexOf | src/pages/RegisterPage.tsx:119-125 | the last position of the character, or -1 when there is none |
| FormRules.IsEmailIffPattern | src/pages/RegisterPage.tsx:122 | the direct check accepts exactly the strings the email pattern matches |
| FormRules.SplitIsFirstAndLast | src/pages/RegisterPage.tsx:122 | in any match the '@' is the first '@' and the '.' before the top-level domain is the last '.' |
| FormRules.EmailExamples | src/pages/LoginPage.tsx:45-48 | "a@b.co" matches; "a@b.c" and "ab.com" do not |
| FormRules.SplitHasOneAt | src/pages/LoginPage.tsx:46 | a matching address has exactly one '@' |
| FormRules.Required | src/pages/RegisterPage.tsx:98 | a required field fails with its message exactly when empty |
| FormRules.RequiredMinLength | src/pages/RegisterPage.tsx:147-153 | required first, then the length bound; passes exactly when non-empty and long enough |
| FormRules.EmailRule | src/pages/RegisterPage.tsx:119-125 | "Email is required" when empty, "Invalid email address" when not matching, no error exactly on a match |
| FormRules.EmailRuleIffPattern | src/pages/LoginPage.tsx:43-49 | the email rule passes exactly on the addresses the pattern matches |
| FormRules.PatternMatchBrowserIff | src/pages/RegisterPage.tsx:116-125 | on an address the pattern matches, the browser's `type="email"` check adds only the domain-label rules |
| FormRules.PatternAdmitsDoubleDot | src/pages/RegisterPage.tsx:116-125 | "a@b..co" matches the pattern yet the browser refuses it (empty label) |
| FormRules.PatternAdmitsLeadingDot | src/pages/RegisterPage.tsx:116-125 | "a@.b.co" matches the pattern yet the browser refuses it (empty first label) |
| FormRules.PatternAdmitsLeadingHyphen | src/pages/RegisterPage.tsx:116-125 | "a@-b.co" matches the pattern yet the browser refuses it (label starting with '-') |
| FormRules.BrowserAdmitsDotlessDomain | src/pages/LoginPage.tsx:39-49 | the browser accepts "a@b", which the pattern refuses; both accept "a@b.co" |
| FormRules.EmailFieldPassesIff | src/pages/BookingPage.tsx:342-351 | an email field lets its form through exactly when the address matches the pattern and is a valid address for the browser |
| RegisterForm.InitialRole | src/pages/RegisterPage.tsx:22 | the `role` query value when non-empty, otherwise 'client' |
| RegisterForm.DefaultValues | src/pages/RegisterPage.tsx:25-30 | the form starts with the initial role and no service categories |
| RegisterForm.RoleChoice.constructor | src/pages/RegisterPage.tsx:22-23 | the page's role is the initial role; provider fields show exactly for the query value 'provider' |
| RegisterForm.RoleChoice.ToggleRole | src/pages/RegisterPage.tsx:39-41 | the role becomes the chosen one; provider fields show exactly for 'provider' |
| RegisterForm.PasswordRule | src/pages/RegisterPage.tsx:147-153 | a password passes exactly at 8 characters or more, with the required and length messages otherwise |
| RegisterForm.ConfirmRule | src/pages/RegisterPage.tsx:174-177 | the confirmation passes exactly when non-empty and equal to the password, with its two messages otherwise |
| RegisterForm.TermsRule | src/pages/RegisterPage.tsx:308-310 | the checkbox passes exactly when ticked |
| RegisterForm.SubmitsIff | src/pages/RegisterPage.tsx:83-310 | the rules pass exactly when the name is given, the email matches, the password has 8+ characters, the confirmation equals it and the terms are accepted; the form submits exactly when, in addition, the browser accepts the email |
| LoginForm.PasswordRule | src/pages/LoginPage.tsx:71-77 | a password passes exactly at 6 characters or more, with the required and length messages otherwise |
| LoginForm.SubmitsIff | src/pages/LoginPage.tsx:29-77 | the rules pass exactly when the email matches and the password has 6+ characters; the form submits exactly when, in addition, the browser accepts the email |
| LoginForm.SignInBoundIsWeaker | src/pages/LoginPage.tsx:73-76 | every password sign-up accepts, sign-in accepts; a 6-character one only sign-in accepts |
| BookingWizard.TodayDisabledAfterMidnight | src/pages/BookingPage.tsx:207-214 | a date button is disabled exactly when its midnight is before now: always for earlier days, never for later ones, for today after midnight |
| BookingWizard.Merge | src/pages/BookingPage.tsx:119-123 | the form's fields override the draft's; the date and slot are kept |
| BookingWizard.ContactFormValidIff | src/pages/BookingPage.tsx:287-369 | the step-2 rules pass exactly when address and phone are given and the email matches, whatever the notes; the form submits exactly when, in addition, the browser accepts the email |
| BookingWizard.BookingPage.constructor | src/pages/BookingPage.tsx:58-63 | the service is looked up by id; step 1, empty draft, now as the date, no slot |
| BookingWizard.BookingPage.View | src/pages/BookingPage.tsx:58-80 | an unknown service shows the not-found view and never a step |
| BookingWizard.BookingPage.ClickDate | src/pages/BookingPage.tsx:207-214 | a past date is ignored; any other is selected and clears the slot, disabling Continue |
| BookingWizard.BookingPage.SelectSlot | src/pages/BookingPage.tsx:96-98 | the slot is selected; Continue is enabled exactly when the slot is non-empty |
| BookingWizard.BookingPage.Continue | src/pages/BookingPage.tsx:100-111 | step 1 with a non-empty slot stores date and slot and goes to step 2; step 2 goes to 3; otherwise nothing changes |
| BookingWizard.BookingPage.Back | src/pages/BookingPage.tsx:113-117 | one step back, never below 1, draft untouched |
| BookingWizard.BookingPage.Submit | src/pages/BookingPage.tsx:119-126 | submits exactly when the browser accepts the email and the step-2 rules pass; the merged record goes out, step 3 follows, the stored draft is unchanged |
| BookingWizard.BookingPage.Summary | src/pages/BookingPage.tsx:381-447 | the total shown is the service's price exactly |
| BookingWizard.BookingLookup | src/pages/BookingPage.tsx:31-58 | only ids "1" and "2" find a service |
| OtpVerification.LastChar | src/pages/OTPVerificationPage.tsx:63 | `value.slice(-1)`: at most one character, empty exactly for the empty value, otherwise the last character |
| OtpVerification.JoinFullIffNoEmptyCell | src/pages/OTPVerificationPage.tsx:60-81 | with cells of at most one character, the joined code has one character per cell exactly when no cell is empty |
| OtpVerification.CountdownStep | src/pages/OTPVerificationPage.tsx:49-56 | at 1 or below the count becomes 0 and resending is allowed; otherwise it drops by one |
| OtpVerification.CountdownReachesZero | src/pages/OTPVerificationPage.tsx:45-58 | from a count c, the first c-1 ticks count down without allowing a resend and the c-th allows it at 0 |
| OtpVerification.ThirtyTicksAllowResend | src/pages/OTPVerificationPage.tsx:28-58 | from the initial 30, resending is allowed after the 30th tick and not before |
| OtpVerification.OtpPage.constructor | src/pages/OTPVerificationPage.tsx:26-29 | six empty cells, countdown 30, no resend, no message |
| OtpVerification.OtpPage.CompleteIffAllCellsFilled | src/pages/OTPVerificationPage.tsx:77-81 | the code is complete, and the button enabled, exactly when all six cells are filled |
| OtpVerification.OtpPage.InputChange | src/pages/OTPVerificationPage.tsx:60-64 | a value with a non-digit changes nothing; otherwise that cell takes the value's last character and no other cell changes; cells stay single digits |
| OtpVerification.OtpPage.Verify | src/pages/OTPVerificationPage.tsx:76-135 | an incomplete code sets "Please enter the complete 6-digit code." with no request; otherwise rejection, failed profile insert and success set their messages, and only success goes to /login |
| OtpVerification.OtpPage.Tick | src/pages/OTPVerificationPage.tsx:49-56 | one countdown update; at 1 or below the count shows 0 and resending becomes allowed |
| OtpVerification.OtpPage.Resend | src/pages/OTPVerificationPage.tsx:137-161 | ignored unless resending is allowed; a sent code restarts the countdown at 30 with "New verification code sent!"; a failure shows its message or the default |
| ProviderProfile.DaysOfWeekAreTheWeek | src/pages/provider/ProviderProfile.tsx:33-35 | the schedule lists the seven weekdays once each, Monday to Sunday |
| ProviderProfile.AvailabilityForDay | src/pages/provider/ProviderProfile.tsx:178-180 | the first saved row for the day, or none exactly when no row has that day |
| ProviderProfile.AvailabilityUpdate | src/pages/provider/ProviderProfile.tsx:147-168 | an empty start or end deletes the day's row; otherwise the day's hours are upserted as given |
| ProviderProfile.EditDefaults | src/pages/provider/ProviderProfile.tsx:269-285 | with no saved row a new start is saved until 17:00 and a new end from 09:00; clearing an input deletes the day |
| ProviderProfile.EditKeepsOtherSavedTime | src/pages/provider/ProviderProfile.tsx:269-285 | with saved hours, editing one end keeps the saved other end |
| ProviderProfile.WithoutId | src/pages/provider/ProviderProfile.tsx:233 | unchecking removes every occurrence of the id and keeps the other ids in order |
| ProviderProfile.CheckThenUncheck | src/pages/provider/ProviderProfile.tsx:229-235 | checking then unchecking a service gives the earlier list without that id, which is the earlier list when the id was absent |
| ProviderProfile.ProfileEditor.constructor | src/pages/provider/ProviderProfile.tsx:26-31 | empty bio, rate 0, no services, no hours |
| ProviderProfile.ProfileEditor.Load | src/pages/provider/ProviderProfile.tsx:44-78 | a failed profile read changes nothing; a profile sets bio (or ''), rate (or 0) and service ids (or []); a failed hours read keeps the old hours, a successful one sets the rows read, or none; the failure toast shows exactly when a read failed |
| ProviderProfile.ProfileEditor.ToggleService | src/pages/provider/ProviderProfile.tsx:229-235 | checking appends the id; unchecking removes it everywhere; no other id changes state |
| ProviderProfile.ProfileEditor.SetBio | src/pages/provider/ProviderProfile.tsx:202 | the bio changes and nothing else |
| ServiceDetail.DetailLookup | src/pages/ServiceDetailPage.tsx:17-40 | only ids "1" and "2" find a service |
| ServiceDetail.DetailDurationLabels | src/pages/ServiceDetailPage.tsx:153 | both services show "hours" |
| ServiceDetail.Panels | src/pages/ServiceDetailPage.tsx:228-345 | exactly one panel is rendered, the active tab's |
| ServiceDetail.Toggled | src/pages/ServiceDetailPage.tsx:108-114 | the expanded question collapses; any other question becomes the only expanded one |
| ServiceDetail.ToggleTwice | src/pages/ServiceDetailPage.tsx:108-114 | toggling one question twice from collapsed, or from itself expanded, returns to the start; from another question expanded it collapses all |
| ServiceDetail.AnswersFrom | src/pages/ServiceDetailPage.tsx:349-367 | the answers rendered are the expanded question's alone, or none |
| ServiceDetail.ServiceDetailPage.constructor | src/pages/ServiceDetailPage.tsx:87-91 | the overview tab, nothing expanded, the service looked up by id |
| ServiceDetail.ServiceDetailPage.View | src/pages/ServiceDetailPage.tsx:93-367 | unknown service shows not-found; otherwise exactly the active panel, at most one answer, and "hours" exactly past one hour |
| ServiceDetail.ServiceDetailPage.SelectTab | src/pages/ServiceDetailPage.tsx:195-215 | the tab changes, the expanded question does not |
| ServiceDetail.ServiceDetailPage.ToggleFaq | src/pages/ServiceDetailPage.tsx:108-114 | the expanded question collapses; any other becomes expanded |
| Auth.DashboardPath | src/lib/supabase.ts:145-156 | '/admin' exactly for 'admin', '/provider' exactly for 'provider', '/' for client, none and anything else |
| Auth.DashboardPathOfRoles | src/lib/supabase.ts:145-156 | admin and provider go to the path of their name, a client to the home page |
| Auth.BeforeAt | src/lib/supabase.ts:176 | `split('@')[0]`: a prefix with no '@', either the whole string or followed by its first '@' |
| Auth.BeforeAtSplit | src/lib/supabase.ts:176 | for local@rest the result is local; for a string without '@', the string |
| Auth.NewProfile | src/lib/supabase.ts:158-183 | an omitted role is 'client', a missing or empty name is the email's part before '@', the rest is passed through |
| Auth.NewProfileDefaults | src/lib/supabase.ts:158-176 | a profile made for "jo@example.com" with no role or name is client "jo" |
| Auth.VerifyOtp | src/lib/supabase.ts:191-223 | errors are thrown; no user gives 'client'; no profile row inserts a client row (or throws its error) and gives 'client'; an existing row gives its role or 'client' |
| Auth.VerifyOtpRole | src/lib/supabase.ts:211-222 | the reported role is always the row's non-empty role or 'client', and any inserted row is a client row |
| Auth.SignUp | src/lib/supabase.ts:26-83 | a thrown error gives its message or the default, a returned error passes on, otherwise no error; with a user the profile row is attempted and its insert error only logged |
| Auth.SignUpIgnoresProfileError | src/lib/supabase.ts:53-74 | two runs differing only in the insert's outcome return the same error and data and differ only in the logged insert error |
| Auth.SignOut | src/lib/supabase.ts:94-99 | succeeds exactly when the backend reports no error, and rethrows that error otherwise |

## Left out

- Network and backend I/O: every Supabase call, the auth context and its subscriptions, and
  `getUserRole`, `getCurrentUser`, `onAuthStateChange`, `updateUserProfile`, `signIn` (a
  pass-through). Backend answers are parameters of the model.
- `handleProfileUpdate` on the provider profile page: delete-then-insert of the provider's
  services and the profile update. It is backend I/O only; the service list it sends is
  `selectedServices`, which is modelled.
- The effect of a delete or upsert on the availability table. The model states which
  request is sent; the page then reloads the rows, modelled by `ProfileEditor.Load`.
- Loading and "saving" flags, and the button disabled while a request is running. Toasts
  and console logging are modelled only where they are the sole trace of an outcome: the
  failure toast of `loadProviderData` and the profile error `signUp` logs.
- Dates: the `date-fns` two-week grid and `yyyy-MM-dd` formatting. A date is a day number
  and the milliseconds since its midnight.
- `generateTimeSlots` and `formatCurrency`: src/lib/utils is not part of this model. The
  time slot is an opaque string.
- Timers and focus: the OTP page's `setInterval` is one `Tick` call per second, and input
  focus moves are left out.
- The hourly-rate `parseFloat` and JavaScript numbers in general. Prices and rates are
  `real`, durations and counts unbounded integers.
- `toLowerCase` is modelled on ASCII letters only. Other Unicode case mappings and UTF-16
  lengths are not modelled.
- `FilterOptions` keys the services page never sets (rating, availability). Fixture
  fields that no screen logic reads (dates, phone, address, created/updated times, images).
  Testimonials and the static pages.
- The booking status buttons and the admin row buttons have no handlers in the code. Only
  the set of buttons offered is modelled.
- Route wiring and the route guard, which use a hard-coded unauthenticated flag.
- The browser's email check: its stripping of surrounding whitespace before either check
  sees the value, and the punycode conversion some browsers apply to non-ASCII domains.
  `FormRules.HtmlEmail` is the ASCII grammar of a valid email address in the HTML
  standard, applied to the value as the rules see it.
- The redirect of the email-code page to /register is a navigation effect; the model
  states only when it happens (`MustRedirect`).
