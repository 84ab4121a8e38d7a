# Doctor appointment frontend — a verified model

This project models the logic of a React single-page app for booking doctor appointments. Patients search for doctors and look at a doctor's profile. They book through a four-step wizard and manage their appointments. Doctors see the day's schedule on a dashboard.

Each source file with logic becomes one Dafny module:

- **Booking wizard** (`BookAppointment`): the step machine 1 → 2 → 3 → 4 with guarded forward moves. It also covers the slot fetch with its seven-slot fallback and the request body built on submit.
- **Calendar and slot pickers** (`DatePicker`, `TimeSlotPicker`):
  - Gregorian month lengths and weekdays, and the calendar grid;
  - disabled days, month navigation with its lower bound;
  - 12-hour time display and the booked-slot click guard.
- **Doctor search** (`DoctorList`, `DoctorSlice`, `FilterPanel`):
  - the query built from the stored filters, the response normalisation and the error text shown on failure;
  - the specialization toggle and the Redux slice reducers;
  - the filter panel's expanded sections, active-filter test and control values.
- **Appointment lists** (`PatientAppointments`, `PatientDashboard`, `DoctorDashboard`): the tab predicates, the search, the tab counts, the upcoming and today filters, and the dashboard states.
- **Authentication** (`AuthSlice`, `ProtectedRoute`, `Login`, `Register`, `Forms`):
  - the auth slice and its initial state read from storage, and the route guard;
  - the two forms' validation, error clearing and submit gates;
  - the login redirect and the registration payload.
- **Small pure helpers**:
  - `safeGet`, `getDoctorId` and the star rendering of the doctor profile (`DoctorDetails`);
  - the carousel's index arithmetic (`Carousel`).

The supporting modules are `Js`, `Text`, `Seqs` and `Appointments`:

- `Js` models the JavaScript values the code works on: undefined, null, booleans, integers, NaN, strings, arrays and objects. It also gives their truthiness, `||`, property access, strict equality and template-string text.
- `Text` holds string helpers: `split`/`join`, `toLowerCase` on ASCII, `padStart`, `parseInt` and the `\S+@\S+\.\S+` e-mail test.
- `Seqs` holds order-preserving filtering and `slice(0, n)`.
- `Appointments` holds the appointment record and calendar-day arithmetic on instants.

Components that keep state become classes whose methods update fields, with `modifies` clauses:

- Redux stores;
- the login and registration pages;
- the booking wizard, the carousel, the calendar and the filter panel;
- the doctor list page.

Loops become methods with invariants, proved against a specification function:

- the pushes of `generateMockSlots`;
- the star and calendar-cell loops.

The code that builds the query and the validation errors has no loop. It becomes straight-line methods: each conditional assignment is one `if`, and the methods' results are proved against a specification: equal to `QueryFor` for the query and to `ErrorsOf` for registration, and satisfying `ReportsErrors` for login.

Network calls, `localStorage`, "now" and `Math.random` are parameters of the methods that use them.

## Model

| member | source | states |
|---|---|---|
| AuthSlice.StoredRole | src/redux/slices/authSlice.js:9 | a non-empty stored role string is kept lower-cased; a missing or empty role gives null; the load throws (None) exactly when the role is present but not a string |
| AuthSlice.LoginRole | src/redux/slices/authSlice.js:25 | the role is the lower-cased `payload.user.role`; the reducer throws (None) exactly when the payload or its user is missing or the role is not a string |
| AuthSlice.AuthStore.constructor | src/redux/slices/authSlice.js:3-10 | for a stored user whose role can be read, the initial state: user or null, authenticated exactly when a non-empty token is stored, lower-cased stored role, not loading, no error |
| AuthSlice.LoadAuthStore | src/redux/slices/authSlice.js:3-10 | loading throws (null) exactly when the stored role is present but not a string; otherwise the store starts in the initial state read from storage |
| AuthSlice.AuthStore.LoginStart | src/redux/slices/authSlice.js:16-19 | loading on, error cleared, nothing else changed |
| AuthSlice.AuthStore.LoginSuccess | src/redux/slices/authSlice.js:20-30 | signed in with the payload's user, token and lower-cased role, and both written to storage; throws and changes nothing exactly when the role cannot be read |
| AuthSlice.AuthStore.LoginFailure | src/redux/slices/authSlice.js:31-35 | loading off, signed out, payload as error; the earlier user, token and role are not cleared |
| AuthSlice.AuthStore.Logout | src/redux/slices/authSlice.js:36-44 | user, token, role and error cleared, signed out, storage emptied; loading untouched |
| AuthSlice.AuthStore.UpdateProfile | src/redux/slices/authSlice.js:45-48 | the user becomes the key-by-key merge of the old user and the payload (payload wins), and is stored |
| AuthSlice.ReloadAfterLogin | src/redux/slices/authSlice.js:3-10 | a reload after a log-in is signed in exactly when the stored token text is non-empty and keeps a non-empty role and a truthy user |
| AuthSlice.ReloadAfterLogout | src/redux/slices/authSlice.js:36-44 | a reload after a log-out starts signed out with no user, role or token |
| AuthSlice.FailureAfterSuccess | src/redux/slices/authSlice.js:31-35 | a failure after a success signs out but keeps the earlier user and role |
| DoctorSlice.MergeFilters | src/redux/slices/doctorSlice.js:36-38 | the merged filters hold every key of either side, the payload's value winning |
| DoctorSlice.MergeIdempotent | src/redux/slices/doctorSlice.js:36-38 | merging the same payload twice is merging it once |
| DoctorSlice.MergeNonObject | src/redux/slices/doctorSlice.js:36-38 | a payload with no own entries (null, undefined, a boolean, a number, an empty string or array) leaves the filters unchanged |
| DoctorSlice.MergeString | src/redux/slices/doctorSlice.js:36-38 | a string payload adds each character under its index and leaves every named filter alone |
| Js.Spread | src/redux/slices/doctorSlice.js:37 | an object spreads its entries, an array its elements and a string its characters under their decimal indices, anything else nothing |
| DoctorSlice.InitialFiltersKeys | src/redux/slices/doctorSlice.js:6-12 | the initial filter record has exactly five keys and no minExperience |
| DoctorSlice.DoctorStore.constructor | src/redux/slices/doctorSlice.js:3-15 | the initial state: empty list, no selection, the initial filters, not loading, no error |
| DoctorSlice.DoctorStore.FetchDoctorsStart | src/redux/slices/doctorSlice.js:21-24 | loading on and error cleared, nothing else |
| DoctorSlice.DoctorStore.FetchDoctorsSuccess | src/redux/slices/doctorSlice.js:25-28 | loading off and the payload stored as the list; error not touched |
| DoctorSlice.DoctorStore.FetchDoctorsFailure | src/redux/slices/doctorSlice.js:29-32 | loading off and the payload stored as the error; list kept |
| DoctorSlice.DoctorStore.SetSelectedDoctor | src/redux/slices/doctorSlice.js:33-35 | only the selection changes |
| DoctorSlice.DoctorStore.UpdateFilters | src/redux/slices/doctorSlice.js:36-38 | the filters become MergeFilters of the old filters and the payload |
| DoctorSlice.DoctorStore.ClearFilters | src/redux/slices/doctorSlice.js:39-41 | the filters return to the initial record |
| DoctorSlice.StartThenSucceed | src/redux/slices/doctorSlice.js:21-28 | start then success leaves no error and the payload as list, filters and selection unchanged |
| ProtectedRoute.Decide | src/components/common/ProtectedRoute.jsx:6-21 | loader while loading, /login when signed out, / for a role not allowed, and the page exactly when signed in with an allowed role or no role list |
| ProtectedRoute.OpenRouteAdmitsAnyRole | src/components/common/ProtectedRoute.jsx:17 | an empty role list admits every signed-in role |
| ProtectedRoute.MoreRolesAdmitMore | src/components/common/ProtectedRoute.jsx:17 | extending the allowed roles never turns an admitted user away |
| ProtectedRoute.GuardAfterLogout | src/components/common/ProtectedRoute.jsx:9-15 | after a log-out the guard shows the loader (exactly when loading) or redirects to /login |
| ProtectedRoute.DoctorReachesDoctorPages | src/components/common/ProtectedRoute.jsx:6-21 | a doctor just logged in reaches a doctor-only page |
| Forms.EmailError | src/pages/auth/Login.jsx:34-38 | no email error exactly when the email is non-empty and matches the pattern; "required" for an empty email, "invalid" otherwise |
| Forms.EmailErrorExamples | src/pages/auth/Register.jsx:45-49 | "a@b.c" passes the email test and "a@b" is invalid |
| Forms.Edited | src/pages/auth/Login.jsx:22-25 | the named field takes the value and every other field is kept |
| Forms.ClearFieldError | src/pages/auth/Login.jsx:27-29 | a shown error of the edited field is blanked, the key kept; no other error changes; an unshown error leaves the record as it was |
| Forms.EditTwice | src/pages/auth/Register.jsx:30-38 | editing a field twice is editing it once with the last value, and the error is cleared once |
| Forms.ServerMessage | src/pages/auth/Login.jsx:65 | the message is the server's `response.data.message` when truthy and the fallback otherwise; it is missing (the catch block throws) exactly for a null or undefined error |
| Forms.OwnErrorsShowFallback | src/pages/auth/Register.jsx:108 | an error without a response shows the fallback text |
| Forms.ServerTextShown | src/pages/auth/Register.jsx:108 | a rejection carrying response.data.message shows that message |
| Login.DashboardPath | src/pages/auth/Login.jsx:63 | the path is "/", the role text, then "/dashboard" |
| Login.ResponseRole | src/pages/auth/Login.jsx:62 | the redirect uses the role as sent, whose lower-cased form is the role the slice stores |
| Login.LoginPage.constructor | src/pages/auth/Login.jsx:11-16 | empty email and password, no errors, not loading |
| Login.LoginPage.HandleChange | src/pages/auth/Login.jsx:21-30 | the form becomes Edited and the errors ClearFieldError of the old state |
| Login.LoginPage.Validate | src/pages/auth/Login.jsx:32-43 | an email error exactly when EmailError reports one, with its text; a password error exactly when the password is empty; no other key |
| Login.BlockedIffReported | src/pages/auth/Login.jsx:49-52 | submission stops exactly when validation reports some error |
| Login.LoginPage.HandleSubmit | src/pages/auth/Login.jsx:45-71 | blocked input sets the errors validation reports and changes nothing else; otherwise loading ends, a readable response redirects to its role's dashboard and signs in, an unreadable one fails with the fallback text, a rejection records the server message, and a null rejection leaves the slice loading |
| Login.DoctorResponseRoles | src/pages/auth/Login.jsx:59-63 | a user with role "Doctor" is stored as "doctor" but redirected to "/Doctor/dashboard" |
| Login.LowerDoctor | src/redux/slices/authSlice.js:25 | "Doctor" lower-cases to "doctor" |
| Login.RedirectKeepsCase | src/pages/auth/Login.jsx:45-71 | a full log-in whose role is "Doctor" redirects to "/Doctor/dashboard" while the slice holds "doctor" |
| Login.RejectedShowsMessage | src/pages/auth/Login.jsx:64-70 | a rejected valid submission ends loading, shows the server message under "general" and stores it as the slice error |
| Register.PasswordError | src/pages/auth/Register.jsx:50-54 | no password error exactly when the password's `length` (UTF-16 code units) is at least eight; "required" when empty, "at least 8" when shorter |
| Register.AstralPasswordAccepted | src/pages/auth/Register.jsx:52 | four emoji outside the Basic Multilingual Plane pass the length rule; seven plain characters do not |
| Text.Utf16Length | src/pages/auth/Register.jsx:52 | a string's `length` lies between its character count and twice that, and is zero only for the empty string |
| Register.Rule | src/pages/auth/Register.jsx:43-66 | the message each field's rule records; the about field and the doctor fields of a patient never get one |
| Register.ErrorsOfField | src/pages/auth/Register.jsx:40-69 | the record `validate` builds has an entry for a field exactly when that field's rule fails, and the entry is that rule's message |
| Register.NothingReportedIffAcceptable | src/pages/auth/Register.jsx:40-77 | the error record is empty exactly when every common rule passes and, for a doctor, the four doctor fields are filled in |
| Register.FailingField | src/pages/auth/Register.jsx:43-66 | an unacceptable form has a field whose rule fails |
| Register.KeyNamesDistinct | src/pages/auth/Register.jsx:83-97 | no two record keys share a property name |
| Register.CommonPayload | src/pages/auth/Register.jsx:83-89 | exactly the five common keys, each carrying the form's value |
| Register.DoctorPayload | src/pages/auth/Register.jsx:91-97 | exactly the five doctor keys: lower-cased specialization id, license, parseInt of the experience (NaN when it has no digits), about, and ["MBBS", specialization] |
| Register.RegistrationData | src/pages/auth/Register.jsx:83-101 | a patient sends the common fields only; a doctor sends the common and doctor keys and parseFloat of the fee |
| Register.DoctorRecordFields | src/pages/auth/Register.jsx:83-97 | a doctor's record keeps every common field unchanged and carries every doctor field |
| Register.SpecializationSentTwice | src/pages/auth/Register.jsx:92-97 | "Cardiology" is sent as the id "cardiology" and verbatim in the qualification list |
| Register.LowerCardiology | src/pages/auth/Register.jsx:92 | "Cardiology" lower-cases to "cardiology" |
| Register.RegisterPage.constructor | src/pages/auth/Register.jsx:9-26 | patient account type, every field empty, no errors, not loading, no success |
| Register.RegisterPage.SetUserType | src/pages/auth/Register.jsx:9 | only the account type changes |
| Register.RegisterPage.HandleChange | src/pages/auth/Register.jsx:30-38 | the form becomes Edited and the errors ClearFieldError of the old state |
| Register.RegisterPage.Validate | src/pages/auth/Register.jsx:40-69 | the returned record is ErrorsOf the form and account type |
| Register.RegisterPage.AddContactErrors | src/pages/auth/Register.jsx:43-49 | the name and email rules, in order, applied to an empty record |
| Register.RegisterPage.AddPasswordErrors | src/pages/auth/Register.jsx:50-58 | the password, confirmation and phone rules applied in order |
| Register.RegisterPage.AddDoctorErrors | src/pages/auth/Register.jsx:60-66 | the four doctor rules, applied only for a doctor |
| Register.RegisterPage.HandleSubmit | src/pages/auth/Register.jsx:71-113 | an unacceptable form shows exactly ErrorsOf the form (non-empty) and sends nothing; an acceptable one sends RegistrationData, sets success on resolution, shows the server message on rejection, and ends loading |
| Carousel.Next | src/components/common/Carousel.jsx:26-28 | from a valid index the next index is valid: one more, or 0 after the last |
| Carousel.Previous | src/components/common/Carousel.jsx:22-24 | from a valid index the previous index is valid: one less, or the last before the first |
| Carousel.NextPreviousInverse | src/components/common/Carousel.jsx:22-28 | next and previous undo each other on every valid index |
| Carousel.SingleImageStays | src/components/common/Carousel.jsx:22-28 | with one image both moves stay on it |
| Carousel.Wrap | src/components/common/Carousel.jsx:12 | the remainder by repeated subtraction lies in 0..n-1 |
| Carousel.WrapSucc | src/components/common/Carousel.jsx:12 | adding one to a number moves its remainder one Next step |
| Carousel.NextTimesIsSum | src/components/common/Carousel.jsx:26-28 | k moves forward from i land on the remainder of i + k |
| Carousel.FullCycle | src/components/common/Carousel.jsx:8-16 | as many moves forward as there are images return to the start, and no fewer do |
| Carousel.SwipeAction | src/components/common/Carousel.jsx:47-50 | forward exactly when the swipe power is below minus the threshold, back exactly when above the threshold |
| Carousel.SwipeFollowsVelocity | src/components/common/Carousel.jsx:70-78 | forward needs a negative velocity and back a positive one; no distance or no speed never moves; the drag's direction does not matter; flipping the velocity swaps forward and back |
| Carousel.ControlsShown | src/components/common/Carousel.jsx:116 | arrows or dots appear only when enabled and there is more than one image |
| Carousel.SingleImageHidesControls | src/components/common/Carousel.jsx:116-140 | one image shows neither arrows nor dots; with two images the setting alone decides |
| Carousel.Carousel.constructor | src/components/common/Carousel.jsx:5-6 | the first slide is shown |
| Carousel.Carousel.GoToNext | src/components/common/Carousel.jsx:26-28 | the index becomes Next of the old index and stays valid |
| Carousel.Carousel.GoToPrevious | src/components/common/Carousel.jsx:22-24 | the index becomes Previous of the old index and stays valid |
| Carousel.Carousel.GoToSlide | src/components/common/Carousel.jsx:18-20 | the index becomes the dot's position |
| Carousel.Carousel.Tick | src/components/common/Carousel.jsx:8-16 | with autoplay the index advances by Next, without it nothing changes |
| Carousel.Carousel.OnDragEnd | src/components/common/Carousel.jsx:70-78 | the index moves to Next, to Previous or stays, as SwipeAction decides |
| Carousel.NextThenPrevious | src/components/common/Carousel.jsx:22-28 | forward-back-back-forward returns to the starting slide |
| TimeSlotPicker.DisplayHour | src/components/common/TimeSlotPicker.jsx:16 | for a non-negative hour the shown hour lies in 1..12 and agrees with the hour modulo 12 |
| TimeSlotPicker.FormatTimeOfClock | src/components/common/TimeSlotPicker.jsx:11-18 | an "hh:mm" time is labelled with its 12-hour hour, the minutes as given, and PM exactly from hour 12 on |
| TimeSlotPicker.SplitClock | src/components/common/TimeSlotPicker.jsx:13 | "hh:mm" splits at the colon into the hours and the minutes |
| TimeSlotPicker.DisplayHourOfDay | src/components/common/TimeSlotPicker.jsx:15-16 | midnight and noon show 12, morning hours show as they are, afternoon hours drop by twelve |
| TimeSlotPicker.SelectionIgnoresBooking | src/components/common/TimeSlotPicker.jsx:20-24 | the highlight compares start and end times only, never the booking flag |
| TimeSlotPicker.ClickSlot | src/components/common/TimeSlotPicker.jsx:63-69 | a click hands the slot on exactly when it is not booked |
| TimeSlotPicker.Render | src/components/common/TimeSlotPicker.jsx:26-101 | eight placeholders while loading, the empty state for no slots, otherwise the count label and one button per slot, disabled exactly when booked, highlighted exactly when selected, labelled with both formatted times |
| DatePicker.DaysInMonth | src/components/common/DatePicker.jsx:8-12 | every month has 28 to 31 days, February 29 in a Gregorian leap year |
| DatePicker.DaysInMonthExamples | src/components/common/DatePicker.jsx:8-12 | leap Februaries of 2024 and 2000, common Februaries of 2023 and 1900, 30-day April, 31-day December |
| DatePicker.YearLength | src/components/common/DatePicker.jsx:8-12 | consecutive New Year's Days are 366 days apart in a leap year and 365 otherwise |
| DatePicker.LastDayPrecedesNextMonth | src/components/common/DatePicker.jsx:8-12 | day 0 of the next month is the last day of this month, so reading its date gives this month's length |
| DatePicker.Weekday | src/components/common/DatePicker.jsx:14-18 | the weekday of a day lies in 0..6, Sunday first |
| DatePicker.EpochWasThursday | src/components/common/DatePicker.jsx:14-18 | 1 January 1970 is a Thursday |
| DatePicker.NextFirstWeekday | src/components/common/DatePicker.jsx:14-18 | the next month starts on this month's first weekday shifted by the month's length |
| DatePicker.DayNumberMonotone | src/components/common/DatePicker.jsx:39 | day numbers follow calendar order, so comparing dates compares days |
| DatePicker.DayNumberInjective | src/components/common/DatePicker.jsx:36-42 | distinct calendar days have distinct day numbers |
| DatePicker.Next | src/components/common/DatePicker.jsx:31-33 | the next month is one month later in the month count |
| DatePicker.Prev | src/components/common/DatePicker.jsx:27-29 | the previous month is one month earlier in the month count |
| DatePicker.PrevNextInverse | src/components/common/DatePicker.jsx:27-33 | previous and next month undo each other |
| DatePicker.IsDateDisabledIff | src/components/common/DatePicker.jsx:35-44 | a day is disabled exactly when it falls on an earlier calendar day than minDate or is listed |
| DatePicker.MinDayNotDisabledByMinimum | src/components/common/DatePicker.jsx:39 | minDate's own day is disabled only when it is listed, whatever minDate's time |
| DatePicker.ListedDayDisabled | src/components/common/DatePicker.jsx:41-43 | a listed day is disabled even after minDate |
| DatePicker.CanGoPreviousIff | src/components/common/DatePicker.jsx:104-108 | the previous-month button is enabled exactly when the previous month is not before minDate's month |
| DatePicker.Calendar.constructor | src/components/common/DatePicker.jsx:5-6 | the displayed month is the selected date's month, or the current month |
| DatePicker.Calendar.PreviousMonth | src/components/common/DatePicker.jsx:27-29 | the displayed month moves one month back |
| DatePicker.Calendar.NextMonth | src/components/common/DatePicker.jsx:31-33 | the displayed month moves one month forward |
| DatePicker.Calendar.ClickPrevious | src/components/common/DatePicker.jsx:116-117 | the month moves back only when allowed, and never from after minDate's month to before it |
| DatePicker.Calendar.HandleDateClick | src/components/common/DatePicker.jsx:50-55 | the clicked day is reported exactly when it is not disabled, so a reported day is neither before minDate's day nor listed |
| DatePicker.Calendar.RenderDays | src/components/common/DatePicker.jsx:57-102 | one blank per weekday before the first, then one cell per day of the month with its disabled, selected and today flags |
| FilterPanel.HasActiveFilters | src/components/common/FilterPanel.jsx:108-127 | "Clear All" is shown exactly when some filter is active |
| FilterPanel.ActiveRules | src/components/common/FilterPanel.jsx:109-118 | a non-empty checkbox selection, a radio selection that is not nullish, a set range value other than the minimum; no other kind is active |
| FilterPanel.CheckboxChecked | src/components/common/FilterPanel.jsx:43 | an array checks its members, nullish checks nothing, and rendering throws exactly on a value that is neither array, string nor nullish |
| FilterPanel.EmptySelectionChecksNothing | src/components/common/FilterPanel.jsx:43 | an empty-string selection checks no option with text |
| FilterPanel.RadioChecked | src/components/common/FilterPanel.jsx:69 | an option is checked only when it equals the selection, and always then unless the selection is NaN |
| FilterPanel.RangeValue | src/components/common/FilterPanel.jsx:89 | the slider shows the selection when truthy and the minimum otherwise |
| FilterPanel.Display | src/components/common/FilterPanel.jsx:94-98 | a formatter appends its suffix; without one nullish and boolean values print nothing |
| FilterPanel.RangeLabels | src/components/common/FilterPanel.jsx:93-99 | the middle label is the shown value, equal to the minimum's label when nothing is selected |
| FilterPanel.RangeInput | src/components/common/FilterPanel.jsx:90 | a slider movement forwards a number or NaN |
| FilterPanel.RangeInputOfDigits | src/components/common/FilterPanel.jsx:90 | plain digits are forwarded as their number |
| FilterPanel.InitialSections | src/components/common/FilterPanel.jsx:12-14 | the sections are exactly the filters' ids, all open |
| FilterPanel.Toggled | src/components/common/FilterPanel.jsx:16-21 | the named section flips and no other changes |
| FilterPanel.ToggleTwice | src/components/common/FilterPanel.jsx:16-21 | toggling twice restores the map for a known id and the open state for every id |
| FilterPanel.Sections.constructor | src/components/common/FilterPanel.jsx:12-14 | the state starts as the initial sections |
| FilterPanel.Sections.Toggle | src/components/common/FilterPanel.jsx:16-21 | the state becomes the toggled map |
| FilterPanel.AllSectionsStartOpen | src/components/common/FilterPanel.jsx:12-14 | every section of the panel starts open |
| Seqs.Filter | src/pages/patient/PatientDashboard.jsx:21 | the filtered list is no longer than the list and holds exactly the elements that pass |
| Seqs.FilterIsSubsequence | src/pages/patient/PatientDashboard.jsx:21 | a filter keeps the relative order of what it keeps |
| Seqs.FilterFilter | src/pages/patient/PatientAppointments.jsx:49-79 | two filters in a row are one filter by both tests |
| Seqs.Take | src/pages/patient/PatientDashboard.jsx:22 | slice(0, k) is the prefix of length min(k, length) |
| PatientDashboard.ShownUpcomingFacts | src/pages/patient/PatientDashboard.jsx:18-28 | at most three appointments, each fetched and dated now or later, exactly the first such ones in server order, and three whenever there are three |
| PatientDashboard.CancelledFutureShown | src/pages/patient/PatientDashboard.jsx:21 | the status is not consulted: a cancelled future appointment is shown |
| PatientDashboard.DashboardPage.constructor | src/pages/patient/PatientDashboard.jsx:11-12 | no appointments and loading |
| PatientDashboard.DashboardPage.FetchUpcoming | src/pages/patient/PatientDashboard.jsx:18-28 | on success the panel is ShownUpcoming of the response; on failure the list is kept; loading ends either way |
| PatientDashboard.FirstFetch | src/pages/patient/PatientDashboard.jsx:14-28 | a first fetch ends loading, shows nothing when it fails and at most three appointments when it succeeds |
| DoctorDashboard.SameDayBlock | src/pages/doctor/DoctorDashboard.jsx:27-30 | an instant is on today's date exactly when it lies in today's 24-hour block |
| DoctorDashboard.TodayAppointmentsFacts | src/pages/doctor/DoctorDashboard.jsx:27-30 | today's list holds exactly the fetched appointments with a valid date inside today's block, in server order |
| DoctorDashboard.DashboardStats | src/pages/doctor/DoctorDashboard.jsx:34-39 | the stats count today's appointments |
| DoctorDashboard.StatsArePlaceholders | src/pages/doctor/DoctorDashboard.jsx:34-39 | apart from the count the stats are fixed figures, so two stats records agree exactly when the counts do |
| DoctorDashboard.DashboardPage.constructor | src/pages/doctor/DoctorDashboard.jsx:11-18 | no appointments, zero stats, loading |
| DoctorDashboard.DashboardPage.FetchDashboardData | src/pages/doctor/DoctorDashboard.jsx:24-45 | on success today's appointments and their stats are set; on failure both are kept; loading ends either way |
| DoctorDashboard.FirstFetch | src/pages/doctor/DoctorDashboard.jsx:20-45 | a failed first fetch keeps zero stats and no appointments; a successful one counts exactly today's appointments |
| Appointments.CalendarDayBounds | src/pages/doctor/DoctorDashboard.jsx:27-29 | an instant lies inside the 24-hour block of its calendar day |
| Appointments.DateComparisons | src/pages/patient/PatientAppointments.jsx:56-62 | a valid date is either before now or on-or-after now, never both; an invalid date is neither |
| PatientAppointments.VisibleMembers | src/pages/patient/PatientAppointments.jsx:49-79 | an appointment is shown exactly when it was fetched, passes the tab's test, and matches a non-empty query |
| PatientAppointments.VisibleInOrder | src/pages/patient/PatientAppointments.jsx:49-79 | the shown list keeps the fetched order |
| PatientAppointments.NoFilterShowsAll | src/pages/patient/PatientAppointments.jsx:53-66 | a tab of another name with an empty query shows the whole list |
| PatientAppointments.SearchIgnoresQueryCase | src/pages/patient/PatientAppointments.jsx:73 | the search does not depend on the query's letter case |
| PatientAppointments.FullNameFinds | src/pages/patient/PatientAppointments.jsx:71-74 | typing a doctor's "first last" name finds their appointment |
| PatientAppointments.CompletedFutureOnTwoTabs | src/pages/patient/PatientAppointments.jsx:54-63 | a completed appointment dated now or later appears on both the upcoming and the past tab |
| PatientAppointments.CancelledPastOnTwoTabs | src/pages/patient/PatientAppointments.jsx:59-66 | a cancelled past appointment appears on both the past and the cancelled tab |
| PatientAppointments.InvalidDateTabs | src/pages/patient/PatientAppointments.jsx:54-63 | an invalid date is never upcoming, and past only when completed |
| PatientAppointments.TabCount | src/pages/patient/PatientAppointments.jsx:114-118 | a tab count never exceeds the number of appointments |
| PatientAppointments.CountsIgnoreSearch | src/pages/patient/PatientAppointments.jsx:114-118 | a count is the tab's length without search, and a search never shows more than the count |
| PatientAppointments.UpcomingCancelledDisjoint | src/pages/patient/PatientAppointments.jsx:115-117 | the upcoming and cancelled counts add up to at most the list's length |
| PatientAppointments.StatusBadge | src/pages/patient/PatientAppointments.jsx:95-103 | a known status picks its own badge, any other value the pending badge |
| PatientAppointments.BadgeLabels | src/pages/patient/PatientAppointments.jsx:95-112 | each label appears exactly for its own status, and "Pending" also for a missing or unknown status |
| PatientAppointments.CancelOnUpcomingOnly | src/pages/patient/PatientAppointments.jsx:184 | every card on the upcoming tab offers Cancel and no card on another tab does |
| PatientAppointments.AppointmentsPage.constructor | src/pages/patient/PatientAppointments.jsx:23-27 | empty lists, loading, the upcoming tab, empty search |
| PatientAppointments.AppointmentsPage.FilterAppointments | src/pages/patient/PatientAppointments.jsx:49-79 | the shown list becomes Visible of the state, holding exactly the fetched appointments on the tab that match the search |
| PatientAppointments.AppointmentsPage.FetchAppointments | src/pages/patient/PatientAppointments.jsx:37-47 | on success the list is replaced and refiltered; on failure both lists are kept; loading ends |
| PatientAppointments.AppointmentsPage.SetActiveTab | src/pages/patient/PatientAppointments.jsx:33-35 | a tab switch refilters the list for the new tab |
| PatientAppointments.AppointmentsPage.SetSearchQuery | src/pages/patient/PatientAppointments.jsx:33-35 | typing refilters the list for the new query |
| DoctorDetails.WalkStep | src/pages/DoctorDetails.jsx:71 | one step of the reduce reads the key from a truthy value and keeps a falsy one |
| DoctorDetails.FalsyStops | src/pages/DoctorDetails.jsx:71 | once the walk meets a falsy value, that value is the result |
| DoctorDetails.WalkAppend | src/pages/DoctorDetails.jsx:71 | walking a path in two parts is walking the first part, then the second from there |
| DoctorDetails.FalsyPrefix | src/pages/DoctorDetails.jsx:71 | a falsy value part-way along the path is the result of the whole walk |
| DoctorDetails.SafeGet | src/pages/DoctorDetails.jsx:69-77 | the walk's result, replaced by the default exactly when it is undefined |
| DoctorDetails.FirstNamePathSplits | src/pages/DoctorDetails.jsx:202 | the path "user.profile.firstName" splits into its three keys |
| DoctorDetails.NullUserReturned | src/pages/DoctorDetails.jsx:69-77 | a null user comes back as null, not as the default |
| DoctorDetails.FirstNameFound | src/pages/DoctorDetails.jsx:202 | a present first name (even empty or null) is returned, and a missing one gives the default |
| DoctorDetails.MissingProfileGivesDefault | src/pages/DoctorDetails.jsx:202 | a user without a profile shows the default |
| DoctorDetails.GetDoctorId | src/pages/DoctorDetails.jsx:80-82 | the doctor's truthy id, else its data's truthy id, else the id in the URL |
| DoctorDetails.BookTarget | src/pages/DoctorDetails.jsx:60-66 | a signed-out visitor goes to /login remembering the profile page; a signed-in one goes to /book-appointment/ followed by the text of getDoctorId |
| DoctorDetails.BookingUsesDoctorId | src/pages/DoctorDetails.jsx:60-82 | booking uses the doctor's own string or numeric id, else the id under data, else the URL's id |
| DoctorDetails.UnwrapResponse | src/pages/DoctorDetails.jsx:47 | the response's truthy data, else the response; a null or undefined response throws |
| DoctorDetails.WrappedAndBareAgree | src/pages/DoctorDetails.jsx:45-47 | a doctor wrapped in `data` and the bare doctor load as the same record |
| DoctorDetails.DetailsError | src/pages/DoctorDetails.jsx:54 | the error's truthy message, else the fallback text; always truthy |
| DoctorDetails.PageView | src/pages/DoctorDetails.jsx:102-134 | the loader exactly while loading, the error exactly when one is set, the profile exactly when a doctor is loaded without error |
| DoctorDetails.DetailsPage.constructor | src/pages/DoctorDetails.jsx:30-32 | no doctor, loading, no error |
| DoctorDetails.DetailsPage.FetchDoctorDetails | src/pages/DoctorDetails.jsx:38-58 | a loaded doctor goes to the page and the store's selection without clearing an earlier error; a failure sets the error text; a null rejection changes nothing; loading ends |
| DoctorDetails.RetryAfterError | src/pages/DoctorDetails.jsx:38-58 | once an error is set, later fetches keep the error view |
| DoctorDetails.Repeat | src/pages/DoctorDetails.jsx:89-91 | n copies of one star, none for n <= 0 |
| DoctorDetails.StarsShape | src/pages/DoctorDetails.jsx:84-100 | a rating from 0 to 5 draws five stars: floor(rating) full, then a half exactly when the fraction is at least one half, the rest empty |
| DoctorDetails.StarsOverflow | src/pages/DoctorDetails.jsx:95-98 | a rating of 5.5 draws six stars |
| DoctorDetails.RenderStars | src/pages/DoctorDetails.jsx:84-100 | the pushed stars equal Stars(rating) |
| DoctorDetails.ShownRating | src/pages/DoctorDetails.jsx:223 | the rating itself, or 4.5 when it is missing or zero |
| DoctorDetails.UnratedShowsFourAndAHalf | src/pages/DoctorDetails.jsx:223-226 | an unrated doctor shows four full stars and a half star |
| DoctorList.FindSpecialization | src/pages/DoctorList.jsx:53 | the entry found is in the table and has the id; none is found only when no entry has it |
| DoctorList.Capitalise | src/pages/DoctorList.jsx:54 | the first character is upper-cased and the rest of the id is kept |
| DoctorList.FormatSpecialization | src/pages/DoctorList.jsx:52-55 | a known value shows the table's label; a falsy id shows "General Physician"; only a truthy non-string throws |
| DoctorList.TableLabelsCapitalise | src/pages/DoctorList.jsx:42-49 | every label of the specialization table is its value capitalised |
| DoctorList.FormatIsCapitalise | src/pages/DoctorList.jsx:52-55 | the table and the fallback agree: every non-empty string is shown capitalised |
| DoctorList.CapitaliseLowerInverse | src/pages/DoctorList.jsx:54 | lower-casing a capitalised lower-case id gives the id back |
| DoctorList.ParamNamesDistinct | src/pages/DoctorList.jsx:92-124 | distinct query parameters are sent under distinct names |
| DoctorList.SortParams | src/pages/DoctorList.jsx:92-101 | the sort keys are both present or both absent, and present exactly for the four known options |
| DoctorList.SortParamsDistinct | src/pages/DoctorList.jsx:92-101 | two known options send the same sort keys only when they are the same option |
| DoctorList.UnsetSortSendsNothing | src/pages/DoctorList.jsx:36 | with no sort option in the store no sort key is sent |
| DoctorList.AddIfEither | src/pages/DoctorList.jsx:113-118 | the two maxFee branches together are one assignment under the disjunction of their tests |
| DoctorList.QueryThrowsIff | src/pages/DoctorList.jsx:107-108 | building the query throws exactly when a non-array specialization passes the length test; an empty string never throws |
| DoctorList.AssignedKeepsSortKeys | src/pages/DoctorList.jsx:103-124 | the five conditional assignments leave every sort key as it was |
| DoctorList.AssignedCriterion | src/pages/DoctorList.jsx:107-124 | each criterion is present exactly when its test passed, and then carries its value |
| DoctorList.QueryContents | src/pages/DoctorList.jsx:92-124 | the query holds the sort keys and each filter exactly when its test passes, with the filter's value; the specialization list is sent as its comma-joined text |
| DoctorList.SpecializationJoined | src/pages/DoctorList.jsx:108 | a list of strings is sent joined with commas in list order |
| DoctorList.MaxFeeRule | src/pages/DoctorList.jsx:113-118 | a numeric fee is sent exactly when it is at most 5000; null is sent; undefined and NaN are not |
| DoctorList.InitialQuery | src/pages/DoctorList.jsx:103-124 | the initial (and cleared) filters send exactly maxFee null |
| DoctorList.BuildQuery | src/pages/DoctorList.jsx:92-124 | the query built key by key is the specified query, or the throw |
| DoctorList.QueryForAssigned | src/pages/DoctorList.jsx:107-124 | the specified query is the five conditional assignments applied in order |
| DoctorList.SetIf | src/pages/DoctorList.jsx:107-124 | one conditional assignment sets the key exactly when the test passes |
| DoctorList.NormaliseResponse | src/pages/DoctorList.jsx:132-138 | a non-nullish response yields an object with exactly the keys doctors and total, the doctors always a list; a nullish one throws |
| DoctorList.NormaliseFallbacks | src/pages/DoctorList.jsx:132-138 | doctors that are missing or not a list read as an empty list, a list passes through, and without pagination the total is the number of doctors |
| DoctorList.NormaliseTotal | src/pages/DoctorList.jsx:132-138 | the doctors are passed through and the total is the server's when truthy, else the number of doctors |
| DoctorList.WrappedAndBareAgree | src/pages/DoctorList.jsx:132 | a body wrapped in data and the same body bare are read alike |
| DoctorList.ErrorMessage | src/pages/DoctorList.jsx:143-162 | every message starts with the failure prefix; the catch block throws again exactly on a nullish error |
| DoctorList.ResponseErrorFields | src/pages/DoctorList.jsx:145-147 | an error carrying a response exposes its status and body |
| DoctorList.ErrorMessageFixedStatus | src/pages/DoctorList.jsx:147-152 | statuses 500, 404 and 401 get their fixed texts whatever the body |
| DoctorList.ErrorMessageOtherStatus | src/pages/DoctorList.jsx:153-154 | any other status shows the server's message, or asks to try again without a body |
| DoctorList.ErrorMessageWithoutResponse | src/pages/DoctorList.jsx:156-161 | a sent request means unreachable; otherwise the error's own message or the generic text |
| DoctorList.ToggleMembership | src/pages/DoctorList.jsx:184-186 | toggling flips the value's membership and leaves every other value's alone |
| DoctorList.ToggleAbsentTwice | src/pages/DoctorList.jsx:184-186 | toggling an absent value twice gives the list back |
| DoctorList.TogglePresentTwice | src/pages/DoctorList.jsx:184-186 | toggling a present value twice moves it to the end of the list |
| Js.Characters | src/pages/DoctorList.jsx:186 | spreading a string gives its characters one by one |
| DoctorList.SpecializationUpdate | src/pages/DoctorList.jsx:182-187 | an array is toggled, a falsy value becomes a one-element list, the result is always an array |
| DoctorList.FilterConfig | src/pages/DoctorList.jsx:57-76 | a checkbox and a range filter showing the stored specialization and minimum experience |
| DoctorList.PanelAtStart | src/pages/DoctorList.jsx:57-76 | with the initial filters no filter is active and the slider reads "0 years"; one specialization makes the panel active |
| DoctorList.FetchEffectOf | src/pages/DoctorList.jsx:87-166 | a failure carries the prefixed message, a load an array of doctors, and the slice stays loading exactly on a nullish rejection |
| DoctorList.OutcomeEffect | src/pages/DoctorList.jsx:129-165 | after the query is built the run stays loading exactly on a nullish rejection and every failure is prefixed |
| DoctorList.SearchReachesQuery | src/pages/DoctorList.jsx:122-124 | a typed search is sent exactly when it is non-empty, with the typed text |
| DoctorList.DoctorListPage.constructor | src/pages/DoctorList.jsx:38 | the search box starts from the stored search or empty |
| DoctorList.DoctorListPage.SyncSearchQuery | src/pages/DoctorList.jsx:83-85 | the box is reset from the stored search |
| DoctorList.DoctorListPage.HandleSearch | src/pages/DoctorList.jsx:168-171 | the box's text becomes the search filter and nothing else changes |
| DoctorList.DoctorListPage.HandleSearchChange | src/pages/DoctorList.jsx:174-179 | the box and the search filter both take the typed text |
| DoctorList.DoctorListPage.HandleFilterChange | src/pages/DoctorList.jsx:181-191 | the specialization is toggled (or the change throws and nothing changes); another id takes the value |
| DoctorList.DoctorListPage.HandleClearFilters | src/pages/DoctorList.jsx:193-196 | the filters are the initial ones and the box is empty |
| DoctorList.DoctorListPage.FetchDoctors | src/pages/DoctorList.jsx:87-166 | the specified query is sent and the store ends loaded, failed or loading as the fetch effect says |
| DoctorList.DoctorListPage.Settle | src/pages/DoctorList.jsx:129-165 | the store ends loaded, failed or still loading as the outcome says |
| DoctorList.ClearThenFetch | src/pages/DoctorList.jsx:193-196 | clearing and fetching again sends exactly maxFee null and empties the box |
| BookAppointment.NextStepGuarded | src/pages/BookAppointment.jsx:132-138 | Next moves exactly from step 1 with a date and slot or from step 2 with the details, by one step, never onto the confirmation step |
| BookAppointment.BackStepBounded | src/pages/BookAppointment.jsx:140-144 | Back lowers the step by one and never leaves 1..4 |
| BookAppointment.BackUndoesNext | src/pages/BookAppointment.jsx:132-144 | Back undoes a successful Next |
| BookAppointment.MockEndTimeOfClock | src/pages/BookAppointment.jsx:102-106 | for "hh:mm" the end time is the next hour zero-padded with the same minutes, and reads back as hour + 1 |
| BookAppointment.MockSlot | src/pages/BookAppointment.jsx:104-108 | a fallback slot starts at its time and is booked as drawn |
| BookAppointment.PushMockSlots | src/pages/BookAppointment.jsx:99-110 | one slot per time, in order, with its end time and its draw |
| BookAppointment.GenerateMockSlots | src/pages/BookAppointment.jsx:98-111 | seven slots at the fixed times, in order, booked as drawn |
| BookAppointment.MockTimesAreClockTimes | src/pages/BookAppointment.jsx:100 | every fallback time is two digits, a colon and the minutes |
| BookAppointment.ChosenSlots | src/pages/BookAppointment.jsx:87-92 | the server's data slots win; the fallback is used when the request threw or sent no list |
| BookAppointment.MockOnlyWithoutServerSlots | src/pages/BookAppointment.jsx:87 | a list from either field, even an empty one, is kept instead of the fallback |
| BookAppointment.FullDateRoundTrip | src/pages/BookAppointment.jsx:151 | the date text has three fields that read back as year, 1-based month and day |
| BookAppointment.Payload | src/pages/BookAppointment.jsx:149-159 | the request exists exactly when a date and slot are chosen and carries the draft's fields, slot times and date text |
| BookAppointment.BookingWizard.constructor | src/pages/BookAppointment.jsx:27-43 | step 1, nothing chosen, no slots, an empty form |
| BookAppointment.BookingWizard.HandleNext | src/pages/BookAppointment.jsx:129-138 | the step advances as Next allows and the step guards keep holding |
| BookAppointment.BookingWizard.HandleBack | src/pages/BookAppointment.jsx:140-144 | the step goes back as Back allows and the guards keep holding |
| BookAppointment.BookingWizard.HandleDateSelect | src/pages/BookAppointment.jsx:113-116 | the date is stored and the slot forgotten |
| BookAppointment.BookingWizard.HandleSlotSelect | src/pages/BookAppointment.jsx:118-120 | the slot is stored as given |
| BookAppointment.BookingWizard.PickSlot | src/pages/BookAppointment.jsx:118-120 | a booked slot is never stored; an open one is |
| BookAppointment.BookingWizard.HandleInputChange | src/pages/BookAppointment.jsx:122-127 | one form field is set and every other kept |
| BookAppointment.BookingWizard.FetchAvailableSlots | src/pages/BookAppointment.jsx:80-96 | the slots become the chosen list and loading ends |
| BookAppointment.BookingWizard.ChooseDate | src/pages/BookAppointment.jsx:62-96 | a new date clears the slot; the slots become the data list, else the top-level list, else the seven fallback slots drawn as given |
| BookAppointment.BookingWizard.HandleSubmit | src/pages/BookAppointment.jsx:146-169 | the request is the payload; success moves to step 4, any failure alerts and stays |
| BookAppointment.ScheduleStep | src/pages/BookAppointment.jsx:113-138 | a date and an open slot lead to step 2 with the form untouched |
| BookAppointment.BookingFlow | src/pages/BookAppointment.jsx:113-169 | the happy path reaches submission with a request carrying the draft, the slot and the date |
| Text.EmailPatternExamples | src/pages/auth/Login.jsx:36 | the pattern accepts "a@b.c" and rejects text missing the dot part, the local part or the domain |
| Js.Or | src/pages/DoctorList.jsx:132 | the first operand when truthy, else the second |

## Left out

- HTTP services (`doctorService`, `appointmentService`, `authService` and the API client) are not part of this model. Every call is a parameter giving its outcome. `localStorage` is a pair of fields read by the auth store's constructor. The JSON round trip of the stored user is taken as the identity.
- Overlapping asynchronous fetches are not modelled: each fetch completes atomically, as the code has no guard against stale responses.
- `Math.random` in `generateMockSlots` is a parameter of one boolean draw per slot.
- Time zones and `Date` normalisation are left out:
  - the calendar works on (year, month, day) triples and a `minDate` moment;
  - appointment instants map to calendar days in UTC;
  - the UTC shift of `toISOString` in the booking request is not modelled.
- Floating point: ratings and the swipe power use `real` with no rounding. The doctor fee's `parseFloat` is kept as a separate string-to-real reading. `toFixed` in the rating display is not modelled.
- Text.ParseFloat: reads decimal text only (sign, digits, one fraction); an exponent such as "1e3", which the number input accepts, is read as its leading part (1 instead of 1000).
- Text.ParseInt: reads decimal digits only; `parseInt`'s reading of "0x" text as hexadecimal is not modelled (the app only parses slider positions, number inputs and fixed clock times).
- Js.Member: a string's `length` and index properties count characters, where JavaScript counts UTF-16 code units. The app only tests such lengths against zero, where both agree; the password length rule is modelled in code units by `Text.Utf16Length`.
- DatePicker: `new Date(y, m, d)` maps the years 0 to 99 onto 1900 to 1999; the calendar arithmetic takes the year as given, so the months shown for the years 0 to 99 are not modelled.
- AuthSlice.AuthStore.constructor: requires a stored role that can be read; the throwing load of a stored user with a non-string role is modelled by `LoadAuthStore`, which returns null then.
- Letter case: `toLowerCase`/`toUpperCase` are modelled on ASCII letters only; Unicode case mapping is left out.
- Object key order and object identity in `===` are not modelled: objects compare by contents.
- The property lookups of `safeGet` and `Js.Member`, and the `statusConfig[status]` lookup of `PatientAppointments.StatusBadge`, see own keys only. Keys inherited from `Object.prototype` (a status of "constructor", say) are not modelled.
- The text of the TypeErrors the engine throws (a missing `join`, reading `data` of null) follows V8's wording. Only the fact that a throw happens is relied on.
- `setSortBy` is imported by the doctor list but not defined by the doctor slice, and the slice keeps no `sortBy`. The page therefore reads `sortBy` as undefined, and the sort-option change handler is not modelled.
- `renderStars` in src/pages/DoctorList.jsx:202-218 is the same code as in src/pages/DoctorDetails.jsx:84-100. It is modelled once, by `DoctorDetails.RenderStars`.
- PatientAppointments.AppointmentsPage.FetchAppointments: `response.data || response || []` is taken to be a list of appointment records. Other shapes are not modelled.
- The cancel handler of the appointments page is left out: it is a `window.confirm`, a service call and a re-fetch. Which cards offer Cancel is modelled.
- Presentational files are not part of this model: the home, about and contact pages, the footer, navbar, card, input, loader and animation wrappers, and `Button`. The rule that a disabled or loading `Button` ignores clicks is therefore not modelled.
- The routing table of `App.jsx` and the store wiring are not part of this model.
- Navigation, `alert`, `window.confirm`, `setTimeout` and console output are side effects. They appear only as returned targets or flags.
- The doctor list's grid/list view switch and its filter-drawer toggle are display state and are left out. So is the booking page's `fetchDoctorDetails` loading of the doctor card.
- The booking page's redirect of signed-out users (src/pages/BookAppointment.jsx:54-60) is navigation and is left out.
- Register.RegisterPage.HandleChange: `e.target.name` is assumed to be one of the form's fields, never the `general` error key.
- The carousel assumes a non-empty image list that does not change while it is shown. The `interval` prop only times the autoplay ticks, and that timing is not modelled.
- TimeSlotPicker.FormatTime: proved for all inputs in general terms; worked string examples are not stated.
- Register: `userType` is modelled as its two radio values, patient and doctor.
- BookAppointment.PushMockSlots: proved for any rule for the end time. The page's rule is proved separately by `MockEndTimeOfClock`.
- FilterPanel.ApplyShown is a plain predicate, `onApplyFilters` being truthy, with no further contract.
