# Booking system core, modelled in Dafny

This project models the scheduling and booking core of a multi-brand
booking system that keeps its appointments in Microsoft 365 calendars and
Microsoft Bookings. It covers these parts:

- the calendar service: reading events, expanding the days of a range, and
  classifying events as busy;
- availability: the time grid, business hours, working-hour windows, slot
  generation, conflict checks, recurring patterns and the next free slot;
- the booking lifecycle: creating, cancelling and rescheduling bookings,
  listing a customer's or a staff member's bookings, and the in-memory
  store of booking mappings;
- the availability checker, with default business hours;
- the back end's Graph service: ISO 8601 durations, bookings for a date,
  time-slot generation and free slots, deduplication, the admin list with
  its filters, sorting and paging, and the booking statistics;
- the HTTP routes: config availability, config bookings, calendar bookings
  (POST, GET and DELETE) and the admin fetch-bookings consolidation;
- request validation and the error handler;
- the configuration lookups over brands, employees and services.

Modules follow the source files. `Booking.BookingStore` is a class,
because the source's store changes a map in place. Loops in the source are
methods with invariants, each proved against a function that specifies it.
The rest is datatypes, functions and lemmas.

The environment becomes values:

- Time is integer minutes of local wall-clock time, in one fixed time zone
  (module `Clock`); day 0 is a Thursday. The current time is a parameter
  (`now`).
- What the calendar and Bookings APIs return is a read-only `Provider` (a
  map from calendar to events). A calendar missing from the map is one
  whose read fails.
- Writes go through `Gateway`, a record of oracle functions: post an event,
  delete an event, send mail, create an appointment. Each write operation
  returns the trace of calls it made, in order, together with its result.
- Lookups of services and staff in the Bookings directory are the oracle
  record `Settings.Directory`.
- New booking ids are a parameter (`newId`).
- The modules `Common`, `JsString`, `Clock` and `Provider` hold the shared
  vocabulary: option and result types, the JavaScript string operations
  used (`trim`, `split`, `includes`, ASCII `toLowerCase`), and calendar
  arithmetic.

Where the specification and the code disagree, the model follows the code.
`getCalendarEvents` never selects an event's `location`. So
`getStaffBookings` always falls back to an empty shared mailbox
(`Booking.StaffBookingsSound`). The model keeps this, as do these other
behaviours of the code:

- The calendar POST route can never answer 409, because `createBooking`
  throws every failure and the route maps all of them to 500
  (`CalendarBookingsRoute.CreateErrorsAre500`).
- `extractStaffEmail` returns the address of the first required attendee
  that does not contain '@customer'. An ordinary customer address does not
  contain that text, so a required customer can be reported as the staff
  member.
- A reschedule that fails after its cancellation leaves the old record
  unchanged and still confirmed, pointing at deleted events
  (`Booking.BookingStore.RescheduleBooking`).

## Model

Functions that only define a computation are listed with "defines", and the lemmas or methods beside them carry the properties.

| member | source | states |
|---|---|---|
| CalendarService.IsTimeSlotAvailable | app/lib/calendar/service.ts:268-286 | defines the check: false when the calendar cannot be read, otherwise true when no event of the page of at most 200 events read for the range is anything but `free`; its meaning is stated by `TimeSlotAvailability` |
| CalendarService.CalendarPage | app/lib/calendar/service.ts:48-76 | a page is read exactly when the calendar can be read |
| CalendarService.CalendarPageProperties | app/lib/calendar/service.ts:60-67 | the page is the first min(n, 200) events of the calendar view, in order; each lies in the calendar and overlaps the range; a view of at most 200 events is read whole |
| CalendarService.TimeSlotAvailability | app/lib/calendar/service.ts:268-286 | free iff the calendar can be read and every event among the first 200 of the view is `free`; a readable calendar whose overlapping events are all free is free; when the view has at most 200 events, free implies every overlapping event is free |
| CalendarService.AvailableWhenNothingOverlaps | app/lib/calendar/service.ts:274-281 | a readable calendar with no event in the range is free (`some` over an empty list is false) |
| CalendarService.ExtractDaysOfWeekCases | app/lib/calendar/service.ts:291-306 | a weekly pattern with days gives those days lower-cased in order, a daily pattern the seven days monday..sunday, anything else (no recurrence, no pattern, other type) nothing |
| CalendarService.DailyPatternCoversEveryDay | app/lib/calendar/service.ts:301-303 | the weekday name of every instant is in a daily pattern's list |
| CalendarService.ExtractedDaysAreLowerCase | app/lib/calendar/service.ts:297-299 | every extracted day name is already lower-case |
| CalendarService.FirstPieceIsPrefix | app/lib/calendar/service.ts:133 | `id.split('_')[0]` is the prefix of the id before its first '_', the whole id when it has none |
| CalendarService.MeetingOf | app/lib/calendar/service.ts:106-134 | the pattern keeps the event's id and subject, its duration is end − start, its times are the local times of day of start and end; a series master takes the days of its recurrence and its own id as master id, an occurrence the weekday of its start and the id prefix before '_' |
| CalendarService.SourcesQualify | app/lib/calendar/service.ts:98-136 | only events of the view whose subject contains the pattern and that are not busy, and that are series masters or occurrences, contribute |
| CalendarService.MastersDistinct | app/lib/calendar/service.ts:96-104 | each series-master id contributes at most once, and never an id already in the processed set |
| CalendarService.SourcesComplete | app/lib/calendar/service.ts:98-136 | every qualifying occurrence contributes, and every qualifying series master not yet seen has a contributing master with its id |
| CalendarService.CollectPatterns | app/lib/calendar/service.ts:95-139 | the loop with its processed-masters set yields exactly the patterns of the contributing events, in order |
| CalendarService.GetRecurringAvailableSlots | app/lib/calendar/service.ts:82-144 | a failed read is an error; otherwise the result is the pattern list of the page of at most 200 events read for the range |
| CalendarService.GetCalendarEvents | app/lib/calendar/service.ts:48-76 | fails iff the mailbox cannot be read; otherwise the events of the page of at most 200 read for the range, in order, without a location (the query does not select it) |
| CalendarService.CreateCalendarBooking | app/lib/calendar/service.ts:149-233 | defines the two posts of a booking, the shared event and then the staff copy, with a failure of either rethrown and nothing undone; its write trace is stated by `CreateCalendarBookingWrites` |
| CalendarService.CreateCalendarBookingWrites | app/lib/calendar/service.ts:149-233 | the shared event "<service> - <customer>" is posted first, the staff copy with subject prefixed "[Booking] " second and only after the first succeeded; both busy over the requested interval; nothing is deleted on failure; success iff both posts succeed, returning their ids |
| CalendarService.CancelCalendarBooking | app/lib/calendar/service.ts:238-263 | defines the two deletes of a cancellation, the shared event and then the staff event, with a failed delete rethrown; stated by `CancelCalendarBookingWrites` |
| CalendarService.CancelCalendarBookingWrites | app/lib/calendar/service.ts:238-263 | the shared event is deleted first, the staff event only after that succeeded; success iff both deletes succeed |
| CalendarService.MeetingsOf | app/lib/calendar/service.ts:106-134 | one pattern per contributing event, in order |
| CalendarService.MeetingsSnoc | app/lib/calendar/service.ts:95-139 | one more contributing event adds its pattern at the end |
| CalendarService.SourcesStep | app/lib/calendar/service.ts:98-136 | one step of the walk adds a qualifying master not seen before, or a qualifying occurrence, and passes over every other event |
| Availability.GenerateBookingSlotsWithinWindow | app/lib/calendar/availability.ts:141-168 | the while loop returns exactly the window slots: starts every 30 minutes from the window start while before the window end, kept when start + duration fits |
| Availability.WindowSlots | app/lib/calendar/availability.ts:150-165 | defines the candidates of a window: a start every 30 minutes before the window end, kept when the slot fits; its shape, order and completeness are stated by the three `WindowSlots*` lemmas |
| Availability.WindowSlotsShape | app/lib/calendar/availability.ts:150-165 | every window slot starts on the 30-minute grid from the window start and before its end, ends at start + duration no later than the window end, and is not marked recurring |
| Availability.WindowSlotsIncreasing | app/lib/calendar/availability.ts:150-165 | window slot starts strictly increase |
| Availability.WindowSlotsComplete | app/lib/calendar/availability.ts:150-165 | every grid start whose slot fits in the window is offered |
| Availability.ShortWindowIsEmpty | app/lib/calendar/availability.ts:150-161 | a window shorter than the service yields no slot |
| Availability.AvailabilityEvents | app/lib/calendar/availability.ts:64-67 | an event is a window iff its subject contains the pattern and it is `free` or `tentative` |
| Availability.ShortEventOffersNothing | app/lib/calendar/availability.ts:80-82 | an availability event shorter than the service duration offers nothing |
| Availability.KeepWindowSlots | app/lib/calendar/availability.ts:93-115 | the slot loop keeps exactly the slots free in both calendars, marked with the event's id and with `isRecurring` iff the event is an occurrence or a series master |
| Availability.KeptWindowSlotsSound | app/lib/calendar/availability.ts:93-115 | every kept slot is free in both calendars and lies on the event's grid, carrying its id |
| Availability.EventsSlots | app/lib/calendar/availability.ts:72-117 | defines the free slots of the availability events, event by event in view order; stated by `EventsSlotsSound` |
| Availability.EventsSlotsSound | app/lib/calendar/availability.ts:72-117 | every candidate is free in both calendars and lies inside one of the availability events |
| Availability.FromTomorrow | app/lib/calendar/availability.ts:123-127 | keeps exactly the slots starting at or after the start of tomorrow, in order |
| Availability.FromTomorrowSorted | app/lib/calendar/availability.ts:120-127 | filtering a sorted list keeps it sorted |
| Availability.AvailableSlots | app/lib/calendar/availability.ts:72-127 | defines the result of `getAvailableSlots`: the free slots of the availability events, sorted by start, from tomorrow's local midnight on; stated by `AvailableSlotsProperties` |
| Availability.GetAvailableSlots | app/lib/calendar/availability.ts:35-136 | a failed read is an error; otherwise the result is the sorted, from-tomorrow list of the kept window slots of the availability events on the page of at most 200 events read |
| Availability.AvailableSlotsProperties | app/lib/calendar/availability.ts:35-136 | the result is sorted by start and every slot starts no earlier than tomorrow, is free in both calendars and lies in an availability event (subject with the pattern, free or tentative) whose id it carries |
| Availability.AvailableSlotsSorted | app/lib/calendar/availability.ts:119-127 | the result is sorted by start |
| Availability.DayPatterns | app/lib/calendar/availability.ts:199-201 | exactly the patterns whose day list includes the weekday name, in order |
| Availability.KeepPatternSlots | app/lib/calendar/availability.ts:222-242 | the slot loop keeps exactly the slots free in both calendars and starting at or after now, marked recurring with the pattern's series-master id |
| Availability.KeptPatternSlotsSound | app/lib/calendar/availability.ts:222-242 | every kept slot is free in both calendars, not in the past, and lies on the pattern's grid for that day |
| Availability.PatternSlotsOfDay | app/lib/calendar/availability.ts:196-243 | the pattern loop of one day yields the kept slots of that day's patterns, pattern by pattern |
| Availability.DaySlots | app/lib/calendar/availability.ts:203-243 | defines the slots of one day: the kept window slots of each pattern of that day, in pattern order; stated by `DaySlotsSound` |
| Availability.DaySlotsSound | app/lib/calendar/availability.ts:203-243 | every slot of a day comes from one of the patterns recurring on that day |
| Availability.CollectRecurringSlots | app/lib/calendar/availability.ts:192-247 | the day loop visits every local midnight from that of `startDate` while it is not after `endDate`, concatenating each day's slots |
| Availability.RecurringFrom | app/lib/calendar/availability.ts:192-247 | defines the slots of the day loop from a local midnight while it is not after the end; stated by `RecurringFromSound` |
| Availability.RecurringFromSound | app/lib/calendar/availability.ts:192-247 | every slot comes from a pattern recurring on a visited day |
| Availability.RecurringSlots | app/lib/calendar/availability.ts:192-250 | defines the result of the recurring search: the day-loop slots from local midnight of the start, sorted by start; stated by `RecurringSlotsProperties` |
| Availability.GetRecurringSlots | app/lib/calendar/availability.ts:173-257 | a failed read is an error; otherwise the day-loop slots of the patterns on the page of at most 200 events read, sorted by start |
| Availability.RecurringSlotsProperties | app/lib/calendar/availability.ts:173-257 | the result is sorted; every slot is free in both calendars, starts at or after now, and lies on the grid of a pattern recurring on a day from local midnight of `startDate` through `endDate` |
| Availability.CheckSlotAvailability | app/lib/calendar/availability.ts:262-305 | available iff both calendars are free; a reason is given iff unavailable; the shared calendar is checked first and its reason wins, the staff reason only when the shared one is free |
| Availability.FirstAvailableIsEarliest | app/lib/calendar/availability.ts:328 | the first slot offered is the earliest, and there is none iff no slot is offered |
| Availability.GetNextAvailableSlot | app/lib/calendar/availability.ts:310-329 | the first slot of `getAvailableSlots` over the next `maxDaysAhead` days, or none; a failed read is an error |
| Availability.SlotsOn | app/lib/calendar/availability.ts:355-361 | the group of a day holds exactly the slots whose local day it is, in order |
| Availability.DaysOf | app/lib/calendar/availability.ts:355-361 | the keys are the days of the slots, without repetition, in order of first appearance |
| Availability.Summarize | app/lib/calendar/availability.ts:353-367 | the loop gives the count, the first slot iff any, and the map from each day to that day's slots, with exactly the days of the slots as keys |
| Availability.GroupSlot | app/lib/calendar/availability.ts:356-360 | one step: the slot joins its day's group, which is opened when the day is new |
| Availability.SummaryPartitions | app/lib/calendar/availability.ts:353-361 | every slot is in its own day's group, and a group holds only slots of that day |
| Availability.GetAvailabilitySummary | app/lib/calendar/availability.ts:334-368 | `totalSlots` is the number of slots, `nextAvailable` is the first slot and none iff there are none, and the groups are those of `Summarize`; a failed read is an error |
| Availability.SortedFirstIsEarliest | app/lib/calendar/availability.ts:328 | in a list sorted by start, the first slot starts no later than any other |
| Availability.SlotsOnEmpty | app/lib/calendar/availability.ts:355-361 | a day without slots has no group |
| Availability.SlotsOnSnoc | app/lib/calendar/availability.ts:356-360 | one more slot extends only the group of its own day, at its end |
| Availability.DaysOfSnoc | app/lib/calendar/availability.ts:356-360 | one more slot adds its day to the days when that day is new |
| Booking.FirstNonDash | app/lib/calendar/booking.ts:312 | the index where the leftmost match of the subject expression can begin: the first character that is not '-', every earlier one being '-' |
| Booking.SkipSpace | app/lib/calendar/booking.ts:312 | the end of the `\s*` run after "[Booking]": every skipped character is white space and the one it stops at is not |
| Booking.NextDash | app/lib/calendar/booking.ts:312 | the end of the `[^-]+` group: the first '-' at or after the index, with no '-' before it |
| Booking.NoDashIn | app/lib/calendar/booking.ts:312 | a stretch free of '-' gives a piece free of '-' |
| Booking.ServiceGroup | app/lib/calendar/booking.ts:312 | the captured group holds no '-' and is non-empty, and there is no match exactly when the subject has no '-' after its first non-'-' character |
| Booking.ExtractServiceName | app/lib/calendar/booking.ts:310-314 | a subject without '-' gives 'Unknown Service' |
| Booking.ExtractCustomerName | app/lib/calendar/booking.ts:319-323 | without '-' the name is 'Unknown Customer'; otherwise it is the trimmed last '-' piece and holds no '-' |
| Booking.TrimIsInfix | app/lib/calendar/booking.ts:322 | every character of a trim is a character of the string |
| Booking.SplitLastPiece | app/lib/calendar/booking.ts:321-322 | after a last separator, the last piece of the split is exactly the text that follows it |
| Booking.TrimLeadingSpace | app/lib/calendar/booking.ts:322 | a leading space does not change a trim |
| Booking.TrimTrailingSpace | app/lib/calendar/booking.ts:313 | a trailing space after a non-space start does not change a trim |
| Booking.CustomerNameOfSubject | app/lib/calendar/booking.ts:319-323 | the customer name is read back, trimmed, from either subject that `createCalendarBooking` writes, when the name holds no '-' |
| Booking.ServiceGroupOfHead | app/lib/calendar/booking.ts:312 | a subject whose first piece is non-empty, free of '-' and does not start with '[Booking]' captures exactly that piece |
| Booking.ServiceGroupOfTagged | app/lib/calendar/booking.ts:312 | a subject tagged "[Booking] " captures the next '-'-free piece after the white space |
| Booking.ServiceNameOfSharedSubject | app/lib/calendar/booking.ts:310-314 | the service name is read back, trimmed, from the shared-calendar subject "<service> - <customer>" |
| Booking.ServiceNameOfStaffSubject | app/lib/calendar/booking.ts:310-314 | the service name is read back, trimmed, from the staff-calendar subject "[Booking] <service> - <customer>" |
| Booking.StaffIndex | app/lib/calendar/booking.ts:331-335 | the position `find` stops at: the first required attendee whose address lacks '@customer', none before it qualifying |
| Booking.ExtractStaffEmail | app/lib/calendar/booking.ts:328-337 | '' without attendees or without a qualifying one; otherwise the first qualifying attendee's address, or '' when it has none |
| Booking.ExtractCustomerEmail | app/lib/calendar/booking.ts:342-346 | '' without attendees; otherwise the first attendee's address, or '' when it has none |
| Booking.CustomerEmailOfBookingEvent | app/lib/calendar/booking.ts:342-346 | on the event `createCalendarBooking` writes, the customer's address is read back |
| Booking.StaffEmailOfBookingEvent | app/lib/calendar/booking.ts:328-337 | on the event `createCalendarBooking` writes, the staff address is read back only when the customer's address contains '@customer'; otherwise the customer's address is taken |
| Booking.CustomerEvents | app/lib/calendar/booking.ts:191-198 | the kept events are exactly the busy events one of whose attendees has the customer's address, ignoring case |
| Booking.StaffEvents | app/lib/calendar/booking.ts:252-253 | the kept events are exactly the busy events whose subject contains '[Booking]' |
| Booking.BookingStore.constructor | app/lib/calendar/booking.ts:35 | the store starts empty and valid |
| Booking.BookingStore.Put | app/lib/calendar/booking.ts:35-98 | `Map.set`: the record is stored under its id, a new key is appended to the iteration order and an existing key keeps its place |
| Booking.BookingStore.GetBookingById | app/lib/calendar/booking.ts:155-157 | a booking is found exactly when the id is stored, and it is the record stored under that id |
| Booking.BookingStore.FindFrom | app/lib/calendar/booking.ts:298-305 | none exactly when no booking from that position on has the event; otherwise one that has it |
| Booking.BookingStore.FindBookingByEventId | app/lib/calendar/booking.ts:298-305 | none exactly when no stored booking has the event as its shared or staff event; otherwise a stored booking that has it, the first in insertion order |
| Booking.BookingStore.CreateBooking | app/lib/calendar/booking.ts:40-109 | an unavailable slot fails with 'Booking failed: <reason>' before any write; a failed write fails with 'Failed to create booking' and stores nothing; otherwise the confirmed record is stored under the new id and the confirmation mail is sent, its failure not changing the outcome |
| Booking.BookingStore.CancelBooking | app/lib/calendar/booking.ts:114-150 | an unknown id and a cancelled booking fail before any write; a failed delete fails with 'Failed to cancel booking' and changes nothing; otherwise only the status becomes cancelled and the cancellation mail is sent |
| Booking.BookingStore.RescheduleBooking | app/lib/calendar/booking.ts:454-517 | an unknown id, a cancelled booking and an unavailable new slot fail before any write; the old events are deleted before the new ones are written, and if either fails the record is unchanged; on success only the event ids and the times change |
| Booking.BookingStore.CustomerBookingsOf | app/lib/calendar/booking.ts:191-223 | defines the customer listing: one booking per customer event in view order, stopping at the first error; stated by `CustomerBookingsSound` |
| Booking.BookingStore.CustomerBookingsStep | app/lib/calendar/booking.ts:191-223 | one more event extends the listing by the booking for that event when it is the customer's, and stops at its error |
| Booking.BookingStore.ListingStep | app/lib/calendar/booking.ts:191-223 | one turn of the listing loop: an event that is not the customer's leaves the listing; a customer event extends it by its booking or, when that fails, makes the whole listing that error |
| Booking.BookingStore.CustomerBookingsErrSticky | app/lib/calendar/booking.ts:191-223 | an error on a prefix of the events is the error of the whole listing |
| Booking.BookingStore.CustomerBookingsSound | app/lib/calendar/booking.ts:191-223 | one booking per customer event, in order, holding that event: the stored booking, or a confirmed record under the event's id with the customer's address; it fails exactly when such an event has no stored booking and no subject |
| Booking.BookingStore.ListCustomerBookings | app/lib/calendar/booking.ts:191-223 | the loop returns exactly the listing of the events |
| Booking.BookingStore.GetCustomerBookings | app/lib/calendar/booking.ts:162-230 | the shared calendar is read over the given range, one month back to three months ahead by default; a failed read fails, otherwise the answer is the listing of the events read |
| Booking.BookingStore.StaffBookingsOf | app/lib/calendar/booking.ts:235-284 | defines the staff listing: one booking per tagged busy event, in view order; stated by `StaffBookingsSound` |
| Booking.BookingStore.StaffBookingsSound | app/lib/calendar/booking.ts:235-284 | one booking per tagged busy event, in order, holding that event: the stored booking, or a confirmed record under the event's id with the staff address and an empty shared mailbox |
| Booking.BookingStore.GetStaffBookings | app/lib/calendar/booking.ts:235-284 | a failed read fails; otherwise the answer is the listing of the tagged events read |
| Settings.GetBrandById | app/lib/config/settings.ts:29-31 | none exactly when no brand has the id; otherwise the first brand with that id |
| Settings.GetEmployeeById | app/lib/config/settings.ts:33-35 | none exactly when no employee has the id; otherwise the first employee with that id |
| Settings.GetEmployeesForBrand | app/lib/config/settings.ts:37-39 | exactly the employees that list the brand, in configuration order |
| Settings.FindStaffMemberIdByEmail | app/lib/config/settings.ts:44-61 | the id of the first staff member whose address equals the email ignoring case; none when the directory request fails, nobody matches, or the match has an empty id |
| Settings.FindServiceById | app/app/api/config/bookings/route.ts:45 | none exactly when no service has the id; otherwise the first service of the list with that id, as `find` returns |
| Checker.CheckCalendarAvailability | app/lib/availability/checker.ts:38-66 | a calendar is available exactly when it can be read and no event in the range is anything but free |
| Checker.CheckAvailability | app/lib/availability/checker.ts:10-33 | a slot is available exactly when all three calendars are free over it |
| Checker.GridExit | app/lib/availability/checker.ts:93-117 | the 30-minute stepping leaves the day at the first grid point at or after the day's end, or at once when it starts there |
| Checker.DayCandidates | app/lib/availability/checker.ts:93-117 | defines one day's slots: every 30-minute start before the day's end whose slot fits and passes the three-calendar check; stated by `DayCandidatesSound` and `DayCandidatesIncreasing` |
| Checker.DayCandidatesSound | app/lib/availability/checker.ts:93-117 | every slot of a day starts on the 30-minute grid before the day's end, ends at start + duration no later than the day's end, and passes the three-calendar check |
| Checker.NextDayAdvances | app/lib/availability/checker.ts:119-121 | the next day's instant is a local midnight later than the current instant |
| Checker.GetAvailableSlots | app/lib/availability/checker.ts:71-125 | the nested loops return exactly the grid of the days from the start date |
| Checker.ScanDay | app/lib/availability/checker.ts:93-117 | the inner loop returns exactly the day's available candidates and stops at the day's grid exit |
| Checker.DayCandidatesIncreasing | app/lib/availability/checker.ts:93-117 | the starts of one day's slots strictly increase |
| Checker.GridFrom | app/lib/availability/checker.ts:71-125 | defines the slots of the day loop: each day from its working-hours start, then the next local midnight, while before the end; stated by `GridSound` and `GridIncreasing` |
| Checker.GridSound | app/lib/availability/checker.ts:71-125 | every slot lasts the service duration, passes the three-calendar check, lies on the working-hours grid of some day, and starts no earlier than local midnight of the start date |
| Checker.GridIncreasing | app/lib/availability/checker.ts:71-125 | the starts of all slots strictly increase |
| Checker.IncreasingConcat | app/lib/availability/checker.ts:108 | two increasing runs, the first before the second, append to an increasing run |
| Checker.FirstDayReset | app/lib/availability/checker.ts:85-87 | the first day is reset to the start of working hours whatever the start time: its first candidate, if it fits and is free, is the first slot even when it lies before the start date |
| Checker.DefaultHoursSlots | app/lib/availability/checker.ts:78 | with the default hours 9 to 17 every slot starts at 09:00 or later on a half hour and ends by 17:00 of its day |
| Checker.DefaultHoursSlot | app/lib/availability/checker.ts:78-98 | a slot on the 9 to 17 grid of a day starts at 09:00 or later on a half hour and ends by 17:00 |
| IsoDuration.DigitChar | backend/src/services/graphApiService.ts:226-228 | the character of a digit is a digit and reads back as that digit |
| IsoDuration.Numeral | backend/src/services/graphApiService.ts:226-228 | the decimal numeral of a number is a non-empty run of digits |
| IsoDuration.NumeralValue | backend/src/services/graphApiService.ts:228 | `parseInt` of the numeral of a number gives the number back |
| IsoDuration.RunEnd | backend/src/services/graphApiService.ts:226-227 | the greedy `\d+` ends at the first non-digit after the position, every character before it being a digit |
| IsoDuration.RunEndInside | backend/src/services/graphApiService.ts:226-227 | every position inside a run of digits has the same run end |
| IsoDuration.RunEndOf | backend/src/services/graphApiService.ts:226-227 | a run of digits followed by a non-digit ends there |
| IsoDuration.DesignatorIsLeftmostMatch | backend/src/services/graphApiService.ts:226-227 | the captured number is none exactly when the expression has no match, and otherwise the number of its leftmost match |
| IsoDuration.Designator | backend/src/services/graphApiService.ts:226-227 | defines the number captured by `(\d+)X` from a position: digits not followed by the designator are passed over |
| IsoDuration.DesignatorSkip | backend/src/services/graphApiService.ts:226-227 | positions without digits are passed over by the search |
| IsoDuration.DesignatorAtNumeral | backend/src/services/graphApiService.ts:226-228 | a numeral followed by the designator is captured with its number |
| IsoDuration.DesignatorPastNumeral | backend/src/services/graphApiService.ts:226-227 | a numeral followed by another non-digit is passed over |
| IsoDuration.HoursDesignator | backend/src/services/graphApiService.ts:226 | in `PT<h>H<m>M` the hours expression captures `h` |
| IsoDuration.MinutesDesignator | backend/src/services/graphApiService.ts:227 | in `PT<h>H<m>M` the minutes expression captures `m` |
| IsoDuration.HoursAndMinutes | backend/src/services/graphApiService.ts:225-228 | `PT<h>H<m>M` reads as h·60 + m minutes |
| IsoDuration.HoursOnly | backend/src/services/graphApiService.ts:225-228 | `PT<h>H` reads as h·60 minutes, the missing minutes counting as 0 |
| IsoDuration.MinutesOnly | backend/src/services/graphApiService.ts:225-228 | `PT<m>M` reads as m minutes, the missing hours counting as 0 |
| IsoDuration.MonthsReadAsMinutes | backend/src/services/graphApiService.ts:225-228 | a duration of n months, `P<n>M`, reads as n minutes |
| IsoDuration.DefaultIsHalfHour | backend/src/services/graphApiService.ts:225 | the default `PT30M` reads as 30 minutes |
| IsoDuration.DurationMinutes | backend/src/services/graphApiService.ts:225-228 | defines the minutes of a duration text: hours from the first `(\d+)H` times 60 plus minutes from the first `(\d+)M`; stated by `HoursAndMinutes`, `HoursOnly`, `MinutesOnly` |
| IsoDuration.DaysAndSecondsReadAsZero | backend/src/services/graphApiService.ts:225-228 | the durations 'P1D' and 'PT45S' have neither an hour nor a minute component and read as 0 minutes |
| GraphService.OrOption | backend/src/services/graphApiService.ts:184 | `a \|\| b` on an optional list: the first when it is present and non-empty, else the second |
| GraphService.FirstOf | backend/src/services/graphApiService.ts:264-265 | the first time when present, else the second; present when either is |
| GraphService.GetCalendarEvents | backend/src/services/graphApiService.ts:159-200 | a read succeeds exactly when the calendar exists; an event is in the answer exactly when it is among the first 100 events of the view (`top(100)`) and is not cancelled and shows as busy, out of office or tentative; with at most 100 events in the view, exactly the blocking events intersecting the range |
| GraphService.GetBookingsForDate | backend/src/services/graphApiService.ts:328-355 | none when the request fails; otherwise exactly the appointments among the first 100 returned (`top(100)`) that intersect the range, in their order; with at most 100 appointments, exactly those of all that intersect the range |
| GraphService.Stepped | backend/src/services/graphApiService.ts:368-386 | defines the stepped slots: one per interval from the start while before the end, kept when the test holds; stated by the `Stepped*` lemmas |
| GraphService.SteppedSound | backend/src/services/graphApiService.ts:368-386 | every stepped slot lasts one interval, starts in the range and passes the business-hours test |
| GraphService.SteppedStep | backend/src/services/graphApiService.ts:368-386 | one step of the loop adds the current slot when it passes the test and continues one interval later |
| GraphService.LateSlotAsWritten | backend/src/services/graphApiService.ts:373-377 | with the test as written, the hour-long slot from 23:00 to midnight is kept although it lies outside 09:00 to 17:00; the corrected test rejects it |
| GraphService.AfterHoursSlotAsWritten | backend/src/services/graphApiService.ts:373-377 | with the test as written, the slot from 17:00 to 17:30 is kept; the corrected test rejects it |
| GraphService.GenerateTimeSlots | backend/src/services/graphApiService.ts:360-389 | the loop returns exactly the slots of `GenerateTimeSlotsAsWritten`: the stepped slots of the range that pass the start-hour and end-hour test as the source writes it |
| GraphService.GeneratedAsWrittenProperties | backend/src/services/graphApiService.ts:364-377 | every slot generated as written lasts the interval, lies in the range, starts at 09:00 or later of its day and ends at a time whose hour is at most 17 |
| GraphService.CurrentAfter | backend/src/services/graphApiService.ts:368-386 | defines the loop's current time after n steps: the start plus n intervals |
| GraphService.ZeroIntervalNeverAdvances | backend/src/services/graphApiService.ts:225-228 | the durations 'P1D' and 'PT45S' read as 0 minutes, and with a 0 interval the loop's current time stays at the start, before the end, after any number of steps |
| GraphService.GenerateTimeSlotsAsWritten | backend/src/services/graphApiService.ts:364-377 | defines the slots of `generateTimeSlots` as written, with the test `KeepAsWritten`; its properties are `GeneratedAsWrittenProperties`, `SteppedSound` and `SteppedComplete` |
| GraphService.GeneratedSlots | backend/src/services/graphApiService.ts:364-377 | defines the corrected slots, with the test `KeepInBusinessHours`; its properties are `GeneratedSlotsInBusinessHours` |
| GraphService.KeepAsWritten | backend/src/services/graphApiService.ts:373-377 | defines the test as written: the start hour is at least 9, the end hour at most 17, and the slot ends by the end of the range |
| GraphService.KeepInBusinessHours | backend/src/services/graphApiService.ts:373-377 | defines the intended test: the start hour is at least 9, the slot ends by 17:00 of the day it starts on and by the end of the range |
| GraphService.GeneratedSlotsInBusinessHours | backend/src/services/graphApiService.ts:364-377 | for the corrected test, every generated slot lasts the interval, lies in the range, and lies between 09:00 and 17:00 of the day it starts on |
| GraphService.SteppedDisjoint | backend/src/services/graphApiService.ts:368-386 | the generated slots do not overlap: each ends no later than any later one begins |
| GraphService.SteppedFrom | backend/src/services/graphApiService.ts:368-386 | no generated slot starts before the start of the range |
| GraphService.DisjointCons | backend/src/services/graphApiService.ts:378-382 | a slot ending before every slot of a disjoint run can be put in front of it |
| GraphService.SteppedComplete | backend/src/services/graphApiService.ts:368-386 | every grid point of the range whose slot passes the test is generated |
| GraphService.SteppedOnGrid | backend/src/services/graphApiService.ts:368-386 | every generated slot starts on the grid start + k·interval |
| GraphService.StaffEmails | backend/src/services/graphApiService.ts:240-242 | exactly the defined addresses of the staff (`emailAddress`, else `email`, else `userPrincipalName`), no more than there are staff |
| GraphService.GetStaffMembers | backend/src/services/graphApiService.ts:130-153 | a failed staff request gives the empty list, as the source catches it; otherwise the staff returned |
| GraphService.AppointmentPeriods | backend/src/services/graphApiService.ts:263-273 | at most one busy period per appointment |
| GraphService.AppointmentPeriodsExact | backend/src/services/graphApiService.ts:262-273 | a period is busy for the appointments exactly when some appointment has both times and the period runs from its start (`startDateTime` before `start`) to its end (`endDateTime` before `end`) |
| GraphService.EventPeriods | backend/src/services/graphApiService.ts:280-285 | one busy period per calendar event, spanning its start and end |
| GraphService.FreeSlots | backend/src/services/graphApiService.ts:301-314 | exactly the slots that start after now and overlap no busy period, in order |
| GraphService.GetAvailableTimeSlots | backend/src/services/graphApiService.ts:205-323 | a failed services request and an unknown service fail; a failed staff request, no staff and no staff address give no slots; a service whose duration reads as 0 gives no slots; otherwise the slots generated as written for the service duration that start after now and meet none of the first staff member's busy periods |
| GraphService.BusyPeriods | backend/src/services/graphApiService.ts:259-290 | defines the busy periods: those of the range's appointments, then those of the staff calendar's blocking events when it can be read; a failed calendar read adds none |
| GraphService.ServiceMinutes | backend/src/services/graphApiService.ts:225-228 | defines a service's duration: its `defaultDuration`, or `PT30M` when absent or empty, read by `DurationMinutes` |
| GraphService.OfferedSlotsSound | backend/src/services/graphApiService.ts:293-314 | a slot is offered exactly when it is generated as written, starts after now and overlaps no busy period |
| GraphService.OfferedSlotsAvoidBusy | backend/src/services/graphApiService.ts:255-314 | no offered slot meets an appointment of the range that has both times, nor a blocking event of the staff calendar: the double-booking the search avoids |
| GraphService.KeysSnoc | backend/src/services/graphApiService.ts:397-402 | one more slot adds its key to the keys |
| GraphService.FirstPerKeyProperties | backend/src/services/graphApiService.ts:394-402 | the map holds exactly the first slot of each key: its keys are the input's keys and no two of its slots share a key |
| GraphService.DeduplicateSlots | backend/src/services/graphApiService.ts:394-405 | the loop returns the first slot per key, in first-seen order, sorted by start |
| GraphService.DeduplicatedSlotsProperties | backend/src/services/graphApiService.ts:394-405 | the result is sorted by start, carries every start and end of the input exactly once, and holds exactly the first input slot of each |
| AdminBookings.ServiceMapGet | backend/src/services/graphApiService.ts:666-693 | none exactly when no service has the id; otherwise the display name of the last service with that id, as a `Map` built from pairs keeps it |
| AdminBookings.ServiceName | backend/src/services/graphApiService.ts:693 | the service name of an entry is never empty: the display name, else 'Unknown Service' |
| AdminBookings.ToListing | backend/src/services/graphApiService.ts:673-705 | an entry keeps the appointment's id and service id; its address is `customerEmailAddress` when present and non-empty, else the first customer's address; it takes `start.dateTime` before `startDateTime.dateTime` (likewise the end), and its status is the label, else 'confirmed' |
| AdminBookings.Listings | backend/src/services/graphApiService.ts:673-705 | one entry per appointment, in order |
| AdminBookings.FilteredListings | backend/src/services/graphApiService.ts:706-727 | exactly the entries with both times that end after now, whose address (the appointment's, else the first customer's) contains the address filter and whose status equals the status filter ignoring case, in order |
| AdminBookings.SortedListings | backend/src/services/graphApiService.ts:729-734 | the filtered entries sorted by start, a permutation of them |
| Common.SortByStable | backend/src/services/graphApiService.ts:729-734 | the sort is stable: for every key, the elements with that key come out in their input order |
| Common.InsertByStable | backend/src/services/graphApiService.ts:729-734 | helper of `SortByStable`: inserting an element puts it after the elements with its key, keeping their order |
| AdminBookings.OrNumber | backend/src/services/graphApiService.ts:737-738 | `n \|\| d`: the number unless it is absent or zero, else the default |
| AdminBookings.JsIndex | backend/src/services/graphApiService.ts:740 | a `slice` bound in `[0, n]` is itself, one beyond is clamped to `n` |
| AdminBookings.JsSlice | backend/src/services/graphApiService.ts:740 | a slice is never longer than the sequence |
| AdminBookings.CeilDiv | backend/src/services/graphApiService.ts:748 | `Math.ceil(n / d)` for a positive divisor is the least q with n ≤ q·d |
| AdminBookings.PageOf | backend/src/services/graphApiService.ts:736-750 | the page carries the page number, page size and entry count, and only entries of the sorted list |
| AdminBookings.GetAllBookings | backend/src/services/graphApiService.ts:623-760 | the list fails exactly when the appointments or the services cannot be read; otherwise the page is sorted by start, holds only entries that pass the filters, and its total is the number of filtered entries |
| AdminBookings.JsSliceSorted | backend/src/services/graphApiService.ts:740 | a slice of a sorted list is sorted |
| AdminBookings.JsSliceMembers | backend/src/services/graphApiService.ts:740 | a slice holds only elements of the list |
| AdminBookings.PageWindow | backend/src/services/graphApiService.ts:737-740 | with a positive page and size the page is exactly the window `[(page-1)·limit, page·limit)` of the sorted entries, cut at their end, and holds at most `limit` entries |
| AdminBookings.ProductNonNegative | backend/src/services/graphApiService.ts:739 | helper of `PageWindow`: the start index of a positive page is not negative |
| AdminBookings.EntryOnPage | backend/src/services/graphApiService.ts:736-750 | every entry is on a page: entry j is at position j mod limit of page j div limit + 1, which is within the page count |
| AdminBookings.DivBounds | backend/src/services/graphApiService.ts:739-740 | helper of `EntryOnPage`: entry j lies in the block of its page |
| AdminBookings.MulMonotone | backend/src/services/graphApiService.ts:748 | helper of `EntryOnPage`: page indices compare as their first entries do |
| AdminBookings.PageCount | backend/src/services/graphApiService.ts:748 | the page count covers the entries, with no empty page at the end, and is 0 exactly when there are no entries |
| AdminBookings.Bump | backend/src/services/graphApiService.ts:802 | counting a key adds at most one entry |
| AdminBookings.KeySeq | backend/src/services/graphApiService.ts:805 | the keys of the entries, position by position |
| AdminBookings.BumpAbsent | backend/src/services/graphApiService.ts:802-817 | a key seen for the first time is appended with count 1, as object keys keep insertion order |
| AdminBookings.BumpPresent | backend/src/services/graphApiService.ts:802-817 | a key seen before has its count raised by one in place |
| AdminBookings.TallyCounts | backend/src/services/graphApiService.ts:798-819 | the tally has one entry per distinct key, holding the number of its occurrences |
| AdminBookings.CountsPresent | backend/src/services/graphApiService.ts:802-817 | one more occurrence of a counted key keeps the tally exact |
| AdminBookings.CountsAbsent | backend/src/services/graphApiService.ts:802-817 | a first occurrence of a key keeps the tally exact |
| AdminBookings.OccurrencesSnoc | backend/src/services/graphApiService.ts:799-803 | one more key adds one occurrence of it and of nothing else |
| AdminBookings.OccurrencesAbsent | backend/src/services/graphApiService.ts:799-803 | a key that does not occur has no occurrences |
| AdminBookings.PopularIsTop | backend/src/services/graphApiService.ts:805-824 | the top n are n of the entries (all when fewer), in descending order of count, and no entry left out has a larger count than one kept |
| AdminBookings.HourLabel | backend/src/services/graphApiService.ts:801 | the `HH:00` key of an hour has five characters |
| AdminBookings.HourLabelInjective | backend/src/services/graphApiService.ts:800-801 | two hours have the same key exactly when they are the same hour |
| AdminBookings.HourKeys | backend/src/services/graphApiService.ts:799-801 | the hour key of each entry's start, position by position |
| AdminBookings.ServiceKeys | backend/src/services/graphApiService.ts:812-813 | exactly the service ids of the entries that have a service id and name |
| AdminBookings.CountHours | backend/src/services/graphApiService.ts:798-803 | the loop returns the tally of the entries' start hours |
| AdminBookings.CountServices | backend/src/services/graphApiService.ts:811-819 | the loop returns the tally of the entries' service ids |
| AdminBookings.NamedServices | backend/src/services/graphApiService.ts:821-822 | each popular service carries its id, its service name and its count |
| AdminBookings.GetBookingStats | backend/src/services/graphApiService.ts:765-839 | fails exactly when the list fails; otherwise the totals, the three status counts, today's count, the five most popular hours and the four most popular services of the first page of 1000 entries |
| AdminBookings.StatusCountsBounded | backend/src/services/graphApiService.ts:782-785 | the confirmed, cancelled and pending counts add up to no more than the total |
| AdminBookings.StatsFirstThousand | backend/src/services/graphApiService.ts:773-779 | the statistics are taken over the first 1000 upcoming entries in start order |
| AdminBookings.PopularHours | backend/src/services/graphApiService.ts:797-808 | at most five hours, by descending count, each with the number of entries starting in it, and no hour left out has more |
| AdminBookings.PopularServices | backend/src/services/graphApiService.ts:810-824 | at most four services, by descending count, each with its name and the number of its entries |
| AdminBookings.PopularCounted | backend/src/services/graphApiService.ts:798-824 | every popular entry carries the number of occurrences of its key, which is positive |
| AdminBookings.StatusCount | backend/src/services/graphApiService.ts:782-785 | defines a status count: the number of entries whose status equals the text exactly, case-sensitive; bounded by `StatusCountsBounded` |
| AdminBookings.TodayCount | backend/src/services/graphApiService.ts:787-795 | defines today's count: the entries starting from local midnight of now up to the next midnight |
| AdminBookings.Popular | backend/src/services/graphApiService.ts:805-808 | defines the top n: the entries sorted by descending count, then cut to n; its meaning is stated by `PopularIsTop` |
| AdminBookings.TallyOf | backend/src/services/graphApiService.ts:798-803 | defines the tally of keys, in first-occurrence order; its meaning is stated by `TallyCounts` |
| ConfigRoutes.Admit | app/app/api/config/availability/route.ts:22-49 | unknown brand or employee gives 400, an employee outside the brand 400, a failed services request the route's 500, and an unknown service 404 'Service not found'; on success the brand, employee and service found are the configured ones with the requested ids and the employee works for the brand |
| ConfigRoutes.RouteDurationOf | app/app/api/config/availability/route.ts:54-66 | a service without a duration text gets 60 minutes, and `PT<h>H<m>M` gets h·60 + m |
| ConfigRoutes.RouteSlots | app/app/api/config/availability/route.ts:74-118 | defines the slots answered: none when a date is invalid, otherwise the first 20 of the 09:00 to 17:00 grid over the three calendars; its meaning is stated by `RouteSlotsSound` |
| ConfigRoutes.PostAvailability | app/app/api/config/availability/route.ts:16-126 | a body the schema rejects gives 500 'Failed to check availability'; a failed lookup gives its own answer; otherwise the first 20 slots of the 09:00 to 17:00 half-hour grid over the three calendars |
| ConfigRoutes.RouteSlotsSound | app/app/api/config/availability/route.ts:74-118 | at most 20 slots, the first ones of the grid in order; each starts at 09:00 or later on a half hour, lasts the route's duration, ends by 17:00 of its day and is free in all three calendars |
| ConfigRoutes.BookingParsed | app/app/api/config/bookings/route.ts:8-17 | defines what the zod schema accepts: every required field present as a string, the address an email, and the optional `customerPhone` missing or a string (a number or `null` there is rejected) |
| ConfigRoutes.SlotAvailable | app/app/api/config/bookings/route.ts:57-71 | defines the final check: both dates are valid and the three calendars are free over the slot |
| ConfigRoutes.StaffMemberIds | app/app/api/config/bookings/route.ts:103-108 | defines the staff list: the employee's Bookings id, then the brand calendar's when it has one; its shape is `StaffMemberIdsShape` |
| ConfigRoutes.StaffMemberIdsShape | app/app/api/config/bookings/route.ts:103-108 | one or two staff ids, the employee's first, two exactly when the brand calendar is a staff member |
| ConfigRoutes.PostBooking | app/app/api/config/bookings/route.ts:19-203 | a rejected body gives 500 'Failed to create booking'; a failed lookup its own answer; an unavailable slot 409; an employee who is not a Bookings staff member 400; none of these writes anything; otherwise exactly one appointment is created, a failed creation giving 500 and a created one its id, its staff count and the message naming one or both calendars |
| ConfigRoutes.CreatedBookingShape | app/app/api/config/bookings/route.ts:188-195 | a created booking counts one or two staff members, says 'both calendars' exactly when it counts two, and every staff id is non-empty |
| CalendarBookingsRoute.PrefixLacksGe | app/app/api/calendar/bookings/route.ts:79 | helper of `CreateErrorsAre500`, a fact about one literal: the prefix 'Booking failed: ' has no 'g' followed by 'e', so cannot hold 'no longer available' across it |
| CalendarBookingsRoute.SharedStartLacksGe | app/app/api/calendar/bookings/route.ts:79 | helper of `CreateErrorsAre500`, a fact about one literal: the first half of the shared-calendar reason has no 'g' followed by 'e' |
| CalendarBookingsRoute.SharedEndLacksGe | app/app/api/calendar/bookings/route.ts:79 | helper of `CreateErrorsAre500`, a fact about one literal: the second half of the shared-calendar reason has no 'g' followed by 'e' |
| CalendarBookingsRoute.StaffLacksGe | app/app/api/calendar/bookings/route.ts:79 | helper of `CreateErrorsAre500`, a fact about one literal: the staff reason has no 'g' followed by 'e' |
| CalendarBookingsRoute.CreateFailedLacksGe | app/app/api/calendar/bookings/route.ts:79 | helper of `CreateErrorsAre500`, a fact about one literal: 'Failed to create booking' has no 'g' followed by 'e' |
| CalendarBookingsRoute.AlreadyCancelledLacksFo | app/app/api/calendar/bookings/route.ts:174 | helper of `CancelErrorStatuses`, a fact about one literal: 'Booking is already cancelled' has no 'f' followed by 'o', so does not say 'not found' |
| CalendarBookingsRoute.CancelFailedLacksFo | app/app/api/calendar/bookings/route.ts:174 | helper of `CancelErrorStatuses`, a fact about one literal: 'Failed to cancel booking' has no 'f' followed by 'o' |
| CalendarBookingsRoute.CancelFailedLacksAl | app/app/api/calendar/bookings/route.ts:181 | helper of `CancelErrorStatuses`, a fact about one literal: 'Failed to cancel booking' has no 'a' followed by 'l', so does not say 'already cancelled' |
| CalendarBookingsRoute.SharedBusyLacksGe | app/app/api/calendar/bookings/route.ts:79 | the whole shared-calendar reason has no 'g' followed by 'e' |
| CalendarBookingsRoute.SharedMessageLacksPhrase | app/app/api/calendar/bookings/route.ts:79 | the error of a slot taken in the shared calendar does not say 'no longer available' |
| CalendarBookingsRoute.StaffMessageLacksPhrase | app/app/api/calendar/bookings/route.ts:79 | the error of a busy staff member does not say 'no longer available' |
| CalendarBookingsRoute.CreateFailedLacksPhrase | app/app/api/calendar/bookings/route.ts:79 | the write-failure error does not say 'no longer available' |
| CalendarBookingsRoute.SlotGoneHasPhrase | app/app/api/calendar/bookings/route.ts:79 | the fallback reason 'Slot is no longer available' would |
| CalendarBookingsRoute.CreateErrorsAre500 | app/app/api/calendar/bookings/route.ts:69-90 | every error `createBooking` can throw answers 500: an unavailable slot always carries a reason from the slot check, and neither those reasons nor the write failure say 'no longer available'; only the never-used fallback would answer 409 |
| CalendarBookingsRoute.InvalidDateIs500 | app/app/api/calendar/bookings/route.ts:51-89 | the error of an unreadable shared calendar, which an invalid date causes, answers 500 |
| CalendarBookingsRoute.CancelErrorStatuses | app/app/api/calendar/bookings/route.ts:171-192 | the three errors `cancelBooking` throws answer 404, 400 and 500 |
| CalendarBookingsRoute.CreateErrorReply | app/app/api/calendar/bookings/route.ts:79-89 | defines the `POST` error answer: 409 with the message when it contains 'no longer available', else 500 with the message or 'Failed to create booking' |
| CalendarBookingsRoute.CancelErrorReply | app/app/api/calendar/bookings/route.ts:174-191 | defines the `DELETE` error answer: 404 when the message contains 'not found', else 400 when it contains 'already cancelled', else 500 with the message or 'Failed to cancel booking' |
| CalendarBookingsRoute.InputOf | app/app/api/calendar/bookings/route.ts:44-54 | defines what the route hands to `createBooking`: the brand's shared mailbox, the employee's calendar, the service name, and the customer's name, address, phone and times |
| CalendarBookingsRoute.DateBound | app/app/api/calendar/bookings/route.ts:127-128 | defines an optional date query: absent or empty means no bound, an invalid date fails |
| CalendarBookingsRoute.CreateParsed | app/app/api/calendar/bookings/route.ts:6-16 | defines what the zod schema accepts: every required field a string, the address an email, and the optional `customerPhone` and `notes` missing or strings (a number or `null` there is rejected) |
| CalendarBookingsRoute.MistypedOptionalRejected | app/app/api/calendar/bookings/route.ts:12-15 | a `customerPhone` or `notes` that is present but not a string is rejected by the schema, so `Post` answers it with 400 |
| CalendarBookingsRoute.Admitted | app/app/api/calendar/bookings/route.ts:24-41 | defines the lookup guard: brand, employee and service all found, and the employee lists the brand |
| CalendarBookingsRoute.Post | app/app/api/calendar/bookings/route.ts:18-91 | a body `CreateParsed` rejects, including a phone or notes that are present but not strings, answers 400 'Invalid request data'; an unknown brand, employee or service and an employee of another brand answer 400; none of these reads or writes; an invalid date answers 500 with the shared-calendar reason; otherwise the outcome of `createBooking`, its errors answering 500 and its new booking stored |
| CalendarBookingsRoute.Summaries | app/app/api/calendar/bookings/route.ts:132-140 | one summary per booking, in order, with its id, service, customer, times and status |
| CalendarBookingsRoute.Get | app/app/api/calendar/bookings/route.ts:93-150 | a missing `brandId` or `email` and an unknown brand answer 400; an invalid date, a failed read and a failed listing answer 500; otherwise the summaries of the customer's listing over the given or default range and their number |
| CalendarBookingsRoute.Delete | app/app/api/calendar/bookings/route.ts:152-193 | a missing `bookingId` answers 400 with no write; otherwise the outcome of `cancelBooking`: 404 for an unknown booking, 400 for one already cancelled, 500 when the calendar writes fail, and success setting the status to cancelled |
| Validation.NameErrors | backend/src/middleware/validation.ts:4-7 | the trimmed name passes exactly when it has 2 to 100 characters; an empty one reports both messages, a non-empty one at most the length message |
| Validation.EmailErrors | backend/src/middleware/validation.ts:9-13 | the trimmed address passes exactly when it is non-empty and an email; only the two email messages are reported |
| Validation.PhoneErrors | backend/src/middleware/validation.ts:15-18 | the trimmed number passes exactly when it is non-empty and made of digits, white space and `+-()` only; an empty one reports both messages |
| Validation.RequiredErrors | backend/src/middleware/validation.ts:20-21 | a required field passes exactly when it is not empty |
| Validation.DateErrors | backend/src/middleware/validation.ts:23-29 | a date passes exactly when it is non-empty and ISO 8601 |
| Validation.ChoiceErrors | backend/src/middleware/validation.ts:31-37 | a choice passes exactly when it is one of the allowed texts; an empty one reports both messages |
| Validation.NotesErrors | backend/src/middleware/validation.ts:42-45 | the notes pass exactly when they are absent or have at most 500 characters once trimmed |
| Validation.Tagged | backend/src/middleware/validation.ts:3-46 | one error per message, each carrying its field |
| Validation.ValidateBooking | backend/src/middleware/validation.ts:3-46 | defines the errors of a body, chain by chain in the order of the rules; its meaning is stated by `ValidateBookingAccepts` and `ErrorsBelongToTheirFields` |
| Validation.ValidateBookingAccepts | backend/src/middleware/validation.ts:3-46 | a body gives no error exactly when it meets every field's rules |
| Validation.TaggedOwn | backend/src/middleware/validation.ts:3-46 | a field's own messages give errors that belong to it |
| Validation.OwnConcat | backend/src/middleware/validation.ts:3-46 | errors that each belong to their field stay so when collected together |
| Validation.FirstChainsOwn | backend/src/middleware/validation.ts:4-25 | the name, email, phone, service and start chains report only their own messages |
| Validation.MiddleChainsOwn | backend/src/middleware/validation.ts:27-33 | the end time and meeting type chains report only their own messages |
| Validation.LastChainsOwn | backend/src/middleware/validation.ts:35-45 | the brand, business purpose and notes chains report only their own messages |
| Validation.ErrorsBelongToTheirFields | backend/src/middleware/validation.ts:3-46 | every error carries one of the messages of its own field's chain |
| Validation.EmptyBodyReportsEveryCheck | backend/src/middleware/validation.ts:3-46 | an empty body reports both checks of the name, the phone, the meeting type and the brand, as no chain stops at its first failure |
| ErrorHandler.HandleError | backend/src/middleware/errorHandler.ts:10-51 | the body never succeeds; a recognised name fixes status and message; otherwise the error's status code or 500 and its message or 'Internal Server Error'; a production 500 says only 'Internal Server Error'; the stack is shown exactly in development |
| ErrorHandler.NamedErrorsOverride | backend/src/middleware/errorHandler.ts:29-39 | 'ValidationError', 'UnauthorizedError' and 'CastError' answer 400, 401 and 400 with their fixed messages whatever the error's code and message |
| ErrorHandler.ProductionHidesServerErrors | backend/src/middleware/errorHandler.ts:41-50 | in production every 500 says only 'Internal Server Error' with no stack, and an error with no code and no recognised name always answers so |
| ErrorHandler.ClientErrorsKeepMessage | backend/src/middleware/errorHandler.ts:17-50 | outside the recognised names, an error with its own code other than 500 keeps that code and its message |
| FetchBookingsRoute.BusinessDataOf | app/app/api/admin/fetch-bookings/route.ts:21-47 | the raw entry of a business keeps its id; it has an error exactly when the staff request fails, and then no staff and 'Failed to fetch staff: ' with the message; otherwise one record per staff member |
| FetchBookingsRoute.GatherBusinessData | app/app/api/admin/fetch-bookings/route.ts:18-50 | the loop gives one entry per business, in order, whether or not its staff could be read |
| FetchBookingsRoute.Brands | app/app/api/admin/fetch-bookings/route.ts:54-60 | one brand record per business, in order |
| FetchBookingsRoute.BrandIdOf | app/app/api/admin/fetch-bookings/route.ts:55 | defines the brand id: the display name lower-cased with all white space removed |
| FetchBookingsRoute.DomainOf | app/app/api/admin/fetch-bookings/route.ts:57 | defines the domain: the text after the first '@' of the email up to any second one, else 'example.com' |
| FetchBookingsRoute.BrandOf | app/app/api/admin/fetch-bookings/route.ts:54-60 | defines the brand record of a business from its id, display name and email; its shape is `BrandRecordShape` |
| FetchBookingsRoute.BrandRecordShape | app/app/api/admin/fetch-bookings/route.ts:54-60 | a brand id has no white space and no capital ASCII letter; the domain is never empty, is 'example.com' without an email, and is the part after the '@' of an address with one '@'; the calendar is the email or '' |
| FetchBookingsRoute.BrandFound | app/app/api/admin/fetch-bookings/route.ts:68-70 | every business of the listing finds a brand record |
| FetchBookingsRoute.StaffOccurrencesAt | app/app/api/admin/fetch-bookings/route.ts:72 | each staff member of a business is visited once, in order, with the business's brand id |
| FetchBookingsRoute.OccurrencesAreListed | app/app/api/admin/fetch-bookings/route.ts:67-88 | when every member has an address, the merge visits exactly the addresses of the listed staff |
| FetchBookingsRoute.StaffEmails | app/app/api/admin/fetch-bookings/route.ts:72 | the members visited for one business carry exactly its staff's addresses |
| FetchBookingsRoute.ListedSplit | app/app/api/admin/fetch-bookings/route.ts:67 | an address is listed exactly when it is listed before the last business or under it |
| FetchBookingsRoute.Emails | app/app/api/admin/fetch-bookings/route.ts:90 | the addresses of the records, position by position |
| FetchBookingsRoute.IndexOfEmail | app/app/api/admin/fetch-bookings/route.ts:73-82 | `allStaff.has`: none exactly when no record has the address; otherwise the position of its record |
| FetchBookingsRoute.Absorb | app/app/api/admin/fetch-bookings/route.ts:73-86 | defines one merge step: a new address adds its record last, a known one may gain the brand id; stated by `AbsorbEmails`, `NewMerged` and `GrowMerged` |
| FetchBookingsRoute.Consolidate | app/app/api/admin/fetch-bookings/route.ts:65-90 | defines the merge of the visited members in order; its meaning is stated by `ConsolidateEmails` and `ConsolidateMerged` |
| FetchBookingsRoute.OccurrenceEmails | app/app/api/admin/fetch-bookings/route.ts:72-73 | the addresses of the visited members, position by position |
| FetchBookingsRoute.FirstOccurrences | app/app/api/admin/fetch-bookings/route.ts:90 | the addresses without repetition: the same addresses, no two alike |
| FetchBookingsRoute.ConsolidateEmails | app/app/api/admin/fetch-bookings/route.ts:65-90 | one employee per distinct address, in the order the addresses first occur |
| FetchBookingsRoute.AbsorbEmails | app/app/api/admin/fetch-bookings/route.ts:73-86 | a new address adds its record last; a known one changes no position |
| FetchBookingsRoute.FirstSeenUnique | app/app/api/admin/fetch-bookings/route.ts:73 | an address has one first occurrence |
| FetchBookingsRoute.KeepMerged | app/app/api/admin/fetch-bookings/route.ts:73-86 | a member with another address leaves a record as it was |
| FetchBookingsRoute.NewMerged | app/app/api/admin/fetch-bookings/route.ts:74-80 | the record of a new address takes the local part as id, the member's name, the address as calendar and the brand id |
| FetchBookingsRoute.GrowMerged | app/app/api/admin/fetch-bookings/route.ts:82-85 | a known address gains a brand id it does not hold yet, and only a non-empty one |
| FetchBookingsRoute.ConsolidateMerged | app/app/api/admin/fetch-bookings/route.ts:65-90 | every employee's address occurs; its first occurrence fixes its id, name, calendar and first brand; its brands hold no duplicate and are that first brand and every brand id seen with the address |
| FetchBookingsRoute.ConsolidateSnoc | app/app/api/admin/fetch-bookings/route.ts:72-87 | the merge takes the members one at a time, in visiting order |
| FetchBookingsRoute.Values | app/app/api/admin/fetch-bookings/route.ts:90 | `Array.from(allStaff.values())`: the record of each key, in insertion order |
| FetchBookingsRoute.AbsorbNewOnMap | app/app/api/admin/fetch-bookings/route.ts:73-80 | setting a new address in the map appends its record to the values |
| FetchBookingsRoute.NotFound | app/app/api/admin/fetch-bookings/route.ts:73 | an address not in the map has no record among the values |
| FetchBookingsRoute.ValuesAdd | app/app/api/admin/fetch-bookings/route.ts:74 | a record under a new key is appended to the values and the map stays consistent |
| FetchBookingsRoute.AbsorbKnownOnMap | app/app/api/admin/fetch-bookings/route.ts:82-85 | updating a known address in place is the merge step on the values |
| FetchBookingsRoute.MapInvUpdate | app/app/api/admin/fetch-bookings/route.ts:82-85 | replacing a record by one with the same address keeps the map consistent |
| FetchBookingsRoute.FoundAt | app/app/api/admin/fetch-bookings/route.ts:82 | a known address is found in the values at its insertion position |
| FetchBookingsRoute.ValuesUpdate | app/app/api/admin/fetch-bookings/route.ts:82-85 | replacing one key's record replaces that position of the values |
| FetchBookingsRoute.MergeOne | app/app/api/admin/fetch-bookings/route.ts:73-86 | one member merged into the map is one merge step on its values |
| FetchBookingsRoute.MergeStaff | app/app/api/admin/fetch-bookings/route.ts:72-87 | the inner loop succeeds exactly when every member of the business has an address, and then its values are the merge so far extended by that business's members |
| FetchBookingsRoute.StaffStep | app/app/api/admin/fetch-bookings/route.ts:72-87 | the visited members and the addressed prefix grow one member at a time; a member without an address makes the business fail |
| FetchBookingsRoute.ConsolidateStaff | app/app/api/admin/fetch-bookings/route.ts:64-90 | the merge fails exactly when some listed member has no address; otherwise the employees are the merge of all members in visiting order |
| FetchBookingsRoute.OccurrencesStep | app/app/api/admin/fetch-bookings/route.ts:67-88 | the visited members and the missing addresses grow one business at a time |
| FetchBookingsRoute.Get | app/app/api/admin/fetch-bookings/route.ts:4-109 | a failed listing and a member without an address answer 500; otherwise the business count, the raw data of every business, the derived brands and the merged employees |

## Left out

- Microsoft Graph and MSAL calls, with token acquisition and the HTTP clients, are not modelled. They are the oracles `Provider`, `Gateway` and `Settings.Directory`.
- Independent requests that run concurrently (`Promise.all`) are modelled as running one after the other. Their interleaving is not modelled.
- Logging (`console.log`, `console.error`) is left out, because it does not change any result.
- E-mail and notification bodies (HTML, subjects) are left out. Only the fact that mail is sent, and to whom, is in the trace.
- The bodies of the calendar events `createCalendarBooking` posts are left out beyond their subject, times, attendees and `showAs`: the HTML body with the customer's phone and the reminder settings are not modelled.
- The generation of booking ids (random digits and the clock) is left out. The id is the parameter `newId`.
- Time zones and daylight saving time are not modelled. All times are minutes in one fixed local zone, and `Date` parsing and formatting become integers.
- JsString.Lower lowercases ASCII letters only, because Unicode case mapping is out of scope. String lengths count characters, not UTF-16 code units.
- Availability.GetAvailableSlots always uses the default 30-minute interval for window slots, the only interval its callers use.
- Checker.GetAvailableSlots requires non-negative working hours. Callers pass only the defaults 9 and 17, or hours from configuration.
- GraphService.GenerateTimeSlots requires a positive interval when the range is not empty. With a zero interval the source's loop never advances and does not terminate (`GraphService.ZeroIntervalNeverAdvances`); a non-terminating run has no result to model. `GraphService.GetAvailableTimeSlots` answers no slots in that case instead (see Findings).
- `deduplicateSlots` is modelled on its own. `getAvailableTimeSlots` never calls it.
- `findAvailableTimesEfficient`, `getFreeBusy` and `getStaffAvailability` of the Graph service are not modelled. They only forward a request to the Graph schedule API and return its answer, so they are oracle calls.
- The `$filter` and `$top=500` query of `getAllBookings` is not modelled. The appointments given are the API's answer to that query, in its order, already filtered by date and cut to its page.
- The `top(100)` pages of the back end's `getCalendarEvents` and `getBookingsForDate`, and the `top(200)` page of the front end's calendar reads, are modelled as the first 100 or 200 of the events or appointments in the order the provider gives them. Paging links (`@odata.nextLink`) are never followed by the source and are not modelled.
- Checker.CheckCalendarAvailability reads the calendar view without `top`, so Graph's default page size applies there; the model reads the whole view, as that default page size is a property of the service, not of the code.
- AdminBookings.GetAllBookings models the fields of each entry that the filters, sorting and statistics read. Display-only fields (customer phone, notes, join URL, staff names) are left out.
- AdminBookings.OrNumber does not model `NaN` page or limit values, because query numbers are modelled as integers or as absent.
- Sorting with equal keys keeps the first-seen order, as the stable `Array.prototype.sort` of ECMAScript 2019 does (`Common.SortByStable`). This decides which tied hours and services make the top five and top four. `Object.entries` order follows first insertion, which holds for the non-numeric keys used.
- The brand event that the config bookings route builds is never sent. It is not modelled.
- The `notes` of a booking request and the `reason` of a cancellation are not modelled. Nothing in the core reads the notes, and the reason only reaches the body of the cancellation mail, which is left out with the other mail bodies.
- Request validation's `normalizeEmail` sanitiser is not modelled. Each failure is reported by field and message only, without the validator's other fields.
- The `isEmail` and `isISO8601` checks of validation are oracle predicates. Their exact grammars are not modelled.
- CalendarBookingsRoute.Post takes the body as already-parsed JSON. A body that is not JSON makes `request.json()` throw an error that is not a zod error, which the route answers with 500 and that error's message; the model answers 400 for every rejected body.
- A config booking request that fails the zod schema makes `parse` throw, and the route answers 500 with its generic message. Zod's error details are left out.
- `getCustomerBookings`' default date range (a month back, three months on) is left out. The two bounds are parameters computed by the caller from the clock.
- A brand with no shared mailbox sends requests to the mailbox named 'undefined', as the source's template string does. The model keeps that name.
- In FetchBookingsRoute, a business without an id is modelled with the id "". A staff member without an address, which makes the source throw, answers 500 with the route's message. The error text of a failed staff request is the oracle's.
- FetchBookingsRoute.Consolidate models the JavaScript `Map` as a map plus the insertion order of its keys.
- FetchBookingsRoute.Get leaves out fields it only passes through: the business `address` (`business.address || null`) of each raw entry, the `success: true` of the success body, and the `message` and `details` (the error's message and body) of the 500 reply.
- `getServiceById`, which the config bookings route imports but the settings file does not define, is the oracle `Directory.serviceById`. Its implementation is not part of this model.
- The back end's `bookingController`, the user interface and the maintenance scripts are not modelled. They call the core but add no logic to it.

## Findings

| source | as written | input that shows it | evidently intended | confidence | as-written member | corrected member |
|---|---|---|---|---|---|---|
| backend/src/services/graphApiService.ts:373-377 | a slot is within business hours when its end's hour is at most 17 | a 60-minute slot from 23:00 to 00:00 over a range that reaches midnight; its end has hour 0, so it passes. The back end's availability route ends its range at 23:59:59.999 of the day (backend/src/routes/availabilityRoutes.ts:23), so it never lets that slot through; only a direct call with a range reaching midnight does | a slot ends by 17:00 on the day it starts | not executed | GraphService.LateSlotAsWritten | GraphService.GeneratedSlots |
| backend/src/services/graphApiService.ts:373-377 | only the end's hour is compared, not its minutes | a 30-minute slot from 17:00 to 17:30; its end has hour 17, so it passes | no slot runs past 17:00 | not executed | GraphService.AfterHoursSlotAsWritten | GraphService.GeneratedSlots |
| backend/src/services/graphApiService.ts:368 | the slot loop advances by the service duration read from its `H` and `M` components | a service whose duration is 'P1D' or 'PT45S' reads as 0 minutes; over a non-empty range the loop never advances and the request never ends | a service without a positive duration gets no slots and the request ends | not executed | GraphService.ZeroIntervalNeverAdvances | GraphService.GetAvailableTimeSlots |
