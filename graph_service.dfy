/**
 * The back-office availability service: it reads a Bookings business's
 * services, staff and appointments and the staff calendar (all through
 * oracles), steps through the requested range by the service duration, and
 * offers the slots that lie in business hours, start in the future and meet
 * no busy period.
 */
module GraphService {
  import opened Common
  import opened Clock
  import opened Provider
  import opened Settings
  import opened IsoDuration

  /** An offered slot; `available` is always set. */
  datatype TimeSlot = TimeSlot(start: int, end: int, available: bool)

  /** A busy interval `[start, end)`. */
  datatype Period = Period(start: int, end: int)

  /** A staff member of the business, with the three places an address can be found. */
  datatype GraphStaff = GraphStaff(emailAddress: Option<string>, email: Option<string>, userPrincipalName: Option<string>)

  /**
   * A stored appointment of the business. Both spellings of its times,
   * `startDateTime.dateTime` and `start.dateTime`, are kept because the
   * readers try them in different orders; an absent time is `None`.
   * `firstCustomerEmail` is `customers[0].emailAddress`.
   */
  datatype BookedAppointment = BookedAppointment(
    id: string,
    startDateTime: Option<int>,
    endDateTime: Option<int>,
    start: Option<int>,
    end: Option<int>,
    customerName: Option<string>,
    customerEmailAddress: Option<string>,
    firstCustomerEmail: Option<string>,
    serviceId: Option<string>,
    appointmentLabel: Option<string>)

  /** The answer standing for a failed request whose error is rethrown. */
  const RequestFailed: string := "Graph request failed"
  const ServiceNotFound: string := "Service not found"
  const BusinessStartHour: int := 9
  const BusinessEndHour: int := 17
  /** The page size of the calendar-view and appointment queries. */
  const GraphPageSize: nat := 100

  /** JavaScript's `a || b` on optional values: the first unless it is absent or empty. */
  function OrOption<T>(a: Option<seq<T>>, b: Option<seq<T>>): (r: Option<seq<T>>)
    ensures a.Some? && |a.value| > 0 ==> r == a
    ensures a.None? || |a.value| == 0 ==> r == b
  {
    if a.Some? && |a.value| > 0 then a else b
  }

  /** `a ?? b` on optional instants. */
  function FirstOf(a: Option<int>, b: Option<int>): (r: Option<int>)
    ensures r.Some? <==> a.Some? || b.Some?
    ensures a.Some? ==> r == a
  {
    if a.Some? then a else b
  }

  /** An event blocks time when it is not cancelled and shows as busy, out of office or tentative. */
  predicate IsBlocking(e: Event)
  {
    !e.isCancelled && (e.showAs == Busy || e.showAs == Oof || e.showAs == Tentative)
  }

  /**
   * `getCalendarEvents`: the blocking events among the first 100 events of
   * the calendar view over `[s, t)`; `None` when the request throws. When
   * the view fits in one page these are all its blocking events.
   */
  function GetCalendarEvents(p: Provider, emailAddress: string, s: int, t: int): (r: Option<seq<Event>>)
    ensures r.Some? <==> emailAddress in p.calendars
    ensures r.Some? ==> forall e :: e in r.value <==>
      (exists k :: 0 <= k < |View(p, emailAddress, s, t).value| && k < GraphPageSize
                   && View(p, emailAddress, s, t).value[k] == e)
      && IsBlocking(e)
    ensures r.Some? ==> forall e :: e in r.value ==> e in p.calendars[emailAddress] && Overlaps(e, s, t)
    ensures r.Some? && |View(p, emailAddress, s, t).value| <= GraphPageSize ==>
      forall e :: e in r.value <==> e in p.calendars[emailAddress] && Overlaps(e, s, t) && IsBlocking(e)
  {
    match View(p, emailAddress, s, t)
    case None => None
    case Some(events) =>
      var page := Take(events, GraphPageSize);
      FilterExact(page, IsBlocking);
      assert forall e :: e in page <==> exists k :: 0 <= k < |events| && k < GraphPageSize && events[k] == e;
      Some(Filter(page, IsBlocking))
  }

  /** The appointment intersects `[s, t)`; an appointment without both times never does. */
  predicate AppointmentInRange(a: BookedAppointment, s: int, t: int)
  {
    var st := FirstOf(a.startDateTime, a.start);
    var en := FirstOf(a.endDateTime, a.end);
    st.Some? && en.Some? && st.value < t && en.value > s
  }

  /**
   * `getBookingsForDate`: of the first 100 appointments of the business (the
   * one page the request reads), those intersecting the range, in order; a
   * failed request gives none. Appointments past the first page are never
   * seen, whatever their times.
   */
  function GetBookingsForDate(appointments: Option<seq<BookedAppointment>>, s: int, t: int): (r: seq<BookedAppointment>)
    ensures forall a :: a in r <==>
      appointments.Some? && a in Take(appointments.value, GraphPageSize) && AppointmentInRange(a, s, t)
    ensures appointments.Some? ==> Subsequence(r, Take(appointments.value, GraphPageSize))
    ensures appointments.Some? ==> forall k :: 0 <= k < |Take(appointments.value, GraphPageSize)| ==>
      Take(appointments.value, GraphPageSize)[k] == appointments.value[k]
    ensures appointments.Some? && |appointments.value| <= GraphPageSize ==>
      forall a :: a in r <==> a in appointments.value && AppointmentInRange(a, s, t)
  {
    match appointments
    case None => []
    case Some(all) =>
      var page := Take(all, GraphPageSize);
      var keep := (a: BookedAppointment) => AppointmentInRange(a, s, t);
      FilterExact(page, keep);
      FilterSubsequence(page, keep);
      Filter(page, keep)
  }

  /**
   * The slots of stepping from `cur` by `interval` while before `endDate`,
   * kept when `keep(start, end, endDate)` holds.
   */
  function Stepped(cur: int, endDate: int, interval: int, keep: (int, int, int) -> bool): seq<TimeSlot>
    requires interval > 0 || cur >= endDate
    decreases endDate - cur
  {
    if cur >= endDate then []
    else
      var here := if keep(cur, cur + interval, endDate) then [TimeSlot(cur, cur + interval, true)] else [];
      here + Stepped(cur + interval, endDate, interval, keep)
  }

  /** Every stepped slot lasts one interval, starts in `[cur, endDate)` and passes the test. */
  lemma {:induction false} SteppedSound(cur: int, endDate: int, interval: int, keep: (int, int, int) -> bool)
    requires interval > 0 || cur >= endDate
    ensures forall slot :: slot in Stepped(cur, endDate, interval, keep) ==>
      && slot == TimeSlot(slot.start, slot.start + interval, true)
      && cur <= slot.start < endDate
      && keep(slot.start, slot.end, endDate)
    decreases endDate - cur
  {
    if cur < endDate {
      SteppedSound(cur + interval, endDate, interval, keep);
    }
  }

  /** The first step of the stepping. */
  lemma SteppedStep(cur: int, endDate: int, interval: int, keep: (int, int, int) -> bool)
    requires interval > 0 && cur < endDate
    ensures Stepped(cur, endDate, interval, keep)
            == (if keep(cur, cur + interval, endDate) then [TimeSlot(cur, cur + interval, true)] else [])
               + Stepped(cur + interval, endDate, interval, keep)
  {
  }

  /** The business-hours test as the source writes it: start hour at least 9, end hour at most 17. */
  predicate KeepAsWritten(start: int, end: int, endDate: int)
  {
    HourOf(start) >= BusinessStartHour && HourOf(end) <= BusinessEndHour && end <= endDate
  }

  /** The intended test: the slot lies between 09:00 and 17:00 of the day it starts on. */
  predicate KeepInBusinessHours(start: int, end: int, endDate: int)
  {
    HourOf(start) >= BusinessStartHour && end <= DayStart(start) + BusinessEndHour * 60 && end <= endDate
  }

  /** `generateTimeSlots` as written. */
  function GenerateTimeSlotsAsWritten(startDate: int, endDate: int, interval: int): seq<TimeSlot>
    requires interval > 0 || startDate >= endDate
  {
    Stepped(startDate, endDate, interval, KeepAsWritten)
  }

  /** The slots of `generateTimeSlots` with the business-hours test corrected. */
  function GeneratedSlots(startDate: int, endDate: int, interval: int): seq<TimeSlot>
    requires interval > 0 || startDate >= endDate
  {
    Stepped(startDate, endDate, interval, KeepInBusinessHours)
  }

  /**
   * As written, an hour-long slot from 23:00 to midnight passes the test,
   * because the hour of midnight is 0; it is outside 09:00 to 17:00.
   */
  lemma LateSlotAsWritten()
    ensures GenerateTimeSlotsAsWritten(23 * 60, MinutesPerDay, 60) == [TimeSlot(23 * 60, MinutesPerDay, true)]
    ensures GeneratedSlots(23 * 60, MinutesPerDay, 60) == []
  {
    assert Stepped(MinutesPerDay, MinutesPerDay, 60, KeepAsWritten) == [];
    assert Stepped(MinutesPerDay, MinutesPerDay, 60, KeepInBusinessHours) == [];
    assert KeepAsWritten(23 * 60, MinutesPerDay, MinutesPerDay);
    assert !KeepInBusinessHours(23 * 60, MinutesPerDay, MinutesPerDay);
  }

  /** As written, a half-hour slot from 17:00 to 17:30 passes the test too. */
  lemma AfterHoursSlotAsWritten()
    ensures GenerateTimeSlotsAsWritten(17 * 60, 17 * 60 + 30, 30) == [TimeSlot(17 * 60, 17 * 60 + 30, true)]
    ensures GeneratedSlots(17 * 60, 17 * 60 + 30, 30) == []
  {
    assert Stepped(17 * 60 + 30, 17 * 60 + 30, 30, KeepAsWritten) == [];
    assert Stepped(17 * 60 + 30, 17 * 60 + 30, 30, KeepInBusinessHours) == [];
    assert KeepAsWritten(17 * 60, 17 * 60 + 30, 17 * 60 + 30);
    assert !KeepInBusinessHours(17 * 60, 17 * 60 + 30, 17 * 60 + 30);
  }

  /**
   * `generateTimeSlots`: steps `current` by the interval while it is before
   * `endDate`, keeping the slots that pass the source's business-hours test.
   * With a zero interval and a non-empty range the source never returns, so
   * that case is excluded here (`ZeroIntervalNeverAdvances`).
   */
  method GenerateTimeSlots(startDate: int, endDate: int, intervalMinutes: int) returns (slots: seq<TimeSlot>)
    requires intervalMinutes > 0 || startDate >= endDate
    ensures slots == GenerateTimeSlotsAsWritten(startDate, endDate, intervalMinutes)
  {
    slots := [];
    var current := startDate;
    while current < endDate
      invariant intervalMinutes > 0 || current >= endDate
      invariant slots + Stepped(current, endDate, intervalMinutes, KeepAsWritten)
                == GenerateTimeSlotsAsWritten(startDate, endDate, intervalMinutes)
      decreases endDate - current
    {
      var slotStart := current;
      var slotEnd := current + intervalMinutes;
      ghost var rest := Stepped(current + intervalMinutes, endDate, intervalMinutes, KeepAsWritten);
      var here: seq<TimeSlot> := [];
      if KeepAsWritten(slotStart, slotEnd, endDate) {
        here := [TimeSlot(slotStart, slotEnd, true)];
      }
      SteppedStep(current, endDate, intervalMinutes, KeepAsWritten);
      ConcatAssoc(slots, here, rest);
      slots := slots + here;
      current := current + intervalMinutes;
    }
  }

  /**
   * What the source's test guarantees of a generated slot: it lasts the
   * interval, lies in the range, starts at 09:00 or later, and ends at an
   * hour of the clock no later than 17.
   */
  lemma GeneratedAsWrittenProperties(startDate: int, endDate: int, interval: int)
    requires interval > 0 || startDate >= endDate
    ensures forall slot :: slot in GenerateTimeSlotsAsWritten(startDate, endDate, interval) ==>
      && slot.end == slot.start + interval
      && startDate <= slot.start && slot.end <= endDate
      && DayStart(slot.start) + BusinessStartHour * 60 <= slot.start
      && HourOf(slot.end) <= BusinessEndHour
  {
    SteppedSound(startDate, endDate, interval, KeepAsWritten);
  }

  /** The value of `current` after `n` turns of the loop of `generateTimeSlots`. */
  function CurrentAfter(startDate: int, interval: int, n: nat): int
  {
    if n == 0 then startDate else CurrentAfter(startDate, interval, n - 1) + interval
  }

  /**
   * With a zero interval, as for a service whose duration is `P1D` or
   * `PT45S`, `current` stays where it started, so over a non-empty range
   * the loop's test holds after every number of turns and the loop never
   * ends.
   */
  lemma {:induction false} ZeroIntervalNeverAdvances(startDate: int, endDate: int, n: nat)
    requires startDate < endDate
    ensures DurationMinutes("P1D") == 0 && DurationMinutes("PT45S") == 0
    ensures CurrentAfter(startDate, 0, n) == startDate < endDate
  {
    DaysAndSecondsReadAsZero();
    if n > 0 {
      ZeroIntervalNeverAdvances(startDate, endDate, n - 1);
    }
  }

  /** Every generated slot lies between 09:00 and 17:00 of its own day, within the range. */
  lemma GeneratedSlotsInBusinessHours(startDate: int, endDate: int, interval: int)
    requires interval > 0 || startDate >= endDate
    ensures forall slot :: slot in GeneratedSlots(startDate, endDate, interval) ==>
      && slot.end == slot.start + interval
      && startDate <= slot.start && slot.end <= endDate
      && DayStart(slot.start) + BusinessStartHour * 60 <= slot.start
      && slot.end <= DayStart(slot.start) + BusinessEndHour * 60
  {
    SteppedSound(startDate, endDate, interval, KeepInBusinessHours);
  }

  /** Each slot ends no later than any later slot begins. */
  predicate Disjoint(slots: seq<TimeSlot>)
  {
    forall i, j :: 0 <= i < j < |slots| ==> slots[i].end <= slots[j].start
  }

  /** Stepped slots do not overlap: each ends no later than the next begins. */
  lemma {:induction false} SteppedDisjoint(cur: int, endDate: int, interval: int, keep: (int, int, int) -> bool)
    requires interval > 0 || cur >= endDate
    ensures Disjoint(Stepped(cur, endDate, interval, keep))
    decreases endDate - cur
  {
    if cur < endDate {
      SteppedDisjoint(cur + interval, endDate, interval, keep);
      var rest := Stepped(cur + interval, endDate, interval, keep);
      SteppedStep(cur, endDate, interval, keep);
      if keep(cur, cur + interval, endDate) {
        SteppedFrom(cur + interval, endDate, interval, keep);
        DisjointCons(TimeSlot(cur, cur + interval, true), rest);
      } else {
        assert [] + rest == rest;
      }
    }
  }

  /** No stepped slot starts before `cur`. */
  lemma {:induction false} SteppedFrom(cur: int, endDate: int, interval: int, keep: (int, int, int) -> bool)
    requires interval > 0 || cur >= endDate
    ensures forall y :: y in Stepped(cur, endDate, interval, keep) ==> cur <= y.start
    decreases endDate - cur
  {
    if cur < endDate {
      SteppedFrom(cur + interval, endDate, interval, keep);
    }
  }

  /** A slot ending before every slot of a disjoint run can be put in front of it. */
  lemma DisjointCons(x: TimeSlot, rest: seq<TimeSlot>)
    requires Disjoint(rest)
    requires forall y :: y in rest ==> x.end <= y.start
    ensures Disjoint([x] + rest)
  {
    var r := [x] + rest;
    forall i, j | 0 <= i < j < |r| ensures r[i].end <= r[j].start {
      assert r[j] == rest[j - 1];
      if i > 0 {
        assert r[i] == rest[i - 1];
      }
    }
  }

  /** Every grid point whose slot passes the test is generated. */
  lemma {:induction false} SteppedComplete(cur: int, endDate: int, interval: int,
                                           keep: (int, int, int) -> bool, k: nat)
    requires interval > 0
    requires cur + k * interval < endDate
    requires keep(cur + k * interval, cur + k * interval + interval, endDate)
    ensures TimeSlot(cur + k * interval, cur + k * interval + interval, true) in Stepped(cur, endDate, interval, keep)
    decreases k
  {
    if k > 0 {
      assert cur + interval + (k - 1) * interval == cur + k * interval;
      SteppedComplete(cur + interval, endDate, interval, keep, k - 1);
    }
  }

  /** The `k`-th point of the grid of step `interval` from `cur`. */
  function GridPoint(cur: int, k: nat, interval: int): int
  {
    cur + k * interval
  }

  /** Every stepped slot starts on the grid `cur + k·interval`. */
  lemma {:induction false} SteppedOnGrid(cur: int, endDate: int, interval: int, keep: (int, int, int) -> bool)
    requires interval > 0 || cur >= endDate
    ensures forall slot :: slot in Stepped(cur, endDate, interval, keep) ==>
      exists k: nat :: slot.start == GridPoint(cur, k, interval)
    decreases endDate - cur
  {
    if cur < endDate {
      SteppedOnGrid(cur + interval, endDate, interval, keep);
      forall slot | slot in Stepped(cur + interval, endDate, interval, keep)
        ensures exists k: nat :: slot.start == GridPoint(cur, k, interval)
      {
        var k: nat :| slot.start == GridPoint(cur + interval, k, interval);
        assert (k + 1) * interval == k * interval + interval;
        assert slot.start == GridPoint(cur, k + 1, interval);
      }
      assert cur == GridPoint(cur, 0, interval);
    }
  }

  /**
   * `getStaffMembers`: the staff the request returns; a failed request is
   * caught and gives no staff.
   */
  function GetStaffMembers(staff: Option<seq<GraphStaff>>): (r: seq<GraphStaff>)
    ensures staff.Some? ==> r == staff.value
    ensures staff.None? ==> r == []
  {
    if staff.Some? then staff.value else []
  }

  /** `staff.emailAddress || staff.email || staff.userPrincipalName`. */
  function StaffEmail(s: GraphStaff): Option<string>
  {
    OrOption(s.emailAddress, OrOption(s.email, s.userPrincipalName))
  }

  /** The defined addresses of the staff, in order. */
  function StaffEmails(staff: seq<GraphStaff>): (r: seq<string>)
    ensures |r| <= |staff|
    ensures forall e :: e in r <==> exists i :: 0 <= i < |staff| && StaffEmail(staff[i]) == Some(e)
    decreases |staff|
  {
    if |staff| == 0 then []
    else
      var init := staff[..|staff| - 1];
      var last := StaffEmail(staff[|staff| - 1]);
      var r := StaffEmails(init) + (if last.Some? then [last.value] else []);
      assert forall i :: 0 <= i < |init| ==> staff[i] == init[i];
      r
  }

  /** The busy periods of the appointments that carry both times. */
  function AppointmentPeriods(bookings: seq<BookedAppointment>): (r: seq<Period>)
    ensures |r| <= |bookings|
    decreases |bookings|
  {
    if |bookings| == 0 then []
    else
      var init := bookings[..|bookings| - 1];
      var b := bookings[|bookings| - 1];
      var st := FirstOf(b.startDateTime, b.start);
      var en := FirstOf(b.endDateTime, b.end);
      AppointmentPeriods(init) + (if st.Some? && en.Some? then [Period(st.value, en.value)] else [])
  }

  /**
   * An appointment gives a busy period exactly when it has both times, and
   * the period runs from its start (`startDateTime` before `start`) to its
   * end (`endDateTime` before `end`).
   */
  lemma {:induction false} AppointmentPeriodsExact(bookings: seq<BookedAppointment>)
    ensures forall q :: q in AppointmentPeriods(bookings) <==>
      exists b :: b in bookings && FirstOf(b.startDateTime, b.start) == Some(q.start)
                                && FirstOf(b.endDateTime, b.end) == Some(q.end)
    decreases |bookings|
  {
    if |bookings| > 0 {
      var init := bookings[..|bookings| - 1];
      var b := bookings[|bookings| - 1];
      assert bookings == init + [b];
      AppointmentPeriodsExact(init);
    }
  }

  /** The busy periods of calendar events. */
  function EventPeriods(events: seq<Event>): (r: seq<Period>)
    ensures |r| == |events|
    ensures forall i :: 0 <= i < |events| ==> r[i] == Period(events[i].start, events[i].end)
  {
    seq(|events|, i requires 0 <= i < |events| => Period(events[i].start, events[i].end))
  }

  /** The slot meets the busy period. */
  predicate Conflicts(slot: TimeSlot, busy: Period)
  {
    slot.start < busy.end && slot.end > busy.start
  }

  /** The slot starts after `now` and meets no busy period. */
  predicate Offerable(slot: TimeSlot, busy: seq<Period>, now: int)
  {
    slot.start > now && forall b :: b in busy ==> !Conflicts(slot, b)
  }

  /** The final filter of `getAvailableTimeSlots`. */
  function FreeSlots(slots: seq<TimeSlot>, busy: seq<Period>, now: int): (r: seq<TimeSlot>)
    ensures forall slot :: slot in r <==> slot in slots && Offerable(slot, busy, now)
    ensures Subsequence(r, slots)
  {
    var keep := (slot: TimeSlot) => Offerable(slot, busy, now);
    FilterExact(slots, keep);
    FilterSubsequence(slots, keep);
    Filter(slots, keep)
  }

  /** The busy periods: the appointments of the range, then the staff calendar's blocking events if it can be read. */
  function BusyPeriods(appointments: Option<seq<BookedAppointment>>, p: Provider, staffEmail: string,
                       startDate: int, endDate: int): seq<Period>
  {
    var events := GetCalendarEvents(p, staffEmail, startDate, endDate);
    AppointmentPeriods(GetBookingsForDate(appointments, startDate, endDate))
      + (if events.Some? then EventPeriods(events.value) else [])
  }

  /** The duration of a service: its `defaultDuration`, or `PT30M` when that is absent or empty. */
  function ServiceMinutes(s: BookingService): nat
  {
    DurationMinutes(OrElse(s.defaultDuration, DefaultDurationText))
  }

  /**
   * `getAvailableTimeSlots`: the service's slots of the range that are in the
   * future and free of the first staff member's busy periods. There are no
   * slots without staff or without a staff address (a failed staff request
   * counts as no staff); a failed request for the services and an unknown
   * service throw. A duration that reads as zero minutes gets no slots: the
   * source's loop never ends there (`ZeroIntervalNeverAdvances`).
   */
  method GetAvailableTimeSlots(services: Option<seq<BookingService>>, staff: Option<seq<GraphStaff>>,
                               appointments: Option<seq<BookedAppointment>>, p: Provider,
                               serviceId: string, startDate: int, endDate: int, now: int)
    returns (r: Result<seq<TimeSlot>>)
    ensures services.None? ==> r == Err(RequestFailed)
    ensures services.Some? && FindServiceById(services.value, serviceId).None? ==> r == Err(ServiceNotFound)
    ensures services.Some? && FindServiceById(services.value, serviceId).Some? ==>
      var duration := ServiceMinutes(FindServiceById(services.value, serviceId).value);
      var emails := StaffEmails(GetStaffMembers(staff));
      && (|emails| == 0 ==> r == Ok([]))
      && (|emails| > 0 && duration == 0 ==> r == Ok([]))
      && (|emails| > 0 && duration > 0 ==>
            r == Ok(FreeSlots(GenerateTimeSlotsAsWritten(startDate, endDate, duration),
                              BusyPeriods(appointments, p, emails[0], startDate, endDate), now)))
  {
    if services.None? {
      return Err(RequestFailed);
    }
    var service := FindServiceById(services.value, serviceId);
    if service.None? {
      return Err(ServiceNotFound);
    }
    var serviceDurationMinutes := ServiceMinutes(service.value);
    var staffMembers := GetStaffMembers(staff);
    if |staffMembers| == 0 {
      return Ok([]);
    }
    var staffEmails := StaffEmails(staffMembers);
    if |staffEmails| == 0 {
      return Ok([]);
    }
    if serviceDurationMinutes == 0 {
      return Ok([]);
    }
    var staffEmail := staffEmails[0];
    var busyPeriods := BusyPeriods(appointments, p, staffEmail, startDate, endDate);
    var allSlots := GenerateTimeSlots(startDate, endDate, serviceDurationMinutes);
    r := Ok(FreeSlots(allSlots, busyPeriods, now));
  }

  /**
   * A generated slot is offered iff it starts after `now` and meets none of
   * the busy periods.
   */
  lemma OfferedSlotsSound(startDate: int, endDate: int, interval: int, busy: seq<Period>, now: int)
    requires interval > 0 || startDate >= endDate
    ensures forall slot :: slot in FreeSlots(GenerateTimeSlotsAsWritten(startDate, endDate, interval), busy, now) <==>
      slot in GenerateTimeSlotsAsWritten(startDate, endDate, interval) && slot.start > now &&
      forall b :: b in busy ==> !(slot.start < b.end && slot.end > b.start)
  {
  }

  /**
   * No offered slot meets an existing appointment of the range that has both
   * times, nor a blocking event of the staff calendar: the double-booking the
   * availability search avoids.
   */
  lemma OfferedSlotsAvoidBusy(appointments: Option<seq<BookedAppointment>>, p: Provider, staffEmail: string,
                              startDate: int, endDate: int, slots: seq<TimeSlot>, now: int)
    ensures var offered := FreeSlots(slots, BusyPeriods(appointments, p, staffEmail, startDate, endDate), now);
      && (forall slot, b ::
            (slot in offered && b in GetBookingsForDate(appointments, startDate, endDate)
             && FirstOf(b.startDateTime, b.start).Some? && FirstOf(b.endDateTime, b.end).Some?)
            ==> !Conflicts(slot, Period(FirstOf(b.startDateTime, b.start).value, FirstOf(b.endDateTime, b.end).value)))
      && (forall slot, e ::
            (slot in offered && GetCalendarEvents(p, staffEmail, startDate, endDate).Some?
             && e in GetCalendarEvents(p, staffEmail, startDate, endDate).value)
            ==> !Conflicts(slot, Period(e.start, e.end)))
  {
    var bookings := GetBookingsForDate(appointments, startDate, endDate);
    var events := GetCalendarEvents(p, staffEmail, startDate, endDate);
    var busy := BusyPeriods(appointments, p, staffEmail, startDate, endDate);
    AppointmentPeriodsExact(bookings);
    forall b | b in bookings && FirstOf(b.startDateTime, b.start).Some? && FirstOf(b.endDateTime, b.end).Some?
      ensures Period(FirstOf(b.startDateTime, b.start).value, FirstOf(b.endDateTime, b.end).value) in busy
    {
      var q := Period(FirstOf(b.startDateTime, b.start).value, FirstOf(b.endDateTime, b.end).value);
      assert q in AppointmentPeriods(bookings);
    }
    if events.Some? {
      forall e | e in events.value
        ensures Period(e.start, e.end) in busy
      {
        var k :| 0 <= k < |events.value| && events.value[k] == e;
        assert EventPeriods(events.value)[k] == Period(e.start, e.end);
      }
    }
  }

  /** The map key `${start}-${end}` of a slot. */
  function SlotKey(slot: TimeSlot): (int, int)
  {
    (slot.start, slot.end)
  }

  /** The keys of the slots. */
  function Keys(slots: seq<TimeSlot>): set<(int, int)>
  {
    set x | x in slots :: SlotKey(x)
  }

  lemma KeysSnoc(slots: seq<TimeSlot>, x: TimeSlot)
    ensures Keys(slots + [x]) == Keys(slots) + {SlotKey(x)}
  {
    assert forall y :: y in slots + [x] <==> y in slots || y == x;
  }

  /** No slot before index `i` has the key of `slots[i]`. */
  predicate FirstWithKey(slots: seq<TimeSlot>, i: int)
  {
    0 <= i < |slots| && forall j :: 0 <= j < i ==> SlotKey(slots[j]) != SlotKey(slots[i])
  }

  /** The slots in insertion order of a map that keeps the first slot per key. */
  function FirstPerKey(slots: seq<TimeSlot>): seq<TimeSlot>
    decreases |slots|
  {
    if |slots| == 0 then []
    else
      var init := slots[..|slots| - 1];
      var last := slots[|slots| - 1];
      if SlotKey(last) in Keys(init) then FirstPerKey(init) else FirstPerKey(init) + [last]
  }

  /**
   * The map keeps exactly the first slot of every key: its keys are the
   * input's keys, no two of its slots share a key, and a slot is kept iff it
   * is the first of its key.
   */
  lemma {:induction false} FirstPerKeyProperties(slots: seq<TimeSlot>)
    ensures var r := FirstPerKey(slots);
      && Keys(r) == Keys(slots)
      && (forall i, j :: 0 <= i < j < |r| ==> SlotKey(r[i]) != SlotKey(r[j]))
      && (forall x :: x in r <==> exists i :: FirstWithKey(slots, i) && slots[i] == x)
    decreases |slots|
  {
    if |slots| > 0 {
      var init := slots[..|slots| - 1];
      var last := slots[|slots| - 1];
      assert slots == init + [last];
      FirstPerKeyProperties(init);
      var r' := FirstPerKey(init);
      KeysSnoc(init, last);
      assert forall i :: 0 <= i < |init| ==> (FirstWithKey(slots, i) <==> FirstWithKey(init, i));
      if SlotKey(last) in Keys(init) {
        var y :| y in init && SlotKey(y) == SlotKey(last);
        var j :| 0 <= j < |init| && init[j] == y;
        assert !FirstWithKey(slots, |init|);
      } else {
        KeysSnoc(r', last);
        assert FirstWithKey(slots, |init|);
        var r := r' + [last];
        forall i, j | 0 <= i < j < |r| ensures SlotKey(r[i]) != SlotKey(r[j]) {
          if j == |r'| {
            assert r[i] in r';
          }
        }
      }
    }
  }

  /**
   * `deduplicateSlots`: the first slot per start and end, in first-seen
   * order, then sorted by start (the method is not called by the service).
   */
  method DeduplicateSlots(slots: seq<TimeSlot>) returns (r: seq<TimeSlot>)
    ensures r == SortBy(FirstPerKey(slots), (s: TimeSlot) => s.start)
  {
    var seen: set<(int, int)> := {};
    var unique: seq<TimeSlot> := [];
    for i := 0 to |slots|
      invariant seen == Keys(slots[..i])
      invariant unique == FirstPerKey(slots[..i])
    {
      assert slots[..i + 1] == slots[..i] + [slots[i]];
      assert slots[..i + 1][..i] == slots[..i];
      KeysSnoc(slots[..i], slots[i]);
      var key := SlotKey(slots[i]);
      if key !in seen {
        seen := seen + {key};
        unique := unique + [slots[i]];
      }
    }
    assert slots[..|slots|] == slots;
    r := SortBy(unique, (s: TimeSlot) => s.start);
  }

  /**
   * The deduplicated slots are sorted by start, carry every start and end of
   * the input exactly once, and are exactly the first input slot of each.
   */
  lemma DeduplicatedSlotsProperties(slots: seq<TimeSlot>)
    ensures var r := SortBy(FirstPerKey(slots), (s: TimeSlot) => s.start);
      && SortedBy(r, (s: TimeSlot) => s.start)
      && Keys(r) == Keys(slots)
      && (forall i, j :: 0 <= i < j < |r| ==> SlotKey(r[i]) != SlotKey(r[j]))
      && (forall x :: x in r <==> exists i :: FirstWithKey(slots, i) && slots[i] == x)
  {
    var u := FirstPerKey(slots);
    var r := SortBy(u, (s: TimeSlot) => s.start);
    FirstPerKeyProperties(slots);
    SameElements(u, r);
    forall i, j | 0 <= i < j < |r| ensures SlotKey(r[i]) != SlotKey(r[j]) {
      var a, b := DistinctPositions(u, r, i, j);
    }
  }
}
