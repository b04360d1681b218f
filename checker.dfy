/**
 * The three-calendar availability check of the configuration-based booking
 * flow, and the daily working-hours grid of candidate slots it filters.
 */
module Checker {
  import opened Common
  import opened Clock
  import opened Provider

  /** A candidate or offered slot `[start, end)`. */
  datatype TimeSlot = TimeSlot(start: int, end: int)

  /** Candidate starts within a working day are this many minutes apart. */
  const SlotStep: int := 30

  /** `events.some(event => event.showAs !== 'free')`. */
  predicate HasConflict(events: seq<Event>)
  {
    exists e :: e in events && e.showAs != Free
  }

  /** The calendar can be read and every event intersecting `[s, t)` is free. */
  predicate CalendarFree(p: Provider, cal: string, s: int, t: int)
  {
    cal in p.calendars && forall e :: e in p.calendars[cal] && Overlaps(e, s, t) ==> e.showAs == Free
  }

  /**
   * `checkCalendarAvailability`: no conflicting event in the calendar view;
   * a failed query counts as not available.
   */
  function CheckCalendarAvailability(p: Provider, calendarId: string, s: int, t: int): (r: bool)
    ensures r <==> CalendarFree(p, calendarId, s, t)
  {
    match View(p, calendarId, s, t)
    case None => false
    case Some(events) => !HasConflict(events)
  }

  /**
   * `checkAvailability`: the service, brand and employee calendars are all
   * free over `[s, t)`.
   */
  function CheckAvailability(p: Provider, serviceCalendarId: string, brandCalendarId: string,
                             employeeCalendarId: string, s: int, t: int): (r: bool)
    ensures r <==> forall cal :: cal in [serviceCalendarId, brandCalendarId, employeeCalendarId] ==> CalendarFree(p, cal, s, t)
  {
    CheckCalendarAvailability(p, serviceCalendarId, s, t)
    && CheckCalendarAvailability(p, brandCalendarId, s, t)
    && CheckCalendarAvailability(p, employeeCalendarId, s, t)
  }

  /** `setHours(workStart, 0, 0, 0)` on the day of `cur`. */
  function WorkStart(cur: int, workStart: int): int
  {
    DayStart(cur) + workStart * 60
  }

  /** `setHours(workEnd, 0, 0, 0)` on the day of `first`. */
  function WorkEnd(first: int, workEnd: int): int
  {
    DayStart(first) + workEnd * 60
  }

  /** Where the 30-minute stepping of one day stops. */
  function GridExit(cur: int, dayEnd: int): (x: int)
    ensures cur < dayEnd ==> dayEnd <= x < dayEnd + SlotStep
    ensures cur >= dayEnd ==> x == cur
    ensures (x - cur) % SlotStep == 0
    decreases dayEnd - cur
  {
    if cur >= dayEnd then cur else GridExit(cur + SlotStep, dayEnd)
  }

  /**
   * The slots one working day contributes: every start `cur + 30k` before
   * `dayEnd` whose slot fits before `dayEnd` and passes the three-calendar check.
   */
  function DayCandidates(p: Provider, svc: string, brand: string, emp: string,
                         cur: int, dayEnd: int, duration: int): seq<TimeSlot>
    decreases dayEnd - cur
  {
    if cur >= dayEnd then []
    else
      var here := if cur + duration <= dayEnd && CheckAvailability(p, svc, brand, emp, cur, cur + duration)
                  then [TimeSlot(cur, cur + duration)] else [];
      here + DayCandidates(p, svc, brand, emp, cur + SlotStep, dayEnd, duration)
  }

  /**
   * Every candidate of one day starts on the 30-minute grid from `cur`
   * before the day's end, lasts the service duration without passing the
   * end, and passes the three-calendar check.
   */
  lemma {:induction false} DayCandidatesSound(p: Provider, svc: string, brand: string, emp: string,
                                              cur: int, dayEnd: int, duration: int)
    ensures forall slot :: slot in DayCandidates(p, svc, brand, emp, cur, dayEnd, duration) ==>
      && cur <= slot.start < dayEnd
      && (slot.start - cur) % SlotStep == 0
      && slot.end == slot.start + duration <= dayEnd
      && CheckAvailability(p, svc, brand, emp, slot.start, slot.end)
    decreases dayEnd - cur
  {
    if cur < dayEnd {
      DayCandidatesSound(p, svc, brand, emp, cur + SlotStep, dayEnd, duration);
      forall slot | slot in DayCandidates(p, svc, brand, emp, cur + SlotStep, dayEnd, duration)
        ensures (slot.start - cur) % SlotStep == 0
      {
        assert slot.start - cur == (slot.start - (cur + SlotStep)) + SlotStep;
      }
    }
  }

  /** The instant the day loop continues from: local midnight after the day's stepping stopped. */
  function NextDay(cur: int, workStart: int, workEnd: int): int
  {
    var first := WorkStart(cur, workStart);
    DayStart(GridExit(first, WorkEnd(first, workEnd))) + MinutesPerDay
  }

  /** With a non-negative working-hours start, every day moves the loop forward. */
  lemma NextDayAdvances(cur: int, workStart: int, workEnd: int)
    requires workStart >= 0
    ensures NextDay(cur, workStart, workEnd) > cur
    ensures NextDay(cur, workStart, workEnd) % MinutesPerDay == 0
  {
    var first := WorkStart(cur, workStart);
    var x := GridExit(first, WorkEnd(first, workEnd));
    assert DayStart(cur) <= first <= x;
    DayStartOf(DayStart(cur), 0);
    DayStartMonotone(DayStart(cur), x);
    NextMidnight(DayStart(x));
  }

  /**
   * The slots of the day loop from `cur`: reset to the working-hours start of
   * the day, step through it, then continue from the next local midnight,
   * while the loop instant is before `endDate`.
   */
  function GridFrom(p: Provider, svc: string, brand: string, emp: string,
                    cur: int, endDate: int, duration: int, workStart: int, workEnd: int): seq<TimeSlot>
    requires workStart >= 0
    decreases endDate - cur
  {
    if cur >= endDate then []
    else
      var first := WorkStart(cur, workStart);
      NextDayAdvances(cur, workStart, workEnd);
      DayCandidates(p, svc, brand, emp, first, WorkEnd(first, workEnd), duration)
      + GridFrom(p, svc, brand, emp, NextDay(cur, workStart, workEnd), endDate, duration, workStart, workEnd)
  }

  /**
   * `getAvailableSlots`: nested loops over the days and the 30-minute steps
   * of each day, collecting the slots that pass the three-calendar check.
   */
  method GetAvailableSlots(p: Provider, serviceCalendarId: string, brandCalendarId: string,
                           employeeCalendarId: string, startDate: int, endDate: int,
                           serviceDuration: int, workStart: int, workEnd: int)
    returns (slots: seq<TimeSlot>)
    requires workStart >= 0
    ensures slots == GridFrom(p, serviceCalendarId, brandCalendarId, employeeCalendarId,
                              startDate, endDate, serviceDuration, workStart, workEnd)
  {
    slots := [];
    var cur := startDate;
    while cur < endDate
      invariant slots + GridFrom(p, serviceCalendarId, brandCalendarId, employeeCalendarId,
                                 cur, endDate, serviceDuration, workStart, workEnd)
                == GridFrom(p, serviceCalendarId, brandCalendarId, employeeCalendarId,
                            startDate, endDate, serviceDuration, workStart, workEnd)
      decreases endDate - cur
    {
      var loopStart := cur;
      NextDayAdvances(cur, workStart, workEnd);
      cur := WorkStart(cur, workStart);
      var endOfDay := WorkEnd(cur, workEnd);
      var daySlots, exit := ScanDay(p, serviceCalendarId, brandCalendarId, employeeCalendarId,
                                    cur, endOfDay, serviceDuration);
      cur := DayStart(exit) + MinutesPerDay;
      assert cur == NextDay(loopStart, workStart, workEnd);
      var rest := GridFrom(p, serviceCalendarId, brandCalendarId, employeeCalendarId,
                           cur, endDate, serviceDuration, workStart, workEnd);
      ConcatAssoc(slots, daySlots, rest);
      slots := slots + daySlots;
    }
  }

  /** The inner loop of `getAvailableSlots`: one working day in 30-minute steps. */
  method ScanDay(p: Provider, serviceCalendarId: string, brandCalendarId: string,
                 employeeCalendarId: string, first: int, endOfDay: int, serviceDuration: int)
    returns (daySlots: seq<TimeSlot>, exit: int)
    ensures daySlots == DayCandidates(p, serviceCalendarId, brandCalendarId, employeeCalendarId,
                                      first, endOfDay, serviceDuration)
    ensures exit == GridExit(first, endOfDay)
  {
    daySlots := [];
    var cur := first;
    while cur < endOfDay
      invariant daySlots + DayCandidates(p, serviceCalendarId, brandCalendarId, employeeCalendarId,
                                         cur, endOfDay, serviceDuration)
                == DayCandidates(p, serviceCalendarId, brandCalendarId, employeeCalendarId,
                                 first, endOfDay, serviceDuration)
      invariant GridExit(cur, endOfDay) == GridExit(first, endOfDay)
      decreases endOfDay - cur
    {
      var slotEnd := cur + serviceDuration;
      ghost var rest := DayCandidates(p, serviceCalendarId, brandCalendarId, employeeCalendarId,
                                      cur + SlotStep, endOfDay, serviceDuration);
      var here: seq<TimeSlot> := [];
      if slotEnd <= endOfDay {
        var isAvailable := CheckAvailability(p, serviceCalendarId, brandCalendarId, employeeCalendarId,
                                             cur, slotEnd);
        if isAvailable {
          here := [TimeSlot(cur, slotEnd)];
        }
      }
      assert DayCandidates(p, serviceCalendarId, brandCalendarId, employeeCalendarId, cur, endOfDay, serviceDuration)
             == here + rest;
      ConcatAssoc(daySlots, here, rest);
      daySlots := daySlots + here;
      cur := cur + SlotStep;
    }
    exit := cur;
  }

  /** The starts of `slots` strictly increase. */
  predicate Increasing(slots: seq<TimeSlot>)
  {
    forall i, j :: 0 <= i < j < |slots| ==> slots[i].start < slots[j].start
  }

  /** The slot lies on the 30-minute grid of the working day that starts at `first`. */
  predicate InWorkDay(slot: TimeSlot, first: int, workEnd: int)
  {
    && first <= slot.start < WorkEnd(first, workEnd)
    && (slot.start - first) % SlotStep == 0
    && slot.end <= WorkEnd(first, workEnd)
  }

  /** The slot lies on the grid of the working day of some local midnight. */
  ghost predicate OnGrid(slot: TimeSlot, workStart: int, workEnd: int)
  {
    exists midnight :: midnight % MinutesPerDay == 0 && InWorkDay(slot, WorkStart(midnight, workStart), workEnd)
  }

  /** One day's slots are increasing. */
  lemma {:induction false} DayCandidatesIncreasing(p: Provider, svc: string, brand: string, emp: string,
                                                   cur: int, dayEnd: int, duration: int)
    ensures Increasing(DayCandidates(p, svc, brand, emp, cur, dayEnd, duration))
    decreases dayEnd - cur
  {
    if cur < dayEnd {
      DayCandidatesIncreasing(p, svc, brand, emp, cur + SlotStep, dayEnd, duration);
      DayCandidatesSound(p, svc, brand, emp, cur + SlotStep, dayEnd, duration);
      var here := if cur + duration <= dayEnd && CheckAvailability(p, svc, brand, emp, cur, cur + duration)
                  then [TimeSlot(cur, cur + duration)] else [];
      IncreasingConcat(here, DayCandidates(p, svc, brand, emp, cur + SlotStep, dayEnd, duration));
    }
  }

  /**
   * Every slot of the grid from `cur` lasts the service duration, passes the
   * three-calendar check, lies on the working-day grid of some day, and
   * starts no earlier than local midnight of `cur`.
   */
  lemma {:induction false} GridSound(p: Provider, svc: string, brand: string, emp: string,
                                     cur: int, endDate: int, duration: int, workStart: int, workEnd: int)
    requires workStart >= 0
    ensures forall slot :: slot in GridFrom(p, svc, brand, emp, cur, endDate, duration, workStart, workEnd) ==>
      && slot.end == slot.start + duration
      && CheckAvailability(p, svc, brand, emp, slot.start, slot.end)
      && OnGrid(slot, workStart, workEnd)
      && DayStart(cur) <= slot.start
    decreases endDate - cur
  {
    if cur < endDate {
      var first := WorkStart(cur, workStart);
      var next := NextDay(cur, workStart, workEnd);
      NextDayAdvances(cur, workStart, workEnd);
      GridSound(p, svc, brand, emp, next, endDate, duration, workStart, workEnd);
      DayCandidatesSound(p, svc, brand, emp, first, WorkEnd(first, workEnd), duration);
      var day := DayCandidates(p, svc, brand, emp, first, WorkEnd(first, workEnd), duration);
      forall slot | slot in day
        ensures OnGrid(slot, workStart, workEnd)
      {
        assert DayStart(cur) % MinutesPerDay == 0;
        assert WorkStart(DayStart(cur), workStart) == first by {
          DayStartOf(DayStart(cur), 0);
        }
        assert InWorkDay(slot, WorkStart(DayStart(cur), workStart), workEnd);
      }
      assert DayStart(next) == next by {
        DayStartOf(next, 0);
      }
      DayStartMonotone(cur, next);
    }
  }

  /** The slots of the whole grid strictly increase in start. */
  lemma {:induction false} GridIncreasing(p: Provider, svc: string, brand: string, emp: string,
                                          cur: int, endDate: int, duration: int, workStart: int, workEnd: int)
    requires workStart >= 0
    ensures Increasing(GridFrom(p, svc, brand, emp, cur, endDate, duration, workStart, workEnd))
    decreases endDate - cur
  {
    if cur < endDate {
      var first := WorkStart(cur, workStart);
      var dayEnd := WorkEnd(first, workEnd);
      var next := NextDay(cur, workStart, workEnd);
      NextDayAdvances(cur, workStart, workEnd);
      GridIncreasing(p, svc, brand, emp, next, endDate, duration, workStart, workEnd);
      GridSound(p, svc, brand, emp, next, endDate, duration, workStart, workEnd);
      DayCandidatesIncreasing(p, svc, brand, emp, first, dayEnd, duration);
      DayCandidatesSound(p, svc, brand, emp, first, dayEnd, duration);
      var day := DayCandidates(p, svc, brand, emp, first, dayEnd, duration);
      var rest := GridFrom(p, svc, brand, emp, next, endDate, duration, workStart, workEnd);
      assert DayStart(next) == next by {
        DayStartOf(next, 0);
      }
      var x := GridExit(first, dayEnd);
      assert x < next;
      assert forall slot :: slot in day ==> slot.start < x;
      assert forall slot :: slot in rest ==> next <= slot.start;
      IncreasingConcat(day, rest);
    }
  }

  /** Two increasing runs, the first entirely before the second, make an increasing run. */
  lemma IncreasingConcat(a: seq<TimeSlot>, b: seq<TimeSlot>)
    requires Increasing(a) && Increasing(b)
    requires forall x, y :: x in a && y in b ==> x.start < y.start
    ensures Increasing(a + b)
  {
    var all := a + b;
    forall i, j | 0 <= i < j < |all|
      ensures all[i].start < all[j].start
    {
      if j < |a| {
        assert all[i] == a[i] && all[j] == a[j];
      } else if i >= |a| {
        assert all[i] == b[i - |a|] && all[j] == b[j - |a|];
      } else {
        assert all[i] == a[i] && all[j] == b[j - |a|];
      }
    }
  }

  /**
   * The first day is reset to the working-hours start whatever the time of
   * day of `startDate`, and no earlier-than-now filter applies: when the
   * first candidate of that day fits and is available, it is the first slot,
   * even if it starts before `startDate`.
   */
  lemma FirstDayReset(p: Provider, svc: string, brand: string, emp: string,
                      startDate: int, endDate: int, duration: int, workStart: int, workEnd: int)
    requires workStart >= 0
    requires startDate < endDate
    requires WorkStart(startDate, workStart) + duration <= WorkEnd(WorkStart(startDate, workStart), workEnd)
    requires WorkStart(startDate, workStart) < WorkEnd(WorkStart(startDate, workStart), workEnd)
    requires CheckAvailability(p, svc, brand, emp, WorkStart(startDate, workStart),
                               WorkStart(startDate, workStart) + duration)
    ensures var slots := GridFrom(p, svc, brand, emp, startDate, endDate, duration, workStart, workEnd);
      |slots| > 0 && slots[0] == TimeSlot(WorkStart(startDate, workStart), WorkStart(startDate, workStart) + duration)
  {
  }

  /**
   * With the default working hours 9 to 17, every slot starts at 09:00 or
   * later on a half hour and ends by 17:00 of its own day.
   */
  lemma DefaultHoursSlots(p: Provider, svc: string, brand: string, emp: string,
                          startDate: int, endDate: int, duration: int)
    ensures forall slot :: slot in GridFrom(p, svc, brand, emp, startDate, endDate, duration, 9, 17) ==>
      && 9 <= HourOf(slot.start)
      && MinuteOfDay(slot.start) % SlotStep == 0
      && slot.end <= DayStart(slot.start) + 17 * 60
      && slot.end == slot.start + duration
  {
    GridSound(p, svc, brand, emp, startDate, endDate, duration, 9, 17);
    forall slot | slot in GridFrom(p, svc, brand, emp, startDate, endDate, duration, 9, 17)
      ensures 9 <= HourOf(slot.start)
      ensures MinuteOfDay(slot.start) % SlotStep == 0
      ensures slot.end <= DayStart(slot.start) + 17 * 60
    {
      var midnight :| midnight % MinutesPerDay == 0 && InWorkDay(slot, WorkStart(midnight, 9), 17);
      DefaultHoursSlot(slot, midnight);
    }
  }

  /** A slot on the 9 to 17 grid of a given day. */
  lemma DefaultHoursSlot(slot: TimeSlot, midnight: int)
    requires midnight % MinutesPerDay == 0
    requires InWorkDay(slot, WorkStart(midnight, 9), 17)
    ensures 9 <= HourOf(slot.start)
    ensures MinuteOfDay(slot.start) % SlotStep == 0
    ensures slot.end <= DayStart(slot.start) + 17 * 60
  {
    DayStartOf(midnight, 0);
    assert WorkStart(midnight, 9) == midnight + 540;
    DayStartOf(midnight, 540);
    assert WorkEnd(midnight + 540, 17) == midnight + 1020;
    DayStartOf(midnight, slot.start - midnight);
    assert MinuteOfDay(slot.start) == slot.start - midnight;
  }
}
