/**
 * Slot search of the Next.js app over a shared mailbox and a staff
 * calendar: booking slots inside "Available" events, slots from recurring
 * availability patterns, the two-calendar check of one slot, the next free
 * slot and a per-day summary.
 */
module Availability {
  import opened Common
  import opened JsString
  import opened Clock
  import opened Provider
  import opened CalendarService

  /** A bookable slot. */
  datatype AvailableSlot = AvailableSlot(
    start: int,
    end: int,
    duration: int,
    isRecurring: bool,
    recurringId: Option<string>)

  /** The sort key of slots. */
  function SlotStart(s: AvailableSlot): int { s.start }

  /** The step between candidate starts inside a window (the default every caller uses). */
  const SlotInterval: int := 30

  /** The candidates of a window from `cur` on: every 30 minutes while `cur < windowEnd`, kept when they fit. */
  function WindowSlots(cur: int, windowEnd: int, duration: int): seq<AvailableSlot>
    decreases windowEnd - cur
  {
    if cur >= windowEnd then []
    else
      (if cur + duration <= windowEnd then [AvailableSlot(cur, cur + duration, duration, false, None)] else [])
      + WindowSlots(cur + SlotInterval, windowEnd, duration)
  }

  /** `generateBookingSlotsWithinWindow`. */
  method GenerateBookingSlotsWithinWindow(windowStart: int, windowEnd: int, serviceDuration: int)
    returns (slots: seq<AvailableSlot>)
    ensures slots == WindowSlots(windowStart, windowEnd, serviceDuration)
  {
    slots := [];
    var current := windowStart;
    while current < windowEnd
      invariant slots + WindowSlots(current, windowEnd, serviceDuration) == WindowSlots(windowStart, windowEnd, serviceDuration)
      decreases windowEnd - current
    {
      var currentEnd := current + serviceDuration;
      if currentEnd <= windowEnd {
        slots := slots + [AvailableSlot(current, currentEnd, serviceDuration, false, None)];
      }
      current := current + SlotInterval;
    }
  }

  /**
   * Each window slot lasts `duration`, ends inside the window, starts on the
   * 30-minute grid from the window start and strictly before the window end.
   */
  lemma {:induction false} WindowSlotsShape(cur: int, windowEnd: int, duration: int)
    ensures forall s :: s in WindowSlots(cur, windowEnd, duration) ==>
      && cur <= s.start < windowEnd
      && (s.start - cur) % SlotInterval == 0
      && s.end == s.start + duration && s.end <= windowEnd
      && s.duration == duration && !s.isRecurring && s.recurringId.None?
    decreases windowEnd - cur
  {
    if cur < windowEnd {
      WindowSlotsShape(cur + SlotInterval, windowEnd, duration);
    }
  }

  /** The slots are in strictly increasing order of start. */
  predicate StrictlyIncreasing(r: seq<AvailableSlot>)
  {
    forall i, j :: 0 <= i < j < |r| ==> r[i].start < r[j].start
  }

  /** Window slots are in strictly increasing order of start. */
  lemma {:induction false} WindowSlotsIncreasing(cur: int, windowEnd: int, duration: int)
    ensures StrictlyIncreasing(WindowSlots(cur, windowEnd, duration))
    decreases windowEnd - cur
  {
    if cur < windowEnd {
      var head := if cur + duration <= windowEnd then [AvailableSlot(cur, cur + duration, duration, false, None)] else [];
      var tail := WindowSlots(cur + SlotInterval, windowEnd, duration);
      WindowSlotsIncreasing(cur + SlotInterval, windowEnd, duration);
      WindowSlotsShape(cur + SlotInterval, windowEnd, duration);
      var r := head + tail;
      assert WindowSlots(cur, windowEnd, duration) == r;
      forall i, j | 0 <= i < j < |r| ensures r[i].start < r[j].start {
        var k := j - |head|;
        assert r[j] == tail[k];
        assert tail[k] in tail;
        if i >= |head| {
          assert r[i] == tail[i - |head|];
        } else {
          assert r[i] == head[0];
        }
      }
    }
  }

  /** Every grid start whose slot fits in the window is offered. */
  lemma {:induction false} WindowSlotsComplete(cur: int, windowEnd: int, duration: int, t: int)
    requires cur <= t < windowEnd && (t - cur) % SlotInterval == 0 && t + duration <= windowEnd
    ensures AvailableSlot(t, t + duration, duration, false, None) in WindowSlots(cur, windowEnd, duration)
    decreases windowEnd - cur
  {
    var head := if cur + duration <= windowEnd then [AvailableSlot(cur, cur + duration, duration, false, None)] else [];
    var tail := WindowSlots(cur + SlotInterval, windowEnd, duration);
    assert WindowSlots(cur, windowEnd, duration) == head + tail;
    if t == cur {
      assert head[0] == AvailableSlot(t, t + duration, duration, false, None);
    } else {
      GridNext(t - cur);
      WindowSlotsComplete(cur + SlotInterval, windowEnd, duration, t);
    }
  }

  /** A positive multiple of the interval is at least one interval, and one interval less is still a multiple. */
  lemma GridNext(d: int)
    requires d != 0 && d >= 0 && d % SlotInterval == 0
    ensures d >= SlotInterval && (d - SlotInterval) % SlotInterval == 0
  {
  }

  /** A window shorter than the service yields no slot. */
  lemma {:induction false} ShortWindowIsEmpty(cur: int, windowEnd: int, duration: int)
    requires windowEnd - cur < duration
    ensures WindowSlots(cur, windowEnd, duration) == []
    decreases windowEnd - cur
  {
    if cur < windowEnd {
      ShortWindowIsEmpty(cur + SlotInterval, windowEnd, duration);
    }
  }

  /** The event marks a window of availability: its subject has the pattern and it is free or tentative. */
  predicate IsAvailabilityEvent(e: Event, pattern: string)
  {
    e.subject.Some? && Contains(e.subject.value, pattern) && (e.showAs == Free || e.showAs == Tentative)
  }

  /** The availability events of a view, in order. */
  function AvailabilityEvents(events: seq<Event>, pattern: string): (r: seq<Event>)
    ensures forall e :: e in r <==> e in events && IsAvailabilityEvent(e, pattern)
    decreases |events|
  {
    if |events| == 0 then []
    else
      var init := events[..|events| - 1];
      var last := events[|events| - 1];
      assert events == init + [last];
      if IsAvailabilityEvent(last, pattern) then AvailabilityEvents(init, pattern) + [last]
      else AvailabilityEvents(init, pattern)
  }

  /** Both the shared mailbox and the staff calendar are free over the slot. */
  predicate FreeInBoth(p: Provider, sharedMailbox: string, staffEmail: string, s: AvailableSlot)
  {
    IsTimeSlotAvailable(p, sharedMailbox, s.start, s.end) && IsTimeSlotAvailable(p, staffEmail, s.start, s.end)
  }

  /** The window slots of `e` that are free in both calendars, marked with the event. */
  function KeptWindowSlots(p: Provider, sharedMailbox: string, staffEmail: string,
                           slots: seq<AvailableSlot>, e: Event): seq<AvailableSlot>
    decreases |slots|
  {
    if |slots| == 0 then []
    else
      var init := slots[..|slots| - 1];
      var s := slots[|slots| - 1];
      KeptWindowSlots(p, sharedMailbox, staffEmail, init, e)
      + (if FreeInBoth(p, sharedMailbox, staffEmail, s) then
           [s.(isRecurring := e.eventType == Some(Occurrence) || e.eventType == Some(SeriesMaster),
               recurringId := Some(e.id))]
         else [])
  }

  /** The free slots one availability event offers. */
  function EventSlots(p: Provider, sharedMailbox: string, staffEmail: string, e: Event, duration: int): seq<AvailableSlot>
  {
    if e.end - e.start >= duration then
      KeptWindowSlots(p, sharedMailbox, staffEmail, WindowSlots(e.start, e.end, duration), e)
    else []
  }

  /** The free slots of a list of availability events, event by event. */
  function EventsSlots(p: Provider, sharedMailbox: string, staffEmail: string, events: seq<Event>, duration: int): seq<AvailableSlot>
    decreases |events|
  {
    if |events| == 0 then []
    else
      EventsSlots(p, sharedMailbox, staffEmail, events[..|events| - 1], duration)
      + EventSlots(p, sharedMailbox, staffEmail, events[|events| - 1], duration)
  }

  /** The slots starting at or after `tomorrow`, in order. */
  function FromTomorrow(slots: seq<AvailableSlot>, tomorrow: int): (r: seq<AvailableSlot>)
    ensures forall s :: s in r <==> s in slots && s.start >= tomorrow
    decreases |slots|
  {
    if |slots| == 0 then []
    else
      var init := slots[..|slots| - 1];
      var last := slots[|slots| - 1];
      assert slots == init + [last];
      if last.start >= tomorrow then FromTomorrow(init, tomorrow) + [last] else FromTomorrow(init, tomorrow)
  }

  /** A subsequence of a sorted list is sorted. */
  lemma {:induction false} FromTomorrowSorted(slots: seq<AvailableSlot>, tomorrow: int)
    requires SortedBy(slots, SlotStart)
    ensures SortedBy(FromTomorrow(slots, tomorrow), SlotStart)
    decreases |slots|
  {
    if |slots| > 0 {
      var init := slots[..|slots| - 1];
      var last := slots[|slots| - 1];
      assert SortedBy(init, SlotStart);
      FromTomorrowSorted(init, tomorrow);
      forall s | s in FromTomorrow(init, tomorrow) ensures s.start <= last.start {
        var i :| 0 <= i < |init| && init[i] == s;
        assert slots[i] == s;
      }
    }
  }

  /** The result of `getAvailableSlots` for the events of the shared view. */
  function AvailableSlots(p: Provider, sharedMailbox: string, staffEmail: string, events: seq<Event>,
                          duration: int, pattern: string, now: int): seq<AvailableSlot>
  {
    var candidates := EventsSlots(p, sharedMailbox, staffEmail, AvailabilityEvents(events, pattern), duration);
    FromTomorrow(SortBy(candidates, SlotStart), DayStart(now) + MinutesPerDay)
  }

  /**
   * `getAvailableSlots`: reads the shared mailbox (a failed read is
   * rethrown), offers the window slots of every availability event long
   * enough for the service that are free in both calendars, sorts them by
   * start and drops those before tomorrow.
   */
  method GetAvailableSlots(p: Provider, sharedMailbox: string, staffEmail: string, startDate: int, endDate: int,
                           serviceDuration: int, availabilityPattern: string, now: int)
    returns (r: Result<seq<AvailableSlot>>)
    ensures CalendarPage(p, sharedMailbox, startDate, endDate).None? ==> r.Err?
    ensures CalendarPage(p, sharedMailbox, startDate, endDate).Some? ==>
      r == Ok(AvailableSlots(p, sharedMailbox, staffEmail, CalendarPage(p, sharedMailbox, startDate, endDate).value,
                             serviceDuration, availabilityPattern, now))
  {
    var view := CalendarPage(p, sharedMailbox, startDate, endDate);
    if view.None? {
      return Err("calendar view failed");
    }
    var availabilityEvents := AvailabilityEvents(view.value, availabilityPattern);
    var available: seq<AvailableSlot> := [];
    var i := 0;
    while i < |availabilityEvents|
      invariant 0 <= i <= |availabilityEvents|
      invariant available == EventsSlots(p, sharedMailbox, staffEmail, availabilityEvents[..i], serviceDuration)
    {
      var event := availabilityEvents[i];
      assert availabilityEvents[..i + 1][..i] == availabilityEvents[..i];
      var slotDuration := event.end - event.start;
      if slotDuration >= serviceDuration {
        var bookingSlots := GenerateBookingSlotsWithinWindow(event.start, event.end, serviceDuration);
        var kept := KeepWindowSlots(p, sharedMailbox, staffEmail, bookingSlots, event);
        available := available + kept;
      }
      i := i + 1;
    }
    assert availabilityEvents[..i] == availabilityEvents;
    var sorted := SortBy(available, SlotStart);
    var tomorrow := DayStart(now) + MinutesPerDay;
    return Ok(FromTomorrow(sorted, tomorrow));
  }

  /** The slot loop of one availability event in `getAvailableSlots`. */
  method KeepWindowSlots(p: Provider, sharedMailbox: string, staffEmail: string, bookingSlots: seq<AvailableSlot>,
                         event: Event)
    returns (kept: seq<AvailableSlot>)
    ensures kept == KeptWindowSlots(p, sharedMailbox, staffEmail, bookingSlots, event)
  {
    kept := [];
    var j := 0;
    while j < |bookingSlots|
      invariant 0 <= j <= |bookingSlots|
      invariant kept == KeptWindowSlots(p, sharedMailbox, staffEmail, bookingSlots[..j], event)
    {
      var slot := bookingSlots[j];
      assert bookingSlots[..j + 1][..j] == bookingSlots[..j];
      var sharedAvailable := IsTimeSlotAvailable(p, sharedMailbox, slot.start, slot.end);
      var staffAvailable := IsTimeSlotAvailable(p, staffEmail, slot.start, slot.end);
      if sharedAvailable && staffAvailable {
        kept := kept + [slot.(isRecurring := event.eventType == Some(Occurrence) || event.eventType == Some(SeriesMaster),
                              recurringId := Some(event.id))];
      }
      j := j + 1;
    }
    assert bookingSlots[..j] == bookingSlots;
  }

  /** The slot lies inside the availability event `e` and carries its id. */
  predicate FromWindow(s: AvailableSlot, e: Event, duration: int)
  {
    e.start <= s.start && s.end <= e.end && s.end == s.start + duration && s.duration == duration
    && (s.start - e.start) % SlotInterval == 0
    && s.recurringId == Some(e.id)
    && s.isRecurring == (e.eventType == Some(Occurrence) || e.eventType == Some(SeriesMaster))
  }

  /** What one event's slots satisfy. */
  lemma {:induction false} KeptWindowSlotsSound(p: Provider, sharedMailbox: string, staffEmail: string,
                                                slots: seq<AvailableSlot>, e: Event, duration: int)
    requires forall s :: s in slots ==> e.start <= s.start && s.end <= e.end && s.end == s.start + duration
                                        && s.duration == duration && (s.start - e.start) % SlotInterval == 0
    ensures forall s :: s in KeptWindowSlots(p, sharedMailbox, staffEmail, slots, e) ==>
      FreeInBoth(p, sharedMailbox, staffEmail, s) && FromWindow(s, e, duration)
    decreases |slots|
  {
    if |slots| > 0 {
      var init := slots[..|slots| - 1];
      assert forall s :: s in init ==> s in slots;
      KeptWindowSlotsSound(p, sharedMailbox, staffEmail, init, e, duration);
    }
  }

  /** Every candidate is free in both calendars and lies in one of the availability events. */
  lemma {:induction false} EventsSlotsSound(p: Provider, sharedMailbox: string, staffEmail: string,
                                            events: seq<Event>, duration: int)
    ensures forall s :: s in EventsSlots(p, sharedMailbox, staffEmail, events, duration) ==>
      FreeInBoth(p, sharedMailbox, staffEmail, s) && exists e :: e in events && FromWindow(s, e, duration)
    decreases |events|
  {
    if |events| > 0 {
      var init := events[..|events| - 1];
      var e := events[|events| - 1];
      EventsSlotsSound(p, sharedMailbox, staffEmail, init, duration);
      if e.end - e.start >= duration {
        WindowSlotsShape(e.start, e.end, duration);
        KeptWindowSlotsSound(p, sharedMailbox, staffEmail, WindowSlots(e.start, e.end, duration), e, duration);
      }
      forall s | s in EventsSlots(p, sharedMailbox, staffEmail, events, duration)
        ensures FreeInBoth(p, sharedMailbox, staffEmail, s) && exists e' :: e' in events && FromWindow(s, e', duration)
      {
        if s in EventsSlots(p, sharedMailbox, staffEmail, init, duration) {
          var e' :| e' in init && FromWindow(s, e', duration);
          assert e' in events;
        } else {
          assert s in EventSlots(p, sharedMailbox, staffEmail, e, duration);
        }
      }
    }
  }

  /**
   * The properties of `getAvailableSlots`: sorted by start, nothing before
   * tomorrow, every slot free in both calendars and lying inside an
   * availability event (subject with the pattern, free or tentative) whose
   * id it carries.
   */
  lemma AvailableSlotsProperties(p: Provider, sharedMailbox: string, staffEmail: string, events: seq<Event>,
                                 duration: int, pattern: string, now: int)
    ensures var r := AvailableSlots(p, sharedMailbox, staffEmail, events, duration, pattern, now);
      && SortedBy(r, SlotStart)
      && forall s :: s in r ==>
           && s.start >= DayStart(now) + MinutesPerDay
           && FreeInBoth(p, sharedMailbox, staffEmail, s)
           && exists e :: e in events && IsAvailabilityEvent(e, pattern) && FromWindow(s, e, duration)
  {
    var windows := AvailabilityEvents(events, pattern);
    var candidates := EventsSlots(p, sharedMailbox, staffEmail, windows, duration);
    var sorted := SortBy(candidates, SlotStart);
    FromTomorrowSorted(sorted, DayStart(now) + MinutesPerDay);
    EventsSlotsSound(p, sharedMailbox, staffEmail, windows, duration);
    SameElements(sorted, candidates);
  }

  /** `getAvailableSlots` returns its slots sorted by start. */
  lemma AvailableSlotsSorted(p: Provider, sharedMailbox: string, staffEmail: string, events: seq<Event>,
                             duration: int, pattern: string, now: int)
    ensures SortedBy(AvailableSlots(p, sharedMailbox, staffEmail, events, duration, pattern, now), SlotStart)
  {
    var windows := AvailabilityEvents(events, pattern);
    var candidates := EventsSlots(p, sharedMailbox, staffEmail, windows, duration);
    FromTomorrowSorted(SortBy(candidates, SlotStart), DayStart(now) + MinutesPerDay);
  }

  /** An availability event shorter than the service offers nothing. */
  lemma ShortEventOffersNothing(p: Provider, sharedMailbox: string, staffEmail: string, e: Event, duration: int)
    requires e.end - e.start < duration
    ensures EventSlots(p, sharedMailbox, staffEmail, e, duration) == []
  {
  }

  /** The patterns that recur on the weekday named `day`, in order. */
  function DayPatterns(patterns: seq<RecurringMeeting>, day: string): (r: seq<RecurringMeeting>)
    ensures forall m :: m in r <==> m in patterns && day in m.daysOfWeek
    decreases |patterns|
  {
    if |patterns| == 0 then []
    else
      var init := patterns[..|patterns| - 1];
      var last := patterns[|patterns| - 1];
      assert patterns == init + [last];
      if day in last.daysOfWeek then DayPatterns(init, day) + [last] else DayPatterns(init, day)
  }

  /** The window slots of a pattern that are free in both calendars and not past, marked as recurring. */
  function KeptPatternSlots(p: Provider, sharedMailbox: string, staffEmail: string,
                            slots: seq<AvailableSlot>, m: RecurringMeeting, now: int): seq<AvailableSlot>
    decreases |slots|
  {
    if |slots| == 0 then []
    else
      var s := slots[|slots| - 1];
      KeptPatternSlots(p, sharedMailbox, staffEmail, slots[..|slots| - 1], m, now)
      + (if FreeInBoth(p, sharedMailbox, staffEmail, s) && s.start >= now then
           [s.(isRecurring := true, recurringId := m.seriesMasterId)]
         else [])
  }

  /** The slots the patterns of one day offer on the day starting at `day`. */
  function DaySlots(p: Provider, sharedMailbox: string, staffEmail: string, patterns: seq<RecurringMeeting>,
                    day: int, duration: int, now: int): seq<AvailableSlot>
    decreases |patterns|
  {
    if |patterns| == 0 then []
    else
      var m := patterns[|patterns| - 1];
      DaySlots(p, sharedMailbox, staffEmail, patterns[..|patterns| - 1], day, duration, now)
      + PatternSlots(p, sharedMailbox, staffEmail, m, day, duration, now)
  }

  /** The slots pattern `m` offers on the day starting at `day`. */
  function PatternSlots(p: Provider, sharedMailbox: string, staffEmail: string, m: RecurringMeeting,
                        day: int, duration: int, now: int): seq<AvailableSlot>
  {
    KeptPatternSlots(p, sharedMailbox, staffEmail, WindowSlots(day + m.startTime, day + m.endTime, duration), m, now)
  }

  /** The slots of every day from the midnight `cur` while `cur <= endDate`, day by day. */
  function RecurringFrom(p: Provider, sharedMailbox: string, staffEmail: string, patterns: seq<RecurringMeeting>,
                         cur: int, endDate: int, duration: int, now: int): seq<AvailableSlot>
    decreases endDate - cur
  {
    if cur > endDate then []
    else
      DaySlots(p, sharedMailbox, staffEmail, DayPatterns(patterns, Weekday(cur)), cur, duration, now)
      + RecurringFrom(p, sharedMailbox, staffEmail, patterns, cur + MinutesPerDay, endDate, duration, now)
  }

  /** The result of `getRecurringAvailableSlots` of this module for the given patterns. */
  function RecurringSlots(p: Provider, sharedMailbox: string, staffEmail: string, patterns: seq<RecurringMeeting>,
                          startDate: int, endDate: int, duration: int, now: int): seq<AvailableSlot>
  {
    SortBy(RecurringFrom(p, sharedMailbox, staffEmail, patterns, DayStart(startDate), endDate, duration, now), SlotStart)
  }

  /**
   * `getRecurringAvailableSlots`: reads the recurring patterns of the shared
   * mailbox (a failed read is rethrown), then for each day from local
   * midnight of `startDate` through `endDate` offers the window slots of the
   * patterns recurring on that weekday that are free in both calendars and
   * not in the past, and sorts them by start.
   */
  method GetRecurringSlots(p: Provider, sharedMailbox: string, staffEmail: string, startDate: int, endDate: int,
                           serviceDuration: int, now: int)
    returns (r: Result<seq<AvailableSlot>>)
    ensures CalendarPage(p, sharedMailbox, startDate, endDate).None? ==> r.Err?
    ensures CalendarPage(p, sharedMailbox, startDate, endDate).Some? ==>
      r == Ok(RecurringSlots(p, sharedMailbox, staffEmail,
                             RecurringPatterns(CalendarPage(p, sharedMailbox, startDate, endDate).value, "Available"),
                             startDate, endDate, serviceDuration, now))
  {
    var recurring := GetRecurringAvailableSlots(p, sharedMailbox, startDate, endDate, "Available");
    if recurring.Err? {
      return Err(recurring.message);
    }
    var patterns := recurring.value;
    var slots := CollectRecurringSlots(p, sharedMailbox, staffEmail, patterns, startDate, endDate, serviceDuration, now);
    return Ok(SortBy(slots, SlotStart));
  }

  /** The day loop of `getRecurringAvailableSlots`, before sorting. */
  method CollectRecurringSlots(p: Provider, sharedMailbox: string, staffEmail: string, patterns: seq<RecurringMeeting>,
                               startDate: int, endDate: int, serviceDuration: int, now: int)
    returns (slots: seq<AvailableSlot>)
    ensures slots == RecurringFrom(p, sharedMailbox, staffEmail, patterns, DayStart(startDate), endDate, serviceDuration, now)
  {
    slots := [];
    var currentDate := DayStart(startDate);
    while currentDate <= endDate
      invariant slots + RecurringFrom(p, sharedMailbox, staffEmail, patterns, currentDate, endDate, serviceDuration, now)
                == RecurringFrom(p, sharedMailbox, staffEmail, patterns, DayStart(startDate), endDate, serviceDuration, now)
      decreases endDate - currentDate
    {
      var daySlots := PatternSlotsOfDay(p, sharedMailbox, staffEmail, patterns, currentDate, serviceDuration, now);
      ghost var rest := RecurringFrom(p, sharedMailbox, staffEmail, patterns, currentDate + MinutesPerDay, endDate,
                                      serviceDuration, now);
      assert slots + daySlots + rest == slots + (daySlots + rest);
      slots := slots + daySlots;
      currentDate := currentDate + MinutesPerDay;
    }
  }

  /** The body of the day loop of `getRecurringAvailableSlots`. */
  method PatternSlotsOfDay(p: Provider, sharedMailbox: string, staffEmail: string, patterns: seq<RecurringMeeting>,
                           currentDate: int, serviceDuration: int, now: int)
    returns (slots: seq<AvailableSlot>)
    ensures slots == DaySlots(p, sharedMailbox, staffEmail, DayPatterns(patterns, Weekday(currentDate)),
                              currentDate, serviceDuration, now)
  {
    var dayPatterns := DayPatterns(patterns, Weekday(currentDate));
    slots := [];
    var i := 0;
    while i < |dayPatterns|
      invariant 0 <= i <= |dayPatterns|
      invariant slots == DaySlots(p, sharedMailbox, staffEmail, dayPatterns[..i], currentDate, serviceDuration, now)
    {
      var pattern := dayPatterns[i];
      var bookingSlots := GenerateBookingSlotsWithinWindow(currentDate + pattern.startTime,
                                                           currentDate + pattern.endTime, serviceDuration);
      var kept := KeepPatternSlots(p, sharedMailbox, staffEmail, bookingSlots, pattern, now);
      DaySlotsStep(p, sharedMailbox, staffEmail, dayPatterns, i, currentDate, serviceDuration, now, slots, kept);
      slots := slots + kept;
      i := i + 1;
    }
    assert dayPatterns[..i] == dayPatterns;
  }

  /** One more pattern of the day: its slots follow those of the patterns before it. */
  lemma DaySlotsStep(p: Provider, sharedMailbox: string, staffEmail: string, patterns: seq<RecurringMeeting>,
                     i: nat, day: int, duration: int, now: int, before: seq<AvailableSlot>, kept: seq<AvailableSlot>)
    requires i < |patterns|
    requires before == DaySlots(p, sharedMailbox, staffEmail, patterns[..i], day, duration, now)
    requires kept == KeptPatternSlots(p, sharedMailbox, staffEmail,
                                      WindowSlots(day + patterns[i].startTime, day + patterns[i].endTime, duration),
                                      patterns[i], now)
    ensures before + kept == DaySlots(p, sharedMailbox, staffEmail, patterns[..i + 1], day, duration, now)
  {
    assert patterns[..i + 1][..i] == patterns[..i];
  }

  /** The slot loop of one pattern in `getRecurringAvailableSlots`. */
  method KeepPatternSlots(p: Provider, sharedMailbox: string, staffEmail: string, bookingSlots: seq<AvailableSlot>,
                          pattern: RecurringMeeting, now: int)
    returns (kept: seq<AvailableSlot>)
    ensures kept == KeptPatternSlots(p, sharedMailbox, staffEmail, bookingSlots, pattern, now)
  {
    kept := [];
    var j := 0;
    while j < |bookingSlots|
      invariant 0 <= j <= |bookingSlots|
      invariant kept == KeptPatternSlots(p, sharedMailbox, staffEmail, bookingSlots[..j], pattern, now)
    {
      var slot := bookingSlots[j];
      assert bookingSlots[..j + 1][..j] == bookingSlots[..j];
      var sharedAvailable := IsTimeSlotAvailable(p, sharedMailbox, slot.start, slot.end);
      var staffAvailable := IsTimeSlotAvailable(p, staffEmail, slot.start, slot.end);
      if sharedAvailable && staffAvailable && slot.start >= now {
        kept := kept + [slot.(isRecurring := true, recurringId := pattern.seriesMasterId)];
      }
      j := j + 1;
    }
    assert bookingSlots[..j] == bookingSlots;
  }

  /** The slot comes from pattern `m` on the day starting at `day`. */
  predicate FromPattern(s: AvailableSlot, m: RecurringMeeting, day: int, duration: int)
  {
    day + m.startTime <= s.start && s.end <= day + m.endTime
    && s.end == s.start + duration && s.duration == duration
    && (s.start - (day + m.startTime)) % SlotInterval == 0
    && s.isRecurring && s.recurringId == m.seriesMasterId
  }

  /** What the kept slots of one pattern on one day satisfy. */
  lemma {:induction false} KeptPatternSlotsSound(p: Provider, sharedMailbox: string, staffEmail: string,
                                                 slots: seq<AvailableSlot>, m: RecurringMeeting, day: int,
                                                 duration: int, now: int)
    requires forall s :: s in slots ==> day + m.startTime <= s.start && s.end <= day + m.endTime
                                        && s.end == s.start + duration && s.duration == duration
                                        && (s.start - (day + m.startTime)) % SlotInterval == 0
    ensures forall s :: s in KeptPatternSlots(p, sharedMailbox, staffEmail, slots, m, now) ==>
      FreeInBoth(p, sharedMailbox, staffEmail, s) && s.start >= now && FromPattern(s, m, day, duration)
    decreases |slots|
  {
    if |slots| > 0 {
      var init := slots[..|slots| - 1];
      assert forall s :: s in init ==> s in slots;
      KeptPatternSlotsSound(p, sharedMailbox, staffEmail, init, m, day, duration, now);
    }
  }

  /** Every slot of a day comes from one of that day's patterns. */
  lemma {:induction false} DaySlotsSound(p: Provider, sharedMailbox: string, staffEmail: string,
                                         patterns: seq<RecurringMeeting>, day: int, duration: int, now: int)
    ensures forall s :: s in DaySlots(p, sharedMailbox, staffEmail, patterns, day, duration, now) ==>
      FreeInBoth(p, sharedMailbox, staffEmail, s) && s.start >= now
      && exists m :: m in patterns && FromPattern(s, m, day, duration)
    decreases |patterns|
  {
    if |patterns| > 0 {
      var init := patterns[..|patterns| - 1];
      var m := patterns[|patterns| - 1];
      DaySlotsSound(p, sharedMailbox, staffEmail, init, day, duration, now);
      var window := WindowSlots(day + m.startTime, day + m.endTime, duration);
      WindowSlotsShape(day + m.startTime, day + m.endTime, duration);
      KeptPatternSlotsSound(p, sharedMailbox, staffEmail, window, m, day, duration, now);
      forall s | s in DaySlots(p, sharedMailbox, staffEmail, patterns, day, duration, now)
        ensures FreeInBoth(p, sharedMailbox, staffEmail, s) && s.start >= now
                && exists m' :: m' in patterns && FromPattern(s, m', day, duration)
      {
        if s in DaySlots(p, sharedMailbox, staffEmail, init, day, duration, now) {
          var m' :| m' in init && FromPattern(s, m', day, duration);
          assert m' in patterns;
        } else {
          assert s in KeptPatternSlots(p, sharedMailbox, staffEmail, window, m, now);
        }
      }
    }
  }

  /** A local midnight in `[from, endDate]` whose weekday `m` recurs on. */
  predicate PatternDay(m: RecurringMeeting, day: int, from: int, endDate: int)
  {
    day % MinutesPerDay == 0 && from <= day <= endDate && Weekday(day) in m.daysOfWeek
  }

  /** Every slot of the days from `cur` on comes from a pattern recurring on one of those days. */
  lemma {:induction false} RecurringFromSound(p: Provider, sharedMailbox: string, staffEmail: string,
                                              patterns: seq<RecurringMeeting>, cur: int, endDate: int,
                                              duration: int, now: int)
    requires cur % MinutesPerDay == 0
    ensures forall s :: s in RecurringFrom(p, sharedMailbox, staffEmail, patterns, cur, endDate, duration, now) ==>
      FreeInBoth(p, sharedMailbox, staffEmail, s) && s.start >= now
      && exists m, day :: m in patterns && PatternDay(m, day, cur, endDate) && FromPattern(s, m, day, duration)
    decreases endDate - cur
  {
    if cur <= endDate {
      var today := DayPatterns(patterns, Weekday(cur));
      DaySlotsSound(p, sharedMailbox, staffEmail, today, cur, duration, now);
      RecurringFromSound(p, sharedMailbox, staffEmail, patterns, cur + MinutesPerDay, endDate, duration, now);
      forall s | s in RecurringFrom(p, sharedMailbox, staffEmail, patterns, cur, endDate, duration, now)
        ensures FreeInBoth(p, sharedMailbox, staffEmail, s) && s.start >= now
                && exists m, day :: m in patterns && PatternDay(m, day, cur, endDate) && FromPattern(s, m, day, duration)
      {
        if s in DaySlots(p, sharedMailbox, staffEmail, today, cur, duration, now) {
          var m :| m in today && FromPattern(s, m, cur, duration);
          assert PatternDay(m, cur, cur, endDate);
        } else {
          assert s in RecurringFrom(p, sharedMailbox, staffEmail, patterns, cur + MinutesPerDay, endDate, duration, now);
          var m, day :| m in patterns && PatternDay(m, day, cur + MinutesPerDay, endDate) && FromPattern(s, m, day, duration);
          assert PatternDay(m, day, cur, endDate);
        }
      }
    }
  }

  /**
   * The properties of `getRecurringAvailableSlots`: sorted by start, and
   * every slot is free in both calendars, not in the past, and lies on the
   * grid of a pattern recurring on a day from local midnight of `startDate`
   * through `endDate`.
   */
  lemma RecurringSlotsProperties(p: Provider, sharedMailbox: string, staffEmail: string, patterns: seq<RecurringMeeting>,
                                 startDate: int, endDate: int, duration: int, now: int)
    ensures var r := RecurringSlots(p, sharedMailbox, staffEmail, patterns, startDate, endDate, duration, now);
      && SortedBy(r, SlotStart)
      && forall s :: s in r ==>
           && FreeInBoth(p, sharedMailbox, staffEmail, s) && s.start >= now
           && exists m, day :: m in patterns && PatternDay(m, day, DayStart(startDate), endDate)
                               && FromPattern(s, m, day, duration)
  {
    var all := RecurringFrom(p, sharedMailbox, staffEmail, patterns, DayStart(startDate), endDate, duration, now);
    RecurringFromSound(p, sharedMailbox, staffEmail, patterns, DayStart(startDate), endDate, duration, now);
    SameElements(SortBy(all, SlotStart), all);
  }

  /** The outcome of `checkSlotAvailability`. */
  datatype SlotCheck = SlotCheck(available: bool, reason: Option<string>)

  const SharedBusyReason: string := "Time slot is not " + "available in the shared calendar"
  const StaffBusyReason: string := "Staff member is not available at this time"

  /**
   * `checkSlotAvailability`: the shared mailbox is checked first and its
   * reason wins; the staff calendar decides only when the shared one is free.
   */
  function CheckSlotAvailability(p: Provider, sharedMailbox: string, staffEmail: string,
                                 startTime: int, endTime: int): (c: SlotCheck)
    ensures c.available <==> IsTimeSlotAvailable(p, sharedMailbox, startTime, endTime)
                             && IsTimeSlotAvailable(p, staffEmail, startTime, endTime)
    ensures !c.available <==> c.reason.Some?
    ensures !IsTimeSlotAvailable(p, sharedMailbox, startTime, endTime) ==> c.reason == Some(SharedBusyReason)
    ensures (IsTimeSlotAvailable(p, sharedMailbox, startTime, endTime)
             && !IsTimeSlotAvailable(p, staffEmail, startTime, endTime)) ==> c.reason == Some(StaffBusyReason)
  {
    if !IsTimeSlotAvailable(p, sharedMailbox, startTime, endTime) then SlotCheck(false, Some(SharedBusyReason))
    else if !IsTimeSlotAvailable(p, staffEmail, startTime, endTime) then SlotCheck(false, Some(StaffBusyReason))
    else SlotCheck(true, None)
  }

  /** In a list sorted by start, the first slot starts no later than any other. */
  lemma SortedFirstIsEarliest(slots: seq<AvailableSlot>)
    requires SortedBy(slots, SlotStart) && |slots| > 0
    ensures forall s :: s in slots ==> slots[0].start <= s.start
  {
    forall s | s in slots ensures slots[0].start <= s.start {
      var k :| 0 <= k < |slots| && slots[k] == s;
      if k > 0 { assert SlotStart(slots[0]) <= SlotStart(slots[k]); }
    }
  }

  /** The first slot of a list, if any. */
  function FirstSlot(slots: seq<AvailableSlot>): Option<AvailableSlot>
  {
    if |slots| > 0 then Some(slots[0]) else None
  }

  /**
   * The first slot `getAvailableSlots` offers is the earliest one, and there
   * is none only when no slot is offered.
   */
  lemma FirstAvailableIsEarliest(p: Provider, sharedMailbox: string, staffEmail: string, events: seq<Event>,
                                 duration: int, pattern: string, now: int)
    ensures var slots := AvailableSlots(p, sharedMailbox, staffEmail, events, duration, pattern, now);
      && (FirstSlot(slots).None? <==> slots == [])
      && (FirstSlot(slots).Some? ==>
            FirstSlot(slots).value in slots
            && forall s :: s in slots ==> FirstSlot(slots).value.start <= s.start)
  {
    var slots := AvailableSlots(p, sharedMailbox, staffEmail, events, duration, pattern, now);
    if |slots| > 0 {
      AvailableSlotsSorted(p, sharedMailbox, staffEmail, events, duration, pattern, now);
      SortedFirstIsEarliest(slots);
    }
  }

  /** `getNextAvailableSlot`: the first slot of the next `maxDaysAhead` days, or none. */
  method GetNextAvailableSlot(p: Provider, sharedMailbox: string, staffEmail: string, serviceDuration: int,
                              maxDaysAhead: int, now: int)
    returns (r: Result<Option<AvailableSlot>>)
    ensures CalendarPage(p, sharedMailbox, now, now + maxDaysAhead * MinutesPerDay).None? ==> r.Err?
    ensures CalendarPage(p, sharedMailbox, now, now + maxDaysAhead * MinutesPerDay).Some? ==>
      r == Ok(FirstSlot(AvailableSlots(p, sharedMailbox, staffEmail,
                                       CalendarPage(p, sharedMailbox, now, now + maxDaysAhead * MinutesPerDay).value,
                                       serviceDuration, "Available", now)))
  {
    var endDate := now + maxDaysAhead * MinutesPerDay;
    ghost var page := CalendarPage(p, sharedMailbox, now, endDate);
    var slots := GetAvailableSlots(p, sharedMailbox, staffEmail, now, endDate, serviceDuration, "Available", now);
    if slots.Err? {
      assert page.None?;
      r := Err(slots.message);
    } else {
      assert page.Some?;
      ghost var all := AvailableSlots(p, sharedMailbox, staffEmail, page.value, serviceDuration, "Available", now);
      assert slots.value == all;
      r := Ok(FirstSlot(slots.value));
    }
  }

  /** The slots of `slots` on the local day starting at `day`, in order. */
  function SlotsOn(slots: seq<AvailableSlot>, day: int): (r: seq<AvailableSlot>)
    ensures forall s :: s in r <==> s in slots && DayStart(s.start) == day
    decreases |slots|
  {
    if |slots| == 0 then []
    else
      var init := slots[..|slots| - 1];
      var last := slots[|slots| - 1];
      assert slots == init + [last];
      if DayStart(last.start) == day then SlotsOn(init, day) + [last] else SlotsOn(init, day)
  }

  /** A day without slots has an empty group. */
  lemma {:induction false} SlotsOnEmpty(slots: seq<AvailableSlot>, day: int)
    requires forall s :: s in slots ==> DayStart(s.start) != day
    ensures SlotsOn(slots, day) == []
    decreases |slots|
  {
    if |slots| > 0 {
      assert slots[|slots| - 1] in slots;
      SlotsOnEmpty(slots[..|slots| - 1], day);
    }
  }

  /** Extending the slots by one extends only the group of its day. */
  lemma SlotsOnSnoc(slots: seq<AvailableSlot>, x: AvailableSlot, day: int)
    ensures SlotsOn(slots + [x], day) == SlotsOn(slots, day) + (if DayStart(x.start) == day then [x] else [])
  {
    assert (slots + [x])[..|slots|] == slots;
  }

  /** The days of the slots without repetition, in order of first appearance. */
  function DaysOf(slots: seq<AvailableSlot>): (r: seq<int>)
    ensures forall d :: d in r <==> exists s :: s in slots && DayStart(s.start) == d
    ensures forall i, j :: 0 <= i < j < |r| ==> r[i] != r[j]
    decreases |slots|
  {
    if |slots| == 0 then []
    else
      var init := slots[..|slots| - 1];
      var last := slots[|slots| - 1];
      assert slots == init + [last];
      var d := DayStart(last.start);
      if d in DaysOf(init) then DaysOf(init) else DaysOf(init) + [d]
  }

  /**
   * The result of `getAvailabilitySummary`. The map from 'yyyy-MM-dd' keys
   * is keyed by local midnight; `dates` is the insertion order of its keys.
   */
  datatype Summary = Summary(
    totalSlots: int,
    availableByDate: map<int, seq<AvailableSlot>>,
    dates: seq<int>,
    nextAvailable: Option<AvailableSlot>)

  /** The summary loop over a list of slots. */
  method Summarize(slots: seq<AvailableSlot>) returns (summary: Summary)
    ensures summary.totalSlots == |slots|
    ensures summary.nextAvailable == if |slots| > 0 then Some(slots[0]) else None
    ensures summary.dates == DaysOf(slots)
    ensures forall d :: d in summary.availableByDate <==> d in DaysOf(slots)
    ensures forall d :: d in summary.availableByDate ==> summary.availableByDate[d] == SlotsOn(slots, d)
  {
    var byDate: map<int, seq<AvailableSlot>> := map[];
    var dates: seq<int> := [];
    var i := 0;
    while i < |slots|
      invariant 0 <= i <= |slots|
      invariant dates == DaysOf(slots[..i])
      invariant forall d :: d in byDate <==> d in DaysOf(slots[..i])
      invariant forall d :: d in byDate ==> byDate[d] == SlotsOn(slots[..i], d)
    {
      var slot := slots[i];
      assert slots[..i + 1] == slots[..i] + [slot];
      byDate, dates := GroupSlot(byDate, dates, slots[..i], slot);
      i := i + 1;
    }
    assert slots[..i] == slots;
    summary := Summary(|slots|, byDate, dates, if |slots| > 0 then Some(slots[0]) else None);
  }

  /** One step of the summary loop: `slot` joins the group of its day, which is opened when new. */
  method GroupSlot(byDate: map<int, seq<AvailableSlot>>, dates: seq<int>, prefix: seq<AvailableSlot>, slot: AvailableSlot)
    returns (byDate': map<int, seq<AvailableSlot>>, dates': seq<int>)
    requires dates == DaysOf(prefix)
    requires forall d :: d in byDate <==> d in DaysOf(prefix)
    requires forall d :: d in byDate ==> byDate[d] == SlotsOn(prefix, d)
    ensures dates' == DaysOf(prefix + [slot])
    ensures forall d :: d in byDate' <==> d in DaysOf(prefix + [slot])
    ensures forall d :: d in byDate' ==> byDate'[d] == SlotsOn(prefix + [slot], d)
  {
    var key := DayStart(slot.start);
    DaysOfSnoc(prefix, slot);
    forall d ensures SlotsOn(prefix + [slot], d) == SlotsOn(prefix, d) + (if key == d then [slot] else []) {
      SlotsOnSnoc(prefix, slot, d);
    }
    byDate', dates' := byDate, dates;
    if key !in byDate' {
      SlotsOnEmpty(prefix, key);
      byDate' := byDate'[key := []];
      dates' := dates' + [key];
    }
    byDate' := byDate'[key := byDate'[key] + [slot]];
  }

  /** The days of one more slot: its day is added when it is new. */
  lemma DaysOfSnoc(prefix: seq<AvailableSlot>, slot: AvailableSlot)
    ensures DaysOf(prefix + [slot]) == if DayStart(slot.start) in DaysOf(prefix) then DaysOf(prefix)
                                       else DaysOf(prefix) + [DayStart(slot.start)]
  {
    assert (prefix + [slot])[..|prefix|] == prefix;
  }

  /**
   * The per-day groups partition the slots: every slot is in the group of its
   * own day, and a group holds only slots of that day, in their original order.
   */
  lemma SummaryPartitions(slots: seq<AvailableSlot>)
    ensures forall s :: s in slots ==> DayStart(s.start) in DaysOf(slots) && s in SlotsOn(slots, DayStart(s.start))
    ensures forall d, s :: d in DaysOf(slots) && s in SlotsOn(slots, d) ==> s in slots && DayStart(s.start) == d
  {
  }

  /** `getAvailabilitySummary`. */
  method GetAvailabilitySummary(p: Provider, sharedMailbox: string, staffEmail: string, startDate: int, endDate: int,
                                serviceDuration: int, now: int)
    returns (r: Result<Summary>)
    ensures CalendarPage(p, sharedMailbox, startDate, endDate).None? ==> r.Err?
    ensures CalendarPage(p, sharedMailbox, startDate, endDate).Some? ==>
      var slots := AvailableSlots(p, sharedMailbox, staffEmail, CalendarPage(p, sharedMailbox, startDate, endDate).value,
                                  serviceDuration, "Available", now);
      && r.Ok?
      && r.value.totalSlots == |slots|
      && (r.value.nextAvailable.None? <==> |slots| == 0)
      && (r.value.nextAvailable.Some? ==> r.value.nextAvailable.value == slots[0])
      && r.value.dates == DaysOf(slots)
      && (forall d :: d in r.value.availableByDate <==> d in DaysOf(slots))
      && (forall d :: d in r.value.availableByDate ==> r.value.availableByDate[d] == SlotsOn(slots, d))
  {
    var slots := GetAvailableSlots(p, sharedMailbox, staffEmail, startDate, endDate, serviceDuration, "Available", now);
    if slots.Err? {
      return Err(slots.message);
    }
    var summary := Summarize(slots.value);
    return Ok(summary);
  }
}
