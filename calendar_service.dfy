/**
 * The calendar service of the Next.js app: the free/busy test of one
 * calendar, extraction of recurring "available" patterns from a shared
 * mailbox, and the ordered writes that create and cancel a booking's pair
 * of calendar events.
 */
module CalendarService {
  import opened Common
  import opened JsString
  import opened Clock
  import opened Provider

  /**
   * A recurring availability pattern. `startTime` and `endTime` are the
   * `HH:mm` local times of the source event, kept as minutes since midnight.
   */
  datatype RecurringMeeting = RecurringMeeting(
    id: string,
    subject: string,
    startTime: int,
    endTime: int,
    daysOfWeek: seq<string>,
    duration: int,
    seriesMasterId: Option<string>)

  /** No event of the list is anything other than `free`. */
  predicate AllFree(events: seq<Event>)
  {
    forall e :: e in events ==> e.showAs == Free
  }

  /** The page size of the calendar-view query of `getCalendarEvents`. */
  const EventPageSize: nat := 200

  /**
   * The events a calendar-view request of `getCalendarEvents` returns: the
   * first 200 events of the view over `[s, t)`, in the provider's order;
   * `None` when the request fails.
   */
  function CalendarPage(p: Provider, cal: string, s: int, t: int): (r: Option<seq<Event>>)
    ensures r.Some? <==> cal in p.calendars
  {
    match View(p, cal, s, t)
    case None => None
    case Some(events) => Some(Take(events, EventPageSize))
  }

  /**
   * The page holds the first `min(n, 200)` of the `n` events of the view, so
   * only events of the calendar that meet the range; a view of at most 200
   * events is read whole.
   */
  lemma CalendarPageProperties(p: Provider, cal: string, s: int, t: int)
    requires cal in p.calendars
    ensures var page := CalendarPage(p, cal, s, t).value;
      var view := View(p, cal, s, t).value;
      && |page| == (if |view| <= EventPageSize then |view| else EventPageSize)
      && (forall k :: 0 <= k < |page| ==> page[k] == view[k])
      && (forall e :: e in page ==> e in p.calendars[cal] && Overlaps(e, s, t))
      && (|view| <= EventPageSize ==> page == view)
  {
  }

  /**
   * `isTimeSlotAvailable`: free iff the calendar can be read and no event of
   * the page it reads is anything but `free`; a failed read counts as not
   * free.
   */
  function IsTimeSlotAvailable(p: Provider, cal: string, s: int, t: int): bool
  {
    match CalendarPage(p, cal, s, t)
    case None => false
    case Some(events) => AllFree(events)
  }

  /**
   * A range is reported free iff the calendar can be read and none of the
   * first 200 events of its view is anything but `free`. So a range free
   * over the whole view is reported free, and, when the view fits in one
   * page, a range reported free has no event that is not `free`.
   */
  lemma TimeSlotAvailability(p: Provider, cal: string, s: int, t: int)
    ensures IsTimeSlotAvailable(p, cal, s, t) <==>
      cal in p.calendars
      && forall k :: 0 <= k < |View(p, cal, s, t).value| && k < EventPageSize ==>
           View(p, cal, s, t).value[k].showAs == Free
    ensures cal in p.calendars && (forall e :: e in p.calendars[cal] && Overlaps(e, s, t) ==> e.showAs == Free) ==>
      IsTimeSlotAvailable(p, cal, s, t)
    ensures IsTimeSlotAvailable(p, cal, s, t) && |View(p, cal, s, t).value| <= EventPageSize ==>
      forall e :: e in p.calendars[cal] && Overlaps(e, s, t) ==> e.showAs == Free
  {
    if cal in p.calendars {
      CalendarPageProperties(p, cal, s, t);
      var view := View(p, cal, s, t).value;
      var page := CalendarPage(p, cal, s, t).value;
      assert forall k :: 0 <= k < |view| && k < EventPageSize ==> view[k] == page[k];
      assert forall e :: e in page <==> exists k :: 0 <= k < |page| && page[k] == e;
    }
  }

  /** An empty range of events (nothing overlaps) is free when the calendar is readable. */
  lemma AvailableWhenNothingOverlaps(p: Provider, cal: string, s: int, t: int)
    requires cal in p.calendars
    requires forall e :: e in p.calendars[cal] ==> !Overlaps(e, s, t)
    ensures IsTimeSlotAvailable(p, cal, s, t)
  {
    TimeSlotAvailability(p, cal, s, t);
  }

  /** The weekday names of a daily pattern, in the order the source lists them. */
  const AllWeekdays: seq<string> :=
    ["monday", "tuesday", "wednesday", "thursday", "friday", "saturday", "sunday"]

  /** `extractDaysOfWeek`. */
  function ExtractDaysOfWeek(recurrence: Option<Recurrence>): (days: seq<string>)
  {
    if recurrence.None? || recurrence.value.pattern.None? then []
    else
      var pattern := recurrence.value.pattern.value;
      if pattern.kind == "weekly" && pattern.daysOfWeek.Some? then
        var given := pattern.daysOfWeek.value;
        seq(|given|, i requires 0 <= i < |given| => Lower(given[i]))
      else if pattern.kind == "daily" then AllWeekdays
      else []
  }

  /**
   * The three cases of `extractDaysOfWeek`: a weekly pattern gives its days
   * lower-cased in order, a daily pattern every day, and anything else none.
   */
  lemma ExtractDaysOfWeekCases(recurrence: Option<Recurrence>)
    ensures var days := ExtractDaysOfWeek(recurrence);
      if recurrence.Some? && recurrence.value.pattern.Some?
         && recurrence.value.pattern.value.kind == "weekly"
         && recurrence.value.pattern.value.daysOfWeek.Some?
      then
        var given := recurrence.value.pattern.value.daysOfWeek.value;
        |days| == |given| && forall i :: 0 <= i < |given| ==> days[i] == Lower(given[i])
      else if recurrence.Some? && recurrence.value.pattern.Some?
              && recurrence.value.pattern.value.kind == "daily"
      then days == AllWeekdays
      else days == []
  {
  }

  /** A daily pattern matches the weekday of every instant. */
  lemma DailyPatternCoversEveryDay(t: int)
    ensures Weekday(t) in ExtractDaysOfWeek(Some(Recurrence(Some(RecurrencePattern("daily", None)))))
  {
    var w := WeekdayIndex(t);
    assert DayNames[w] == AllWeekdays[(w + 6) % 7];
  }

  /** Every extracted day name is already lower-case. */
  lemma ExtractedDaysAreLowerCase(recurrence: Option<Recurrence>)
    ensures forall d :: d in ExtractDaysOfWeek(recurrence) ==> Lower(d) == d
  {
    var days := ExtractDaysOfWeek(recurrence);
    forall d | d in days ensures Lower(d) == d {
      var i :| 0 <= i < |days| && days[i] == d;
      if recurrence.Some? && recurrence.value.pattern.Some?
         && recurrence.value.pattern.value.kind == "weekly"
         && recurrence.value.pattern.value.daysOfWeek.Some?
      {
        LowerIdempotent(recurrence.value.pattern.value.daysOfWeek.value[i]);
      }
    }
  }

  /** The event can supply an availability pattern for `slotPattern`. */
  predicate Qualifies(e: Event, slotPattern: string)
  {
    e.subject.Some? && Contains(e.subject.value, slotPattern) && e.showAs != Busy
  }

  predicate IsMaster(e: Event) { e.eventType == Some(SeriesMaster) }

  predicate IsOccurrence(e: Event) { e.eventType == Some(Occurrence) }

  /** A named series master or occurrence: the kind of event a pattern is read off. */
  predicate Contributes(e: Event) { e.subject.Some? && (IsMaster(e) || IsOccurrence(e)) }

  /**
   * `p` is the part of `id` before its first '_' (the whole id when it has
   * none): what `id.split('_')[0]` returns.
   */
  predicate IsIdPrefix(p: string, id: string)
  {
    |p| <= |id| && id[..|p|] == p && '_' !in p && (|p| < |id| ==> id[|p|] == '_')
  }

  /** The first piece of a split is the prefix before the first separator. */
  lemma FirstPieceIsPrefix(id: string)
    ensures IsIdPrefix(Split(id, '_')[0], id)
  {
  }

  /** The pattern an event of the series contributes. */
  function MeetingOf(e: Event): (m: RecurringMeeting)
    requires Contributes(e)
    ensures m.id == e.id && m.subject == e.subject.value
    ensures m.duration == e.end - e.start
    ensures 0 <= m.startTime < MinutesPerDay && e.start == DayStart(e.start) + m.startTime
    ensures 0 <= m.endTime < MinutesPerDay && e.end == DayStart(e.end) + m.endTime
    ensures IsMaster(e) ==> m.daysOfWeek == ExtractDaysOfWeek(e.recurrence) && m.seriesMasterId == Some(e.id)
    ensures IsOccurrence(e) ==>
      m.daysOfWeek == [Weekday(e.start)]
      && m.seriesMasterId.Some? && IsIdPrefix(m.seriesMasterId.value, e.id)
  {
    FirstPieceIsPrefix(e.id);
    var days := if IsMaster(e) then ExtractDaysOfWeek(e.recurrence) else [Weekday(e.start)];
    var master := if IsMaster(e) then e.id else Split(e.id, '_')[0];
    RecurringMeeting(e.id, e.subject.value, MinuteOfDay(e.start), MinuteOfDay(e.end),
                     days, e.end - e.start, Some(master))
  }

  /**
   * The events that contribute a pattern, in order, when the series-master
   * ids in `seen` have already been taken.
   */
  function PatternSources(events: seq<Event>, slotPattern: string, seen: set<string>): seq<Event>
    decreases |events|
  {
    if |events| == 0 then []
    else
      var e := events[0];
      if Qualifies(e, slotPattern) && IsMaster(e) && e.id !in seen then
        [e] + PatternSources(events[1..], slotPattern, seen + {e.id})
      else if Qualifies(e, slotPattern) && IsOccurrence(e) then
        [e] + PatternSources(events[1..], slotPattern, seen)
      else PatternSources(events[1..], slotPattern, seen)
  }

  /** The patterns of a list of contributing events. */
  function MeetingsOf(sources: seq<Event>): (r: seq<RecurringMeeting>)
    requires forall e :: e in sources ==> Contributes(e)
    ensures |r| == |sources|
    ensures forall i :: 0 <= i < |sources| ==> r[i] == MeetingOf(sources[i])
  {
    seq(|sources|, i requires 0 <= i < |sources| => MeetingOf(sources[i]))
  }

  /**
   * Only qualifying series masters and occurrences contribute:
   * single instances and exceptions never do.
   */
  lemma {:induction false} SourcesQualify(events: seq<Event>, slotPattern: string, seen: set<string>)
    ensures forall e :: e in PatternSources(events, slotPattern, seen) ==>
      e in events && Qualifies(e, slotPattern) && (IsMaster(e) || IsOccurrence(e))
    decreases |events|
  {
    if |events| > 0 {
      var e := events[0];
      SourcesQualify(events[1..], slotPattern, seen + {e.id});
      SourcesQualify(events[1..], slotPattern, seen);
    }
  }

  /** No series master of `src` has an id in `seen`. */
  predicate MasterIdsFresh(src: seq<Event>, seen: set<string>)
  {
    forall i :: 0 <= i < |src| && IsMaster(src[i]) ==> src[i].id !in seen
  }

  /** No two series masters of `src` share an id. */
  predicate MasterIdsDistinct(src: seq<Event>)
  {
    forall i, j :: 0 <= i < j < |src| && IsMaster(src[i]) && IsMaster(src[j]) ==> src[i].id != src[j].id
  }

  /** Each series-master id contributes at most once, and never one already seen. */
  lemma {:induction false} MastersDistinct(events: seq<Event>, slotPattern: string, seen: set<string>)
    ensures MasterIdsFresh(PatternSources(events, slotPattern, seen), seen)
    ensures MasterIdsDistinct(PatternSources(events, slotPattern, seen))
    decreases |events|
  {
    if |events| > 0 {
      var e := events[0];
      var src := PatternSources(events, slotPattern, seen);
      if Qualifies(e, slotPattern) && IsMaster(e) && e.id !in seen {
        var tail := PatternSources(events[1..], slotPattern, seen + {e.id});
        MastersDistinct(events[1..], slotPattern, seen + {e.id});
        assert src == [e] + tail;
        forall i, j | 0 <= i < j < |src| && IsMaster(src[i]) && IsMaster(src[j])
          ensures src[i].id != src[j].id
        {
          assert src[j] == tail[j - 1];
          if i > 0 { assert src[i] == tail[i - 1]; }
        }
        forall i | 0 <= i < |src| && IsMaster(src[i]) ensures src[i].id !in seen {
          if i > 0 { assert src[i] == tail[i - 1]; }
        }
      } else {
        var tail := PatternSources(events[1..], slotPattern, seen);
        MastersDistinct(events[1..], slotPattern, seen);
        if Qualifies(e, slotPattern) && IsOccurrence(e) {
          assert src == [e] + tail;
          forall i, j | 0 <= i < j < |src| && IsMaster(src[i]) && IsMaster(src[j])
            ensures src[i].id != src[j].id
          {
            assert src[i] == tail[i - 1] && src[j] == tail[j - 1];
          }
          forall i | 0 <= i < |src| && IsMaster(src[i]) ensures src[i].id !in seen {
            assert src[i] == tail[i - 1];
          }
        }
      }
    }
  }

  /**
   * Nothing qualifying is lost: every qualifying occurrence contributes, and
   * every qualifying series master not yet seen has a contributing master with its id.
   */
  lemma {:induction false} SourcesComplete(events: seq<Event>, slotPattern: string, seen: set<string>, e: Event)
    requires e in events && Qualifies(e, slotPattern)
    ensures IsOccurrence(e) ==> e in PatternSources(events, slotPattern, seen)
    ensures IsMaster(e) && e.id !in seen ==>
      exists f :: f in PatternSources(events, slotPattern, seen) && IsMaster(f) && f.id == e.id
    decreases |events|
  {
    var h := events[0];
    var src := PatternSources(events, slotPattern, seen);
    if Qualifies(h, slotPattern) && IsMaster(h) && h.id !in seen {
      assert src[0] == h;
      if h != e {
        assert e in events[1..];
        SourcesComplete(events[1..], slotPattern, seen + {h.id}, e);
      }
    } else if Qualifies(h, slotPattern) && IsOccurrence(h) {
      assert src[0] == h;
      if h != e {
        assert e in events[1..];
        SourcesComplete(events[1..], slotPattern, seen, e);
      }
    } else if h != e {
      assert e in events[1..];
      SourcesComplete(events[1..], slotPattern, seen, e);
    }
  }

  /** One step of the walk over the events. */
  lemma SourcesStep(events: seq<Event>, i: int, slotPattern: string, seen: set<string>)
    requires 0 <= i < |events|
    ensures var e := events[i];
      PatternSources(events[i..], slotPattern, seen) ==
        if Qualifies(e, slotPattern) && IsMaster(e) && e.id !in seen then
          [e] + PatternSources(events[i + 1..], slotPattern, seen + {e.id})
        else if Qualifies(e, slotPattern) && IsOccurrence(e) then
          [e] + PatternSources(events[i + 1..], slotPattern, seen)
        else PatternSources(events[i + 1..], slotPattern, seen)
  {
    assert events[i..][1..] == events[i + 1..];
  }

  /** The patterns a list of events yields for `slotPattern`. */
  function RecurringPatterns(events: seq<Event>, slotPattern: string): seq<RecurringMeeting>
  {
    SourcesQualify(events, slotPattern, {});
    MeetingsOf(PatternSources(events, slotPattern, {}))
  }

  /**
   * `getRecurringAvailableSlots` of the calendar service: reads the view of
   * the shared mailbox (a failed read is rethrown), then walks the events
   * once, remembering which series masters it has taken.
   */
  method GetRecurringAvailableSlots(p: Provider, mailbox: string, startDate: int, endDate: int, slotPattern: string)
    returns (r: Result<seq<RecurringMeeting>>)
    ensures CalendarPage(p, mailbox, startDate, endDate).None? ==> r.Err?
    ensures CalendarPage(p, mailbox, startDate, endDate).Some? ==>
      r == Ok(RecurringPatterns(CalendarPage(p, mailbox, startDate, endDate).value, slotPattern))
  {
    var view := CalendarPage(p, mailbox, startDate, endDate);
    if view.None? {
      return Err("calendar view failed");
    }
    var available := CollectPatterns(view.value, slotPattern);
    return Ok(available);
  }

  /** The event loop of `getRecurringAvailableSlots`. */
  method CollectPatterns(events: seq<Event>, slotPattern: string) returns (available: seq<RecurringMeeting>)
    ensures available == RecurringPatterns(events, slotPattern)
  {
    SourcesQualify(events, slotPattern, {});
    available := [];
    var processedMasters: set<string> := {};
    ghost var taken: seq<Event> := [];
    var i := 0;
    while i < |events|
      invariant 0 <= i <= |events|
      invariant taken + PatternSources(events[i..], slotPattern, processedMasters) == PatternSources(events, slotPattern, {})
      invariant forall e :: e in taken ==> Contributes(e)
      invariant available == MeetingsOf(taken)
    {
      var event := events[i];
      SourcesStep(events, i, slotPattern, processedMasters);
      ghost var rest := PatternSources(events[i + 1..], slotPattern, processedMasters);
      if event.subject.Some? && Contains(event.subject.value, slotPattern) && event.showAs != Busy {
        assert Qualifies(event, slotPattern);
        if event.eventType == Some(SeriesMaster) {
          if event.id !in processedMasters {
            ConcatAssoc(taken, [event], PatternSources(events[i + 1..], slotPattern, processedMasters + {event.id}));
            processedMasters := processedMasters + {event.id};
            MeetingsSnoc(taken, event);
            available := available + [MeetingOf(event)];
            taken := taken + [event];
          }
        } else if event.eventType == Some(Occurrence) {
          ConcatAssoc(taken, [event], rest);
          MeetingsSnoc(taken, event);
          available := available + [MeetingOf(event)];
          taken := taken + [event];
        }
      } else {
        assert !Qualifies(event, slotPattern);
      }
      i := i + 1;
    }
    assert events[i..] == [];
    assert taken == PatternSources(events, slotPattern, {});
  }

  /** One more contributing event adds its pattern at the end. */
  lemma MeetingsSnoc(sources: seq<Event>, e: Event)
    requires forall x :: x in sources ==> Contributes(x)
    requires Contributes(e)
    ensures MeetingsOf(sources + [e]) == MeetingsOf(sources) + [MeetingOf(e)]
  {
    assert forall x :: x in sources + [e] ==> x in sources || x == e;
  }

  /**
   * `getCalendarEvents`: the page of at most 200 events of the calendar
   * view, selecting only id, subject, start, end, showAs, attendees, type and
   * recurrence (besides fields the model does not carry), so the events come
   * back without a location.
   */
  function GetCalendarEvents(p: Provider, mailbox: string, startDate: int, endDate: int): (r: Option<seq<Event>>)
    ensures r.Some? <==> mailbox in p.calendars
    ensures r.Some? ==> |r.value| == |CalendarPage(p, mailbox, startDate, endDate).value|
    ensures r.Some? ==> forall k :: 0 <= k < |r.value| ==>
      r.value[k].location.None? && r.value[k] == CalendarPage(p, mailbox, startDate, endDate).value[k].(location := None)
  {
    match CalendarPage(p, mailbox, startDate, endDate)
    case None => None
    case Some(events) => Some(seq(|events|, k requires 0 <= k < |events| => events[k].(location := None)))
  }

  /** The shared-mailbox event of a booking. */
  function SharedEvent(staffEmail: string, customerName: string, customerEmail: string,
                       serviceName: string, startTime: int, endTime: int): NewEvent
  {
    NewEvent(serviceName + " - " + customerName, startTime, endTime, Busy,
             [Attendee(Some(customerEmail), Some(customerName), "required"),
              Attendee(Some(staffEmail), Some("Staff Member"), "required")],
             None)
  }

  /** The ids of the two events of a booking. */
  datatype EventIds = EventIds(sharedEventId: string, staffEventId: string)

  /**
   * `createCalendarBooking`: posts the shared-mailbox event, then the staff
   * copy; a failure of either post is rethrown and nothing is undone.
   */
  function CreateCalendarBooking(gw: Gateway, sharedMailbox: string, staffEmail: string,
                                 customerName: string, customerEmail: string,
                                 serviceName: string, startTime: int, endTime: int): Written<EventIds>
  {
    var shared := SharedEvent(staffEmail, customerName, customerEmail, serviceName, startTime, endTime);
    var staff := shared.(subject := "[Booking] " + shared.subject,
                         location := Some("Shared Calendar: " + sharedMailbox));
    var first := [PostEvent(sharedMailbox, shared)];
    match gw.postEvent(sharedMailbox, shared)
    case None => Written(first, Err("calendar write failed"))
    case Some(sharedId) =>
      var calls := first + [PostEvent(staffEmail, staff)];
      match gw.postEvent(staffEmail, staff)
      case None => Written(calls, Err("calendar write failed"))
      case Some(staffId) => Written(calls, Ok(EventIds(sharedId, staffId)))
  }

  /**
   * The writes of `createCalendarBooking`: the shared event comes first, the
   * staff event (subject prefixed with "[Booking] ") second and only after the
   * first succeeded; both are busy for the requested interval; nothing is
   * ever deleted; the ids returned are those the provider assigned.
   */
  lemma CreateCalendarBookingWrites(gw: Gateway, sharedMailbox: string, staffEmail: string,
                                    customerName: string, customerEmail: string,
                                    serviceName: string, startTime: int, endTime: int)
    ensures var w := CreateCalendarBooking(gw, sharedMailbox, staffEmail, customerName, customerEmail,
                                           serviceName, startTime, endTime);
      var shared := w.calls[0].event;
      && 1 <= |w.calls| <= 2
      && NoDeletes(w.calls)
      && w.calls[0].PostEvent? && w.calls[0].calendar == sharedMailbox
      && shared.subject == serviceName + " - " + customerName
      && shared.showAs == Busy && shared.start == startTime && shared.end == endTime
      && (|w.calls| == 2 <==> gw.postEvent(sharedMailbox, shared).Some?)
      && (|w.calls| == 2 ==>
            w.calls[1].PostEvent? && w.calls[1].calendar == staffEmail
            && w.calls[1].event.subject == "[Booking] " + shared.subject
            && w.calls[1].event.showAs == Busy
            && w.calls[1].event.start == startTime && w.calls[1].event.end == endTime)
      && (w.result.Ok? <==>
            |w.calls| == 2 && gw.postEvent(staffEmail, w.calls[1].event).Some?)
      && (w.result.Ok? ==>
            w.result.value == EventIds(gw.postEvent(sharedMailbox, shared).value,
                                       gw.postEvent(staffEmail, w.calls[1].event).value))
  {
  }

  /**
   * `cancelCalendarBooking`: deletes the shared event, then the staff event;
   * a failed delete is rethrown.
   */
  function CancelCalendarBooking(gw: Gateway, sharedMailbox: string, staffEmail: string,
                                 sharedEventId: string, staffEventId: string): Written<()>
  {
    var first := [DeleteEvent(sharedMailbox, sharedEventId)];
    if !gw.deleteEvent(sharedMailbox, sharedEventId) then Written(first, Err("calendar delete failed"))
    else
      var calls := first + [DeleteEvent(staffEmail, staffEventId)];
      if !gw.deleteEvent(staffEmail, staffEventId) then Written(calls, Err("calendar delete failed"))
      else Written(calls, Ok(()))
  }

  /**
   * The writes of `cancelCalendarBooking`: the shared delete first, the staff
   * delete only after it succeeded, and success iff both deletes succeeded.
   */
  lemma CancelCalendarBookingWrites(gw: Gateway, sharedMailbox: string, staffEmail: string,
                                    sharedEventId: string, staffEventId: string)
    ensures var w := CancelCalendarBooking(gw, sharedMailbox, staffEmail, sharedEventId, staffEventId);
      && 1 <= |w.calls| <= 2
      && w.calls[0] == DeleteEvent(sharedMailbox, sharedEventId)
      && (|w.calls| == 2 <==> gw.deleteEvent(sharedMailbox, sharedEventId))
      && (|w.calls| == 2 ==> w.calls[1] == DeleteEvent(staffEmail, staffEventId))
      && (w.result.Ok? <==> gw.deleteEvent(sharedMailbox, sharedEventId) && gw.deleteEvent(staffEmail, staffEventId))
  {
  }
}
