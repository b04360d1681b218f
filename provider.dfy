/**
 * The calendar provider as seen by the core. Reads are a pure view of each
 * calendar's events; writes go through a gateway of oracle functions that
 * return the created id, or report failure (the call throws). Every
 * operation that writes returns the trace of calls it made, in order.
 */
module Provider {
  import opened Common

  /** `showAs` of a calendar event. */
  datatype ShowAs = Free | Tentative | Busy | Oof | WorkingElsewhere | Unknown

  /** `type` of a calendar event. */
  datatype EventType = SingleInstance | Occurrence | Exception | SeriesMaster

  /** `recurrence.pattern`: its `type` and optional `daysOfWeek`. */
  datatype RecurrencePattern = RecurrencePattern(kind: string, daysOfWeek: Option<seq<string>>)

  datatype Recurrence = Recurrence(pattern: Option<RecurrencePattern>)

  /** An attendee: `emailAddress.address`, `emailAddress.name` and `type`. */
  datatype Attendee = Attendee(address: Option<string>, name: Option<string>, kind: string)

  /** A calendar event as returned by a calendar view. */
  datatype Event = Event(
    id: string,
    subject: Option<string>,
    start: int,
    end: int,
    showAs: ShowAs,
    eventType: Option<EventType>,
    recurrence: Option<Recurrence>,
    attendees: Option<seq<Attendee>>,
    location: Option<string>,
    isCancelled: bool)

  /** The stored events of every calendar the provider knows, by mailbox. */
  datatype Provider = Provider(calendars: map<string, seq<Event>>)

  /** The event intersects the half-open range `[s, t)`. */
  predicate Overlaps(e: Event, s: int, t: int)
  {
    e.start < t && e.end > s
  }

  /** The events of `events` that intersect `[s, t)`, in order. */
  function InRange(events: seq<Event>, s: int, t: int): (r: seq<Event>)
    ensures forall e :: e in r <==> e in events && Overlaps(e, s, t)
    decreases |events|
  {
    if |events| == 0 then []
    else
      var init := events[..|events| - 1];
      var last := events[|events| - 1];
      assert events == init + [last];
      if Overlaps(last, s, t) then InRange(init, s, t) + [last] else InRange(init, s, t)
  }

  /**
   * A calendar view of `cal` over `[s, t)`; `None` when the request fails,
   * which is when the provider does not know the calendar.
   */
  function View(p: Provider, cal: string, s: int, t: int): (r: Option<seq<Event>>)
    ensures r.Some? <==> cal in p.calendars
    ensures r.Some? ==> forall e :: e in r.value <==> e in p.calendars[cal] && Overlaps(e, s, t)
  {
    if cal in p.calendars then Some(InRange(p.calendars[cal], s, t)) else None
  }

  /** An event body written to a calendar (its HTML body is not modelled). */
  datatype NewEvent = NewEvent(
    subject: string,
    start: int,
    end: int,
    showAs: ShowAs,
    attendees: seq<Attendee>,
    location: Option<string>)

  /** A Microsoft Bookings appointment request. */
  datatype Appointment = Appointment(
    serviceId: string,
    staffMemberIds: seq<string>,
    start: int,
    end: int,
    customerName: string,
    customerEmail: string,
    customerPhone: string)

  /** One external write, in the order it was issued. */
  datatype Call =
    | PostEvent(calendar: string, event: NewEvent)
    | DeleteEvent(calendar: string, eventId: string)
    | SendMail(mailbox: string, recipient: string, subject: string)
    | CreateAppointment(businessId: string, appointment: Appointment)

  /** The answers of the provider to writes: an id or `None` (the call throws), or success. */
  datatype Gateway = Gateway(
    postEvent: (string, NewEvent) -> Option<string>,
    deleteEvent: (string, string) -> bool,
    sendMail: (string, string, string) -> bool,
    createAppointment: (string, Appointment) -> Option<string>)

  /** The trace of writes an operation issued and what it returned or threw. */
  datatype Written<T> = Written(calls: seq<Call>, result: Result<T>)

  /** The trace contains no delete. */
  predicate NoDeletes(calls: seq<Call>)
  {
    forall i :: 0 <= i < |calls| ==> !calls[i].DeleteEvent?
  }
}
