/**
 * The booking lifecycle of the Next.js app: an in-memory store of bookings
 * keyed by booking id, creation gated by a fresh availability check,
 * cancellation and rescheduling, lookups, the parsing of event subjects and
 * the listings of a customer's and a staff member's bookings.
 */
module Booking {
  import opened Common
  import opened JsString
  import opened Provider
  import opened CalendarService
  import opened Availability

  datatype Status = Confirmed | Cancelled | Pending

  /** A stored booking. */
  datatype BookingDetails = BookingDetails(
    id: string,
    sharedEventId: string,
    staffEventId: string,
    serviceName: string,
    customerName: string,
    customerEmail: string,
    customerPhone: Option<string>,
    startTime: int,
    endTime: int,
    sharedMailbox: string,
    staffEmail: string,
    status: Status,
    createdAt: int)

  /** The request of `createBooking` (its `notes` are never used). */
  datatype CreateBookingInput = CreateBookingInput(
    sharedMailboxEmail: string,
    staffEmail: string,
    serviceName: string,
    customerName: string,
    customerEmail: string,
    customerPhone: Option<string>,
    startTime: int,
    endTime: int)

  const BookingFailedPrefix: string := "Booking failed: "
  const SlotGoneReason: string := "Slot is " + "no longer available"
  const CreateFailedMessage: string := "Failed to create booking"
  const NotFoundMessage: string := "Booking " + "not found"
  const AlreadyCancelledMessage: string := "Booking is " + "already cancelled"
  const CancelFailedMessage: string := "Failed to cancel booking"
  const RescheduleCancelledMessage: string := "Cannot reschedule a cancelled booking"
  const RescheduleFailedPrefix: string := "Rescheduling failed: "
  const NewSlotGoneReason: string := "New slot is not available"
  const RescheduleFailedMessage: string := "Failed to reschedule booking"

  /** The subject of the confirmation mail. */
  function ConfirmationSubject(serviceName: string): string { "Booking Confirmation - " + serviceName }

  /** The subject of the cancellation mail. */
  function CancellationSubject(serviceName: string): string { "Booking Cancellation - " + serviceName }

  /** The record `createBooking` stores. */
  function NewBooking(input: CreateBookingInput, ids: EventIds, id: string, now: int): BookingDetails
  {
    BookingDetails(id, ids.sharedEventId, ids.staffEventId, input.serviceName, input.customerName,
                   input.customerEmail, input.customerPhone, input.startTime, input.endTime,
                   input.sharedMailboxEmail, input.staffEmail, Confirmed, now)
  }

  /** The event is one of the two calendar events of the booking. */
  predicate HasEvent(b: BookingDetails, eventId: string)
  {
    b.sharedEventId == eventId || b.staffEventId == eventId
  }

  // ---------------------------------------------------------------------
  // Subject strings: "<service> - <customer>" and "[Booking] <service> - <customer>"
  // ---------------------------------------------------------------------

  const BookingTag: string := "[Booking]"

  /** The index of the first character of `s` that is not '-', or `|s|`. */
  function FirstNonDash(s: string): (i: nat)
    ensures i <= |s|
    ensures i < |s| ==> s[i] != '-'
    ensures forall j :: 0 <= j < i ==> s[j] == '-'
    decreases |s|
  {
    if |s| == 0 || s[0] != '-' then 0 else 1 + FirstNonDash(s[1..])
  }

  /** The index of the first non-white-space character of `s` at or after `k`, or `|s|`. */
  function SkipSpace(s: string, k: nat): (r: nat)
    requires k <= |s|
    ensures k <= r <= |s|
    ensures r < |s| ==> !IsSpace(s[r])
    ensures forall j :: k <= j < r ==> IsSpace(s[j])
    decreases |s| - k
  {
    if k < |s| && IsSpace(s[k]) then SkipSpace(s, k + 1) else k
  }

  /** The index of the first '-' of `s` at or after `i`, or `|s|`. */
  function NextDash(s: string, i: nat): (j: nat)
    requires i <= |s|
    ensures i <= j <= |s|
    ensures j < |s| ==> s[j] == '-'
    ensures forall m :: i <= m < j ==> s[m] != '-'
    decreases |s| - i
  {
    if i == |s| || s[i] == '-' then i else NextDash(s, i + 1)
  }

  /** A stretch without '-' gives a piece without '-'. */
  lemma NoDashIn(s: string, a: nat, b: nat)
    requires a <= b <= |s|
    requires forall m :: a <= m < b ==> s[m] != '-'
    ensures '-' !in s[a..b]
  {
  }

  /**
   * The first capture group of `/(?:\[Booking\]\s*)?([^-]+)\s*-/` on `s`,
   * or `None` when the expression does not match. The leftmost match starts
   * at the first character that is not '-' and reaches the next '-'; after a
   * leading "[Booking]" the group starts after the white space, gives back
   * one white-space character when nothing else is left before the '-', and
   * when there is no white space either the optional prefix is not taken.
   */
  function ServiceGroup(s: string): (g: Option<string>)
    ensures g.Some? ==> '-' !in g.value && |g.value| > 0
    ensures g.None? <==> FirstNonDash(s) == |s| || NextDash(s, FirstNonDash(s)) == |s|
  {
    var i := FirstNonDash(s);
    if i == |s| then None
    else
      var j := NextDash(s, i);
      if j == |s| then None
      else if i + |BookingTag| <= j && s[i..i + |BookingTag|] == BookingTag then
        var k := SkipSpace(s, i + |BookingTag|);
        if k < j then
          NoDashIn(s, k, j);
          Some(s[k..j])
        else if i + |BookingTag| < j then
          NoDashIn(s, j - 1, j);
          Some(s[j - 1..j])
        else
          NoDashIn(s, i, j);
          Some(s[i..j])
      else
        NoDashIn(s, i, j);
        Some(s[i..j])
  }

  /** `extractServiceName`. */
  function ExtractServiceName(subject: string): (r: string)
    ensures '-' !in subject ==> r == "Unknown Service"
  {
    match ServiceGroup(subject)
    case Some(g) => Trim(g)
    case None => "Unknown Service"
  }

  /** `extractCustomerName`: the trimmed text after the last '-'. */
  function ExtractCustomerName(subject: string): (r: string)
    ensures '-' !in subject ==> r == "Unknown Customer"
    ensures '-' in subject ==> '-' !in r && r == Trim(Split(subject, '-')[|Split(subject, '-')| - 1])
  {
    SplitManyIffContains(subject, '-');
    var parts := Split(subject, '-');
    if |parts| > 1 then
      var last := Trim(parts[|parts| - 1]);
      assert forall c :: c in last ==> c in parts[|parts| - 1] by {
        TrimIsInfix(parts[|parts| - 1]);
      }
      last
    else "Unknown Customer"
  }

  /** The trim of a string is a piece of it. */
  lemma TrimIsInfix(s: string)
    ensures forall c :: c in Trim(s) ==> c in s
  {
    var t := TrimStart(s);
    assert forall c :: c in TrimEnd(t) ==> c in t;
    assert forall c :: c in t ==> c in s;
  }

  /** Splitting a string whose tail after its last separator is `y` ends with `y`. */
  lemma {:induction false} SplitLastPiece(a: string, c: char, y: string)
    requires c !in y
    ensures |Split(a + [c] + y, c)| > 1
    ensures Split(a + [c] + y, c)[|Split(a + [c] + y, c)| - 1] == y
    decreases |a|
  {
    var s := a + [c] + y;
    var i := IndexOf(s, c);
    assert s[|a|] == c;
    assert i <= |a|;
    if i == |a| {
      assert s[i + 1..] == y;
      assert IndexOf(y, c) == |y|;
    } else {
      assert s[i + 1..] == a[i + 1..] + [c] + y;
      SplitLastPiece(a[i + 1..], c, y);
    }
  }

  /** Leading white space does not change a trim. */
  lemma TrimLeadingSpace(x: string)
    ensures Trim(" " + x) == Trim(x)
  {
    assert (" " + x)[1..] == x;
  }

  /** Trailing white space does not change the trim of a string that starts with a non-space. */
  lemma TrimTrailingSpace(x: string)
    requires |x| > 0 && !IsSpace(x[0])
    ensures Trim(x + " ") == Trim(x)
  {
    assert TrimStart(x + " ") == x + " ";
    assert TrimStart(x) == x;
    assert (x + " ")[..|x + " "| - 1] == x;
  }

  /**
   * The customer name is read back from the subject `createCalendarBooking`
   * writes, for either calendar, when the name holds no '-'.
   */
  lemma CustomerNameOfSubject(prefix: string, serviceName: string, customerName: string)
    requires '-' !in customerName
    ensures ExtractCustomerName(prefix + serviceName + " - " + customerName) == Trim(customerName)
  {
    var s := prefix + serviceName + " - " + customerName;
    assert s == (prefix + serviceName + " ") + ['-'] + (" " + customerName);
    SplitLastPiece(prefix + serviceName + " ", '-', " " + customerName);
    assert s[|prefix + serviceName + " "|] == '-';
    TrimLeadingSpace(customerName);
  }

  /** The group of a subject that starts with a piece free of '-' and not tagged. */
  lemma ServiceGroupOfHead(head: string, rest: string)
    requires '-' !in head && |head| > 0
    requires !(|BookingTag| <= |head| && head[..|BookingTag|] == BookingTag)
    ensures ServiceGroup(head + "-" + rest) == Some(head)
  {
    var s := head + "-" + rest;
    var n := |head|;
    assert forall m :: 0 <= m < n ==> s[m] == head[m];
    assert s[0] == head[0] && s[n] == '-';
    assert FirstNonDash(s) == 0;
    var j := NextDash(s, 0);
    assert j == n;
    if |BookingTag| <= n {
      assert s[0..|BookingTag|] == head[..|BookingTag|];
    }
    assert s[0..n] == head;
  }

  /** The group of a subject tagged "[Booking] " whose next piece is free of '-'. */
  lemma ServiceGroupOfTagged(body: string, rest: string)
    requires '-' !in body && |body| > 0 && !IsSpace(body[0])
    ensures ServiceGroup(BookingTag + " " + body + "-" + rest) == Some(body)
  {
    var s := BookingTag + " " + body + "-" + rest;
    var n := |body|;
    assert forall m :: 0 <= m < 10 ==> s[m] == (BookingTag + " ")[m];
    assert forall m :: 10 <= m < 10 + n ==> s[m] == body[m - 10];
    assert s[10 + n] == '-';
    assert FirstNonDash(s) == 0;
    var j := NextDash(s, 0);
    assert j == 10 + n;
    assert s[0..9] == BookingTag;
    assert SkipSpace(s, 9) == 10 by {
      assert IsSpace(s[9]) && !IsSpace(s[10]);
    }
    assert s[10..10 + n] == body;
  }

  /**
   * The service name is read back from the shared-calendar subject
   * `createCalendarBooking` writes, when the name holds no '-', does not
   * start with white space and does not start with "[Booking]".
   */
  lemma ServiceNameOfSharedSubject(serviceName: string, customerName: string)
    requires '-' !in serviceName && |serviceName| > 0 && !IsSpace(serviceName[0])
    requires !(|BookingTag| <= |serviceName| && serviceName[..|BookingTag|] == BookingTag)
    ensures ExtractServiceName(serviceName + " - " + customerName) == Trim(serviceName)
  {
    var head := serviceName + " ";
    var n := |serviceName|;
    assert serviceName + " - " + customerName == head + "-" + (" " + customerName);
    if |BookingTag| <= n {
      assert head[..|BookingTag|] == serviceName[..|BookingTag|];
    } else if n + 1 == |BookingTag| {
      assert head[n] == ' ' && BookingTag[n] == ']';
    }
    ServiceGroupOfHead(head, " " + customerName);
    TrimTrailingSpace(serviceName);
  }

  /**
   * The service name is read back from the staff-calendar subject
   * `createCalendarBooking` writes ("[Booking] " before the shared subject),
   * when the name holds no '-' and does not start with white space.
   */
  lemma ServiceNameOfStaffSubject(serviceName: string, customerName: string)
    requires '-' !in serviceName && |serviceName| > 0 && !IsSpace(serviceName[0])
    ensures ExtractServiceName("[Booking] " + serviceName + " - " + customerName) == Trim(serviceName)
  {
    var body := serviceName + " ";
    assert "[Booking] " + serviceName + " - " + customerName == BookingTag + " " + body + "-" + (" " + customerName);
    ServiceGroupOfTagged(body, " " + customerName);
    TrimTrailingSpace(serviceName);
  }

  /** The attendee is taken for the staff member: required, and not a '@customer' address. */
  predicate IsStaffAttendee(a: Attendee)
  {
    a.kind == "required" && !(a.address.Some? && Contains(a.address.value, "@customer"))
  }

  /** The index of the first staff attendee, or `|attendees|`. */
  function StaffIndex(attendees: seq<Attendee>): (i: nat)
    ensures i <= |attendees|
    ensures i < |attendees| ==> IsStaffAttendee(attendees[i])
    ensures forall j :: 0 <= j < i ==> !IsStaffAttendee(attendees[j])
    decreases |attendees|
  {
    if |attendees| == 0 || IsStaffAttendee(attendees[0]) then 0 else 1 + StaffIndex(attendees[1..])
  }

  /** `extractStaffEmail`: the address of the first staff attendee, or ''. */
  function ExtractStaffEmail(attendees: Option<seq<Attendee>>): (r: string)
    ensures attendees.None? || StaffIndex(attendees.value) == |attendees.value| ==> r == ""
    ensures attendees.Some? && StaffIndex(attendees.value) < |attendees.value| ==>
      r == OrElse(attendees.value[StaffIndex(attendees.value)].address, "")
  {
    if attendees.None? || |attendees.value| == 0 then ""
    else
      var i := StaffIndex(attendees.value);
      if i == |attendees.value| then "" else OrElse(attendees.value[i].address, "")
  }

  /** `extractCustomerEmail`: the address of the first attendee, or ''. */
  function ExtractCustomerEmail(attendees: Option<seq<Attendee>>): (r: string)
    ensures attendees.None? || |attendees.value| == 0 ==> r == ""
    ensures attendees.Some? && |attendees.value| > 0 ==> r == OrElse(attendees.value[0].address, "")
  {
    if attendees.None? || |attendees.value| == 0 then "" else OrElse(attendees.value[0].address, "")
  }

  /** The customer's address is read back as the first attendee of the event `createCalendarBooking` writes. */
  lemma CustomerEmailOfBookingEvent(staffEmail: string, customerName: string, customerEmail: string,
                                    serviceName: string, startTime: int, endTime: int)
    requires customerEmail != ""
    ensures ExtractCustomerEmail(Some(SharedEvent(staffEmail, customerName, customerEmail,
                                                  serviceName, startTime, endTime).attendees)) == customerEmail
  {
  }

  /**
   * On the event `createCalendarBooking` writes, the customer comes first and
   * is required too, so the staff address is read back only when the
   * customer's address contains '@customer'; otherwise the customer's
   * address is taken for the staff member's.
   */
  lemma StaffEmailOfBookingEvent(staffEmail: string, customerName: string, customerEmail: string,
                                 serviceName: string, startTime: int, endTime: int)
    requires staffEmail != "" && !Contains(staffEmail, "@customer")
    ensures var e := SharedEvent(staffEmail, customerName, customerEmail, serviceName, startTime, endTime);
      ExtractStaffEmail(Some(e.attendees)) == if Contains(customerEmail, "@customer") then staffEmail else customerEmail
  {
    var e := SharedEvent(staffEmail, customerName, customerEmail, serviceName, startTime, endTime);
    if Contains(customerEmail, "@customer") {
      assert !IsStaffAttendee(e.attendees[0]);
      assert IsStaffAttendee(e.attendees[1]);
      assert StaffIndex(e.attendees) == 1 by {
        assert StaffIndex(e.attendees[1..]) == 0;
      }
    } else {
      assert IsStaffAttendee(e.attendees[0]);
      if customerEmail == "" {
        assert Contains(customerEmail, "") by { assert OccursAt(customerEmail, "", 0); }
      }
    }
  }

  /** The customer is among the attendees, addresses compared ignoring case. */
  predicate Attends(attendees: seq<Attendee>, customerEmail: string)
  {
    exists i :: 0 <= i < |attendees| && attendees[i].address.Some?
                && Lower(attendees[i].address.value) == Lower(customerEmail)
  }

  /** A busy event the customer attends. */
  predicate IsCustomerEvent(e: Event, customerEmail: string)
  {
    e.attendees.Some? && Attends(e.attendees.value, customerEmail) && e.showAs == Busy
  }

  /** The events of the customer, in order. */
  function CustomerEvents(events: seq<Event>, customerEmail: string): (r: seq<Event>)
    ensures forall e :: e in r <==> e in events && IsCustomerEvent(e, customerEmail)
    decreases |events|
  {
    if |events| == 0 then []
    else
      var init := events[..|events| - 1];
      var last := events[|events| - 1];
      assert events == init + [last];
      if IsCustomerEvent(last, customerEmail) then CustomerEvents(init, customerEmail) + [last]
      else CustomerEvents(init, customerEmail)
  }

  /** A busy event whose subject carries the "[Booking]" tag. */
  predicate IsStaffBookingEvent(e: Event)
  {
    e.subject.Some? && Contains(e.subject.value, BookingTag) && e.showAs == Busy
  }

  /** The tagged events of a staff calendar, in order. */
  function StaffEvents(events: seq<Event>): (r: seq<Event>)
    ensures forall e :: e in r <==> e in events && IsStaffBookingEvent(e)
    decreases |events|
  {
    if |events| == 0 then []
    else
      var init := events[..|events| - 1];
      var last := events[|events| - 1];
      assert events == init + [last];
      if IsStaffBookingEvent(last) then StaffEvents(init) + [last] else StaffEvents(init)
  }

  /** The message of the `TypeError` raised when an event without subject is parsed. */
  const NoSubjectMessage: string := "Cannot read properties of undefined (reading 'match')"

  /**
   * The in-memory `bookingMappings` map of bookings by id; `order` is the
   * insertion order in which a JavaScript `Map` iterates its keys.
   */
  class BookingStore {
    var mappings: map<string, BookingDetails>
    var order: seq<string>

    /** The keys are exactly `order`, without repetition, and each record is stored under its own id. */
    ghost predicate Valid()
      reads this
    {
      && (forall k :: k in mappings <==> k in order)
      && (forall i, j :: 0 <= i < j < |order| ==> order[i] != order[j])
      && (forall k :: k in mappings ==> mappings[k].id == k)
    }

    /** The store starts empty. */
    constructor ()
      ensures Valid() && mappings == map[] && order == []
    {
      mappings := map[];
      order := [];
    }

    /** `bookingMappings.set(b.id, b)`: a new key goes last, an existing key keeps its place. */
    method Put(b: BookingDetails)
      requires Valid()
      modifies this
      ensures Valid()
      ensures mappings == old(mappings)[b.id := b]
      ensures order == if b.id in old(mappings) then old(order) else old(order) + [b.id]
    {
      if b.id !in mappings {
        order := order + [b.id];
      }
      mappings := mappings[b.id := b];
    }

    /** `getBookingById`. */
    function GetBookingById(bookingId: string): (r: Option<BookingDetails>)
      reads this
      requires Valid()
      ensures r.Some? <==> bookingId in mappings
      ensures r.Some? ==> r.value.id == bookingId && r.value == mappings[bookingId]
    {
      if bookingId in mappings then Some(mappings[bookingId]) else None
    }

    /** The first booking from position `i` of the iteration order with the event `eventId`. */
    function FindFrom(eventId: string, i: nat): (r: Option<BookingDetails>)
      reads this
      requires Valid() && i <= |order|
      ensures r.None? <==> forall k :: i <= k < |order| ==> !HasEvent(mappings[order[k]], eventId)
      ensures r.Some? ==> exists k :: i <= k < |order| && r.value == mappings[order[k]] && HasEvent(r.value, eventId)
                                      && forall m :: i <= m < k ==> !HasEvent(mappings[order[m]], eventId)
      decreases |order| - i
    {
      if i == |order| then None
      else
        assert order[i] in order;
        if HasEvent(mappings[order[i]], eventId) then Some(mappings[order[i]]) else FindFrom(eventId, i + 1)
    }

    /**
     * `findBookingByEventId`: the first stored booking, in insertion order,
     * one of whose two events is `eventId`; none exactly when no stored
     * booking has that event.
     */
    function FindBookingByEventId(eventId: string): (r: Option<BookingDetails>)
      reads this
      requires Valid()
      ensures r.None? <==> forall k :: k in mappings ==> !HasEvent(mappings[k], eventId)
      ensures r.Some? ==> HasEvent(r.value, eventId) && r.value.id in mappings && mappings[r.value.id] == r.value
      ensures r.Some? ==> forall m :: 0 <= m < |order| && mappings[order[m]] == r.value ==>
                            forall m' :: 0 <= m' < m ==> !HasEvent(mappings[order[m']], eventId)
    {
      var r := FindFrom(eventId, 0);
      if r.None? then
        assert forall k :: k in mappings ==> !HasEvent(mappings[k], eventId) by {
          forall k | k in mappings ensures !HasEvent(mappings[k], eventId) {
            var i :| 0 <= i < |order| && order[i] == k;
          }
        }
        r
      else
        var k :| 0 <= k < |order| && r.value == mappings[order[k]] && HasEvent(r.value, eventId)
                 && forall m :: 0 <= m < k ==> !HasEvent(mappings[order[m]], eventId);
        assert order[k] in order;
        assert forall m :: 0 <= m < |order| && mappings[order[m]] == r.value ==> m == k by {
          forall m | 0 <= m < |order| && mappings[order[m]] == r.value ensures m == k {
            assert order[m] in order;
            assert mappings[order[m]].id == order[m] && mappings[order[k]].id == order[k];
          }
        }
        r
    }

    /**
     * `createBooking`: re-checks the slot (shared calendar first); an
     * unavailable slot fails with 'Booking failed: <reason>' before any
     * write. Otherwise the two calendar events are written; if that fails
     * the error is 'Failed to create booking' and nothing is stored.
     * On success the confirmed record is stored under the fresh id
     * `newId` and a confirmation mail is sent, whose failure is ignored
     * (the gateway's `sendMail` answer does not appear in the outcome).
     */
    method CreateBooking(input: CreateBookingInput, p: Provider, gw: Gateway, newId: string, now: int)
      returns (calls: seq<Call>, r: Result<BookingDetails>)
      requires Valid()
      modifies this
      ensures Valid()
      ensures var check := CheckSlotAvailability(p, input.sharedMailboxEmail, input.staffEmail, input.startTime, input.endTime);
        !check.available ==>
          && r == Err(BookingFailedPrefix + OrElse(check.reason, SlotGoneReason))
          && calls == [] && mappings == old(mappings) && order == old(order)
      ensures var check := CheckSlotAvailability(p, input.sharedMailboxEmail, input.staffEmail, input.startTime, input.endTime);
        var w := CreateCalendarBooking(gw, input.sharedMailboxEmail, input.staffEmail, input.customerName,
                                       input.customerEmail, input.serviceName, input.startTime, input.endTime);
        check.available && w.result.Err? ==>
          && r == Err(CreateFailedMessage)
          && calls == w.calls && mappings == old(mappings) && order == old(order)
      ensures var check := CheckSlotAvailability(p, input.sharedMailboxEmail, input.staffEmail, input.startTime, input.endTime);
        var w := CreateCalendarBooking(gw, input.sharedMailboxEmail, input.staffEmail, input.customerName,
                                       input.customerEmail, input.serviceName, input.startTime, input.endTime);
        check.available && w.result.Ok? ==>
          && r == Ok(NewBooking(input, w.result.value, newId, now))
          && mappings == old(mappings)[newId := r.value]
          && order == (if newId in old(mappings) then old(order) else old(order) + [newId])
          && calls == w.calls + [SendMail(input.sharedMailboxEmail, input.customerEmail, ConfirmationSubject(input.serviceName))]
      ensures r.Ok? ==> && r.value.id == newId && r.value.status == Confirmed
                        && r.value.startTime == input.startTime && r.value.endTime == input.endTime
    {
      var availability := CheckSlotAvailability(p, input.sharedMailboxEmail, input.staffEmail, input.startTime, input.endTime);
      if !availability.available {
        return [], Err(BookingFailedPrefix + OrElse(availability.reason, SlotGoneReason));
      }
      var w := CreateCalendarBooking(gw, input.sharedMailboxEmail, input.staffEmail, input.customerName,
                                     input.customerEmail, input.serviceName, input.startTime, input.endTime);
      if w.result.Err? {
        return w.calls, Err(CreateFailedMessage);
      }
      var bookingDetails := NewBooking(input, w.result.value, newId, now);
      Put(bookingDetails);
      var mailed := gw.sendMail(input.sharedMailboxEmail, input.customerEmail, ConfirmationSubject(input.serviceName));
      calls := w.calls + [SendMail(input.sharedMailboxEmail, input.customerEmail, ConfirmationSubject(input.serviceName))];
      r := Ok(bookingDetails);
    }

    /**
     * `cancelBooking`: an unknown id and an already cancelled booking fail
     * before any write. Otherwise both calendar events are deleted; if that
     * fails the error is 'Failed to cancel booking' and the record keeps its
     * status. On success only the status changes, to cancelled, and a
     * cancellation mail is sent whose failure is ignored.
     */
    method CancelBooking(bookingId: string, gw: Gateway) returns (calls: seq<Call>, r: Result<()>)
      requires Valid()
      modifies this
      ensures Valid() && order == old(order)
      ensures bookingId !in old(mappings) ==>
        r == Err(NotFoundMessage) && calls == [] && mappings == old(mappings)
      ensures bookingId in old(mappings) && old(mappings)[bookingId].status == Cancelled ==>
        r == Err(AlreadyCancelledMessage) && calls == [] && mappings == old(mappings)
      ensures bookingId in old(mappings) && old(mappings)[bookingId].status != Cancelled ==>
        var b := old(mappings)[bookingId];
        var w := CancelCalendarBooking(gw, b.sharedMailbox, b.staffEmail, b.sharedEventId, b.staffEventId);
        if w.result.Err? then
          r == Err(CancelFailedMessage) && calls == w.calls && mappings == old(mappings)
        else
          && r == Ok(())
          && mappings == old(mappings)[bookingId := b.(status := Cancelled)]
          && calls == w.calls + [SendMail(b.sharedMailbox, b.customerEmail, CancellationSubject(b.serviceName))]
    {
      if bookingId !in mappings {
        return [], Err(NotFoundMessage);
      }
      var booking := mappings[bookingId];
      if booking.status == Cancelled {
        return [], Err(AlreadyCancelledMessage);
      }
      var w := CancelCalendarBooking(gw, booking.sharedMailbox, booking.staffEmail,
                                     booking.sharedEventId, booking.staffEventId);
      if w.result.Err? {
        return w.calls, Err(CancelFailedMessage);
      }
      booking := booking.(status := Cancelled);
      Put(booking);
      var mailed := gw.sendMail(booking.sharedMailbox, booking.customerEmail, CancellationSubject(booking.serviceName));
      calls := w.calls + [SendMail(booking.sharedMailbox, booking.customerEmail, CancellationSubject(booking.serviceName))];
      r := Ok(());
    }

    /**
     * `rescheduleBooking`: an unknown id, a cancelled booking and an
     * unavailable new slot fail before any write. Otherwise the old events
     * are deleted first and the new ones written after; if either step
     * fails the error is 'Failed to reschedule booking' and the record is
     * unchanged (even when the old events are already gone). On success
     * exactly the two event ids and the two times change.
     */
    method RescheduleBooking(bookingId: string, newStartTime: int, newEndTime: int, p: Provider, gw: Gateway)
      returns (calls: seq<Call>, r: Result<BookingDetails>)
      requires Valid()
      modifies this
      ensures Valid() && order == old(order)
      ensures bookingId !in old(mappings) ==>
        r == Err(NotFoundMessage) && calls == [] && mappings == old(mappings)
      ensures bookingId in old(mappings) && old(mappings)[bookingId].status == Cancelled ==>
        r == Err(RescheduleCancelledMessage) && calls == [] && mappings == old(mappings)
      ensures bookingId in old(mappings) && old(mappings)[bookingId].status != Cancelled ==>
        var b := old(mappings)[bookingId];
        var check := CheckSlotAvailability(p, b.sharedMailbox, b.staffEmail, newStartTime, newEndTime);
        !check.available ==>
          r == Err(RescheduleFailedPrefix + OrElse(check.reason, NewSlotGoneReason))
          && calls == [] && mappings == old(mappings)
      ensures bookingId in old(mappings) && old(mappings)[bookingId].status != Cancelled ==>
        var b := old(mappings)[bookingId];
        var check := CheckSlotAvailability(p, b.sharedMailbox, b.staffEmail, newStartTime, newEndTime);
        var wc := CancelCalendarBooking(gw, b.sharedMailbox, b.staffEmail, b.sharedEventId, b.staffEventId);
        var wn := CreateCalendarBooking(gw, b.sharedMailbox, b.staffEmail, b.customerName, b.customerEmail,
                                        b.serviceName, newStartTime, newEndTime);
        check.available ==>
          if wc.result.Err? then
            r == Err(RescheduleFailedMessage) && calls == wc.calls && mappings == old(mappings)
          else if wn.result.Err? then
            r == Err(RescheduleFailedMessage) && calls == wc.calls + wn.calls && mappings == old(mappings)
          else
            && r == Ok(b.(sharedEventId := wn.result.value.sharedEventId, staffEventId := wn.result.value.staffEventId,
                         startTime := newStartTime, endTime := newEndTime))
            && mappings == old(mappings)[bookingId := r.value]
            && calls == wc.calls + wn.calls
    {
      if bookingId !in mappings {
        return [], Err(NotFoundMessage);
      }
      var booking := mappings[bookingId];
      if booking.status == Cancelled {
        return [], Err(RescheduleCancelledMessage);
      }
      var availability := CheckSlotAvailability(p, booking.sharedMailbox, booking.staffEmail, newStartTime, newEndTime);
      if !availability.available {
        return [], Err(RescheduleFailedPrefix + OrElse(availability.reason, NewSlotGoneReason));
      }
      var wc := CancelCalendarBooking(gw, booking.sharedMailbox, booking.staffEmail,
                                      booking.sharedEventId, booking.staffEventId);
      if wc.result.Err? {
        return wc.calls, Err(RescheduleFailedMessage);
      }
      var wn := CreateCalendarBooking(gw, booking.sharedMailbox, booking.staffEmail, booking.customerName,
                                      booking.customerEmail, booking.serviceName, newStartTime, newEndTime);
      if wn.result.Err? {
        return wc.calls + wn.calls, Err(RescheduleFailedMessage);
      }
      booking := booking.(sharedEventId := wn.result.value.sharedEventId, staffEventId := wn.result.value.staffEventId,
                          startTime := newStartTime, endTime := newEndTime);
      Put(booking);
      calls := wc.calls + wn.calls;
      r := Ok(booking);
    }

    /** The booking listed for one customer event: the stored one, else one read off the event. */
    function CustomerBooking(e: Event, customerEmail: string, sharedMailbox: string, now: int): (r: Result<BookingDetails>)
      reads this
      requires Valid()
    {
      match FindBookingByEventId(e.id)
      case Some(b) => Ok(b)
      case None =>
        if e.subject.None? then Err(NoSubjectMessage)
        else
          Ok(BookingDetails(e.id, e.id, "", ExtractServiceName(e.subject.value), ExtractCustomerName(e.subject.value),
                            customerEmail, None, e.start, e.end, sharedMailbox, ExtractStaffEmail(e.attendees),
                            Confirmed, now))
    }

    /** The listing of `getCustomerBookings` for the events of the view; stops at the first error. */
    function CustomerBookingsOf(events: seq<Event>, customerEmail: string, sharedMailbox: string, now: int)
      : Result<seq<BookingDetails>>
      reads this
      requires Valid()
      decreases |events|
    {
      if |events| == 0 then Ok([])
      else
        var last := events[|events| - 1];
        match CustomerBookingsOf(events[..|events| - 1], customerEmail, sharedMailbox, now)
        case Err(m) => Err(m)
        case Ok(bs) =>
          if IsCustomerEvent(last, customerEmail) then
            match CustomerBooking(last, customerEmail, sharedMailbox, now)
            case Err(m) => Err(m)
            case Ok(b) => Ok(bs + [b])
          else Ok(bs)
    }

    /** One more event of the view: the listing of the longer prefix from that of the shorter. */
    lemma CustomerBookingsStep(events: seq<Event>, i: nat, customerEmail: string, sharedMailbox: string, now: int)
      requires Valid() && i < |events|
      ensures var before := CustomerBookingsOf(events[..i], customerEmail, sharedMailbox, now);
        CustomerBookingsOf(events[..i + 1], customerEmail, sharedMailbox, now)
        == if before.Err? then before
           else if !IsCustomerEvent(events[i], customerEmail) then before
           else match CustomerBooking(events[i], customerEmail, sharedMailbox, now)
             case Err(m) => Err(m)
             case Ok(b) => Ok(before.value + [b])
    {
      assert events[..i + 1][..i] == events[..i];
    }

    /** An error on a prefix of the events is the error of the whole listing. */
    lemma {:induction false} CustomerBookingsErrSticky(events: seq<Event>, i: nat, customerEmail: string,
                                                       sharedMailbox: string, now: int)
      requires Valid() && i <= |events|
      requires CustomerBookingsOf(events[..i], customerEmail, sharedMailbox, now).Err?
      ensures CustomerBookingsOf(events, customerEmail, sharedMailbox, now)
              == CustomerBookingsOf(events[..i], customerEmail, sharedMailbox, now)
      decreases |events|
    {
      if i < |events| {
        var init := events[..|events| - 1];
        assert init[..i] == events[..i];
        CustomerBookingsErrSticky(init, i, customerEmail, sharedMailbox, now);
      } else {
        assert events[..i] == events;
      }
    }

    /**
     * What `getCustomerBookings` lists: one booking per busy event the
     * customer attends, in order, each holding that event (the stored
     * booking when there is one, else a confirmed record read off the
     * event under the event's id); it fails exactly when such an event has
     * no stored booking and no subject.
     */
    lemma {:induction false} CustomerBookingsSound(events: seq<Event>, customerEmail: string, sharedMailbox: string, now: int)
      requires Valid()
      ensures var r := CustomerBookingsOf(events, customerEmail, sharedMailbox, now);
        var mine := CustomerEvents(events, customerEmail);
        && (r.Err? <==> exists e :: e in mine && FindBookingByEventId(e.id).None? && e.subject.None?)
        && (r.Ok? ==> |r.value| == |mine|
                      && forall k :: 0 <= k < |mine| ==>
                           && HasEvent(r.value[k], mine[k].id)
                           && (|| (r.value[k].id in mappings && mappings[r.value[k].id] == r.value[k])
                               || (r.value[k].id == mine[k].id && r.value[k].status == Confirmed
                                   && r.value[k].customerEmail == customerEmail)))
      decreases |events|
    {
      if |events| > 0 {
        var init := events[..|events| - 1];
        var last := events[|events| - 1];
        CustomerBookingsSound(init, customerEmail, sharedMailbox, now);
        var mineInit := CustomerEvents(init, customerEmail);
        var mine := CustomerEvents(events, customerEmail);
        assert forall e :: e in mineInit ==> e in mine;
        if IsCustomerEvent(last, customerEmail) {
          assert mine == mineInit + [last];
        }
      }
    }

    /**
     * `getCustomerBookings`: reads the shared calendar over the given range
     * (one month back to three months ahead by default, passed in by the
     * caller as `monthAgo` and `threeMonthsAhead`); a failed read or a
     * failed parse is rethrown.
     */
    method GetCustomerBookings(customerEmail: string, sharedMailboxEmail: string, startDate: Option<int>,
                               endDate: Option<int>, p: Provider, monthAgo: int, threeMonthsAhead: int, now: int)
      returns (r: Result<seq<BookingDetails>>)
      requires Valid()
      ensures var from := if startDate.Some? then startDate.value else monthAgo;
        var to := if endDate.Some? then endDate.value else threeMonthsAhead;
        match GetCalendarEvents(p, sharedMailboxEmail, from, to)
        case None => r.Err?
        case Some(events) => r == CustomerBookingsOf(events, customerEmail, sharedMailboxEmail, now)
    {
      var from := if startDate.Some? then startDate.value else monthAgo;
      var to := if endDate.Some? then endDate.value else threeMonthsAhead;
      var view := GetCalendarEvents(p, sharedMailboxEmail, from, to);
      if view.None? {
        return Err("calendar view failed");
      }
      r := ListCustomerBookings(view.value, customerEmail, sharedMailboxEmail, now);
    }

    /** One turn of the listing loop: the event extends the listing, is passed over, or ends it with its error. */
    lemma ListingStep(events: seq<Event>, i: nat, customerEmail: string, sharedMailbox: string, now: int,
                      bookings: seq<BookingDetails>)
      requires Valid() && i < |events|
      requires CustomerBookingsOf(events[..i], customerEmail, sharedMailbox, now) == Ok(bookings)
      ensures !IsCustomerEvent(events[i], customerEmail) ==>
        CustomerBookingsOf(events[..i + 1], customerEmail, sharedMailbox, now) == Ok(bookings)
      ensures IsCustomerEvent(events[i], customerEmail) ==>
        var b := CustomerBooking(events[i], customerEmail, sharedMailbox, now);
        && (b.Ok? ==> CustomerBookingsOf(events[..i + 1], customerEmail, sharedMailbox, now) == Ok(bookings + [b.value]))
        && (b.Err? ==> CustomerBookingsOf(events, customerEmail, sharedMailbox, now) == Err(b.message))
    {
      CustomerBookingsStep(events, i, customerEmail, sharedMailbox, now);
      if IsCustomerEvent(events[i], customerEmail) && CustomerBooking(events[i], customerEmail, sharedMailbox, now).Err? {
        CustomerBookingsErrSticky(events, i + 1, customerEmail, sharedMailbox, now);
      }
    }

    /** The loop of `getCustomerBookings` over the events of the view. */
    method ListCustomerBookings(events: seq<Event>, customerEmail: string, sharedMailboxEmail: string, now: int)
      returns (r: Result<seq<BookingDetails>>)
      requires Valid()
      ensures r == CustomerBookingsOf(events, customerEmail, sharedMailboxEmail, now)
    {
      var bookings: seq<BookingDetails> := [];
      var i := 0;
      while i < |events|
        invariant 0 <= i <= |events|
        invariant CustomerBookingsOf(events[..i], customerEmail, sharedMailboxEmail, now) == Ok(bookings)
      {
        var event := events[i];
        ListingStep(events, i, customerEmail, sharedMailboxEmail, now, bookings);
        if event.attendees.Some? {
          var isCustomerAttending := Attends(event.attendees.value, customerEmail);
          if isCustomerAttending && event.showAs == Busy {
            var bookingDetails := CustomerBooking(event, customerEmail, sharedMailboxEmail, now);
            if bookingDetails.Err? {
              return Err(bookingDetails.message);
            }
            bookings := bookings + [bookingDetails.value];
          }
        }
        i := i + 1;
      }
      assert events[..i] == events;
      return Ok(bookings);
    }

    /** The booking listed for one tagged staff event: the stored one, else one read off the event. */
    function StaffBooking(e: Event, staffEmail: string, now: int): (r: BookingDetails)
      reads this
      requires Valid() && e.subject.Some?
    {
      match FindBookingByEventId(e.id)
      case Some(b) => b
      case None =>
        BookingDetails(e.id, "", e.id, ExtractServiceName(e.subject.value), ExtractCustomerName(e.subject.value),
                       ExtractCustomerEmail(e.attendees), None, e.start, e.end, OrElse(e.location, ""),
                       staffEmail, Confirmed, now)
    }

    /** The listing of `getStaffBookings` for the events of the view. */
    function StaffBookingsOf(events: seq<Event>, staffEmail: string, now: int): seq<BookingDetails>
      reads this
      requires Valid()
      decreases |events|
    {
      if |events| == 0 then []
      else
        var last := events[|events| - 1];
        StaffBookingsOf(events[..|events| - 1], staffEmail, now)
        + (if IsStaffBookingEvent(last) then [StaffBooking(last, staffEmail, now)] else [])
    }

    /**
     * What `getStaffBookings` lists: one booking per busy tagged event, in
     * order, each holding that event; a booking not in the store is read off
     * an event without location (the view does not select it), so its
     * shared mailbox is always ''.
     */
    lemma {:induction false} StaffBookingsSound(events: seq<Event>, staffEmail: string, now: int)
      requires Valid()
      requires forall e :: e in events ==> e.location.None?
      ensures var r := StaffBookingsOf(events, staffEmail, now);
        var tagged := StaffEvents(events);
        && |r| == |tagged|
        && forall k :: 0 <= k < |tagged| ==>
             && HasEvent(r[k], tagged[k].id)
             && (|| (r[k].id in mappings && mappings[r[k].id] == r[k])
                 || (r[k].id == tagged[k].id && r[k].status == Confirmed && r[k].sharedMailbox == ""
                     && r[k].staffEmail == staffEmail))
      decreases |events|
    {
      if |events| > 0 {
        var init := events[..|events| - 1];
        var last := events[|events| - 1];
        assert forall e :: e in init ==> e in events;
        StaffBookingsSound(init, staffEmail, now);
        if IsStaffBookingEvent(last) {
          assert StaffEvents(events) == StaffEvents(init) + [last];
        }
      }
    }

    /** `getStaffBookings`: reads the staff calendar; a failed read is rethrown. */
    method GetStaffBookings(staffEmail: string, startDate: int, endDate: int, p: Provider, now: int)
      returns (r: Result<seq<BookingDetails>>)
      requires Valid()
      ensures match GetCalendarEvents(p, staffEmail, startDate, endDate)
        case None => r.Err?
        case Some(events) => r == Ok(StaffBookingsOf(events, staffEmail, now))
    {
      var view := GetCalendarEvents(p, staffEmail, startDate, endDate);
      if view.None? {
        return Err("calendar view failed");
      }
      var events := view.value;
      var bookings: seq<BookingDetails> := [];
      var i := 0;
      while i < |events|
        invariant 0 <= i <= |events|
        invariant bookings == StaffBookingsOf(events[..i], staffEmail, now)
      {
        var event := events[i];
        assert events[..i + 1][..i] == events[..i];
        if event.subject.Some? && Contains(event.subject.value, BookingTag) && event.showAs == Busy {
          var bookingDetails := FindBookingByEventId(event.id);
          if bookingDetails.None? {
            var subject := event.subject.value;
            bookingDetails := Some(BookingDetails(event.id, "", event.id, ExtractServiceName(subject),
                                                  ExtractCustomerName(subject), ExtractCustomerEmail(event.attendees),
                                                  None, event.start, event.end, OrElse(event.location, ""),
                                                  staffEmail, Confirmed, now));
          }
          bookings := bookings + [bookingDetails.value];
        }
        i := i + 1;
      }
      assert events[..i] == events;
      return Ok(bookings);
    }
  }
}
