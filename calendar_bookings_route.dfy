/**
 * The calendar bookings route: `POST` creates a booking in the brand's
 * shared mailbox and the employee's calendar through the booking store,
 * `GET` lists a customer's bookings from the shared mailbox, and `DELETE`
 * cancels a booking. Errors thrown by the store come back as messages and
 * are turned into statuses by looking for phrases in them.
 *
 * A required body field or a query field is `None` when missing or not a
 * string; an optional body field is an `OptionalText`; `new
 * Date(text)` is the oracle `parseDate` (`None` for an invalid date) and the
 * schema's email check is the oracle `isEmail`. A brand without a shared
 * mailbox passes `undefined`, which the calendar request spells out as the
 * mailbox name "undefined".
 */
module CalendarBookingsRoute {
  import opened Common
  import opened JsString
  import opened Provider
  import opened CalendarService
  import opened Availability
  import opened Booking
  import opened Settings

  const InvalidRequestData: string := "Invalid request data"
  const InvalidLookup: string := "Invalid brand, employee, or service"
  const NotInBrand: string := "Employee does not work for this brand"
  const SlotTakenPhrase: string := "no longer available"
  const IdRequired: string := "bookingId is required"
  const NotFoundPhrase: string := "not found"
  const AlreadyCancelledPhrase: string := "already cancelled"
  const CancelledMessage: string := "Booking cancelled successfully"
  const BrandRequired: string := "brandId is required"
  const InvalidBrand: string := "Invalid brand"
  const EmailRequired: string := "email is required"
  const FetchFailed: string := "Failed to fetch bookings"

  /** The mailbox name a brand's shared calendar is read under. */
  function SharedMailboxOf(brand: BrandConfig): string
  {
    OrElse(brand.sharedMailbox, "undefined")
  }

  // Error mapping.

  /** The `POST` answer to an error message: 409 when it says the slot is no longer available, else 500. */
  function CreateErrorReply<T>(message: string): Reply<T>
  {
    if Contains(message, SlotTakenPhrase) then Failure(409, message)
    else Failure(500, if message != "" then message else CreateFailedMessage)
  }

  /** The `DELETE` answer to an error message: 404 for "not found", 400 for "already cancelled", else 500. */
  function CancelErrorReply<T>(message: string): Reply<T>
  {
    if Contains(message, NotFoundPhrase) then Failure(404, message)
    else if Contains(message, AlreadyCancelledPhrase) then Failure(400, message)
    else Failure(500, if message != "" then message else CancelFailedMessage)
  }

  // Pair facts about the literal messages, a short piece at a time.

  lemma PrefixLacksGe() ensures LacksPair(BookingFailedPrefix, 'g', 'e') {}
  lemma SharedStartLacksGe() ensures LacksPair("Time slot is not ", 'g', 'e') {}
  lemma SharedEndLacksGe() ensures LacksPair("available in the shared calendar", 'g', 'e') {}
  lemma StaffLacksGe() ensures LacksPair(StaffBusyReason, 'g', 'e') {}
  lemma CreateFailedLacksGe() ensures LacksPair(CreateFailedMessage, 'g', 'e') {}
  lemma AlreadyCancelledLacksFo() ensures LacksPair(AlreadyCancelledMessage, 'f', 'o') {}
  lemma CancelFailedLacksFo() ensures LacksPair(CancelFailedMessage, 'f', 'o') {}
  lemma CancelFailedLacksAl() ensures LacksPair(CancelFailedMessage, 'a', 'l') {}

  /** The shared-calendar reason has no `g` followed by `e`. */
  lemma SharedBusyLacksGe()
    ensures LacksPair(SharedBusyReason, 'g', 'e')
  {
    SharedStartLacksGe();
    SharedEndLacksGe();
    LacksPairConcat("Time slot is not ", "available in the shared calendar", 'g', 'e');
  }

  /** The message of a slot taken in the shared calendar does not say "no longer available". */
  lemma SharedMessageLacksPhrase()
    ensures !Contains(BookingFailedPrefix + SharedBusyReason, SlotTakenPhrase)
  {
    PrefixLacksGe();
    SharedBusyLacksGe();
    LacksPairConcat(BookingFailedPrefix, SharedBusyReason, 'g', 'e');
    NotContainsByPair(BookingFailedPrefix + SharedBusyReason, SlotTakenPhrase, 6, 'g', 'e');
  }

  /** The message of a busy staff member does not say "no longer available". */
  lemma StaffMessageLacksPhrase()
    ensures !Contains(BookingFailedPrefix + StaffBusyReason, SlotTakenPhrase)
  {
    PrefixLacksGe();
    StaffLacksGe();
    LacksPairConcat(BookingFailedPrefix, StaffBusyReason, 'g', 'e');
    NotContainsByPair(BookingFailedPrefix + StaffBusyReason, SlotTakenPhrase, 6, 'g', 'e');
  }

  /** The write-failure message does not say "no longer available". */
  lemma CreateFailedLacksPhrase()
    ensures !Contains(CreateFailedMessage, SlotTakenPhrase)
  {
    CreateFailedLacksGe();
    NotContainsByPair(CreateFailedMessage, SlotTakenPhrase, 6, 'g', 'e');
  }

  /** The fallback reason, when it is used, says "no longer available". */
  lemma SlotGoneHasPhrase()
    ensures Contains(BookingFailedPrefix + SlotGoneReason, SlotTakenPhrase)
  {
    ConcatAssoc(BookingFailedPrefix, "Slot is ", SlotTakenPhrase);
    ContainsSuffix(BookingFailedPrefix + "Slot is ", SlotTakenPhrase);
  }

  /**
   * Every error `createBooking` can throw answers 500: an unavailable slot
   * always has a reason from the slot check, and neither reason nor the
   * write failure says "no longer available". Only the fallback text, which
   * is never used, would answer 409.
   */
  lemma CreateErrorsAre500(p: Provider, sharedMailbox: string, staffEmail: string, startTime: int, endTime: int)
    ensures var check := CheckSlotAvailability(p, sharedMailbox, staffEmail, startTime, endTime);
      var message := BookingFailedPrefix + OrElse(check.reason, SlotGoneReason);
      !check.available ==> CreateErrorReply<BookingDetails>(message) == Failure(500, message)
    ensures CreateErrorReply<BookingDetails>(CreateFailedMessage) == Failure(500, CreateFailedMessage)
    ensures CreateErrorReply<BookingDetails>(BookingFailedPrefix + SlotGoneReason).status == 409
  {
    SharedMessageLacksPhrase();
    StaffMessageLacksPhrase();
    CreateFailedLacksPhrase();
    SlotGoneHasPhrase();
  }

  /** The message of an unreadable shared calendar answers 500. */
  lemma InvalidDateIs500()
    ensures CreateErrorReply<BookingDetails>(BookingFailedPrefix + SharedBusyReason)
            == Failure(500, BookingFailedPrefix + SharedBusyReason)
  {
    SharedMessageLacksPhrase();
  }

  /** The three errors `cancelBooking` throws answer 404, 400 and 500. */
  lemma CancelErrorStatuses()
    ensures CancelErrorReply<string>(NotFoundMessage) == Failure(404, NotFoundMessage)
    ensures CancelErrorReply<string>(AlreadyCancelledMessage) == Failure(400, AlreadyCancelledMessage)
    ensures CancelErrorReply<string>(CancelFailedMessage) == Failure(500, CancelFailedMessage)
  {
    ContainsSuffix("Booking ", NotFoundPhrase);
    ContainsSuffix("Booking is ", AlreadyCancelledPhrase);
    AlreadyCancelledLacksFo();
    NotContainsByPair(AlreadyCancelledMessage, NotFoundPhrase, 4, 'f', 'o');
    CancelFailedLacksFo();
    NotContainsByPair(CancelFailedMessage, NotFoundPhrase, 4, 'f', 'o');
    CancelFailedLacksAl();
    NotContainsByPair(CancelFailedMessage, AlreadyCancelledPhrase, 0, 'a', 'l');
  }

  // POST.

  /** The body of a booking request; `customerPhone` and `notes` are optional. */
  datatype CreateRequest = CreateRequest(
    brandId: Option<string>,
    serviceId: Option<string>,
    employeeId: Option<string>,
    customerName: Option<string>,
    customerEmail: Option<string>,
    customerPhone: OptionalText,
    startTime: Option<string>,
    endTime: Option<string>,
    notes: OptionalText)

  /**
   * The schema accepts the body: every required field is a string, the
   * address is an email, and the optional phone and notes are missing or
   * strings.
   */
  predicate CreateParsed(req: CreateRequest, isEmail: string -> bool)
  {
    && req.brandId.Some? && req.serviceId.Some? && req.employeeId.Some? && req.customerName.Some?
    && req.customerEmail.Some? && req.startTime.Some? && req.endTime.Some?
    && isEmail(req.customerEmail.value)
    && !req.customerPhone.Mistyped? && !req.notes.Mistyped?
  }

  /** A phone or notes present with a type other than string make the schema reject the body. */
  lemma MistypedOptionalRejected(req: CreateRequest, isEmail: string -> bool)
    ensures req.customerPhone.Mistyped? || req.notes.Mistyped? ==> !CreateParsed(req, isEmail)
  {
  }

  /** The brand, employee and service are all known, and the employee works for the brand. */
  predicate Admitted(settings: SettingsData, dir: Directory, req: CreateRequest)
    requires req.brandId.Some? && req.serviceId.Some? && req.employeeId.Some?
  {
    && GetBrandById(settings, req.brandId.value).Some?
    && GetEmployeeById(settings, req.employeeId.value).Some?
    && dir.serviceById(req.brandId.value, req.serviceId.value).Some?
    && WorksFor(GetEmployeeById(settings, req.employeeId.value).value, req.brandId.value)
  }

  /** What the route hands to `createBooking`. */
  function InputOf(settings: SettingsData, dir: Directory, req: CreateRequest, startTime: int, endTime: int)
    : CreateBookingInput
    requires CreateParsed(req, _ => true) && Admitted(settings, dir, req)
  {
    CreateBookingInput(
      SharedMailboxOf(GetBrandById(settings, req.brandId.value).value),
      GetEmployeeById(settings, req.employeeId.value).value.primaryCalendarId,
      dir.serviceById(req.brandId.value, req.serviceId.value).value.name,
      req.customerName.value, req.customerEmail.value, GivenText(req.customerPhone), startTime, endTime)
  }

  /**
   * The booking `POST`. A rejected body, an unknown brand, employee or
   * service, and an employee of another brand answer 400 before any read or
   * write. An invalid date makes the shared calendar unreadable, so the slot
   * counts as taken. Otherwise the answer is that of `createBooking`, whose
   * errors all answer 500.
   */
  method Post(store: BookingStore, settings: SettingsData, dir: Directory, p: Provider, gw: Gateway,
              parseDate: string -> Option<int>, isEmail: string -> bool, newId: string, now: int, req: CreateRequest)
    returns (calls: seq<Call>, r: Reply<BookingDetails>)
    requires store.Valid()
    modifies store
    ensures store.Valid()
    ensures !CreateParsed(req, isEmail) ==>
      r == Failure(400, InvalidRequestData) && calls == [] && unchanged(store)
    ensures CreateParsed(req, isEmail) && !Admitted(settings, dir, req) ==>
      && calls == [] && unchanged(store)
      && ((|| GetBrandById(settings, req.brandId.value).None? || GetEmployeeById(settings, req.employeeId.value).None?
           || dir.serviceById(req.brandId.value, req.serviceId.value).None?) ==> r == Failure(400, InvalidLookup))
      && ((&& GetBrandById(settings, req.brandId.value).Some? && GetEmployeeById(settings, req.employeeId.value).Some?
           && dir.serviceById(req.brandId.value, req.serviceId.value).Some?) ==> r == Failure(400, NotInBrand))
    ensures CreateParsed(req, isEmail) && Admitted(settings, dir, req)
            && (parseDate(req.startTime.value).None? || parseDate(req.endTime.value).None?) ==>
      r == Failure(500, BookingFailedPrefix + SharedBusyReason) && calls == [] && unchanged(store)
    ensures CreateParsed(req, isEmail) && Admitted(settings, dir, req)
            && parseDate(req.startTime.value).Some? && parseDate(req.endTime.value).Some? ==>
      var input := InputOf(settings, dir, req, parseDate(req.startTime.value).value, parseDate(req.endTime.value).value);
      var check := CheckSlotAvailability(p, input.sharedMailboxEmail, input.staffEmail, input.startTime, input.endTime);
      var w := CreateCalendarBooking(gw, input.sharedMailboxEmail, input.staffEmail, input.customerName,
                                     input.customerEmail, input.serviceName, input.startTime, input.endTime);
      && (!check.available ==>
            && r == Failure(500, BookingFailedPrefix + check.reason.value) && calls == []
            && store.mappings == old(store.mappings) && store.order == old(store.order))
      && (check.available && w.result.Err? ==>
            && r == Failure(500, CreateFailedMessage) && calls == w.calls
            && store.mappings == old(store.mappings) && store.order == old(store.order))
      && (check.available && w.result.Ok? ==>
            && r == Success(NewBooking(input, w.result.value, newId, now))
            && store.mappings == old(store.mappings)[newId := r.body]
            && store.order == (if newId in old(store.mappings) then old(store.order) else old(store.order) + [newId])
            && calls == w.calls + [SendMail(input.sharedMailboxEmail, input.customerEmail,
                                            ConfirmationSubject(input.serviceName))])
  {
    if !CreateParsed(req, isEmail) {
      return [], Failure(400, InvalidRequestData);
    }
    var brand := GetBrandById(settings, req.brandId.value);
    var employee := GetEmployeeById(settings, req.employeeId.value);
    var service := dir.serviceById(req.brandId.value, req.serviceId.value);
    if brand.None? || employee.None? || service.None? {
      return [], Failure(400, InvalidLookup);
    }
    if !WorksFor(employee.value, req.brandId.value) {
      return [], Failure(400, NotInBrand);
    }
    var startTime := parseDate(req.startTime.value);
    var endTime := parseDate(req.endTime.value);
    if startTime.None? || endTime.None? {
      InvalidDateIs500();
      return [], CreateErrorReply(BookingFailedPrefix + SharedBusyReason);
    }
    var input := InputOf(settings, dir, req, startTime.value, endTime.value);
    CreateErrorsAre500(p, input.sharedMailboxEmail, input.staffEmail, input.startTime, input.endTime);
    var result;
    calls, result := store.CreateBooking(input, p, gw, newId, now);
    if result.Err? {
      return calls, CreateErrorReply(result.message);
    }
    r := Success(result.value);
  }

  // GET.

  /** The query of a customer listing. */
  datatype ListQuery = ListQuery(brandId: Option<string>, email: Option<string>,
                                 startDate: Option<string>, endDate: Option<string>)

  /** A listed booking: the fields the route returns. */
  datatype BookingSummary = BookingSummary(id: string, serviceName: string, customerName: string,
                                           customerEmail: string, startTime: int, endTime: int, status: Status)

  /** The listing and its size. */
  datatype CustomerListing = CustomerListing(bookings: seq<BookingSummary>, total: nat)

  function Summary(b: BookingDetails): BookingSummary
  {
    BookingSummary(b.id, b.serviceName, b.customerName, b.customerEmail, b.startTime, b.endTime, b.status)
  }

  function Summaries(bs: seq<BookingDetails>): (r: seq<BookingSummary>)
    ensures |r| == |bs| && forall k :: 0 <= k < |bs| ==> r[k] == Summary(bs[k])
  {
    if |bs| == 0 then [] else Summaries(bs[..|bs| - 1]) + [Summary(bs[|bs| - 1])]
  }

  /** An optional date query text: absent or empty means no bound; an invalid date cannot be sent and fails. */
  function DateBound(parseDate: string -> Option<int>, text: Option<string>): Result<Option<int>>
  {
    if text.None? || text.value == "" then Ok(None)
    else if parseDate(text.value).None? then Err(FetchFailed)
    else Ok(Some(parseDate(text.value).value))
  }

  /**
   * The customer listing `GET`: `brandId` and `email` are required (400) and
   * the brand must be known (400); the listing reads the shared mailbox over
   * the given or default range, and any failure answers 500.
   */
  method Get(store: BookingStore, settings: SettingsData, p: Provider, parseDate: string -> Option<int>,
             monthAgo: int, threeMonthsAhead: int, now: int, query: ListQuery)
    returns (r: Reply<CustomerListing>)
    requires store.Valid()
    ensures query.brandId.None? || query.brandId == Some("") ==> r == Failure(400, BrandRequired)
    ensures query.brandId.Some? && query.brandId.value != "" ==>
      var brand := GetBrandById(settings, query.brandId.value);
      && (brand.None? ==> r == Failure(400, InvalidBrand))
      && (brand.Some? && (query.email.None? || query.email == Some("")) ==> r == Failure(400, EmailRequired))
      && (brand.Some? && query.email.Some? && query.email.value != "" ==>
            var from := DateBound(parseDate, query.startDate);
            var to := DateBound(parseDate, query.endDate);
            && (from.Err? || to.Err? ==> r == Failure(500, FetchFailed))
            && (from.Ok? && to.Ok? ==>
                  var fromTime := if from.value.Some? then from.value.value else monthAgo;
                  var toTime := if to.value.Some? then to.value.value else threeMonthsAhead;
                  match GetCalendarEvents(p, SharedMailboxOf(brand.value), fromTime, toTime)
                  case None => r == Failure(500, FetchFailed)
                  case Some(events) =>
                    var listed := store.CustomerBookingsOf(events, query.email.value, SharedMailboxOf(brand.value), now);
                    && (listed.Err? ==> r == Failure(500, FetchFailed))
                    && (listed.Ok? ==> r == Success(CustomerListing(Summaries(listed.value), |listed.value|)))))
  {
    if query.brandId.None? || query.brandId.value == "" {
      return Failure(400, BrandRequired);
    }
    var brand := GetBrandById(settings, query.brandId.value);
    if brand.None? {
      return Failure(400, InvalidBrand);
    }
    if query.email.None? || query.email.value == "" {
      return Failure(400, EmailRequired);
    }
    var from := DateBound(parseDate, query.startDate);
    var to := DateBound(parseDate, query.endDate);
    if from.Err? || to.Err? {
      return Failure(500, FetchFailed);
    }
    var bookings := store.GetCustomerBookings(query.email.value, SharedMailboxOf(brand.value), from.value, to.value,
                                              p, monthAgo, threeMonthsAhead, now);
    if bookings.Err? {
      return Failure(500, FetchFailed);
    }
    r := Success(CustomerListing(Summaries(bookings.value), |bookings.value|));
  }

  // DELETE.

  /**
   * The cancellation `DELETE`: a missing or empty `bookingId` answers 400;
   * otherwise the answer is that of `cancelBooking` (404 for an unknown
   * booking, 400 for one already cancelled, 500 when the calendar writes
   * fail). The `reason` query is not modelled: it only reaches the mail body.
   */
  method Delete(store: BookingStore, gw: Gateway, bookingId: Option<string>, reason: Option<string>)
    returns (calls: seq<Call>, r: Reply<string>)
    requires store.Valid()
    modifies store
    ensures store.Valid() && store.order == old(store.order)
    ensures bookingId.None? || bookingId == Some("") ==>
      r == Failure(400, IdRequired) && calls == [] && unchanged(store)
    ensures bookingId.Some? && bookingId.value != "" ==>
      var id := bookingId.value;
      && (id !in old(store.mappings) ==>
            r == Failure(404, NotFoundMessage) && calls == [] && store.mappings == old(store.mappings))
      && (id in old(store.mappings) && old(store.mappings)[id].status == Cancelled ==>
            r == Failure(400, AlreadyCancelledMessage) && calls == [] && store.mappings == old(store.mappings))
      && (id in old(store.mappings) && old(store.mappings)[id].status != Cancelled ==>
            var b := old(store.mappings)[id];
            var w := CancelCalendarBooking(gw, b.sharedMailbox, b.staffEmail, b.sharedEventId, b.staffEventId);
            if w.result.Err? then
              r == Failure(500, CancelFailedMessage) && calls == w.calls && store.mappings == old(store.mappings)
            else
              && r == Success(CancelledMessage)
              && store.mappings == old(store.mappings)[id := b.(status := Cancelled)]
              && calls == w.calls + [SendMail(b.sharedMailbox, b.customerEmail, CancellationSubject(b.serviceName))])
  {
    if bookingId.None? || bookingId.value == "" {
      return [], Failure(400, IdRequired);
    }
    CancelErrorStatuses();
    var result;
    calls, result := store.CancelBooking(bookingId.value, gw);
    if result.Err? {
      return calls, CancelErrorReply(result.message);
    }
    r := Success(CancelledMessage);
  }
}
