/**
 * The two configuration routes of the booking front end: the availability
 * search, which looks up brand, employee and service and then runs the
 * 09:00 to 17:00 half-hour grid over the three calendars, and the booking
 * creation, which checks the same lookups, re-checks the slot, resolves the
 * Bookings staff ids and creates one Bookings appointment.
 *
 * A request body is read field by field (`None` for a required field that
 * is missing or not a string, which the schema rejects, and an
 * `OptionalText` for the optional phone); `new Date(text)` is the oracle
 * `parseDate` (`None` for an invalid date) and the schema's email check is
 * the oracle `isEmail`.
 */
module ConfigRoutes {
  import opened Common
  import opened Clock
  import opened Provider
  import opened Settings
  import opened IsoDuration
  import opened Checker

  const InvalidBrandOrEmployeeId: string := "Invalid brand or employee ID"
  const InvalidBrandOrEmployee: string := "Invalid brand or employee"
  const NotInBrand: string := "Employee does not work for this brand"
  const ServiceNotFound: string := "Service not found"
  const CheckFailed: string := "Failed to check availability"
  const CreateFailed: string := "Failed to create booking"
  const SlotGone: string := "Time slot is no longer available"
  const EmployeeNotStaff: string := "Employee not found in MS Bookings system"
  const AppointmentFailed: string := "Failed to create booking in MS Bookings system"
  const BothCalendars: string := "Booking created - events will appear in both employee and brand calendars"
  const EmployeeOnly: string := "Booking created in employee calendar only (brand calendar not configured as staff member)"

  /** The most slots the availability route answers with. */
  const MaxSlots: nat := 20

  /** What the lookups of a request found. */
  datatype Context = Context(brand: BrandConfig, employee: EmployeeConfig, service: BookingService)

  /**
   * The lookups both routes begin with: brand and employee (400 with
   * `invalid` when either is unknown), the employee's membership of the brand
   * (400), the services of the brand's business (a failed request throws and
   * becomes the route's 500 with `thrown`), and the service (404).
   */
  function Admit(settings: SettingsData, dir: Directory, brandId: string, employeeId: string, serviceId: string,
                 invalid: string, thrown: string): (r: Reply<Context>)
    ensures GetBrandById(settings, brandId).None? || GetEmployeeById(settings, employeeId).None? ==>
      r == Failure(400, invalid)
    ensures GetBrandById(settings, brandId).Some? && GetEmployeeById(settings, employeeId).Some? ==>
      var brand := GetBrandById(settings, brandId).value;
      var employee := GetEmployeeById(settings, employeeId).value;
      && (!WorksFor(employee, brandId) ==> r == Failure(400, NotInBrand))
      && (WorksFor(employee, brandId) && dir.services(brand.msBookingsBusinessId).None? ==> r == Failure(500, thrown))
      && (WorksFor(employee, brandId) && dir.services(brand.msBookingsBusinessId).Some? ==>
            (r.Failure? <==> FindServiceById(dir.services(brand.msBookingsBusinessId).value, serviceId).None?))
    ensures r.Failure? && r.status == 404 ==> r.error == ServiceNotFound
    ensures r.Success? ==>
      && r.body.brand.id == brandId && r.body.brand in settings.brands
      && r.body.employee.id == employeeId && r.body.employee in settings.employees
      && WorksFor(r.body.employee, brandId)
      && dir.services(r.body.brand.msBookingsBusinessId).Some?
      && r.body.service.id == serviceId
      && r.body.service in dir.services(r.body.brand.msBookingsBusinessId).value
  {
    var brand := GetBrandById(settings, brandId);
    var employee := GetEmployeeById(settings, employeeId);
    if brand.None? || employee.None? then Failure(400, invalid)
    else if !WorksFor(employee.value, brandId) then Failure(400, NotInBrand)
    else
      var services := dir.services(brand.value.msBookingsBusinessId);
      if services.None? then Failure(500, thrown)
      else
        var service := FindServiceById(services.value, serviceId);
        if service.None? then Failure(404, ServiceNotFound)
        else Success(Context(brand.value, employee.value, service.value))
  }

  /** The Bookings business of the brand, which is also its service calendar. */
  function Business(ctx: Context): string
  {
    ctx.brand.msBookingsBusinessId
  }

  /** The route's duration: the service's `defaultDuration` read as hours and minutes, else 60 minutes. */
  function RouteDuration(s: BookingService): nat
  {
    if s.defaultDuration.Some? && s.defaultDuration.value != "" then DurationMinutes(s.defaultDuration.value) else 60
  }

  /**
   * A service without a duration text gets 60 minutes (not the 30 of the
   * back-office default), and `PT<h>H<m>M` gets `h·60 + m`.
   */
  lemma RouteDurationOf(s: BookingService, h: nat, m: nat)
    ensures s.defaultDuration.None? || s.defaultDuration == Some("") ==> RouteDuration(s) == 60
    ensures s.defaultDuration == Some("PT" + Numeral(h) + "H" + Numeral(m) + "M") ==> RouteDuration(s) == h * 60 + m
  {
    if s.defaultDuration == Some("PT" + Numeral(h) + "H" + Numeral(m) + "M") {
      HoursAndMinutes(h, m);
    }
  }

  // The availability search.

  /** The body of an availability search. */
  datatype AvailabilityRequest = AvailabilityRequest(
    brandId: Option<string>,
    serviceId: Option<string>,
    employeeId: Option<string>,
    startDate: Option<string>,
    endDate: Option<string>)

  /** The schema accepts the body. */
  predicate AvailabilityParsed(req: AvailabilityRequest)
  {
    req.brandId.Some? && req.serviceId.Some? && req.employeeId.Some? && req.startDate.Some? && req.endDate.Some?
  }

  /**
   * The slots the search answers with: the first 20 of the 09:00 to 17:00
   * grid over the service, brand and employee calendars; none when either
   * date is invalid, since every comparison with an invalid date fails.
   */
  function RouteSlots(p: Provider, ctx: Context, startDate: Option<int>, endDate: Option<int>): seq<TimeSlot>
  {
    if startDate.None? || endDate.None? then []
    else
      Take(GridFrom(p, Business(ctx), ctx.brand.calendarId, ctx.employee.primaryCalendarId,
                    startDate.value, endDate.value, RouteDuration(ctx.service), 9, 17), MaxSlots)
  }

  /**
   * The availability `POST`: the lookups, then the slot loop, then the first
   * 20 slots. A body the schema rejects, and a failed request for the
   * services, give 500.
   */
  method PostAvailability(settings: SettingsData, dir: Directory, p: Provider, parseDate: string -> Option<int>,
                          req: AvailabilityRequest)
    returns (r: Reply<seq<TimeSlot>>)
    ensures !AvailabilityParsed(req) ==> r == Failure(500, CheckFailed)
    ensures AvailabilityParsed(req) ==>
      var a := Admit(settings, dir, req.brandId.value, req.employeeId.value, req.serviceId.value,
                     InvalidBrandOrEmployeeId, CheckFailed);
      && (a.Failure? ==> r == Failure(a.status, a.error))
      && (a.Success? ==> r == Success(RouteSlots(p, a.body, parseDate(req.startDate.value), parseDate(req.endDate.value))))
  {
    if !AvailabilityParsed(req) {
      return Failure(500, CheckFailed);
    }
    var admitted := Admit(settings, dir, req.brandId.value, req.employeeId.value, req.serviceId.value,
                          InvalidBrandOrEmployeeId, CheckFailed);
    if admitted.Failure? {
      return Failure(admitted.status, admitted.error);
    }
    var ctx := admitted.body;
    var startDate := parseDate(req.startDate.value);
    var endDate := parseDate(req.endDate.value);
    var durationMinutes := 60;
    if ctx.service.defaultDuration.Some? && ctx.service.defaultDuration.value != "" {
      durationMinutes := DurationMinutes(ctx.service.defaultDuration.value);
    }
    var slots: seq<TimeSlot> := [];
    if startDate.Some? && endDate.Some? {
      slots := GetAvailableSlots(p, Business(ctx), ctx.brand.calendarId, ctx.employee.primaryCalendarId,
                                 startDate.value, endDate.value, durationMinutes, 9, 17);
    }
    r := Success(Take(slots, MaxSlots));
  }

  /**
   * The answer holds at most 20 slots, the first ones in generation order;
   * each starts at 09:00 or later on a half hour, lasts the route's duration,
   * ends by 17:00 of its day and is free in all three calendars.
   */
  lemma RouteSlotsSound(p: Provider, ctx: Context, startDate: int, endDate: int)
    ensures var grid := GridFrom(p, Business(ctx), ctx.brand.calendarId, ctx.employee.primaryCalendarId,
                                 startDate, endDate, RouteDuration(ctx.service), 9, 17);
      var slots := RouteSlots(p, ctx, Some(startDate), Some(endDate));
      && |slots| == (if |grid| < MaxSlots then |grid| else MaxSlots)
      && (forall i :: 0 <= i < |slots| ==> slots[i] == grid[i])
      && forall slot :: slot in slots ==>
           && 9 <= HourOf(slot.start)
           && MinuteOfDay(slot.start) % SlotStep == 0
           && slot.end == slot.start + RouteDuration(ctx.service)
           && slot.end <= DayStart(slot.start) + 17 * 60
           && CheckAvailability(p, Business(ctx), ctx.brand.calendarId, ctx.employee.primaryCalendarId,
                                slot.start, slot.end)
  {
    var grid := GridFrom(p, Business(ctx), ctx.brand.calendarId, ctx.employee.primaryCalendarId,
                         startDate, endDate, RouteDuration(ctx.service), 9, 17);
    var slots := RouteSlots(p, ctx, Some(startDate), Some(endDate));
    DefaultHoursSlots(p, Business(ctx), ctx.brand.calendarId, ctx.employee.primaryCalendarId,
                      startDate, endDate, RouteDuration(ctx.service));
    GridSound(p, Business(ctx), ctx.brand.calendarId, ctx.employee.primaryCalendarId,
              startDate, endDate, RouteDuration(ctx.service), 9, 17);
    forall slot | slot in slots ensures slot in grid {
      var i :| 0 <= i < |slots| && slots[i] == slot;
      assert grid[i] == slot;
    }
  }

  // The booking creation.

  /** The body of a booking request; `customerPhone` is optional. */
  datatype BookingRequest = BookingRequest(
    brandId: Option<string>,
    serviceId: Option<string>,
    employeeId: Option<string>,
    customerName: Option<string>,
    customerEmail: Option<string>,
    customerPhone: OptionalText,
    startTime: Option<string>,
    endTime: Option<string>)

  /**
   * The schema accepts the body: every required field is a string, the
   * address is an email, and the optional phone is missing or a string.
   */
  predicate BookingParsed(req: BookingRequest, isEmail: string -> bool)
  {
    && req.brandId.Some? && req.serviceId.Some? && req.employeeId.Some? && req.customerName.Some?
    && req.customerEmail.Some? && req.startTime.Some? && req.endTime.Some?
    && isEmail(req.customerEmail.value)
    && !req.customerPhone.Mistyped?
  }

  /** The success body: the appointment id, the number of staff members and the message. */
  datatype BookingCreated = BookingCreated(bookingId: string, staffMembers: nat, message: string)

  /**
   * The final check of the slot over the three calendars; an invalid date
   * makes the calendar query throw inside the check, which answers `false`.
   */
  predicate SlotAvailable(p: Provider, ctx: Context, start: Option<int>, end: Option<int>)
  {
    start.Some? && end.Some? &&
    CheckAvailability(p, Business(ctx), ctx.brand.calendarId, ctx.employee.primaryCalendarId, start.value, end.value)
  }

  /** The staff of the appointment: the employee's Bookings id, then the brand calendar's when it has one. */
  function StaffMemberIds(employeeStaffId: string, brandStaffId: Option<string>): seq<string>
  {
    [employeeStaffId] + (if brandStaffId.Some? then [brandStaffId.value] else [])
  }

  /** There are one or two staff ids, the employee's first, two exactly when the brand calendar has one. */
  lemma StaffMemberIdsShape(employeeStaffId: string, brandStaffId: Option<string>)
    ensures var ids := StaffMemberIds(employeeStaffId, brandStaffId);
      && 1 <= |ids| <= 2
      && ids[0] == employeeStaffId
      && (|ids| == 2 <==> brandStaffId.Some?)
      && (brandStaffId.Some? ==> ids[1] == brandStaffId.value)
  {
  }

  /** The appointment the route creates. */
  function AppointmentOf(req: BookingRequest, ctx: Context, staffIds: seq<string>, start: int, end: int): Appointment
    requires req.serviceId.Some? && req.customerName.Some? && req.customerEmail.Some?
  {
    Appointment(req.serviceId.value, staffIds, start, end, req.customerName.value, req.customerEmail.value,
                OrElse(GivenText(req.customerPhone), ""))
  }

  /**
   * The booking `POST` and the writes it issues. Every guard answers before
   * any write; past them the route issues exactly one write, the Bookings
   * appointment (the brand-calendar event it builds is never sent).
   */
  method PostBooking(settings: SettingsData, dir: Directory, p: Provider, gw: Gateway,
                     parseDate: string -> Option<int>, isEmail: string -> bool, req: BookingRequest)
    returns (calls: seq<Call>, r: Reply<BookingCreated>)
    ensures !BookingParsed(req, isEmail) ==> calls == [] && r == Failure(500, CreateFailed)
    ensures BookingParsed(req, isEmail) ==>
      var a := Admit(settings, dir, req.brandId.value, req.employeeId.value, req.serviceId.value,
                     InvalidBrandOrEmployee, CreateFailed);
      var start := parseDate(req.startTime.value);
      var end := parseDate(req.endTime.value);
      && (a.Failure? ==> calls == [] && r == Failure(a.status, a.error))
      && (a.Success? && !SlotAvailable(p, a.body, start, end) ==> calls == [] && r == Failure(409, SlotGone))
      && (a.Success? && SlotAvailable(p, a.body, start, end) ==>
            var employeeStaffId := FindStaffMemberIdByEmail(dir, Business(a.body), a.body.employee.email);
            var brandStaffId := FindStaffMemberIdByEmail(dir, Business(a.body), a.body.brand.calendarId);
            && (employeeStaffId.None? ==> calls == [] && r == Failure(400, EmployeeNotStaff))
            && (employeeStaffId.Some? ==>
                  var ids := StaffMemberIds(employeeStaffId.value, brandStaffId);
                  var appointment := AppointmentOf(req, a.body, ids, start.value, end.value);
                  var created := gw.createAppointment(Business(a.body), appointment);
                  && calls == [CreateAppointment(Business(a.body), appointment)]
                  && (created.None? ==> r == Failure(500, AppointmentFailed))
                  && (created.Some? ==>
                        r == Success(BookingCreated(created.value, |ids|,
                                                    if brandStaffId.Some? then BothCalendars else EmployeeOnly)))))
  {
    calls := [];
    if !BookingParsed(req, isEmail) {
      return [], Failure(500, CreateFailed);
    }
    var admitted := Admit(settings, dir, req.brandId.value, req.employeeId.value, req.serviceId.value,
                          InvalidBrandOrEmployee, CreateFailed);
    if admitted.Failure? {
      return [], Failure(admitted.status, admitted.error);
    }
    var ctx := admitted.body;
    var startTime := parseDate(req.startTime.value);
    var endTime := parseDate(req.endTime.value);
    var isAvailable := SlotAvailable(p, ctx, startTime, endTime);
    if !isAvailable {
      return [], Failure(409, SlotGone);
    }
    var employeeStaffMemberId := FindStaffMemberIdByEmail(dir, Business(ctx), ctx.employee.email);
    if employeeStaffMemberId.None? {
      return [], Failure(400, EmployeeNotStaff);
    }
    var brandStaffMemberId := FindStaffMemberIdByEmail(dir, Business(ctx), ctx.brand.calendarId);
    var staffMemberIds := [employeeStaffMemberId.value];
    if brandStaffMemberId.Some? {
      staffMemberIds := staffMemberIds + [brandStaffMemberId.value];
    }
    assert staffMemberIds == StaffMemberIds(employeeStaffMemberId.value, brandStaffMemberId);
    var bookingAppointment := AppointmentOf(req, ctx, staffMemberIds, startTime.value, endTime.value);
    calls := [CreateAppointment(Business(ctx), bookingAppointment)];
    var created := gw.createAppointment(Business(ctx), bookingAppointment);
    if created.None? {
      return calls, Failure(500, AppointmentFailed);
    }
    var message := if brandStaffMemberId.Some? then BothCalendars else EmployeeOnly;
    r := Success(BookingCreated(created.value, |staffMemberIds|, message));
  }

  /**
   * A created booking names the appointment id the provider returned, counts
   * one or two staff members, and says "both calendars" exactly when the
   * brand calendar is a Bookings staff member; every staff id is non-empty.
   */
  lemma CreatedBookingShape(dir: Directory, ctx: Context, id: string)
    requires FindStaffMemberIdByEmail(dir, Business(ctx), ctx.employee.email).Some?
    ensures var brandStaffId := FindStaffMemberIdByEmail(dir, Business(ctx), ctx.brand.calendarId);
      var ids := StaffMemberIds(FindStaffMemberIdByEmail(dir, Business(ctx), ctx.employee.email).value, brandStaffId);
      var created := BookingCreated(id, |ids|, if brandStaffId.Some? then BothCalendars else EmployeeOnly);
      && 1 <= created.staffMembers <= 2
      && (created.staffMembers == 2 <==> created.message == BothCalendars)
      && forall i :: 0 <= i < |ids| ==> ids[i] != ""
  {
    var brandStaffId := FindStaffMemberIdByEmail(dir, Business(ctx), ctx.brand.calendarId);
    StaffMemberIdsShape(FindStaffMemberIdByEmail(dir, Business(ctx), ctx.employee.email).value, brandStaffId);
  }
}
