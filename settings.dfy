/**
 * The static configuration of brands and employees, the lookups over it,
 * and the Microsoft Bookings directory the configuration refers to (its
 * services and staff members per business), which is read through oracle
 * functions. Every lookup is a function of the configuration, so none of
 * them can change it.
 */
module Settings {
  import opened Common
  import opened JsString

  /**
   * A brand. `sharedMailbox` is not declared by the configuration's type but
   * is read by the calendar routes; it is absent unless the data carries it.
   */
  datatype BrandConfig = BrandConfig(
    id: string,
    name: string,
    domain: string,
    calendarId: string,
    msBookingsBusinessId: string,
    sharedMailbox: Option<string>)

  /** An employee and the brands they work for. */
  datatype EmployeeConfig = EmployeeConfig(
    id: string,
    name: string,
    email: string,
    primaryCalendarId: string,
    brands: seq<string>,
    msBookingsStaffMemberId: Option<string>)

  /** The configuration file. */
  datatype SettingsData = SettingsData(brands: seq<BrandConfig>, employees: seq<EmployeeConfig>)

  /** A service of a brand as the calendar routes look it up. */
  datatype ServiceConfig = ServiceConfig(id: string, name: string)

  /** A Microsoft Bookings service; `defaultDuration` is an ISO 8601 duration text. */
  datatype BookingService = BookingService(id: string, displayName: string, defaultDuration: Option<string>)

  /** A Microsoft Bookings staff member. */
  datatype StaffMember = StaffMember(id: string, emailAddress: Option<string>)

  /**
   * The Microsoft Bookings directory by business id (`None` when the request
   * throws), and `getServiceById(brandId, serviceId)`, whose definition is not
   * part of this model.
   */
  datatype Directory = Directory(
    services: string -> Option<seq<BookingService>>,
    staffMembers: string -> Option<seq<StaffMember>>,
    serviceById: (string, string) -> Option<ServiceConfig>)

  /** `getBrandById`: the first brand with that id. */
  function GetBrandById(settings: SettingsData, brandId: string): (r: Option<BrandConfig>)
    ensures r.None? <==> forall i :: 0 <= i < |settings.brands| ==> settings.brands[i].id != brandId
    ensures r.Some? ==>
      r.value.id == brandId &&
      exists k :: FirstMatch(settings.brands, (b: BrandConfig) => b.id == brandId, k) && settings.brands[k] == r.value
  {
    Find(settings.brands, (b: BrandConfig) => b.id == brandId)
  }

  /** `getEmployeeById`: the first employee with that id. */
  function GetEmployeeById(settings: SettingsData, employeeId: string): (r: Option<EmployeeConfig>)
    ensures r.None? <==> forall i :: 0 <= i < |settings.employees| ==> settings.employees[i].id != employeeId
    ensures r.Some? ==>
      r.value.id == employeeId &&
      exists k :: FirstMatch(settings.employees, (e: EmployeeConfig) => e.id == employeeId, k) && settings.employees[k] == r.value
  {
    Find(settings.employees, (e: EmployeeConfig) => e.id == employeeId)
  }

  /** The employee lists the brand. */
  predicate WorksFor(e: EmployeeConfig, brandId: string)
  {
    brandId in e.brands
  }

  /** `getEmployeesForBrand`: exactly the employees of the brand, in configuration order. */
  function GetEmployeesForBrand(settings: SettingsData, brandId: string): (r: seq<EmployeeConfig>)
    ensures forall e :: e in r <==> e in settings.employees && WorksFor(e, brandId)
    ensures Subsequence(r, settings.employees)
  {
    var p := (e: EmployeeConfig) => WorksFor(e, brandId);
    FilterExact(settings.employees, p);
    FilterSubsequence(settings.employees, p);
    Filter(settings.employees, p)
  }

  /** The staff member's address equals `email` ignoring case; a staff member without one matches nothing. */
  predicate EmailMatches(email: string, s: StaffMember)
  {
    s.emailAddress.Some? && Lower(s.emailAddress.value) == Lower(email)
  }

  /**
   * `findStaffMemberIdByEmail`: the id of the first staff member of the
   * business whose address matches; `None` when the directory request throws,
   * when nobody matches, or when the match has an empty id.
   */
  function FindStaffMemberIdByEmail(dir: Directory, msBookingsBusinessId: string, email: string): (r: Option<string>)
    ensures r.Some? ==>
      r.value != "" && dir.staffMembers(msBookingsBusinessId).Some? &&
      var staff := dir.staffMembers(msBookingsBusinessId).value;
      exists k :: FirstMatch(staff, (s: StaffMember) => EmailMatches(email, s), k) && staff[k].id == r.value
    ensures r.None? <==>
      (dir.staffMembers(msBookingsBusinessId).None? ||
       var staff := dir.staffMembers(msBookingsBusinessId).value;
       forall k :: FirstMatch(staff, (s: StaffMember) => EmailMatches(email, s), k) ==> staff[k].id == "")
  {
    match dir.staffMembers(msBookingsBusinessId)
    case None => None
    case Some(staff) =>
      var p := (s: StaffMember) => EmailMatches(email, s);
      var m := Find(staff, p);
      if m.Some? && m.value.id != "" then
        forall k | FirstMatch(staff, p, k) ensures staff[k].id == m.value.id {
          var k' :| FirstMatch(staff, p, k') && staff[k'] == m.value;
          FirstMatchUnique(staff, p, k, k');
        }
        Some(m.value.id)
      else
        None
  }

  /** `services.find(s => s.id === serviceId)` over a business's services. */
  function FindServiceById(services: seq<BookingService>, serviceId: string): (r: Option<BookingService>)
    ensures r.None? <==> forall i :: 0 <= i < |services| ==> services[i].id != serviceId
    ensures r.Some? ==> r.value.id == serviceId && r.value in services
    ensures r.Some? ==> exists k :: 0 <= k < |services| && services[k] == r.value
                                    && forall j :: 0 <= j < k ==> services[j].id != serviceId
  {
    Find(services, (s: BookingService) => s.id == serviceId)
  }
}
