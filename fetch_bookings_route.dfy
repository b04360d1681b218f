/**
 * The administrator's import of the Microsoft Bookings directory: it reads
 * every booking business and its staff, derives a brand record per business,
 * and merges the staff of all businesses into one employee record per email
 * address, in the shape of the configuration file.
 *
 * The list of businesses is a parameter (`None` when the request fails) and
 * the staff request of a business is the oracle `staffOf`, which gives the
 * staff or the thrown error's message.
 */
module FetchBookingsRoute {
  import opened Common
  import opened JsString

  const FetchFailed: string := "Failed to fetch bookings data"
  const StaffFailedPrefix: string := "Failed to fetch staff: "
  const DefaultDomain: string := "example.com"
  const NotAvailable: string := "N/A"

  /** A booking business as the directory lists it. */
  datatype Business = Business(id: string, displayName: string, email: Option<string>, phone: Option<string>)

  /** A staff member as the directory lists it. */
  datatype Member = Member(id: string, displayName: string, emailAddress: Option<string>, role: Option<string>)

  /** The raw records the route returns. */
  datatype BusinessRecord = BusinessRecord(id: string, displayName: string, email: Option<string>, phone: string)
  datatype StaffRecord = StaffRecord(id: string, displayName: string, emailAddress: Option<string>, role: string)
  datatype BusinessData = BusinessData(business: BusinessRecord, staff: seq<StaffRecord>, error: Option<string>)

  /** The derived configuration records. */
  datatype BrandRecord = BrandRecord(id: string, name: string, domain: string, calendarId: string,
                                     msBookingsBusinessId: string)
  datatype EmployeeRecord = EmployeeRecord(id: string, name: string, email: string, primaryCalendarId: string,
                                           brands: seq<string>)
  datatype SettingsStructure = SettingsStructure(brands: seq<BrandRecord>, employees: seq<EmployeeRecord>)

  /** The success body. */
  datatype FetchResult = FetchResult(businessesCount: nat, rawData: seq<BusinessData>, settingsStructure: SettingsStructure)

  /** `text || fallback` for an optional text. */
  function OrText(o: Option<string>, fallback: string): string
  {
    if o.Some? && o.value != "" then o.value else fallback
  }

  // The raw data.

  function StaffRecordOf(m: Member): StaffRecord
  {
    StaffRecord(m.id, m.displayName, m.emailAddress, OrText(m.role, NotAvailable))
  }

  /** The raw data of a business: its staff, or no staff and the error when the staff request fails. */
  function BusinessDataOf(b: Business, staffOf: string -> Result<seq<Member>>): (d: BusinessData)
    ensures d.business.id == b.id
    ensures d.error.Some? <==> staffOf(b.id).Err?
    ensures staffOf(b.id).Err? ==> d.staff == [] && d.error == Some(StaffFailedPrefix + staffOf(b.id).message)
    ensures staffOf(b.id).Ok? ==>
      |d.staff| == |staffOf(b.id).value|
      && forall j :: 0 <= j < |d.staff| ==> d.staff[j].emailAddress == staffOf(b.id).value[j].emailAddress
                                            && d.staff[j].displayName == staffOf(b.id).value[j].displayName
  {
    var record := BusinessRecord(b.id, b.displayName, b.email, OrText(b.phone, NotAvailable));
    match staffOf(b.id)
    case Ok(members) =>
      BusinessData(record, seq(|members|, j requires 0 <= j < |members| => StaffRecordOf(members[j])), None)
    case Err(message) => BusinessData(record, [], Some(StaffFailedPrefix + message))
  }

  /** The loop over the businesses: one entry per business, in order, whether or not its staff could be read. */
  method GatherBusinessData(businesses: seq<Business>, staffOf: string -> Result<seq<Member>>)
    returns (data: seq<BusinessData>)
    ensures |data| == |businesses|
    ensures forall i :: 0 <= i < |businesses| ==> data[i] == BusinessDataOf(businesses[i], staffOf)
  {
    data := [];
    for i := 0 to |businesses|
      invariant |data| == i
      invariant forall k :: 0 <= k < i ==> data[k] == BusinessDataOf(businesses[k], staffOf)
    {
      data := data + [BusinessDataOf(businesses[i], staffOf)];
    }
  }

  // The brand records.

  /** The brand id of a business: its name lowercased, with all white space removed. */
  function BrandIdOf(displayName: string): string
  {
    Filter(Lower(displayName), (c: char) => !IsSpace(c))
  }

  /** `email?.split('@')[1] || 'example.com'`: the text between the first and any second `@`. */
  function DomainOf(email: Option<string>): string
  {
    if email.Some? && |Split(email.value, '@')| > 1 && Split(email.value, '@')[1] != "" then Split(email.value, '@')[1]
    else DefaultDomain
  }

  function BrandOf(b: Business): BrandRecord
  {
    BrandRecord(BrandIdOf(b.displayName), b.displayName, DomainOf(b.email), OrText(b.email, ""), b.id)
  }

  function Brands(businesses: seq<Business>): (r: seq<BrandRecord>)
    ensures |r| == |businesses| && forall i :: 0 <= i < |r| ==> r[i] == BrandOf(businesses[i])
  {
    seq(|businesses|, i requires 0 <= i < |businesses| => BrandOf(businesses[i]))
  }

  /**
   * A derived brand: its id has no white space and no capital ASCII letter,
   * its domain is never empty and is the part after the email's `@` when
   * that part exists and has no further `@`, and its calendar is the email.
   */
  lemma BrandRecordShape(b: Business)
    ensures var r := BrandOf(b);
      && (forall i :: 0 <= i < |r.id| ==> !IsSpace(r.id[i]) && !('A' <= r.id[i] <= 'Z'))
      && r.domain != ""
      && (b.email.None? ==> r.domain == DefaultDomain && r.calendarId == "")
      && (b.email.Some? ==> r.calendarId == b.email.value)
      && r.msBookingsBusinessId == b.id && r.name == b.displayName
    ensures forall local: string, domain: string ::
      b.email == Some(local + "@" + domain) && '@' !in local && '@' !in domain && domain != "" ==>
        BrandOf(b).domain == domain
  {
    var r := BrandOf(b);
    forall i | 0 <= i < |r.id| ensures !IsSpace(r.id[i]) && !('A' <= r.id[i] <= 'Z') {
      assert r.id[i] in r.id;
      var k :| 0 <= k < |Lower(b.displayName)| && Lower(b.displayName)[k] == r.id[i];
    }
    forall local: string, domain: string |
      b.email == Some(local + "@" + domain) && '@' !in local && '@' !in domain && domain != ""
      ensures BrandOf(b).domain == domain
    {
      assert local + "@" + domain == Join([local, domain], '@');
      SplitJoin([local, domain], '@');
    }
  }

  /** `brands.find(b => b.msBookingsBusinessId === id)?.id`. */
  function BrandIdFor(brands: seq<BrandRecord>, businessId: string): Option<string>
  {
    match Find(brands, (b: BrandRecord) => b.msBookingsBusinessId == businessId)
    case None => None
    case Some(b) => Some(b.id)
  }

  /** Every business of the listing finds a brand, the one derived from the first business with its id. */
  lemma BrandFound(businesses: seq<Business>, i: nat)
    requires i < |businesses|
    ensures BrandIdFor(Brands(businesses), businesses[i].id).Some?
  {
    assert (Brands(businesses)[i]).msBookingsBusinessId == businesses[i].id;
  }

  // The staff occurrences, in the order the merge visits them.

  /** A staff member seen under a business: the brand id, the address and the name. */
  datatype Occurrence = Occurrence(brandId: string, email: string, name: string)

  /** Some listed staff member has no address; reading its local part throws. */
  ghost predicate MissingEmail(data: seq<BusinessData>)
  {
    exists i, j :: 0 <= i < |data| && 0 <= j < |data[i].staff| && data[i].staff[j].emailAddress.None?
  }

  /** Every listed staff member has an address. */
  ghost predicate Addressed(staff: seq<StaffRecord>)
  {
    forall j :: 0 <= j < |staff| ==> staff[j].emailAddress.Some?
  }

  /**
   * The brand id the merge uses for a business: the found one, else the
   * empty text (which the merge treats like the missing id: it is never
   * added to an existing employee).
   */
  function MergeBrandId(brands: seq<BrandRecord>, d: BusinessData): string
  {
    OrElse(BrandIdFor(brands, d.business.id), "")
  }

  /** The occurrences of one business's staff, in order. */
  function StaffOccurrences(staff: seq<StaffRecord>, brandId: string): seq<Occurrence>
    decreases |staff|
  {
    if |staff| == 0 then []
    else
      var m := staff[|staff| - 1];
      StaffOccurrences(staff[..|staff| - 1], brandId) + [Occurrence(brandId, OrElse(m.emailAddress, ""), m.displayName)]
  }

  lemma {:induction false} StaffOccurrencesAt(staff: seq<StaffRecord>, brandId: string)
    ensures var r := StaffOccurrences(staff, brandId);
      |r| == |staff|
      && forall j :: 0 <= j < |r| ==> r[j] == Occurrence(brandId, OrElse(staff[j].emailAddress, ""), staff[j].displayName)
    decreases |staff|
  {
    if |staff| > 0 {
      StaffOccurrencesAt(staff[..|staff| - 1], brandId);
    }
  }

  function OccurrencesOf(data: seq<BusinessData>, brands: seq<BrandRecord>): seq<Occurrence>
    decreases |data|
  {
    if |data| == 0 then []
    else OccurrencesOf(data[..|data| - 1], brands) + StaffOccurrences(data[|data| - 1].staff, MergeBrandId(brands, data[|data| - 1]))
  }

  /** A staff member of some business is listed with the address. */
  ghost predicate Listed(data: seq<BusinessData>, email: string)
  {
    exists i, j :: 0 <= i < |data| && 0 <= j < |data[i].staff| && data[i].staff[j].emailAddress == Some(email)
  }

  /** When every member has an address, the occurrences carry exactly the listed addresses. */
  lemma {:induction false} OccurrencesAreListed(data: seq<BusinessData>, brands: seq<BrandRecord>)
    requires !MissingEmail(data)
    ensures forall e :: e in OccurrenceEmails(OccurrencesOf(data, brands)) <==> Listed(data, e)
    decreases |data|
  {
    if |data| > 0 {
      var n := |data| - 1;
      var init := data[..n];
      forall i, j | 0 <= i < |init| && 0 <= j < |init[i].staff| ensures init[i].staff[j].emailAddress.Some? {
        assert init[i] == data[i];
      }
      OccurrencesAreListed(init, brands);
      var before := OccurrencesOf(init, brands);
      var here := StaffOccurrences(data[n].staff, MergeBrandId(brands, data[n]));
      StaffEmails(data[n].staff, MergeBrandId(brands, data[n]));
      assert OccurrenceEmails(before + here) == OccurrenceEmails(before) + OccurrenceEmails(here);
      forall e ensures e in OccurrenceEmails(before + here) <==> Listed(data, e) {
        ListedSplit(data, e);
      }
    }
  }

  /** The occurrences of a fully addressed staff carry exactly its addresses. */
  lemma StaffEmails(staff: seq<StaffRecord>, brandId: string)
    requires Addressed(staff)
    ensures forall e :: e in OccurrenceEmails(StaffOccurrences(staff, brandId)) <==> HasAddress(staff, e)
  {
    var here := StaffOccurrences(staff, brandId);
    StaffOccurrencesAt(staff, brandId);
    forall e ensures e in OccurrenceEmails(here) <==> HasAddress(staff, e) {
      if e in OccurrenceEmails(here) {
        var j :| 0 <= j < |here| && OccurrenceEmails(here)[j] == e;
        assert staff[j].emailAddress.Some?;
      }
      if HasAddress(staff, e) {
        var j :| 0 <= j < |staff| && staff[j].emailAddress == Some(e);
        assert OccurrenceEmails(here)[j] == e;
      }
    }
  }

  /** A member of the staff has the address. */
  ghost predicate HasAddress(staff: seq<StaffRecord>, e: string)
  {
    exists j :: 0 <= j < |staff| && staff[j].emailAddress == Some(e)
  }

  lemma ListedSplit(data: seq<BusinessData>, e: string)
    requires |data| > 0
    ensures Listed(data, e) <==> Listed(data[..|data| - 1], e)
                                 || HasAddress(data[|data| - 1].staff, e)
  {
    var n, init := |data| - 1, data[..|data| - 1];
    if Listed(init, e) {
      var i, j :| 0 <= i < |init| && 0 <= j < |init[i].staff| && init[i].staff[j].emailAddress == Some(e);
      assert data[i] == init[i];
    }
    if Listed(data, e) {
      var i, j :| 0 <= i < |data| && 0 <= j < |data[i].staff| && data[i].staff[j].emailAddress == Some(e);
      if i < n {
        assert init[i] == data[i];
      }
    }
  }

  // The merge, on values.

  /** The local part of an address: the text before its first `@`. */
  function LocalPart(email: string): string
  {
    Split(email, '@')[0]
  }

  /** The record a first occurrence creates. */
  function NewRecord(o: Occurrence): EmployeeRecord
  {
    EmployeeRecord(LocalPart(o.email), o.name, o.email, o.email, [o.brandId])
  }

  /** A known record seeing a brand id again: it gains a non-empty id it does not hold yet. */
  function Grow(r: EmployeeRecord, brandId: string): EmployeeRecord
  {
    if brandId != "" && brandId !in r.brands then r.(brands := r.brands + [brandId]) else r
  }

  function Emails(rs: seq<EmployeeRecord>): (r: seq<string>)
    ensures |r| == |rs| && forall i :: 0 <= i < |rs| ==> r[i] == rs[i].email
  {
    seq(|rs|, i requires 0 <= i < |rs| => rs[i].email)
  }

  /** The position of the record for `email`, if there is one. */
  function IndexOfEmail(rs: seq<EmployeeRecord>, email: string): (r: Option<nat>)
    ensures r.None? <==> email !in Emails(rs)
    ensures r.Some? ==> r.value < |rs| && rs[r.value].email == email
                        && forall k :: 0 <= k < r.value ==> rs[k].email != email
    decreases |rs|
  {
    if |rs| == 0 then None
    else if rs[0].email == email then Some(0)
    else
      var r := IndexOfEmail(rs[1..], email);
      assert Emails(rs) == [rs[0].email] + Emails(rs[1..]);
      if r.None? then None else Some(r.value + 1)
  }

  /** One step of the merge: a new address adds its record last; a known one may gain the brand id. */
  function Absorb(rs: seq<EmployeeRecord>, o: Occurrence): seq<EmployeeRecord>
  {
    match IndexOfEmail(rs, o.email)
    case None => rs + [NewRecord(o)]
    case Some(i) => rs[i := Grow(rs[i], o.brandId)]
  }

  /** The employees the merge produces from the occurrences, in order. */
  function Consolidate(os: seq<Occurrence>): seq<EmployeeRecord>
    decreases |os|
  {
    if |os| == 0 then [] else Absorb(Consolidate(os[..|os| - 1]), os[|os| - 1])
  }

  function OccurrenceEmails(os: seq<Occurrence>): (r: seq<string>)
    ensures |r| == |os| && forall k :: 0 <= k < |os| ==> r[k] == os[k].email
  {
    seq(|os|, k requires 0 <= k < |os| => os[k].email)
  }

  /** The texts of `s` without repetition, each at its first position. */
  function FirstOccurrences(s: seq<string>): (r: seq<string>)
    ensures forall x :: x in r <==> x in s
    ensures forall i, j :: 0 <= i < j < |r| ==> r[i] != r[j]
    decreases |s|
  {
    if |s| == 0 then []
    else
      var d := FirstOccurrences(s[..|s| - 1]);
      assert forall x :: x in s <==> x in s[..|s| - 1] || x == s[|s| - 1] by {
        assert s == s[..|s| - 1] + [s[|s| - 1]];
      }
      if s[|s| - 1] in d then d else d + [s[|s| - 1]]
  }

  /** The merge keeps one record per distinct address, in the order the addresses first occur. */
  lemma {:induction false} ConsolidateEmails(os: seq<Occurrence>)
    ensures Emails(Consolidate(os)) == FirstOccurrences(OccurrenceEmails(os))
    decreases |os|
  {
    if |os| > 0 {
      var init, o := os[..|os| - 1], os[|os| - 1];
      ConsolidateEmails(init);
      var prev := Consolidate(init);
      assert OccurrenceEmails(os)[..|os| - 1] == OccurrenceEmails(init);
      AbsorbEmails(prev, o);
    }
  }

  /** A step of the merge adds the address to the record addresses when it is new, and changes none otherwise. */
  lemma AbsorbEmails(rs: seq<EmployeeRecord>, o: Occurrence)
    ensures Emails(Absorb(rs, o)) == if o.email in Emails(rs) then Emails(rs) else Emails(rs) + [o.email]
  {
    match IndexOfEmail(rs, o.email)
    case None =>
      assert Emails(rs + [NewRecord(o)]) == Emails(rs) + [o.email];
    case Some(idx) =>
      assert Emails(rs[idx := Grow(rs[idx], o.brandId)]) == Emails(rs);
  }

  /** `k` is the first occurrence of the address. */
  ghost predicate FirstSeen(os: seq<Occurrence>, email: string, k: int)
  {
    0 <= k < |os| && os[k].email == email && forall j :: 0 <= j < k ==> os[j].email != email
  }

  /** The address occurs. */
  ghost predicate Seen(os: seq<Occurrence>, email: string)
  {
    exists k :: FirstSeen(os, email, k)
  }

  /** A non-empty brand id `x` occurs with the address. */
  ghost predicate SeenWith(os: seq<Occurrence>, email: string, x: string)
  {
    x != "" && exists k :: 0 <= k < |os| && os[k].email == email && os[k].brandId == x
  }

  /**
   * A record of the merge: its address occurs; its first occurrence fixes
   * the id (the local part), the name, the calendar and the first brand id;
   * the brands hold no duplicate and are the first brand id and every
   * non-empty brand id seen with the address.
   */
  ghost predicate Merged(os: seq<Occurrence>, r: EmployeeRecord)
  {
    && Seen(os, r.email)
    && |r.brands| >= 1
    && (forall k :: FirstSeen(os, r.email, k) ==>
          r.id == LocalPart(r.email) && r.name == os[k].name && r.primaryCalendarId == r.email
          && r.brands[0] == os[k].brandId)
    && (forall a, b :: 0 <= a < b < |r.brands| ==> r.brands[a] != r.brands[b])
    && (forall x :: x in r.brands <==> x == r.brands[0] || SeenWith(os, r.email, x))
  }

  lemma FirstSeenUnique(os: seq<Occurrence>, email: string, k1: int, k2: int)
    requires FirstSeen(os, email, k1) && FirstSeen(os, email, k2)
    ensures k1 == k2
  {
  }

  /** A record for another address than the last occurrence's stays merged when that occurrence is added. */
  lemma KeepMerged(os: seq<Occurrence>, init: seq<Occurrence>, r: EmployeeRecord)
    requires |os| > 0 && init == os[..|os| - 1] && r.email != os[|os| - 1].email
    requires Merged(init, r)
    ensures Merged(os, r)
  {
    var k0 :| FirstSeen(init, r.email, k0);
    assert FirstSeen(os, r.email, k0);
    forall k | FirstSeen(os, r.email, k) ensures FirstSeen(init, r.email, k) {
    }
    forall x ensures SeenWith(os, r.email, x) <==> SeenWith(init, r.email, x) {
      if SeenWith(os, r.email, x) {
        var k :| 0 <= k < |os| && os[k].email == r.email && os[k].brandId == x;
        assert init[k] == os[k];
      }
      if SeenWith(init, r.email, x) {
        var k :| 0 <= k < |init| && init[k].email == r.email && init[k].brandId == x;
        assert os[k] == init[k];
      }
    }
  }

  /** The record a new address adds is merged. */
  lemma NewMerged(os: seq<Occurrence>)
    requires |os| > 0
    requires forall j :: 0 <= j < |os| - 1 ==> os[j].email != os[|os| - 1].email
    ensures Merged(os, NewRecord(os[|os| - 1]))
  {
    var o, r := os[|os| - 1], NewRecord(os[|os| - 1]);
    assert FirstSeen(os, r.email, |os| - 1);
    forall k | FirstSeen(os, r.email, k) ensures k == |os| - 1 {
      FirstSeenUnique(os, r.email, k, |os| - 1);
    }
    forall x | SeenWith(os, r.email, x) ensures x == r.brands[0] {
      var k :| 0 <= k < |os| && os[k].email == r.email && os[k].brandId == x;
      assert k == |os| - 1;
    }
  }

  /** A known address's record stays merged when it may gain the last occurrence's brand id. */
  lemma GrowMerged(os: seq<Occurrence>, init: seq<Occurrence>, r: EmployeeRecord)
    requires |os| > 0 && init == os[..|os| - 1] && r.email == os[|os| - 1].email
    requires Merged(init, r)
    ensures Merged(os, Grow(r, os[|os| - 1].brandId))
  {
    var o, r' := os[|os| - 1], Grow(r, os[|os| - 1].brandId);
    var k0 :| FirstSeen(init, r.email, k0);
    assert FirstSeen(os, r.email, k0);
    forall k | FirstSeen(os, r'.email, k) ensures k == k0 {
      FirstSeenUnique(os, r.email, k, k0);
    }
    forall x ensures x in r'.brands <==> x == r'.brands[0] || SeenWith(os, r'.email, x) {
      if SeenWith(init, r.email, x) {
        var k :| 0 <= k < |init| && init[k].email == r.email && init[k].brandId == x;
        assert os[k] == init[k];
      }
      if SeenWith(os, r'.email, x) {
        var k :| 0 <= k < |os| && os[k].email == r'.email && os[k].brandId == x;
        if k < |init| {
          assert init[k] == os[k];
        }
      }
    }
  }

  /** Every record of the merge is `Merged` with the occurrences. */
  lemma {:induction false} ConsolidateMerged(os: seq<Occurrence>)
    ensures forall i :: 0 <= i < |Consolidate(os)| ==> Merged(os, Consolidate(os)[i])
    decreases |os|
  {
    if |os| > 0 {
      var init, o := os[..|os| - 1], os[|os| - 1];
      ConsolidateMerged(init);
      ConsolidateEmails(init);
      var prev := Consolidate(init);
      var rs := Consolidate(os);
      match IndexOfEmail(prev, o.email)
      case None =>
        forall i | 0 <= i < |rs| ensures Merged(os, rs[i]) {
          if i < |prev| {
            assert Emails(prev)[i] == prev[i].email;
            KeepMerged(os, init, prev[i]);
          } else {
            forall j | 0 <= j < |os| - 1 ensures os[j].email != o.email {
              assert OccurrenceEmails(init)[j] == os[j].email;
            }
            NewMerged(os);
          }
        }
      case Some(idx) =>
        forall i | 0 <= i < |rs| ensures Merged(os, rs[i]) {
          if i != idx {
            assert Emails(prev)[i] == prev[i].email && Emails(prev)[idx] == prev[idx].email;
            KeepMerged(os, init, prev[i]);
          } else {
            GrowMerged(os, init, prev[idx]);
          }
        }
    }
  }

  /** The merge takes the occurrences one at a time, in order. */
  lemma ConsolidateSnoc(os: seq<Occurrence>, o: Occurrence)
    ensures Consolidate(os + [o]) == Absorb(Consolidate(os), o)
  {
    assert (os + [o])[..|os|] == os;
  }

  // The merge as the route runs it: a map by address and the insertion order of its keys.

  /** The map's values in the insertion order of its keys (`Array.from(allStaff.values())`). */
  function Values(allStaff: map<string, EmployeeRecord>, order: seq<string>): (r: seq<EmployeeRecord>)
    requires forall k :: k in order ==> k in allStaff
    ensures |r| == |order| && forall i :: 0 <= i < |order| ==> r[i] == allStaff[order[i]]
  {
    seq(|order|, i requires 0 <= i < |order| => allStaff[order[i]])
  }

  /** The map holds exactly the keys of `order`, once each, each record under its own address. */
  ghost predicate MapInv(allStaff: map<string, EmployeeRecord>, order: seq<string>)
  {
    && (forall k :: k in allStaff <==> k in order)
    && (forall i, j :: 0 <= i < j < |order| ==> order[i] != order[j])
    && (forall k :: k in allStaff ==> allStaff[k].email == k)
  }

  /** Adding a new address to the map is `Absorb` on its values. */
  lemma AbsorbNewOnMap(allStaff: map<string, EmployeeRecord>, order: seq<string>, o: Occurrence)
    requires MapInv(allStaff, order) && o.email !in allStaff
    ensures MapInv(allStaff[o.email := NewRecord(o)], order + [o.email])
    ensures Values(allStaff[o.email := NewRecord(o)], order + [o.email]) == Absorb(Values(allStaff, order), o)
  {
    NotFound(allStaff, order, o.email);
    ValuesAdd(allStaff, order, NewRecord(o));
  }

  /** A new address is not among the values. */
  lemma NotFound(allStaff: map<string, EmployeeRecord>, order: seq<string>, email: string)
    requires MapInv(allStaff, order) && email !in allStaff
    ensures IndexOfEmail(Values(allStaff, order), email).None?
  {
    var vs := Values(allStaff, order);
    forall i | 0 <= i < |vs| ensures Emails(vs)[i] != email {
      assert order[i] in allStaff;
    }
  }

  /** Adding a record under a new address appends it to the values and keeps the invariant. */
  lemma ValuesAdd(allStaff: map<string, EmployeeRecord>, order: seq<string>, v: EmployeeRecord)
    requires MapInv(allStaff, order) && v.email !in allStaff
    ensures MapInv(allStaff[v.email := v], order + [v.email])
    ensures Values(allStaff[v.email := v], order + [v.email]) == Values(allStaff, order) + [v]
  {
  }

  /** Updating a known address in the map is `Absorb` on its values. */
  lemma AbsorbKnownOnMap(allStaff: map<string, EmployeeRecord>, order: seq<string>, o: Occurrence)
    requires MapInv(allStaff, order) && o.email in allStaff
    ensures MapInv(allStaff[o.email := Grow(allStaff[o.email], o.brandId)], order)
    ensures Values(allStaff[o.email := Grow(allStaff[o.email], o.brandId)], order) == Absorb(Values(allStaff, order), o)
  {
    var idx := FoundAt(allStaff, order, o.email);
    var grown := Grow(allStaff[o.email], o.brandId);
    ValuesUpdate(allStaff, order, idx, grown);
    MapInvUpdate(allStaff, order, o.email, grown);
    assert Values(allStaff, order)[idx] == allStaff[o.email];
  }

  /** Replacing a known key's record by one with the same address keeps the map's invariant. */
  lemma MapInvUpdate(allStaff: map<string, EmployeeRecord>, order: seq<string>, k: string, v: EmployeeRecord)
    requires MapInv(allStaff, order) && k in allStaff && v.email == k
    ensures MapInv(allStaff[k := v], order)
  {
  }

  /** A known address is found in the values at its position in the key order. */
  lemma FoundAt(allStaff: map<string, EmployeeRecord>, order: seq<string>, email: string) returns (idx: nat)
    requires MapInv(allStaff, order) && email in allStaff
    ensures idx < |order| && order[idx] == email && IndexOfEmail(Values(allStaff, order), email) == Some(idx)
  {
    var vs := Values(allStaff, order);
    idx :| 0 <= idx < |order| && order[idx] == email;
    var found := IndexOfEmail(vs, email);
    assert Emails(vs)[idx] == email;
    assert order[found.value] in allStaff;
    assert order[found.value] == email;
  }

  /** Replacing the record under one key replaces that position of the values. */
  lemma ValuesUpdate(allStaff: map<string, EmployeeRecord>, order: seq<string>, idx: nat, v: EmployeeRecord)
    requires MapInv(allStaff, order) && idx < |order|
    ensures Values(allStaff[order[idx] := v], order) == Values(allStaff, order)[idx := v]
  {
  }

  /** One staff member merged into the map. */
  method MergeOne(allStaff: map<string, EmployeeRecord>, order: seq<string>, o: Occurrence)
    returns (allStaff': map<string, EmployeeRecord>, order': seq<string>)
    requires MapInv(allStaff, order)
    ensures MapInv(allStaff', order') && Values(allStaff', order') == Absorb(Values(allStaff, order), o)
  {
    if o.email !in allStaff {
      AbsorbNewOnMap(allStaff, order, o);
      allStaff', order' := allStaff[o.email := NewRecord(o)], order + [o.email];
    } else {
      AbsorbKnownOnMap(allStaff, order, o);
      allStaff', order' := allStaff[o.email := Grow(allStaff[o.email], o.brandId)], order;
    }
  }

  /**
   * The inner loop of the merge: the staff of one business are merged into
   * the map in order; it stops (the route throws) at a member without an
   * address.
   */
  method MergeStaff(allStaff: map<string, EmployeeRecord>, order: seq<string>, staff: seq<StaffRecord>,
                    brandId: string, ghost before: seq<Occurrence>)
    returns (ok: bool, allStaff': map<string, EmployeeRecord>, order': seq<string>)
    requires MapInv(allStaff, order) && Values(allStaff, order) == Consolidate(before)
    ensures ok <==> Addressed(staff)
    ensures ok ==> MapInv(allStaff', order')
                   && Values(allStaff', order') == Consolidate(before + StaffOccurrences(staff, brandId))
  {
    allStaff', order' := allStaff, order;
    assert staff[..0] == [];
    assert before + StaffOccurrences(staff[..0], brandId) == before;
    for j := 0 to |staff|
      invariant MapInv(allStaff', order')
      invariant Values(allStaff', order') == Consolidate(before + StaffOccurrences(staff[..j], brandId))
      invariant Addressed(staff[..j])
    {
      StaffStep(staff, brandId, j);
      var member := staff[j];
      if member.emailAddress.None? {
        return false, allStaff', order';
      }
      var o := Occurrence(brandId, member.emailAddress.value, member.displayName);
      AppendLast(before, StaffOccurrences(staff[..j], brandId), o);
      ConsolidateSnoc(before + StaffOccurrences(staff[..j], brandId), o);
      allStaff', order' := MergeOne(allStaff', order', o);
    }
    assert staff[..|staff|] == staff;
    ok := true;
  }

  /** The occurrences and the addresses of a staff list grow one member at a time. */
  lemma StaffStep(staff: seq<StaffRecord>, brandId: string, j: nat)
    requires j < |staff|
    ensures StaffOccurrences(staff[..j + 1], brandId)
            == StaffOccurrences(staff[..j], brandId)
               + [Occurrence(brandId, OrElse(staff[j].emailAddress, ""), staff[j].displayName)]
    ensures Addressed(staff[..j + 1]) <==> Addressed(staff[..j]) && staff[j].emailAddress.Some?
    ensures staff[j].emailAddress.None? ==> !Addressed(staff)
  {
    assert staff[..j + 1][..j] == staff[..j];
    assert staff[..j + 1][j] == staff[j];
    if Addressed(staff[..j]) && staff[j].emailAddress.Some? {
      var prefix := staff[..j + 1];
      forall b | 0 <= b < |prefix| ensures prefix[b].emailAddress.Some? {
        if b < j {
          assert prefix[b] == staff[..j][b];
        }
      }
    }
  }

  /**
   * The merge loop over the businesses and their staff. A staff member
   * without an address makes the route throw; otherwise the employees are
   * the merge of the occurrences in visiting order.
   */
  method ConsolidateStaff(data: seq<BusinessData>, brands: seq<BrandRecord>) returns (r: Result<seq<EmployeeRecord>>)
    ensures r.Err? <==> MissingEmail(data)
    ensures r.Ok? ==> r.value == Consolidate(OccurrencesOf(data, brands))
  {
    var allStaff: map<string, EmployeeRecord> := map[];
    var order: seq<string> := [];
    for i := 0 to |data|
      invariant MapInv(allStaff, order)
      invariant Values(allStaff, order) == Consolidate(OccurrencesOf(data[..i], brands))
      invariant !MissingEmail(data[..i])
    {
      var brandId := MergeBrandId(brands, data[i]);
      var ok;
      ok, allStaff, order := MergeStaff(allStaff, order, data[i].staff, brandId, OccurrencesOf(data[..i], brands));
      OccurrencesStep(data, brands, i);
      if !ok {
        return Err(FetchFailed);
      }
    }
    assert data[..|data|] == data;
    r := Ok(Values(allStaff, order));
  }

  /** The occurrences and the missing addresses grow one business at a time. */
  lemma OccurrencesStep(data: seq<BusinessData>, brands: seq<BrandRecord>, i: nat)
    requires i < |data|
    ensures OccurrencesOf(data[..i + 1], brands)
            == OccurrencesOf(data[..i], brands) + StaffOccurrences(data[i].staff, MergeBrandId(brands, data[i]))
    ensures MissingEmail(data[..i + 1]) <==> MissingEmail(data[..i]) || !Addressed(data[i].staff)
    ensures !Addressed(data[i].staff) ==> MissingEmail(data)
  {
    assert data[..i + 1][..i] == data[..i];
    if !Addressed(data[i].staff) {
      var j :| 0 <= j < |data[i].staff| && data[i].staff[j].emailAddress.None?;
      assert data[..i + 1][i] == data[i];
    }
  }

  lemma AppendLast<T>(a: seq<T>, b: seq<T>, x: T)
    ensures a + (b + [x]) == (a + b) + [x]
  {
  }

  /**
   * The route's `GET`: a failed listing, and a staff member without an
   * address, answer 500; otherwise every business is reported with its raw
   * data, its derived brand and the merged employees.
   */
  method Get(listing: Option<seq<Business>>, staffOf: string -> Result<seq<Member>>) returns (r: Reply<FetchResult>)
    ensures listing.None? ==> r == Failure(500, FetchFailed)
    ensures listing.Some? ==>
      var businesses := listing.value;
      var data := seq(|businesses|, i requires 0 <= i < |businesses| => BusinessDataOf(businesses[i], staffOf));
      var brands := Brands(businesses);
      && (MissingEmail(data) ==> r == Failure(500, FetchFailed))
      && (!MissingEmail(data) ==>
            r == Success(FetchResult(|businesses|, data,
                                     SettingsStructure(brands, Consolidate(OccurrencesOf(data, brands))))))
  {
    if listing.None? {
      return Failure(500, FetchFailed);
    }
    var businesses := listing.value;
    var allBusinessesData := GatherBusinessData(businesses, staffOf);
    assert allBusinessesData == seq(|businesses|, i requires 0 <= i < |businesses| => BusinessDataOf(businesses[i], staffOf));
    var brands := Brands(businesses);
    var employees := ConsolidateStaff(allBusinessesData, brands);
    if employees.Err? {
      return Failure(500, FetchFailed);
    }
    r := Success(FetchResult(|businesses|, allBusinessesData, SettingsStructure(brands, employees.value)));
  }
}
