/**
 * The administration views of the back-office service: the list of upcoming
 * appointments of the business, filtered by customer address and status,
 * sorted by start and cut into pages, and the statistics computed from the
 * first thousand entries of that list.
 */
module AdminBookings {
  import opened Common
  import opened Clock
  import opened JsString
  import opened Settings
  import opened IsoDuration
  import opened GraphService

  /** An appointment as the administration list shows it. */
  datatype Listing = Listing(
    id: string,
    customerEmail: Option<string>,
    serviceId: Option<string>,
    serviceName: string,
    start: Option<int>,
    end: Option<int>,
    status: string)

  /** The optional filters of a list request. */
  datatype ListFilters = ListFilters(
    status: Option<string>,
    customerEmail: Option<string>,
    page: Option<int>,
    limit: Option<int>)

  /** One page of the list. */
  datatype Page = Page(bookings: seq<Listing>, page: int, limit: int, total: nat, totalPages: int)

  const UnknownService: string := "Unknown Service"
  const DefaultStatus: string := "confirmed"

  /**
   * `serviceMap.get(id)` for a `Map` built from the services' `[id,
   * displayName]` pairs: the name of the last service with that id.
   */
  function ServiceMapGet(services: seq<BookingService>, id: string): (r: Option<string>)
    ensures r.None? <==> forall i :: 0 <= i < |services| ==> services[i].id != id
    ensures r.Some? ==> exists k :: LastWithId(services, id, k) && services[k].displayName == r.value
    decreases |services|
  {
    if |services| == 0 then None
    else if services[|services| - 1].id == id then
      assert LastWithId(services, id, |services| - 1);
      Some(services[|services| - 1].displayName)
    else
      var init := services[..|services| - 1];
      var r := ServiceMapGet(init, id);
      if r.Some? then
        var k :| LastWithId(init, id, k) && init[k].displayName == r.value;
        assert LastWithId(services, id, k);
        r
      else
        r
  }

  /** `k` is the last index of a service with that id. */
  predicate LastWithId(services: seq<BookingService>, id: string, k: int)
  {
    0 <= k < |services| && services[k].id == id && forall j :: k < j < |services| ==> services[j].id != id
  }

  /** The service name of an appointment: its service's display name, or `Unknown Service`. */
  function ServiceName(services: seq<BookingService>, serviceId: Option<string>): (r: string)
    ensures r != ""
  {
    if serviceId.None? then UnknownService else OrElse(ServiceMapGet(services, serviceId.value), UnknownService)
  }

  /**
   * The list entry of an appointment. Its times are `start.dateTime`, else
   * `startDateTime.dateTime` (the reverse of the order the availability
   * reading uses); its customer address is `customerEmailAddress`, else the
   * first customer's; its status is the label, else `confirmed`.
   */
  function ToListing(a: BookedAppointment, services: seq<BookingService>): (b: Listing)
    ensures b.id == a.id && b.serviceId == a.serviceId
    ensures a.customerEmailAddress.Some? && a.customerEmailAddress.value != "" ==>
      b.customerEmail == a.customerEmailAddress
    ensures a.customerEmailAddress.None? || a.customerEmailAddress.value == "" ==>
      b.customerEmail == a.firstCustomerEmail
    ensures b.start == FirstOf(a.start, a.startDateTime) && b.end == FirstOf(a.end, a.endDateTime)
    ensures a.appointmentLabel.Some? && a.appointmentLabel.value != "" ==> b.status == a.appointmentLabel.value
    ensures a.appointmentLabel.None? || a.appointmentLabel.value == "" ==> b.status == DefaultStatus
  {
    Listing(
      a.id,
      if a.customerEmailAddress.Some? && a.customerEmailAddress.value != "" then a.customerEmailAddress
      else a.firstCustomerEmail,
      a.serviceId,
      ServiceName(services, a.serviceId),
      FirstOf(a.start, a.startDateTime),
      FirstOf(a.end, a.endDateTime),
      OrElse(a.appointmentLabel, DefaultStatus))
  }

  /** The entries of the appointments, one each, in order. */
  function Listings(appointments: seq<BookedAppointment>, services: seq<BookingService>): (r: seq<Listing>)
    ensures |r| == |appointments|
    ensures forall i :: 0 <= i < |r| ==> r[i] == ToListing(appointments[i], services)
  {
    seq(|appointments|, i requires 0 <= i < |appointments| => ToListing(appointments[i], services))
  }

  /** A filter text is applied only when it is present and not empty. */
  function FilterText(f: Option<string>): string
  {
    OrElse(f, "")
  }

  /**
   * The entry survives every filter: it has both times, it ends after
   * `now`, its address contains the address filter and its status equals the
   * status filter, ignoring case; an entry without an address fails a
   * non-empty address filter.
   */
  predicate Listed(b: Listing, filters: ListFilters, now: int)
  {
    && b.start.Some? && b.end.Some?
    && b.end.value > now
    && (FilterText(filters.customerEmail) == "" ||
        (b.customerEmail.Some? && Contains(Lower(b.customerEmail.value), Lower(FilterText(filters.customerEmail)))))
    && (FilterText(filters.status) == "" || Lower(b.status) == Lower(FilterText(filters.status)))
  }

  /** The sort key of an entry (every listed entry has a start). */
  function StartKey(b: Listing): int
  {
    if b.start.Some? then b.start.value else 0
  }

  /** The filtered entries, in the order of the appointments. */
  function FilteredListings(appointments: seq<BookedAppointment>, services: seq<BookingService>,
                            filters: ListFilters, now: int): (r: seq<Listing>)
    ensures forall b :: b in r <==> b in Listings(appointments, services) && Listed(b, filters, now)
    ensures Subsequence(r, Listings(appointments, services))
  {
    var all := Listings(appointments, services);
    var keep := (b: Listing) => Listed(b, filters, now);
    FilterExact(all, keep);
    FilterSubsequence(all, keep);
    Filter(all, keep)
  }

  /** The filtered entries sorted by start. */
  function SortedListings(appointments: seq<BookedAppointment>, services: seq<BookingService>,
                          filters: ListFilters, now: int): (r: seq<Listing>)
    ensures SortedBy(r, StartKey)
    ensures multiset(r) == multiset(FilteredListings(appointments, services, filters, now))
  {
    SortBy(FilteredListings(appointments, services, filters, now), StartKey)
  }

  /** `n || 1` and `n || 10` on an optional number. */
  function OrNumber(n: Option<int>, default: int): (r: int)
    ensures n.Some? && n.value != 0 ==> r == n.value
    ensures n.None? || n.value == 0 ==> r == default
  {
    if n.Some? && n.value != 0 then n.value else default
  }

  /** A `slice` bound: a negative one counts from the end, and both are clamped to `[0, n]`. */
  function JsIndex(i: int, n: nat): (k: nat)
    ensures k <= n
    ensures 0 <= i <= n ==> k == i
    ensures i > n ==> k == n
  {
    if i < 0 then (if n + i < 0 then 0 else n + i) else if i > n then n else i
  }

  /** `Array.prototype.slice(a, b)` for any integer bounds. */
  function JsSlice<T>(s: seq<T>, a: int, b: int): (r: seq<T>)
    ensures |r| <= |s|
  {
    var lo := JsIndex(a, |s|);
    var hi := JsIndex(b, |s|);
    if lo < hi then s[lo..hi] else []
  }

  /** `Math.ceil(n / d)` for a non-zero integer `d`. */
  function CeilDiv(n: nat, d: int): (q: int)
    requires d != 0
    ensures d > 0 ==> (q - 1) * d < n <= q * d
  {
    if d > 0 then (n + d - 1) / d else -(n / -d)
  }

  /**
   * The page `page` of `limit` entries of `sorted`, with the page number,
   * the page size, the count and the page count.
   */
  function PageOf(sorted: seq<Listing>, page: int, limit: int): (r: Page)
    requires limit != 0
    ensures r.page == page && r.limit == limit && r.total == |sorted|
    ensures forall b :: b in r.bookings ==> b in sorted
  {
    var startIndex := (page - 1) * limit;
    JsSliceMembers(sorted, startIndex, startIndex + limit);
    Page(JsSlice(sorted, startIndex, startIndex + limit), page, limit, |sorted|, CeilDiv(|sorted|, limit))
  }

  /**
   * `getAllBookings`: one page of the filtered and sorted entries, with the
   * page number, page size, filtered count and page count. It fails when the
   * appointments or the services cannot be read.
   */
  function GetAllBookings(appointments: Option<seq<BookedAppointment>>, services: Option<seq<BookingService>>,
                          filters: ListFilters, now: int): (r: Result<Page>)
    ensures r.Err? <==> appointments.None? || services.None?
    ensures r.Ok? ==>
      && r.value.total == |FilteredListings(appointments.value, services.value, filters, now)|
      && SortedBy(r.value.bookings, StartKey)
      && forall b :: b in r.value.bookings ==> b in Listings(appointments.value, services.value) && Listed(b, filters, now)
  {
    if appointments.None? || services.None? then Err(RequestFailed)
    else
      var sorted := SortedListings(appointments.value, services.value, filters, now);
      var page := OrNumber(filters.page, 1);
      var limit := OrNumber(filters.limit, 10);
      JsSliceSorted(sorted, (page - 1) * limit, (page - 1) * limit + limit, StartKey);
      SameElements(sorted, FilteredListings(appointments.value, services.value, filters, now));
      Ok(PageOf(sorted, page, limit))
  }

  /** A slice of a sorted sequence is sorted. */
  lemma JsSliceSorted<T>(s: seq<T>, a: int, b: int, key: T -> int)
    requires SortedBy(s, key)
    ensures SortedBy(JsSlice(s, a, b), key)
  {
    var lo := JsIndex(a, |s|);
    var hi := JsIndex(b, |s|);
    if lo < hi {
      var r := s[lo..hi];
      forall i, j | 0 <= i < j < |r| ensures key(r[i]) <= key(r[j]) {
        assert r[i] == s[lo + i] && r[j] == s[lo + j];
      }
    }
  }

  /** A slice holds only elements of the sequence. */
  lemma JsSliceMembers<T>(s: seq<T>, a: int, b: int)
    ensures forall x :: x in JsSlice(s, a, b) ==> x in s
  {
    var lo := JsIndex(a, |s|);
    var hi := JsIndex(b, |s|);
    if lo < hi {
      forall x | x in s[lo..hi] ensures x in s {
        var i :| 0 <= i < hi - lo && s[lo..hi][i] == x;
        assert s[lo + i] == x;
      }
    }
  }

  /**
   * With a positive page and page size, the page is the window
   * `[(page - 1)·limit, page·limit)` of the entries, cut at their end.
   */
  lemma PageWindow(sorted: seq<Listing>, page: int, limit: int)
    requires page >= 1 && limit >= 1
    ensures var start := (page - 1) * limit;
      var lo := if start <= |sorted| then start else |sorted|;
      var hi := if start + limit <= |sorted| then start + limit else |sorted|;
      && 0 <= lo <= hi <= |sorted|
      && PageOf(sorted, page, limit).bookings == sorted[lo..hi]
      && |PageOf(sorted, page, limit).bookings| <= limit
  {
    ProductNonNegative(page - 1, limit);
  }

  /** A product of non-negative numbers is non-negative. */
  lemma ProductNonNegative(x: int, y: int)
    requires x >= 0 && y >= 0
    ensures x * y >= 0
  {
  }

  /**
   * Every entry is on exactly one page: the entry at position `j` is at
   * position `j % limit` of page `j / limit + 1`, and that page is not
   * beyond the page count.
   */
  lemma EntryOnPage(sorted: seq<Listing>, limit: int, j: nat)
    requires limit >= 1 && j < |sorted|
    ensures var r := PageOf(sorted, j / limit + 1, limit);
      && j % limit < |r.bookings|
      && r.bookings[j % limit] == sorted[j]
      && 1 <= r.page <= r.totalPages
  {
    var page := j / limit + 1;
    PageWindow(sorted, page, limit);
    DivBounds(j, limit);
    var q := CeilDiv(|sorted|, limit);
    MulMonotone(j / limit, q, limit);
  }

  /** Euclidean division by a positive divisor places `j` in its block. */
  lemma DivBounds(j: nat, limit: int)
    requires limit >= 1
    ensures (j / limit) * limit <= j < (j / limit) * limit + limit
    ensures j % limit == j - (j / limit) * limit
    ensures (j / limit + 1 - 1) * limit == (j / limit) * limit
    ensures (j / limit + 1) * limit == (j / limit) * limit + limit
  {
  }

  /** Multiplying by a positive factor keeps a strict order. */
  lemma MulMonotone(a: int, b: int, l: int)
    requires l >= 1 && a * l < b * l
    ensures a < b
  {
  }

  /** The page count covers the entries with no empty page at the end. */
  lemma PageCount(sorted: seq<Listing>, page: int, limit: int)
    requires limit >= 1
    ensures var r := PageOf(sorted, page, limit);
      && (r.totalPages - 1) * limit < r.total <= r.totalPages * limit
      && (r.totalPages == 0 <==> r.total == 0)
  {
    var q := PageOf(sorted, page, limit).totalPages;
    if q <= 0 {
      assert q * limit <= 0;
    } else {
      assert q * limit >= limit;
    }
  }

  // Statistics.

  /** A key and the number of times it was seen. */
  datatype Entry = Entry(key: string, count: nat)

  /** The number of occurrences of `k` in `s`. */
  function Occurrences(s: seq<string>, k: string): nat
    decreases |s|
  {
    if |s| == 0 then 0
    else Occurrences(s[..|s| - 1], k) + (if s[|s| - 1] == k then 1 else 0)
  }

  /** `counts[k] = (counts[k] || 0) + 1` on an object whose keys keep their insertion order. */
  function Bump(entries: seq<Entry>, k: string): (r: seq<Entry>)
    ensures |entries| <= |r| <= |entries| + 1
    decreases |entries|
  {
    if |entries| == 0 then [Entry(k, 1)]
    else if entries[0].key == k then [Entry(k, entries[0].count + 1)] + entries[1..]
    else [entries[0]] + Bump(entries[1..], k)
  }

  /** The counts of the keys, in first-occurrence order. */
  function TallyOf(keys: seq<string>): seq<Entry>
    decreases |keys|
  {
    if |keys| == 0 then [] else Bump(TallyOf(keys[..|keys| - 1]), keys[|keys| - 1])
  }

  /** The keys of the entries, in order. */
  function KeySeq(entries: seq<Entry>): (r: seq<string>)
    ensures |r| == |entries|
    ensures forall i :: 0 <= i < |r| ==> r[i] == entries[i].key
  {
    seq(|entries|, i requires 0 <= i < |entries| => entries[i].key)
  }

  /** No two entries share a key. */
  predicate DistinctKeys(entries: seq<Entry>)
  {
    forall i, j :: 0 <= i < j < |entries| ==> entries[i].key != entries[j].key
  }

  /** The entries count the keys of `keys` exactly, one entry per key, none of them zero. */
  ghost predicate Counts(entries: seq<Entry>, keys: seq<string>)
  {
    && DistinctKeys(entries)
    && (forall i :: 0 <= i < |entries| ==> entries[i].count == Occurrences(keys, entries[i].key) > 0)
    && (forall k :: k in keys <==> k in KeySeq(entries))
  }

  /** A new key is appended with count 1. */
  lemma {:induction false} BumpAbsent(entries: seq<Entry>, k: string)
    requires k !in KeySeq(entries)
    ensures Bump(entries, k) == entries + [Entry(k, 1)]
    decreases |entries|
  {
    if |entries| > 0 {
      assert KeySeq(entries)[0] == entries[0].key;
      assert KeySeq(entries[1..]) == KeySeq(entries)[1..];
      BumpAbsent(entries[1..], k);
      assert entries == [entries[0]] + entries[1..];
    }
  }

  /** A known key has its count raised by one in place. */
  lemma {:induction false} BumpPresent(entries: seq<Entry>, k: string, i: nat)
    requires i < |entries| && entries[i].key == k
    requires forall j :: 0 <= j < i ==> entries[j].key != k
    ensures Bump(entries, k) == entries[i := Entry(k, entries[i].count + 1)]
    decreases i
  {
    if i > 0 {
      BumpPresent(entries[1..], k, i - 1);
      assert entries[i := Entry(k, entries[i].count + 1)]
        == [entries[0]] + entries[1..][i - 1 := Entry(k, entries[i].count + 1)];
    }
  }

  /** The tally counts the keys exactly, one entry per key. */
  lemma {:induction false} TallyCounts(keys: seq<string>)
    ensures Counts(TallyOf(keys), keys)
    decreases |keys|
  {
    if |keys| > 0 {
      var init := keys[..|keys| - 1];
      var k := keys[|keys| - 1];
      assert keys == init + [k];
      TallyCounts(init);
      var t := TallyOf(init);
      if k in KeySeq(t) {
        var i :| 0 <= i < |t| && KeySeq(t)[i] == k;
        BumpPresent(t, k, i);
        CountsPresent(t, init, k, i);
      } else {
        BumpAbsent(t, k);
        CountsAbsent(t, init, k);
      }
    }
  }

  /** One more occurrence of a counted key raises its count. */
  lemma CountsPresent(t: seq<Entry>, init: seq<string>, k: string, i: nat)
    requires Counts(t, init) && i < |t| && t[i].key == k
    ensures Counts(t[i := Entry(k, t[i].count + 1)], init + [k])
  {
    var r := t[i := Entry(k, t[i].count + 1)];
    OccurrencesSnoc(init, k);
    assert KeySeq(r) == KeySeq(t);
    assert forall x :: x in init + [k] <==> x in init || x == k;
    assert k in KeySeq(t);
  }

  /** A first occurrence of a key adds an entry with count 1. */
  lemma CountsAbsent(t: seq<Entry>, init: seq<string>, k: string)
    requires Counts(t, init) && k !in KeySeq(t)
    ensures Counts(t + [Entry(k, 1)], init + [k])
  {
    var r := t + [Entry(k, 1)];
    OccurrencesSnoc(init, k);
    OccurrencesAbsent(init, k);
    assert KeySeq(r) == KeySeq(t) + [k];
    assert forall x :: x in init + [k] <==> x in init || x == k;
    forall i, j | 0 <= i < j < |r| ensures r[i].key != r[j].key {
      if j == |t| {
        assert KeySeq(t)[i] == r[i].key;
      }
    }
  }

  /** Appending a key adds one occurrence of it and of nothing else. */
  lemma OccurrencesSnoc(s: seq<string>, k: string)
    ensures forall x :: Occurrences(s + [k], x) == Occurrences(s, x) + (if x == k then 1 else 0)
  {
    assert (s + [k])[..|s|] == s;
  }

  /** A key that does not occur has no occurrences. */
  lemma {:induction false} OccurrencesAbsent(s: seq<string>, k: string)
    requires k !in s
    ensures Occurrences(s, k) == 0
    decreases |s|
  {
    if |s| > 0 {
      assert s == s[..|s| - 1] + [s[|s| - 1]];
      OccurrencesAbsent(s[..|s| - 1], k);
    }
  }

  /** The `n` entries with the largest counts, in descending order of count. */
  function Popular(entries: seq<Entry>, n: nat): seq<Entry>
  {
    Take(SortBy(entries, (e: Entry) => -(e.count as int)), n)
  }

  /**
   * The popular entries are at most `n` of the entries (all of them when
   * there are fewer), in descending order of count, and no entry left out
   * has a larger count than one kept.
   */
  lemma PopularIsTop(entries: seq<Entry>, n: nat)
    ensures var top := Popular(entries, n);
      && |top| == (if |entries| < n then |entries| else n)
      && (forall i, j :: 0 <= i < j < |top| ==> top[i].count >= top[j].count)
      && (forall t :: t in top ==> t in entries)
      && (forall e, t :: e in entries && e !in top && t in top ==> t.count >= e.count)
  {
    var key := (e: Entry) => -(e.count as int);
    var sorted := SortBy(entries, key);
    var top := Popular(entries, n);
    SameElements(entries, sorted);
    forall i, j | 0 <= i < j < |top| ensures top[i].count >= top[j].count {
      assert key(sorted[i]) <= key(sorted[j]);
    }
    forall t | t in top ensures t in entries {
      var i :| 0 <= i < |top| && top[i] == t;
      assert sorted[i] == t;
    }
    forall e, t | e in entries && e !in top && t in top ensures t.count >= e.count {
      var j :| 0 <= j < |sorted| && sorted[j] == e;
      var i :| 0 <= i < |top| && top[i] == t;
      assert sorted[i] == t;
      assert key(sorted[i]) <= key(sorted[j]);
    }
  }

  /** The `HH:00` key of an hour, padded to two digits. */
  function HourLabel(h: int): (key: string)
    requires 0 <= h < 24
    ensures |key| == 5
  {
    [DigitChar(h / 10), DigitChar(h % 10)] + ":00"
  }

  /** Different hours have different keys, so counting keys counts hours. */
  lemma HourLabelInjective(h1: int, h2: int)
    requires 0 <= h1 < 24 && 0 <= h2 < 24
    ensures HourLabel(h1) == HourLabel(h2) <==> h1 == h2
  {
    if HourLabel(h1) == HourLabel(h2) {
      assert HourLabel(h1)[0] == HourLabel(h2)[0] && HourLabel(h1)[1] == HourLabel(h2)[1];
      assert DigitValue(DigitChar(h1 / 10)) == DigitValue(DigitChar(h2 / 10));
      assert DigitValue(DigitChar(h1 % 10)) == DigitValue(DigitChar(h2 % 10));
    }
  }

  /** The hour key of every entry, in order. */
  function HourKeys(bookings: seq<Listing>): (r: seq<string>)
    ensures |r| == |bookings|
    ensures forall i :: 0 <= i < |r| ==> r[i] == HourLabel(HourOf(StartKey(bookings[i])))
  {
    seq(|bookings|, i requires 0 <= i < |bookings| => HourLabel(HourOf(StartKey(bookings[i]))))
  }

  /** The entries that count towards the popular services: those with a service id and name. */
  predicate HasService(b: Listing)
  {
    b.serviceId.Some? && b.serviceId.value != "" && b.serviceName != ""
  }

  /** The service id of every entry with a service, in order. */
  function ServiceKeys(bookings: seq<Listing>): (r: seq<string>)
    ensures |r| <= |bookings|
    ensures forall x :: x in r <==> exists b :: b in bookings && HasService(b) && b.serviceId.value == x
    decreases |bookings|
  {
    if |bookings| == 0 then []
    else
      var init := bookings[..|bookings| - 1];
      var b := bookings[|bookings| - 1];
      assert bookings == init + [b];
      ServiceKeys(init) + (if HasService(b) then [b.serviceId.value] else [])
  }

  /**
   * The hour counts: a loop over the entries that bumps the key of each
   * entry's start hour.
   */
  method CountHours(bookings: seq<Listing>) returns (counts: seq<Entry>)
    ensures counts == TallyOf(HourKeys(bookings))
  {
    counts := [];
    var keys := HourKeys(bookings);
    for i := 0 to |bookings|
      invariant counts == TallyOf(keys[..i])
    {
      var hour := HourOf(StartKey(bookings[i]));
      var timeKey := HourLabel(hour);
      assert keys[..i + 1][..i] == keys[..i];
      counts := Bump(counts, timeKey);
    }
    assert keys[..|bookings|] == keys;
  }

  /**
   * The service counts: a loop over the entries that bumps the service id
   * of each entry with a service.
   */
  method CountServices(bookings: seq<Listing>) returns (counts: seq<Entry>)
    ensures counts == TallyOf(ServiceKeys(bookings))
  {
    counts := [];
    for i := 0 to |bookings|
      invariant counts == TallyOf(ServiceKeys(bookings[..i]))
    {
      var b := bookings[i];
      assert bookings[..i + 1][..i] == bookings[..i];
      var before := ServiceKeys(bookings[..i]);
      if HasService(b) {
        assert ServiceKeys(bookings[..i + 1]) == before + [b.serviceId.value];
        assert (before + [b.serviceId.value])[..|before|] == before;
        counts := Bump(counts, b.serviceId.value);
      } else {
        assert ServiceKeys(bookings[..i + 1]) == before;
      }
    }
    assert bookings[..|bookings|] == bookings;
  }

  /** A popular service: its id, its name and its count. */
  datatype ServiceStat = ServiceStat(serviceId: string, name: string, count: nat)

  /**
   * The named service counts; the name is the one stored with the first entry
   * of the id, which every entry of the id shares.
   */
  function NamedServices(entries: seq<Entry>, services: seq<BookingService>): (r: seq<ServiceStat>)
    ensures |r| == |entries|
    ensures forall i :: 0 <= i < |r| ==>
      r[i] == ServiceStat(entries[i].key, ServiceName(services, Some(entries[i].key)), entries[i].count)
  {
    seq(|entries|, i requires 0 <= i < |entries| =>
      ServiceStat(entries[i].key, ServiceName(services, Some(entries[i].key)), entries[i].count))
  }

  /** The number of entries with exactly this status (case-sensitive, unlike the list filter). */
  function StatusCount(bookings: seq<Listing>, status: string): nat
  {
    |Filter(bookings, (b: Listing) => b.status == status)|
  }

  /** The entries that start on the local day of `now`. */
  function TodayCount(bookings: seq<Listing>, now: int): nat
  {
    |Filter(bookings, (b: Listing) => DayStart(now) <= StartKey(b) < DayStart(now) + MinutesPerDay)|
  }

  /** The statistics of the administration dashboard. */
  datatype Stats = Stats(
    totalBookings: nat,
    confirmedBookings: nat,
    cancelledBookings: nat,
    pendingBookings: nat,
    bookingsToday: nat,
    popularTimeSlots: seq<Entry>,
    popularServices: seq<ServiceStat>)

  /** The list request of the statistics: no filters, the first page of 1000. */
  const StatsFilters: ListFilters := ListFilters(None, None, None, Some(1000))

  /**
   * `getBookingStats`: the statistics of the first page of 1000 upcoming
   * entries. It fails when the list fails.
   */
  method GetBookingStats(appointments: Option<seq<BookedAppointment>>, services: Option<seq<BookingService>>, now: int)
    returns (r: Result<Stats>)
    ensures r.Err? <==> appointments.None? || services.None?
    ensures r.Ok? ==>
      var bookings := GetAllBookings(appointments, services, StatsFilters, now).value.bookings;
      r.value == Stats(
        |bookings|,
        StatusCount(bookings, "confirmed"),
        StatusCount(bookings, "cancelled"),
        StatusCount(bookings, "pending"),
        TodayCount(bookings, now),
        Popular(TallyOf(HourKeys(bookings)), 5),
        NamedServices(Popular(TallyOf(ServiceKeys(bookings)), 4), services.value))
  {
    var bookingsData := GetAllBookings(appointments, services, StatsFilters, now);
    if bookingsData.Err? {
      return Err(bookingsData.message);
    }
    var bookings := bookingsData.value.bookings;
    var timeSlotCounts := CountHours(bookings);
    var serviceCounts := CountServices(bookings);
    r := Ok(Stats(
      |bookings|,
      StatusCount(bookings, "confirmed"),
      StatusCount(bookings, "cancelled"),
      StatusCount(bookings, "pending"),
      TodayCount(bookings, now),
      Popular(timeSlotCounts, 5),
      NamedServices(Popular(serviceCounts, 4), services.value)));
  }

  /** Entries with three different statuses are counted apart, so the three counts fit in the total. */
  lemma {:induction false} StatusCountsBounded(bookings: seq<Listing>)
    ensures StatusCount(bookings, "confirmed") + StatusCount(bookings, "cancelled") + StatusCount(bookings, "pending")
      <= |bookings|
    decreases |bookings|
  {
    if |bookings| > 0 {
      StatusCountsBounded(bookings[..|bookings| - 1]);
    }
  }

  /** The statistics are taken over the first 1000 upcoming entries in start order. */
  lemma StatsFirstThousand(appointments: seq<BookedAppointment>, services: seq<BookingService>, now: int)
    ensures GetAllBookings(Some(appointments), Some(services), StatsFilters, now).value.bookings
      == Take(SortedListings(appointments, services, StatsFilters, now), 1000)
  {
    PageWindow(SortedListings(appointments, services, StatsFilters, now), 1, 1000);
  }

  /**
   * At most five hours are reported, by descending count; each carries the
   * number of entries starting in it, and no hour left out has more.
   */
  lemma PopularHours(bookings: seq<Listing>)
    ensures var tally := TallyOf(HourKeys(bookings));
      var top := Popular(tally, 5);
      && |top| <= 5
      && (forall i, j :: 0 <= i < j < |top| ==> top[i].count >= top[j].count)
      && (forall t :: t in top ==> t.count == Occurrences(HourKeys(bookings), t.key) > 0)
      && (forall e, t :: e in tally && e !in top && t in top ==> t.count >= e.count)
  {
    PopularIsTop(TallyOf(HourKeys(bookings)), 5);
    PopularCounted(HourKeys(bookings), 5);
  }

  /**
   * At most four services are reported, by descending count; each carries
   * its name and the number of entries of the service.
   */
  lemma PopularServices(bookings: seq<Listing>, services: seq<BookingService>)
    ensures var top := NamedServices(Popular(TallyOf(ServiceKeys(bookings)), 4), services);
      && |top| <= 4
      && (forall i, j :: 0 <= i < j < |top| ==> top[i].count >= top[j].count)
      && (forall t :: t in top ==>
            t.name == ServiceName(services, Some(t.serviceId)) &&
            t.count == Occurrences(ServiceKeys(bookings), t.serviceId) > 0)
  {
    var popular := Popular(TallyOf(ServiceKeys(bookings)), 4);
    PopularIsTop(TallyOf(ServiceKeys(bookings)), 4);
    PopularCounted(ServiceKeys(bookings), 4);
    var top := NamedServices(popular, services);
    forall t | t in top ensures t.count == Occurrences(ServiceKeys(bookings), t.serviceId) > 0 {
      var i :| 0 <= i < |top| && top[i] == t;
      assert popular[i] in popular;
    }
  }

  /** Every popular entry carries the number of occurrences of its key. */
  lemma PopularCounted(keys: seq<string>, n: nat)
    ensures forall t :: t in Popular(TallyOf(keys), n) ==> t.count == Occurrences(keys, t.key) > 0
  {
    var tally := TallyOf(keys);
    TallyCounts(keys);
    PopularIsTop(tally, n);
    forall t | t in Popular(tally, n) ensures t.count == Occurrences(keys, t.key) > 0 {
      var i :| 0 <= i < |tally| && tally[i] == t;
    }
  }
}
