/**
 * The GET handlers of routes/users.js, routes/properties.js and routes/bookings.js,
 * and the batch availability check `POST /bookings/check-availability`: each runs
 * its query schema, parses the `:id` segment with `parseInt`, and answers from the
 * tables without changing them.
 */
module Reads {
  import opened Wrappers
  import opened Records
  import opened JsParse
  import opened Validation
  import opened BookingRules
  import opened Paging
  import opened Seqs
  import opened Tables

  // ---------------------------------------------------------------------------
  // Shared pieces

  /** `parseInt(v) || d` on a number the query schema has already converted. */
  function NumberOr(v: int, d: int): (n: int)
    ensures v != 0 ==> n == v
    ensures v == 0 ==> n == d
  {
    ParseIntRoundTrip(v);
    var p := ParseInt(IntString(v));
    if p.Some? && p.value != 0 then p.value else d
  }

  /** JavaScript truthiness of an optional query string: present and not "". */
  predicate GivenText(o: Option<string>) { o.Some? && o.value != "" }

  /** JavaScript truthiness of an optional query number: present and not 0. */
  predicate GivenNumber(o: Option<int>) { o.Some? && o.value != 0 }

  /** The sort keys of the `ORDER BY` clauses. */
  function PropertyKey(p: Property): int { p.propertyId }
  function BookingKey(b: Booking): int { b.bookingId }
  function CheckInKey(b: Booking): int { b.checkIn }

  /** `data` and `pagination` of a list response. */
  datatype Listing<T> = Listing(rows: seq<T>, page: int, limit: int, total: nat, pages: nat)

  /** The page `pg` of the rows in response order, with the counts of the whole result. */
  function ListPage<T(!new)>(ordered: seq<T>, pg: Page): (l: Listing<T>)
    requires pg.page >= 1 && pg.limit >= 1
    ensures l.page == pg.page && l.limit == pg.limit && l.total == |ordered|
    ensures |l.rows| == PageLength(|ordered|, l.page, l.limit)
    ensures |l.rows| <= l.limit
    ensures Offset(l.page, l.limit) + |l.rows| <= |ordered| || l.rows == []
    ensures forall i :: 0 <= i < |l.rows| ==> l.rows[i] == ordered[Offset(l.page, l.limit) + i]
    ensures Offset(l.page, l.limit) + l.limit <= |ordered| ==> |l.rows| == l.limit
    ensures l.pages == PageCount(l.total, l.limit)
  {
    var page := NumberOr(pg.page, 1);
    var limit := NumberOr(pg.limit, 10);
    Listing(PageRows(ordered, page, limit), page, limit, |ordered|, PageCount(|ordered|, limit))
  }

  /**
   * `l` is one page of `rows` in `ORDER BY id DESC` order, for rows stored in
   * ascending id order: it holds as many rows as `LIMIT … OFFSET …` returns, its
   * i-th row is the one `Offset + i` places from the end, and `total` and `pages`
   * count all of `rows`.
   */
  ghost predicate NewestPageOf<T>(l: Listing<T>, rows: seq<T>) {
    l.page >= 1 && l.limit >= 1 && l.total == |rows| && l.pages == PageCount(|rows|, l.limit) &&
    |l.rows| == PageLength(|rows|, l.page, l.limit) &&
    (l.rows == [] || Offset(l.page, l.limit) + |l.rows| <= |rows|) &&
    forall i :: 0 <= i < |l.rows| ==>
      Offset(l.page, l.limit) + i < |rows| && l.rows[i] == rows[|rows| - 1 - (Offset(l.page, l.limit) + i)]
  }

  /** `ORDER BY id DESC` over rows stored in ascending id order, then one page of the result. */
  function NewestPage<T(!new)>(rows: seq<T>, pg: Page): (l: Listing<T>)
    requires pg.page >= 1 && pg.limit >= 1
    ensures l.page == pg.page && l.limit == pg.limit && NewestPageOf(l, rows)
  {
    ListPage(Reverse(rows), pg)
  }

  /** Rows stored in ascending key order come out of a page in descending key order. */
  lemma NewestPageDescending<T>(l: Listing<T>, rows: seq<T>, key: T -> int)
    requires NewestPageOf(l, rows)
    requires Ascending(rows, key)
    ensures Descending(l.rows, key)
  {
    var o := Offset(l.page, l.limit);
    forall i, j | 0 <= i < j < |l.rows| ensures key(l.rows[i]) > key(l.rows[j]) {
      assert l.rows[i] == rows[|rows| - 1 - (o + i)] && l.rows[j] == rows[|rows| - 1 - (o + j)];
    }
  }

  // ---------------------------------------------------------------------------
  // Users

  /** `GET /users`: newest first (`ORDER BY created_at DESC`, with ties in the one-second timestamp taken in descending id order). */
  function ListUsers(s: Snapshot, page: Option<int>, limit: Option<int>): (r: Result<Listing<User>>)
    ensures r.Ok? <==> ValidatePage(page, limit).Accepted?
    ensures r.Err? ==> r == Err(400, ValidationError(ValidatePage(page, limit).fields))
    ensures r.Ok? ==>
      r.value.page == page.GetOr(1) && r.value.limit == limit.GetOr(10) && r.value.limit <= 100 &&
      NewestPageOf(r.value, s.users)
  {
    match ValidatePage(page, limit)
    case Rejected(fields) => Err(400, ValidationError(fields))
    case Accepted(pg) =>
      Ok(NewestPage(s.users, pg))
  }

  /** `GET /users/:id` (without the statistics block). */
  function GetUser(s: Snapshot, idText: string): (r: Result<User>)
    ensures ParseInt(idText).None? ==> r == Err(400, InvalidUserId)
    ensures ParseInt(idText).Some? && !HasUser(s.users, ParseInt(idText).value) ==> r == Err(404, UserNotFound)
    ensures ParseInt(idText).Some? && HasUser(s.users, ParseInt(idText).value) ==>
      r.Ok? && r.value in s.users && r.value.userId == ParseInt(idText).value
  {
    match ParseInt(idText)
    case None => Err(400, InvalidUserId)
    case Some(id) =>
      match FindUser(s.users, id)
      case None => Err(404, UserNotFound)
      case Some(k) => Ok(s.users[k])
  }

  function OwnedBy(id: int): Property -> bool { (p: Property) => p.ownerId == id }

  /** `GET /users/:id/properties`: a user who does not exist simply owns nothing. */
  function GetUserProperties(s: Snapshot, idText: string): (r: Result<seq<Property>>)
    ensures ParseInt(idText).None? <==> r.Err?
    ensures r.Err? ==> r == Err(400, InvalidUserId)
    ensures r.Ok? ==> forall p :: p in r.value <==> p in s.properties && p.ownerId == ParseInt(idText).value
  {
    match ParseInt(idText)
    case None => Err(400, InvalidUserId)
    case Some(id) => Ok(Reverse(Filter(s.properties, OwnedBy(id))))
  }

  /** `ORDER BY p.property_id DESC`: the owned properties come highest id first. */
  lemma UserPropertiesNewestFirst(s: Snapshot, idText: string)
    requires Ascending(s.properties, PropertyKey)
    requires GetUserProperties(s, idText).Ok?
    ensures Descending(GetUserProperties(s, idText).value, PropertyKey)
  {
    var id := ParseInt(idText).value;
    FilterAscending(s.properties, OwnedBy(id), PropertyKey);
    ReverseDescending(Filter(s.properties, OwnedBy(id)), PropertyKey);
  }

  // ---------------------------------------------------------------------------
  // Properties

  /** The rows of `GET /properties` before ordering and paging: the `JOIN Users` and the `WHERE` clause. */
  predicate PropertyListed(s: Snapshot, f: PropertyFilter, p: Property) {
    HasUser(s.users, p.ownerId) &&
    (GivenText(f.city) ==> p.city == f.city.value) &&
    (GivenText(f.district) ==> p.district == f.district.value) &&
    (GivenNumber(f.minPrice) ==> p.basePriceTwd >= f.minPrice.value) &&
    (GivenNumber(f.maxPrice) ==> p.basePriceTwd <= f.maxPrice.value) &&
    (f.checkIn.Some? && f.checkOut.Some? ==>
      Conflicts(s.bookings, p.propertyId, None, f.checkIn.value, f.checkOut.value) == [])
  }

  function ListedTest(s: Snapshot, f: PropertyFilter): Property -> bool { (p: Property) => PropertyListed(s, f, p) }

  function ListedProperties(s: Snapshot, f: PropertyFilter): (r: seq<Property>)
    ensures forall p :: p in r <==> p in s.properties && PropertyListed(s, f, p)
  {
    Filter(s.properties, ListedTest(s, f))
  }

  /** `GET /properties`: the matching properties, highest id first, one page of them. */
  function ListProperties(s: Snapshot, q: PropertySearch): (r: Result<Listing<Property>>)
    ensures r.Ok? <==> ValidatePropertySearch(q).Accepted?
    ensures r.Err? ==> r == Err(400, ValidationError(ValidatePropertySearch(q).fields))
    ensures r.Ok? ==>
      var f := ValidatePropertySearch(q).value;
      r.value.page == f.paging.page && r.value.limit == f.paging.limit && r.value.limit <= 100 &&
      NewestPageOf(r.value, ListedProperties(s, f))
  {
    match ValidatePropertySearch(q)
    case Rejected(fields) => Err(400, ValidationError(fields))
    case Accepted(f) =>
      var m := ListedProperties(s, f);
      Ok(NewestPage(m, f.paging))
  }

  /** A page of the property list is in descending id order. */
  lemma ListedPropertiesNewestFirst(s: Snapshot, q: PropertySearch)
    requires Ascending(s.properties, PropertyKey)
    requires ListProperties(s, q).Ok?
    ensures Descending(ListProperties(s, q).value.rows, PropertyKey)
  {
    var f := ValidatePropertySearch(q).value;
    FilterAscending(s.properties, ListedTest(s, f), PropertyKey);
    NewestPageDescending(ListProperties(s, q).value, ListedProperties(s, f), PropertyKey);
  }

  /** With both dates given, a property is listed exactly when no active booking of it clashes with the stay. */
  lemma ListedIffFree(s: Snapshot, f: PropertyFilter, p: Property)
    requires p in s.properties && HasUser(s.users, p.ownerId)
    requires f.city.None? && f.district.None? && f.minPrice.None? && f.maxPrice.None?
    requires f.checkIn.Some? && f.checkOut.Some?
    ensures p in ListedProperties(s, f) <==>
      forall b :: b in s.bookings && b.propertyId == p.propertyId && IsActive(b.status) ==>
        !DatesClash(b.checkIn, b.checkOut, f.checkIn.value, f.checkOut.value)
  {
    var c := Conflicts(s.bookings, p.propertyId, None, f.checkIn.value, f.checkOut.value);
    if c != [] {
      assert c[0] in c;
    }
  }

  /** Without both dates the availability filter is not applied. */
  lemma ListedWithoutDates(s: Snapshot, f: PropertyFilter, p: Property)
    requires f.checkIn.None? || f.checkOut.None?
    ensures PropertyListed(s, f, p) <==> PropertyListed(s, f.(checkIn := None, checkOut := None), p)
  {
  }

  /** `max_price=0` passes the schema and is then ignored: it lists what no `max_price` lists. */
  lemma ZeroMaxPriceIgnored(s: Snapshot, f: PropertyFilter)
    requires f.maxPrice == Some(0)
    ensures ListedProperties(s, f) == ListedProperties(s, f.(maxPrice := None))
  {
    FilterCongruent(s.properties, ListedTest(s, f),
      ListedTest(s, f.(maxPrice := None)));
  }

  /** `GET /properties/:id` without its statistics: the property and its owner (an inner join). */
  function GetProperty(s: Snapshot, idText: string): (r: Result<(Property, User)>)
    ensures ParseInt(idText).None? ==> r == Err(400, InvalidPropertyId)
    ensures r.Ok? ==>
      r.value.0 in s.properties && r.value.0.propertyId == ParseInt(idText).value &&
      r.value.1 in s.users && r.value.1.userId == r.value.0.ownerId
    ensures ParseInt(idText).Some? ==>
      var id := ParseInt(idText).value;
      (r.Ok? <==> exists i :: 0 <= i < |s.properties| && s.properties[i].propertyId == id &&
                             HasUser(s.users, s.properties[i].ownerId) &&
                             FindProperty(s.properties, id) == Some(i)) &&
      (r.Err? ==> r == Err(404, PropertyNotFound))
  {
    match ParseInt(idText)
    case None => Err(400, InvalidPropertyId)
    case Some(id) =>
      match FindProperty(s.properties, id)
      case None => Err(404, PropertyNotFound)
      case Some(k) =>
        match FindUser(s.users, s.properties[k].ownerId)
        case None => Err(404, PropertyNotFound)
        case Some(u) => Ok((s.properties[k], s.users[u]))
  }

  /** A booking `GET /properties/:id/availability` returns: active, of the property, and (with both dates) overlapping the range. */
  predicate ShownAsOccupied(b: Booking, propertyId: int, start: Option<Day>, end: Option<Day>) {
    b.propertyId == propertyId && IsActive(b.status) &&
    (start.Some? && end.Some? ==> DatesClashOrWithin(b.checkIn, b.checkOut, start.value, end.value))
  }

  function OccupiedTest(propertyId: int, start: Option<Day>, end: Option<Day>): Booking -> bool {
    (b: Booking) => ShownAsOccupied(b, propertyId, start, end)
  }

  function OccupiedRows(bs: seq<Booking>, propertyId: int, start: Option<Day>, end: Option<Day>): (r: seq<Booking>)
    ensures forall b :: b in r <==> b in bs && ShownAsOccupied(b, propertyId, start, end)
  {
    Filter(bs, OccupiedTest(propertyId, start, end))
  }

  datatype AvailabilityView = AvailabilityView(
    propertyId: int, propertyTitle: string,
    startDate: Option<Day>, endDate: Option<Day>,
    isAvailable: bool, conflictingBookings: seq<Booking>)

  /** `GET /properties/:id/availability`. */
  function PropertyAvailability(s: Snapshot, idText: string, start: Option<Day>, end: Option<Day>): (r: Result<AvailabilityView>)
    ensures !LaterIfBoth(start, end) ==> r == Err(400, ValidationError(["end_date"]))
    ensures LaterIfBoth(start, end) && ParseInt(idText).None? ==> r == Err(400, InvalidPropertyId)
    ensures LaterIfBoth(start, end) && ParseInt(idText).Some? ==>
      var id := ParseInt(idText).value;
      (!HasProperty(s.properties, id) ==> r == Err(404, PropertyNotFound)) &&
      (HasProperty(s.properties, id) ==> r.Ok?)
    ensures r.Ok? ==>
      var v := r.value;
      v.propertyId == ParseInt(idText).value && v.startDate == start && v.endDate == end &&
      (exists i :: 0 <= i < |s.properties| && s.properties[i].propertyId == v.propertyId &&
                   s.properties[i].title == v.propertyTitle) &&
      SortedBy(v.conflictingBookings, CheckInKey) &&
      multiset(v.conflictingBookings) == multiset(OccupiedRows(s.bookings, v.propertyId, start, end)) &&
      (v.isAvailable <==> v.conflictingBookings == [])
  {
    match ValidateDateRange(start, end)
    case Rejected(fields) => Err(400, ValidationError(fields))
    case Accepted(_) =>
      match ParseInt(idText)
      case None => Err(400, InvalidPropertyId)
      case Some(id) =>
        match FindProperty(s.properties, id)
        case None => Err(404, PropertyNotFound)
        case Some(k) =>
          var rows := SortBy(OccupiedRows(s.bookings, id, start, end), CheckInKey);
          Ok(AvailabilityView(id, s.properties[k].title, start, end, |rows| == 0, rows))
  }

  /**
   * For bookings whose check-out follows their check-in, the third clause of the
   * availability query adds nothing: the rows are those of the conflict query.
   */
  lemma {:induction false} OccupiedIsConflicts(bs: seq<Booking>, propertyId: int, start: Day, end: Day)
    requires start < end
    requires forall i :: 0 <= i < |bs| ==> bs[i].checkIn < bs[i].checkOut
    ensures OccupiedRows(bs, propertyId, Some(start), Some(end)) == Conflicts(bs, propertyId, None, start, end)
  {
    if bs != [] {
      OccupiedIsConflicts(bs[1..], propertyId, start, end);
      WithinClauseRedundant(bs[0].checkIn, bs[0].checkOut, start, end);
    }
  }

  // ---------------------------------------------------------------------------
  // Bookings

  /** The `JOIN Properties … JOIN Users` of the booking queries: the property and its owner exist. */
  predicate Joined(s: Snapshot, b: Booking) {
    var k := FindProperty(s.properties, b.propertyId);
    k.Some? && HasUser(s.users, s.properties[k.value].ownerId)
  }

  /** `hay LIKE '%needle%'`, without wildcards in `needle` and with exact comparison. */
  predicate Contains(hay: string, needle: string) {
    exists k :: 0 <= k <= |hay| - |needle| && OccursAt(hay, needle, k)
  }

  predicate OccursAt(hay: string, needle: string, k: int) {
    0 <= k <= |hay| - |needle| && hay[k..k + |needle|] == needle
  }

  /** The `WHERE` clause of `GET /bookings`. */
  predicate BookingListed(s: Snapshot, f: BookingFilter, b: Booking) {
    Joined(s, b) &&
    (f.status.Some? ==> b.status == f.status.value) &&
    (f.sourceChannel.Some? ==> b.sourceChannel == f.sourceChannel.value) &&
    (GivenNumber(f.propertyId) ==> b.propertyId == f.propertyId.value) &&
    (GivenText(f.guestName) ==> Contains(b.guestName, f.guestName.value)) &&
    (f.startDate.Some? ==> b.checkIn >= f.startDate.value) &&
    (f.endDate.Some? ==> b.checkOut <= f.endDate.value)
  }

  function BookingTest(s: Snapshot, f: BookingFilter): Booking -> bool { (b: Booking) => BookingListed(s, f, b) }

  function ListedBookings(s: Snapshot, f: BookingFilter): (r: seq<Booking>)
    ensures forall b :: b in r <==> b in s.bookings && BookingListed(s, f, b)
  {
    Filter(s.bookings, BookingTest(s, f))
  }

  /** `GET /bookings`: the matching bookings, highest id first, one page of them. */
  function ListBookings(s: Snapshot, q: BookingSearch): (r: Result<Listing<Booking>>)
    ensures r.Ok? <==> ValidateBookingSearch(q).Accepted?
    ensures r.Err? ==> r == Err(400, ValidationError(ValidateBookingSearch(q).fields))
    ensures r.Ok? ==>
      var f := ValidateBookingSearch(q).value;
      r.value.page == f.paging.page && r.value.limit == f.paging.limit && r.value.limit <= 100 &&
      NewestPageOf(r.value, ListedBookings(s, f))
  {
    match ValidateBookingSearch(q)
    case Rejected(fields) => Err(400, ValidationError(fields))
    case Accepted(f) => Ok(NewestPage(ListedBookings(s, f), f.paging))
  }

  /** A page of a list ordered by id descending is itself in descending id order. */
  lemma ListedBookingsNewestFirst(s: Snapshot, q: BookingSearch)
    requires Ascending(s.bookings, BookingKey)
    requires ListBookings(s, q).Ok?
    ensures Descending(ListBookings(s, q).value.rows, BookingKey)
  {
    var f := ValidateBookingSearch(q).value;
    FilterAscending(s.bookings, BookingTest(s, f), BookingKey);
    NewestPageDescending(ListBookings(s, q).value, ListedBookings(s, f), BookingKey);
  }

  datatype BookingDetail = BookingDetail(
    booking: Booking, property: Property, owner: User, stayNights: int, currentStatus: StayPhase)

  /** `GET /bookings/:id`, with `CURDATE()` as `today`. */
  function GetBooking(s: Snapshot, idText: string, today: Day): (r: Result<BookingDetail>)
    ensures ParseInt(idText).None? ==> r == Err(400, InvalidBookingId)
    ensures ParseInt(idText).Some? ==>
      var id := ParseInt(idText).value;
      var k := FindBooking(s.bookings, id);
      (r.Ok? <==> k.Some? && Joined(s, s.bookings[k.value])) &&
      (r.Err? ==> r == Err(404, BookingNotFound))
    ensures r.Ok? ==>
      var d := r.value;
      d.booking in s.bookings && d.booking.bookingId == ParseInt(idText).value &&
      d.property in s.properties && d.property.propertyId == d.booking.propertyId &&
      d.owner in s.users && d.owner.userId == d.property.ownerId &&
      d.stayNights == d.booking.checkOut - d.booking.checkIn &&
      d.currentStatus != Unknown &&
      (d.currentStatus == NotStarted <==> d.booking.checkIn > today) &&
      (d.currentStatus == Staying <==> d.booking.checkIn <= today <= d.booking.checkOut)
  {
    match ParseInt(idText)
    case None => Err(400, InvalidBookingId)
    case Some(id) =>
      match FindBooking(s.bookings, id)
      case None => Err(404, BookingNotFound)
      case Some(k) =>
        var b := s.bookings[k];
        match FindProperty(s.properties, b.propertyId)
        case None => Err(404, BookingNotFound)
        case Some(pk) =>
          match FindUser(s.users, s.properties[pk].ownerId)
          case None => Err(404, BookingNotFound)
          case Some(uk) =>
            PhaseNeverUnknown(b.checkIn, b.checkOut, today);
            Ok(BookingDetail(b, s.properties[pk], s.users[uk], StayNights(b.checkIn, b.checkOut),
              CurrentPhase(b.checkIn, b.checkOut, today)))
  }

  // ---------------------------------------------------------------------------
  // The batch availability check

  /** The rows of `SELECT … FROM Properties WHERE property_id IN (…)`. */
  function FoundProperties(ps: seq<Property>, ids: seq<int>): (r: seq<Property>)
    ensures |r| <= |ps|
    ensures forall p :: p in r <==> p in ps && p.propertyId in ids
  {
    if ps == [] then []
    else
      var rest := FoundProperties(ps[1..], ids);
      if ps[0].propertyId in ids then [ps[0]] + rest else rest
  }

  /** `property_ids.filter(id => !foundIds.includes(id))`. */
  function MissingIds(ids: seq<int>, found: seq<Property>): (r: seq<int>)
    ensures forall x :: x in r <==> x in ids && forall p :: p in found ==> p.propertyId != x
  {
    if ids == [] then []
    else
      var rest := MissingIds(ids[1..], found);
      if FoundId(found, ids[0]) then rest else [ids[0]] + rest
  }

  /** `foundIds.includes(x)`. */
  predicate FoundId(found: seq<Property>, x: int) {
    exists p :: p in found && p.propertyId == x
  }

  datatype AvailabilityRecord = AvailabilityRecord(
    propertyId: int, propertyTitle: string, basePriceTwd: int,
    stayNights: int, estimatedTotal: int,
    isAvailable: bool, conflictingBookings: seq<Booking>)

  datatype BatchReport = BatchReport(
    checkIn: Day, checkOut: Day, properties: seq<AvailabilityRecord>,
    availableCount: nat, totalChecked: nat)

  /** One record per requested id, in request order. */
  function BatchRecords(s: Snapshot, ids: seq<int>, checkIn: Day, checkOut: Day): (r: seq<AvailabilityRecord>)
    requires forall i :: 0 <= i < |ids| ==> HasProperty(s.properties, ids[i])
    ensures |r| == |ids|
    ensures forall i :: 0 <= i < |ids| ==>
      var c := r[i];
      c.propertyId == ids[i] &&
      (exists k :: 0 <= k < |s.properties| && s.properties[k].propertyId == ids[i] &&
                   c.propertyTitle == s.properties[k].title && c.basePriceTwd == s.properties[k].basePriceTwd) &&
      c.stayNights == checkOut - checkIn && c.estimatedTotal == c.basePriceTwd * c.stayNights &&
      c.conflictingBookings == Conflicts(s.bookings, ids[i], None, checkIn, checkOut) &&
      (c.isAvailable <==> c.conflictingBookings == [])
  {
    if ids == [] then []
    else
      var k := FindProperty(s.properties, ids[0]).value;
      var p := s.properties[k];
      var conflicting := Conflicts(s.bookings, ids[0], None, checkIn, checkOut);
      var nights := StayNights(checkIn, checkOut);
      var rest := BatchRecords(s, ids[1..], checkIn, checkOut);
      assert forall i :: 1 <= i < |ids| ==> ids[1..][i - 1] == ids[i];
      [AvailabilityRecord(ids[0], p.title, p.basePriceTwd, nights, p.basePriceTwd * nights,
        |conflicting| == 0, conflicting)] + rest
  }

  /** `availability.filter(p => p.is_available).length`. */
  function AvailableCount(rs: seq<AvailabilityRecord>): (n: nat)
    ensures n == |Filter(rs, (r: AvailabilityRecord) => r.isAvailable)|
    ensures n <= |rs|
    ensures n == |rs| <==> forall i :: 0 <= i < |rs| ==> rs[i].isAvailable
    ensures n == 0 <==> forall i :: 0 <= i < |rs| ==> !rs[i].isAvailable
  {
    if rs == [] then 0
    else
      var rest := AvailableCount(rs[1..]);
      assert forall i :: 1 <= i < |rs| ==> rs[1..][i - 1] == rs[i];
      (if rs[0].isAvailable then 1 else 0) + rest
  }

  /**
   * The body of the batch handler, given the validated request: a count of found
   * properties other than the number of requested ids is SOME_PROPERTIES_NOT_FOUND;
   * otherwise each requested property gets its record. Should a requested id still
   * have no property, `property.title` of `undefined` throws and the handler's
   * catch block answers 500.
   */
  function BatchHandler(s: Snapshot, req: BatchRequest): (r: Result<BatchReport>)
    ensures var ids := req.propertyIds;
      var found := |FoundProperties(s.properties, ids)|;
      (found != |ids| ==> r.Err? && r.httpStatus == 400 && r.error.SomePropertiesNotFound? &&
                          forall x :: x in r.error.missing <==> x in ids && !HasProperty(s.properties, x)) &&
      (found == |ids| && (forall i :: 0 <= i < |ids| ==> HasProperty(s.properties, ids[i])) ==>
        r.Ok? && r.value.checkIn == req.checkIn && r.value.checkOut == req.checkOut &&
        r.value.totalChecked == |ids| && r.value.properties == BatchRecords(s, ids, req.checkIn, req.checkOut) &&
        r.value.availableCount == AvailableCount(r.value.properties)) &&
      (found == |ids| && !(forall i :: 0 <= i < |ids| ==> HasProperty(s.properties, ids[i])) ==>
        r == Err(500, CheckAvailabilityFailed))
  {
    var ids := req.propertyIds;
    var found := FoundProperties(s.properties, ids);
    MissingIdsAbsent(s.properties, ids);
    if |found| != |ids| then Err(400, SomePropertiesNotFound(MissingIds(ids, found)))
    else if forall i :: 0 <= i < |ids| ==> HasProperty(s.properties, ids[i]) then
      var records := BatchRecords(s, ids, req.checkIn, req.checkOut);
      Ok(BatchReport(req.checkIn, req.checkOut, records, AvailableCount(records), |ids|))
    else Err(500, CheckAvailabilityFailed)
  }

  /**
   * The answer to a validated batch request, when property ids are unique: success
   * exactly when the requested ids are distinct and each names a property, with one
   * record per id; otherwise 400 SOME_PROPERTIES_NOT_FOUND listing the absent ids.
   */
  ghost predicate BatchAnswer(s: Snapshot, req: BatchRequest, r: Result<BatchReport>) {
    var ids := req.propertyIds;
    (r.Ok? <==> (forall i, j :: 0 <= i < j < |ids| ==> ids[i] != ids[j]) &&
                (forall i :: 0 <= i < |ids| ==> HasProperty(s.properties, ids[i]))) &&
    (r.Err? ==> r.httpStatus == 400 && r.error.SomePropertiesNotFound? &&
                forall x :: x in r.error.missing <==> x in ids && !HasProperty(s.properties, x)) &&
    (r.Ok? ==> r.value.checkIn == req.checkIn && r.value.checkOut == req.checkOut &&
               r.value.totalChecked == |ids| && |r.value.properties| == |ids| &&
               (forall i :: 0 <= i < |ids| ==> HasProperty(s.properties, ids[i])) &&
               r.value.properties == BatchRecords(s, ids, req.checkIn, req.checkOut) &&
               r.value.availableCount == AvailableCount(r.value.properties))
  }

  /** With unique property ids the handler never reaches its 500 branch. */
  lemma BatchHandlerAnswers(s: Snapshot, req: BatchRequest)
    requires Ascending(s.properties, PropertyKey)
    ensures BatchAnswer(s, req, BatchHandler(s, req))
  {
    FoundCountIff(s.properties, req.propertyIds);
  }

  /** `POST /bookings/check-availability` with its body schema compiled by `Joi.object`. */
  function CheckAvailability(s: Snapshot, body: BatchBody, now: int): (r: Result<BatchReport>)
    requires Ascending(s.properties, PropertyKey)
    ensures ValidateBatch(body, now).Rejected? ==> r == Err(400, ValidationError(ValidateBatch(body, now).fields))
    ensures ValidateBatch(body, now).Accepted? ==> BatchAnswer(s, ValidateBatch(body, now).value, r)
  {
    match RunValidator(CompiledSchema, ValidateBatch(body, now))
    case Err(code, e) => Err(code, e)
    case Ok(req) =>
      BatchHandlerAnswers(s, req);
      BatchHandler(s, req)
  }

  /** The missing list names exactly the requested ids no property has. */
  lemma MissingIdsAbsent(ps: seq<Property>, ids: seq<int>)
    ensures forall x :: x in MissingIds(ids, FoundProperties(ps, ids)) <==> x in ids && !HasProperty(ps, x)
  {
    var found := FoundProperties(ps, ids);
    forall x | x in ids && HasProperty(ps, x) ensures FoundId(found, x) {
      var k :| 0 <= k < |ps| && ps[k].propertyId == x;
      assert ps[k] in found;
    }
  }

  /** A repeated id fails the count even when every id exists, and then no id is reported missing. */
  lemma RepeatedIdFailsWithEmptyList(s: Snapshot, req: BatchRequest)
    requires Ascending(s.properties, PropertyKey)
    requires var ids := req.propertyIds;
      |ids| >= 2 && ids[0] == ids[1] && forall i :: 0 <= i < |ids| ==> HasProperty(s.properties, ids[i])
    ensures BatchHandler(s, req) == Err(400, SomePropertiesNotFound([]))
  {
    var ids := req.propertyIds;
    FoundCountIff(s.properties, ids);
    assert !(forall i, j :: 0 <= i < j < |ids| ==> ids[i] != ids[j]) by {
      assert ids[0] == ids[1];
    }
    var found := FoundProperties(s.properties, ids);
    forall i | 0 <= i < |ids| ensures FoundId(found, ids[i]) {
      var k :| 0 <= k < |s.properties| && s.properties[k].propertyId == ids[i];
      assert s.properties[k] in found;
    }
    NothingMissing(ids, found);
  }

  lemma {:induction false} NothingMissing(ids: seq<int>, found: seq<Property>)
    requires forall i :: 0 <= i < |ids| ==> FoundId(found, ids[i])
    ensures MissingIds(ids, found) == []
  {
    if ids != [] {
      var tail := ids[1..];
      forall i | 0 <= i < |tail| ensures FoundId(found, tail[i]) {
        assert tail[i] == ids[i + 1];
      }
      NothingMissing(tail, found);
    }
  }

  // The counting argument behind the SOME_PROPERTIES_NOT_FOUND test

  /** The ids of the found properties. */
  function FoundIdSet(ps: seq<Property>, ids: seq<int>): (r: set<int>)
    ensures forall x :: x in r <==> x in ids && HasProperty(ps, x)
  {
    if ps == [] then {}
    else
      var rest := FoundIdSet(ps[1..], ids);
      assert forall x :: HasProperty(ps, x) <==> ps[0].propertyId == x || HasProperty(ps[1..], x) by {
        forall x | HasProperty(ps, x) && ps[0].propertyId != x ensures HasProperty(ps[1..], x) {
          var k :| 0 <= k < |ps| && ps[k].propertyId == x;
          assert ps[1..][k - 1] == ps[k];
        }
        forall x | HasProperty(ps[1..], x) ensures HasProperty(ps, x) {
          var k :| 0 <= k < |ps[1..]| && ps[1..][k].propertyId == x;
          assert ps[k + 1] == ps[1..][k];
        }
      }
      (if ps[0].propertyId in ids then {ps[0].propertyId} else {}) + rest
  }

  lemma {:induction false} FoundCountIsIdCount(ps: seq<Property>, ids: seq<int>)
    requires Ascending(ps, PropertyKey)
    ensures |FoundProperties(ps, ids)| == |FoundIdSet(ps, ids)|
  {
    if ps != [] {
      var tail := ps[1..];
      assert Ascending(tail, PropertyKey) by {
        forall i, j | 0 <= i < j < |tail| ensures tail[i].propertyId < tail[j].propertyId {
          assert tail[i] == ps[i + 1] && tail[j] == ps[j + 1];
        }
      }
      FoundCountIsIdCount(tail, ids);
      assert ps[0].propertyId !in FoundIdSet(tail, ids);
    }
  }

  lemma {:induction false} DistinctCount(ids: seq<int>)
    ensures |set x | x in ids| <= |ids|
    ensures |set x | x in ids| == |ids| <==> forall i, j :: 0 <= i < j < |ids| ==> ids[i] != ids[j]
  {
    if ids != [] {
      var tail := ids[1..];
      DistinctCount(tail);
      assert (set x | x in ids) == {ids[0]} + (set x | x in tail);
      if ids[0] in tail {
        assert (set x | x in ids) == (set x | x in tail);
        var k :| 0 <= k < |tail| && tail[k] == ids[0];
        assert ids[k + 1] == ids[0];
      } else {
        assert (forall i, j :: 0 <= i < j < |ids| ==> ids[i] != ids[j]) <==>
               (forall i, j :: 0 <= i < j < |tail| ==> tail[i] != tail[j]) by {
          if forall i, j :: 0 <= i < j < |tail| ==> tail[i] != tail[j] {
            forall i, j | 0 <= i < j < |ids| ensures ids[i] != ids[j] {
              if i == 0 { assert ids[j] == tail[j - 1]; } else { assert ids[i] == tail[i - 1] && ids[j] == tail[j - 1]; }
            }
          }
          if forall i, j :: 0 <= i < j < |ids| ==> ids[i] != ids[j] {
            forall i, j | 0 <= i < j < |tail| ensures tail[i] != tail[j] {
              assert tail[i] == ids[i + 1] && tail[j] == ids[j + 1];
            }
          }
        }
      }
    }
  }

  lemma SubsetCard(a: set<int>, b: set<int>)
    requires a <= b
    ensures |a| <= |b|
    ensures a != b ==> |a| < |b|
  {
    var d := b - a;
    assert b == a + d && a * d == {};
    if a != b {
      assert d != {};
    }
  }

  /**
   * With property ids unique, the batch finds as many properties as ids were
   * requested exactly when the ids are distinct and each names a property.
   */
  lemma FoundCountIff(ps: seq<Property>, ids: seq<int>)
    requires Ascending(ps, PropertyKey)
    ensures |FoundProperties(ps, ids)| == |ids| <==>
      (forall i, j :: 0 <= i < j < |ids| ==> ids[i] != ids[j]) &&
      (forall i :: 0 <= i < |ids| ==> HasProperty(ps, ids[i]))
  {
    FoundCountIsIdCount(ps, ids);
    DistinctCount(ids);
    FoundIdsRequested(ps, ids);
    SubsetCard(FoundIdSet(ps, ids), set x | x in ids);
  }

  /** The found ids are requested ids, and all of them exactly when each requested id names a property. */
  lemma FoundIdsRequested(ps: seq<Property>, ids: seq<int>)
    ensures FoundIdSet(ps, ids) <= (set x | x in ids)
    ensures FoundIdSet(ps, ids) == (set x | x in ids) <==> forall i :: 0 <= i < |ids| ==> HasProperty(ps, ids[i])
  {
    var f := FoundIdSet(ps, ids);
    var all := set x | x in ids;
    if forall i :: 0 <= i < |ids| ==> HasProperty(ps, ids[i]) {
      forall x | x in all ensures x in f {
        var i :| 0 <= i < |ids| && ids[i] == x;
      }
    } else {
      var i :| 0 <= i < |ids| && !HasProperty(ps, ids[i]);
      assert ids[i] in all && ids[i] !in f;
    }
  }

  // ---------------------------------------------------------------------------
  // The batch route as written

  /** What `validateSchema` is handed: a schema compiled by `Joi.object`, or a plain object literal. */
  datatype SchemaArgument = CompiledSchema | PlainObject

  /**
   * The middleware produced by `validateSchema(schema)`: it calls `schema.validate`,
   * which a plain object does not have, so the call throws a TypeError that the
   * application's error handler answers with 500 INTERNAL_SERVER_ERROR.
   */
  function RunValidator<T>(schema: SchemaArgument, outcome: Validated<T>): (r: Result<T>)
    ensures schema == PlainObject ==> r == Err(500, InternalServerError)
    ensures schema == CompiledSchema ==>
      (r.Ok? <==> outcome.Accepted?) &&
      (outcome.Accepted? ==> r.value == outcome.value) &&
      (outcome.Rejected? ==> r == Err(400, ValidationError(outcome.fields)))
  {
    match schema
    case PlainObject => Err(500, InternalServerError)
    case CompiledSchema =>
      match outcome
      case Accepted(v) => Ok(v)
      case Rejected(fields) => Err(400, ValidationError(fields))
  }

  /** The batch route as routes/bookings.js declares it: its three keys in a plain object. */
  function CheckAvailabilityAsWritten(s: Snapshot, body: BatchBody, now: int): (r: Result<BatchReport>)
    ensures r == Err(500, InternalServerError)
  {
    match RunValidator(PlainObject, ValidateBatch(body, now))
    case Err(code, e) => Err(code, e)
    case Ok(req) => BatchHandler(s, req)
  }

  /** A well-formed request for one free property: the route as written fails it, the intended route answers it. */
  lemma BatchRouteFailsValidRequest()
    ensures var s := Snapshot([], [Property(1, 1, "海景雅房", "台北市", "大安區", "復興南路一段1號", None, 2000)], []);
      var body := BatchBody(Some([1]), Some(1), Some(2));
      CheckAvailabilityAsWritten(s, body, 0) == Err(500, InternalServerError) &&
      CheckAvailability(s, body, 0).Ok? &&
      CheckAvailability(s, body, 0).value.availableCount == 1
  {
    var s := Snapshot([], [Property(1, 1, "海景雅房", "台北市", "大安區", "復興南路一段1號", None, 2000)], []);
    var body := BatchBody(Some([1]), Some(1), Some(2));
    assert ValidateBatch(body, 0).Accepted? by {
      assert IdListRule(body.propertyIds);
      assert NotPast(1, 0);
    }
    assert HasProperty(s.properties, 1) by { assert s.properties[0].propertyId == 1; }
    var records := BatchRecords(s, [1], 1, 2);
    assert records[0].isAvailable;
  }
}
