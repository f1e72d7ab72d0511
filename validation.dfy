/**
 * The request schemas of middleware/validation.js and the inline schemas of the
 * routes, applied as `validateSchema` applies them: every rule is checked
 * (`abortEarly: false`), the failing fields are reported together, keys outside
 * the schema are dropped (`stripUnknown`), and defaults are filled in.
 *
 * A raw request carries each key as present (`Some`) or absent (`None`), already
 * converted to the type its rule expects; a date is a day number at 00:00 UTC.
 */
module Validation {
  import opened Wrappers
  import opened Records
  import opened Patterns

  /** `Joi.number()` refuses integers outside +-Number.MAX_SAFE_INTEGER (2^53 - 1). */
  const MaxSafeInteger: int := 9007199254740991

  /** Milliseconds in a day: `Joi.date().min('now')` compares against the current instant. */
  const MsPerDay: int := 86400000

  datatype Validated<+T> = Accepted(value: T) | Rejected(fields: seq<string>)

  /** One key of a schema and whether its rules hold. */
  datatype FieldCheck = FieldCheck(field: string, ok: bool)

  /** The `details[].field` names of a 400 VALIDATION_ERROR, in schema order. */
  function FailedFields(cs: seq<FieldCheck>): (r: seq<string>)
    ensures |r| <= |cs|
    ensures r == [] <==> forall i :: 0 <= i < |cs| ==> cs[i].ok
    ensures forall i :: 0 <= i < |cs| && !cs[i].ok ==> cs[i].field in r
    ensures forall f :: f in r ==> exists i :: 0 <= i < |cs| && cs[i].field == f && !cs[i].ok
  {
    if cs == [] then [] else (if cs[0].ok then [] else [cs[0].field]) + FailedFields(cs[1..])
  }

  /** Accept `value` when every check holds, otherwise name the failing fields. */
  function Decide<T>(cs: seq<FieldCheck>, value: T): (r: Validated<T>)
    ensures r.Accepted? <==> forall i :: 0 <= i < |cs| ==> cs[i].ok
    ensures r.Accepted? ==> r.value == value
    ensures r.Rejected? ==> r.fields == FailedFields(cs) && r.fields != []
  {
    var failed := FailedFields(cs);
    if failed == [] then Accepted(value) else Rejected(failed)
  }

  // ---------------------------------------------------------------------------
  // Rules of single keys

  predicate SafeInteger(n: int) { -MaxSafeInteger <= n <= MaxSafeInteger }

  /** `Joi.number().integer().min(lo).max(hi)` (no `max`: the safe-integer bound only). */
  predicate IntRule(n: int, lo: int, hi: int) { SafeInteger(n) && lo <= n <= hi }

  /** `Joi.string().min(lo).max(hi)`: `Joi.string()` also refuses the empty string. */
  predicate StringRule(s: string, lo: nat, hi: nat) { 1 <= |s| && lo <= |s| <= hi }

  predicate RequiredString(o: Option<string>, lo: nat, hi: nat) { o.Some? && StringRule(o.value, lo, hi) }
  predicate OptionalString(o: Option<string>, lo: nat, hi: nat) { o.None? || StringRule(o.value, lo, hi) }
  predicate RequiredInt(o: Option<int>, lo: int, hi: int) { o.Some? && IntRule(o.value, lo, hi) }
  predicate OptionalInt(o: Option<int>, lo: int, hi: int) { o.None? || IntRule(o.value, lo, hi) }

  /** `Joi.string().pattern(p).optional()`. */
  predicate OptionalPattern(o: Option<string>, p: Pattern) { o.None? || (|o.value| >= 1 && Matches(p, o.value)) }

  /** `Joi.string().email().max(150)`; the address grammar is not modelled (see README). */
  predicate EmailRule(s: string) { StringRule(s, 1, 150) }

  predicate OptionalStatus(o: Option<string>) { o.None? || ParseStatus(o.value).Some? }
  predicate OptionalChannel(o: Option<string>) { o.None? || ParseChannel(o.value).Some? }

  /** `Joi.date().greater(Joi.ref(start))` under `when(start, { is: Joi.exist() })`: only with both keys. */
  predicate LaterIfBoth(start: Option<Day>, end: Option<Day>) {
    start.None? || end.None? || end.value > start.value
  }

  /** `Joi.date().min('now')` for a date-only value: its midnight is not before `now` (in ms). */
  predicate NotPast(d: Day, now: int) { d * MsPerDay >= now }

  // ---------------------------------------------------------------------------
  // Users (userSchemas)

  /** The keys of a user body; also the validated update (all keys optional). */
  datatype UserFields = UserFields(
    fullName: Option<string>,
    email: Option<string>,
    companyTaxId: Option<string>,
    phone: Option<string>,
    bankCode: Option<string>,
    bankAccount: Option<string>)

  datatype NewUser = NewUser(
    fullName: string,
    email: string,
    companyTaxId: Option<string>,
    phone: Option<string>,
    bankCode: Option<string>,
    bankAccount: Option<string>)

  function UserChecks(b: UserFields, create: bool): seq<FieldCheck> {
    [ FieldCheck("full_name", if create then RequiredString(b.fullName, 2, 100) else OptionalString(b.fullName, 2, 100)),
      FieldCheck("email", if create then b.email.Some? && EmailRule(b.email.value) else b.email.None? || EmailRule(b.email.value)),
      FieldCheck("company_tax_id", OptionalPattern(b.companyTaxId, TaiwanTaxIdPattern)),
      FieldCheck("phone", OptionalPattern(b.phone, TaiwanPhonePattern)),
      FieldCheck("bank_code", OptionalString(b.bankCode, 3, 3)),
      FieldCheck("bank_account", OptionalString(b.bankAccount, 10, 20)) ]
  }

  /** `userSchemas.create`. */
  function ValidateUserCreate(b: UserFields): (r: Validated<NewUser>)
    ensures r.Accepted? <==>
      RequiredString(b.fullName, 2, 100) && b.email.Some? && EmailRule(b.email.value) &&
      OptionalPattern(b.companyTaxId, TaiwanTaxIdPattern) && OptionalPattern(b.phone, TaiwanPhonePattern) &&
      OptionalString(b.bankCode, 3, 3) && OptionalString(b.bankAccount, 10, 20)
    ensures r.Accepted? ==>
      r.value == NewUser(b.fullName.value, b.email.value, b.companyTaxId, b.phone, b.bankCode, b.bankAccount)
    ensures r.Rejected? ==> r.fields == FailedFields(UserChecks(b, true))
  {
    var cs := UserChecks(b, true);
    assert (forall i :: 0 <= i < |cs| ==> cs[i].ok) <==> cs[0].ok && cs[1].ok && cs[2].ok && cs[3].ok && cs[4].ok && cs[5].ok;
    if b.fullName.Some? && b.email.Some? then
      Decide(cs, NewUser(b.fullName.value, b.email.value, b.companyTaxId, b.phone, b.bankCode, b.bankAccount))
    else
      assert !cs[0].ok || !cs[1].ok;
      Rejected(FailedFields(cs))
  }

  /** `userSchemas.update`: every key optional, each checked when present. */
  function ValidateUserUpdate(b: UserFields): (r: Validated<UserFields>)
    ensures r.Accepted? <==>
      OptionalString(b.fullName, 2, 100) && (b.email.None? || EmailRule(b.email.value)) &&
      OptionalPattern(b.companyTaxId, TaiwanTaxIdPattern) && OptionalPattern(b.phone, TaiwanPhonePattern) &&
      OptionalString(b.bankCode, 3, 3) && OptionalString(b.bankAccount, 10, 20)
    ensures r.Accepted? ==> r.value == b
    ensures r.Rejected? ==> r.fields == FailedFields(UserChecks(b, false))
  {
    var cs := UserChecks(b, false);
    assert (forall i :: 0 <= i < |cs| ==> cs[i].ok) <==> cs[0].ok && cs[1].ok && cs[2].ok && cs[3].ok && cs[4].ok && cs[5].ok;
    Decide(cs, b)
  }

  // ---------------------------------------------------------------------------
  // Properties (propertySchemas)

  datatype PropertyBody = PropertyBody(
    ownerId: Option<int>,
    title: Option<string>,
    city: Option<string>,
    district: Option<string>,
    address: Option<string>,
    legalLicenseNo: Option<string>,
    basePriceTwd: Option<int>)

  datatype NewProperty = NewProperty(
    ownerId: int,
    title: string,
    city: string,
    district: string,
    address: string,
    legalLicenseNo: Option<string>,
    basePriceTwd: int)

  /** A validated property update: `owner_id` is not a key of the update schema. */
  datatype PropertyPatch = PropertyPatch(
    title: Option<string>,
    city: Option<string>,
    district: Option<string>,
    address: Option<string>,
    legalLicenseNo: Option<string>,
    basePriceTwd: Option<int>)

  const MinPrice: int := 500
  const MaxPrice: int := 50000

  function PropertyCreateChecks(b: PropertyBody): seq<FieldCheck> {
    [ FieldCheck("owner_id", RequiredInt(b.ownerId, 1, MaxSafeInteger)),
      FieldCheck("title", RequiredString(b.title, 5, 255)),
      FieldCheck("city", RequiredString(b.city, 1, 50)),
      FieldCheck("district", RequiredString(b.district, 1, 50)),
      FieldCheck("address", RequiredString(b.address, 1, 255)),
      FieldCheck("legal_license_no", OptionalString(b.legalLicenseNo, 1, 100)),
      FieldCheck("base_price_twd", RequiredInt(b.basePriceTwd, MinPrice, MaxPrice)) ]
  }

  /** `propertySchemas.create`. */
  function ValidatePropertyCreate(b: PropertyBody): (r: Validated<NewProperty>)
    ensures r.Accepted? <==>
      RequiredInt(b.ownerId, 1, MaxSafeInteger) && RequiredString(b.title, 5, 255) &&
      RequiredString(b.city, 1, 50) && RequiredString(b.district, 1, 50) && RequiredString(b.address, 1, 255) &&
      OptionalString(b.legalLicenseNo, 1, 100) && RequiredInt(b.basePriceTwd, MinPrice, MaxPrice)
    ensures r.Accepted? ==> r.value == NewProperty(b.ownerId.value, b.title.value, b.city.value,
      b.district.value, b.address.value, b.legalLicenseNo, b.basePriceTwd.value)
    ensures r.Rejected? ==> r.fields == FailedFields(PropertyCreateChecks(b))
  {
    var cs := PropertyCreateChecks(b);
    assert (forall i :: 0 <= i < |cs| ==> cs[i].ok) <==> cs[0].ok && cs[1].ok && cs[2].ok && cs[3].ok && cs[4].ok && cs[5].ok && cs[6].ok;
    if b.ownerId.Some? && b.title.Some? && b.city.Some? && b.district.Some? && b.address.Some? && b.basePriceTwd.Some? then
      Decide(cs, NewProperty(b.ownerId.value, b.title.value, b.city.value, b.district.value,
        b.address.value, b.legalLicenseNo, b.basePriceTwd.value))
    else
      assert !cs[0].ok || !cs[1].ok || !cs[2].ok || !cs[3].ok || !cs[4].ok || !cs[6].ok;
      Rejected(FailedFields(cs))
  }

  function PropertyUpdateChecks(b: PropertyBody): seq<FieldCheck> {
    [ FieldCheck("title", OptionalString(b.title, 5, 255)),
      FieldCheck("city", OptionalString(b.city, 1, 50)),
      FieldCheck("district", OptionalString(b.district, 1, 50)),
      FieldCheck("address", OptionalString(b.address, 1, 255)),
      FieldCheck("legal_license_no", OptionalString(b.legalLicenseNo, 1, 100)),
      FieldCheck("base_price_twd", OptionalInt(b.basePriceTwd, MinPrice, MaxPrice)) ]
  }

  /** `propertySchemas.update`; an `owner_id` in the body is stripped, never checked. */
  function ValidatePropertyUpdate(b: PropertyBody): (r: Validated<PropertyPatch>)
    ensures r.Accepted? <==>
      OptionalString(b.title, 5, 255) && OptionalString(b.city, 1, 50) && OptionalString(b.district, 1, 50) &&
      OptionalString(b.address, 1, 255) && OptionalString(b.legalLicenseNo, 1, 100) &&
      OptionalInt(b.basePriceTwd, MinPrice, MaxPrice)
    ensures r.Accepted? ==>
      r.value == PropertyPatch(b.title, b.city, b.district, b.address, b.legalLicenseNo, b.basePriceTwd)
    ensures r.Rejected? ==> r.fields == FailedFields(PropertyUpdateChecks(b))
  {
    var cs := PropertyUpdateChecks(b);
    assert (forall i :: 0 <= i < |cs| ==> cs[i].ok) <==> cs[0].ok && cs[1].ok && cs[2].ok && cs[3].ok && cs[4].ok && cs[5].ok;
    Decide(cs, PropertyPatch(b.title, b.city, b.district, b.address, b.legalLicenseNo, b.basePriceTwd))
  }

  // ---------------------------------------------------------------------------
  // Bookings (bookingSchemas)

  datatype BookingBody = BookingBody(
    propertyId: Option<int>,
    sourceChannel: Option<string>,
    guestName: Option<string>,
    guestIdNo: Option<string>,
    checkIn: Option<Day>,
    checkOut: Option<Day>,
    totalAmount: Option<int>,
    isTaxIncluded: Option<bool>,
    breakfastIncluded: Option<bool>,
    specialNote: Option<string>,
    status: Option<string>)

  datatype NewBooking = NewBooking(
    propertyId: int,
    sourceChannel: Channel,
    guestName: string,
    guestIdNo: string,
    checkIn: Day,
    checkOut: Day,
    totalAmount: int,
    isTaxIncluded: bool,
    breakfastIncluded: bool,
    specialNote: Option<string>,
    status: Status)

  /** A validated booking update: `property_id` is not a key of the update schema. */
  datatype BookingPatch = BookingPatch(
    sourceChannel: Option<Channel>,
    guestName: Option<string>,
    guestIdNo: Option<string>,
    checkIn: Option<Day>,
    checkOut: Option<Day>,
    totalAmount: Option<int>,
    isTaxIncluded: Option<bool>,
    breakfastIncluded: Option<bool>,
    specialNote: Option<string>,
    status: Option<Status>)

  /** `check_out: Joi.date().greater(Joi.ref('check_in')).required()`: a missing `check_in` fails the reference too. */
  predicate CheckOutAfter(checkIn: Option<Day>, checkOut: Option<Day>) {
    checkOut.Some? && checkIn.Some? && checkOut.value > checkIn.value
  }

  function BookingCreateChecks(b: BookingBody, now: int): seq<FieldCheck> {
    [ FieldCheck("property_id", RequiredInt(b.propertyId, 1, MaxSafeInteger)),
      FieldCheck("source_channel", OptionalChannel(b.sourceChannel)),
      FieldCheck("guest_name", RequiredString(b.guestName, 2, 100)),
      FieldCheck("guest_id_no", RequiredString(b.guestIdNo, 8, 20)),
      FieldCheck("check_in", b.checkIn.Some? && NotPast(b.checkIn.value, now)),
      FieldCheck("check_out", CheckOutAfter(b.checkIn, b.checkOut)),
      FieldCheck("total_amount", RequiredInt(b.totalAmount, 0, MaxSafeInteger)),
      FieldCheck("special_note", OptionalString(b.specialNote, 1, 1000)),
      FieldCheck("status", OptionalStatus(b.status)) ]
  }

  /** `bookingSchemas.create`, `now` being the current instant in ms. */
  function ValidateBookingCreate(b: BookingBody, now: int): (r: Validated<NewBooking>)
    ensures r.Accepted? <==>
      RequiredInt(b.propertyId, 1, MaxSafeInteger) && OptionalChannel(b.sourceChannel) &&
      RequiredString(b.guestName, 2, 100) && RequiredString(b.guestIdNo, 8, 20) &&
      b.checkIn.Some? && NotPast(b.checkIn.value, now) && CheckOutAfter(b.checkIn, b.checkOut) &&
      RequiredInt(b.totalAmount, 0, MaxSafeInteger) && OptionalString(b.specialNote, 1, 1000) &&
      OptionalStatus(b.status)
    ensures r.Accepted? ==>
      var v := r.value;
      v.propertyId == b.propertyId.value && v.guestName == b.guestName.value && v.guestIdNo == b.guestIdNo.value &&
      v.checkIn == b.checkIn.value && v.checkOut == b.checkOut.value && v.totalAmount == b.totalAmount.value &&
      v.specialNote == b.specialNote &&
      (if b.sourceChannel.Some? then ChannelName(v.sourceChannel) == b.sourceChannel.value else v.sourceChannel == Direct) &&
      (if b.status.Some? then StatusName(v.status) == b.status.value else v.status == Reserved) &&
      v.isTaxIncluded == b.isTaxIncluded.GetOr(true) && v.breakfastIncluded == b.breakfastIncluded.GetOr(true)
    ensures r.Rejected? ==> r.fields == FailedFields(BookingCreateChecks(b, now))
  {
    var cs := BookingCreateChecks(b, now);
    assert (forall i :: 0 <= i < |cs| ==> cs[i].ok) <==> cs[0].ok && cs[1].ok && cs[2].ok && cs[3].ok && cs[4].ok && cs[5].ok && cs[6].ok && cs[7].ok && cs[8].ok;
    if b.propertyId.Some? && b.guestName.Some? && b.guestIdNo.Some? && b.checkIn.Some? && b.checkOut.Some? && b.totalAmount.Some? then
      var channel := if b.sourceChannel.Some? then ParseChannel(b.sourceChannel.value) else Some(Direct);
      var status := if b.status.Some? then ParseStatus(b.status.value) else Some(Reserved);
      if channel.Some? && status.Some? then
        Decide(cs, NewBooking(b.propertyId.value, channel.value, b.guestName.value, b.guestIdNo.value,
          b.checkIn.value, b.checkOut.value, b.totalAmount.value, b.isTaxIncluded.GetOr(true),
          b.breakfastIncluded.GetOr(true), b.specialNote, status.value))
      else
        assert !cs[1].ok || !cs[8].ok;
        Rejected(FailedFields(cs))
    else
      assert !cs[0].ok || !cs[2].ok || !cs[3].ok || !cs[4].ok || !cs[5].ok || !cs[6].ok;
      Rejected(FailedFields(cs))
  }

  function BookingUpdateChecks(b: BookingBody): seq<FieldCheck> {
    [ FieldCheck("source_channel", OptionalChannel(b.sourceChannel)),
      FieldCheck("guest_name", OptionalString(b.guestName, 2, 100)),
      FieldCheck("guest_id_no", OptionalString(b.guestIdNo, 8, 20)),
      FieldCheck("check_out", LaterIfBoth(b.checkIn, b.checkOut)),
      FieldCheck("total_amount", OptionalInt(b.totalAmount, 0, MaxSafeInteger)),
      FieldCheck("special_note", OptionalString(b.specialNote, 1, 1000)),
      FieldCheck("status", OptionalStatus(b.status)) ]
  }

  /** The enumeration value of an optional key that passed its rule. */
  function ChannelOf(o: Option<string>): (r: Option<Channel>)
    requires OptionalChannel(o)
    ensures r.Some? <==> o.Some?
    ensures r.Some? ==> ChannelName(r.value) == o.value
  {
    if o.Some? then ParseChannel(o.value) else None
  }

  function StatusOf(o: Option<string>): (r: Option<Status>)
    requires OptionalStatus(o)
    ensures r.Some? <==> o.Some?
    ensures r.Some? ==> StatusName(r.value) == o.value
  {
    if o.Some? then ParseStatus(o.value) else None
  }

  /**
   * `bookingSchemas.update`. A date alone is accepted whatever its value; the order
   * of the dates is checked only when both are sent. `property_id` is stripped.
   */
  function ValidateBookingUpdate(b: BookingBody): (r: Validated<BookingPatch>)
    ensures r.Accepted? <==>
      OptionalChannel(b.sourceChannel) && OptionalString(b.guestName, 2, 100) &&
      OptionalString(b.guestIdNo, 8, 20) && LaterIfBoth(b.checkIn, b.checkOut) &&
      OptionalInt(b.totalAmount, 0, MaxSafeInteger) && OptionalString(b.specialNote, 1, 1000) &&
      OptionalStatus(b.status)
    ensures r.Accepted? ==>
      var v := r.value;
      v.guestName == b.guestName && v.guestIdNo == b.guestIdNo && v.checkIn == b.checkIn &&
      v.checkOut == b.checkOut && v.totalAmount == b.totalAmount && v.isTaxIncluded == b.isTaxIncluded &&
      v.breakfastIncluded == b.breakfastIncluded && v.specialNote == b.specialNote &&
      (v.sourceChannel.Some? <==> b.sourceChannel.Some?) &&
      (v.sourceChannel.Some? ==> ChannelName(v.sourceChannel.value) == b.sourceChannel.value) &&
      (v.status.Some? <==> b.status.Some?) &&
      (v.status.Some? ==> StatusName(v.status.value) == b.status.value)
    ensures r.Rejected? ==> r.fields == FailedFields(BookingUpdateChecks(b))
  {
    var cs := BookingUpdateChecks(b);
    assert (forall i :: 0 <= i < |cs| ==> cs[i].ok) <==> cs[0].ok && cs[1].ok && cs[2].ok && cs[3].ok && cs[4].ok && cs[5].ok && cs[6].ok;
    if OptionalChannel(b.sourceChannel) && OptionalStatus(b.status) then
      Decide(cs, BookingPatch(ChannelOf(b.sourceChannel), b.guestName, b.guestIdNo, b.checkIn, b.checkOut,
        b.totalAmount, b.isTaxIncluded, b.breakfastIncluded, b.specialNote, StatusOf(b.status)))
    else
      assert !cs[0].ok || !cs[6].ok;
      Rejected(FailedFields(cs))
  }

  /** `bookingSchemas.statusUpdate`. */
  function ValidateStatusUpdate(status: Option<string>): (r: Validated<Status>)
    ensures r.Accepted? <==> status.Some? && ParseStatus(status.value).Some?
    ensures r.Accepted? ==> StatusName(r.value) == status.value
    ensures r.Rejected? ==> r.fields == ["status"]
  {
    if status.Some? && ParseStatus(status.value).Some? then Accepted(ParseStatus(status.value).value)
    else Rejected(["status"])
  }

  /** The status schema accepts every status's own literal, as that status. */
  lemma StatusUpdateAcceptsNames(t: Status)
    ensures ValidateStatusUpdate(Some(StatusName(t))) == Accepted(t)
  {
    StatusRoundTrip(t);
  }

  // ---------------------------------------------------------------------------
  // Query strings

  /** `page` and `limit` of the list endpoints, after their defaults. */
  datatype Page = Page(page: int, limit: int)

  function PageChecks(page: Option<int>, limit: Option<int>): seq<FieldCheck> {
    [ FieldCheck("page", OptionalInt(page, 1, MaxSafeInteger)),
      FieldCheck("limit", OptionalInt(limit, 1, 100)) ]
  }

  /** `page: Joi.number().integer().min(1).default(1)`, `limit: ….min(1).max(100).default(10)`. */
  function ValidatePage(page: Option<int>, limit: Option<int>): (r: Validated<Page>)
    ensures r.Accepted? <==> OptionalInt(page, 1, MaxSafeInteger) && OptionalInt(limit, 1, 100)
    ensures r.Accepted? ==> r.value.page == page.GetOr(1) && r.value.limit == limit.GetOr(10)
    ensures r.Accepted? ==> r.value.page >= 1 && 1 <= r.value.limit <= 100
    ensures r.Rejected? ==> r.fields == FailedFields(PageChecks(page, limit))
  {
    var cs := PageChecks(page, limit);
    assert (forall i :: 0 <= i < |cs| ==> cs[i].ok) <==> cs[0].ok && cs[1].ok;
    Decide(cs, Page(page.GetOr(1), limit.GetOr(10)))
  }

  datatype PropertySearch = PropertySearch(
    page: Option<int>, limit: Option<int>,
    city: Option<string>, district: Option<string>,
    minPrice: Option<int>, maxPrice: Option<int>,
    checkIn: Option<Day>, checkOut: Option<Day>)

  /** The validated query of the property list. */
  datatype PropertyFilter = PropertyFilter(
    paging: Page,
    city: Option<string>, district: Option<string>,
    minPrice: Option<int>, maxPrice: Option<int>,
    checkIn: Option<Day>, checkOut: Option<Day>)

  function PropertySearchChecks(q: PropertySearch): seq<FieldCheck> {
    [ FieldCheck("page", OptionalInt(q.page, 1, MaxSafeInteger)),
      FieldCheck("limit", OptionalInt(q.limit, 1, 100)),
      FieldCheck("city", OptionalString(q.city, 1, 50)),
      FieldCheck("district", OptionalString(q.district, 1, 50)),
      FieldCheck("min_price", OptionalInt(q.minPrice, 0, MaxSafeInteger)),
      FieldCheck("max_price", OptionalInt(q.maxPrice, 0, MaxSafeInteger)),
      FieldCheck("check_out", LaterIfBoth(q.checkIn, q.checkOut)) ]
  }

  /** The query schema of `GET /properties`. */
  function ValidatePropertySearch(q: PropertySearch): (r: Validated<PropertyFilter>)
    ensures r.Accepted? <==>
      OptionalInt(q.page, 1, MaxSafeInteger) && OptionalInt(q.limit, 1, 100) &&
      OptionalString(q.city, 1, 50) && OptionalString(q.district, 1, 50) &&
      OptionalInt(q.minPrice, 0, MaxSafeInteger) && OptionalInt(q.maxPrice, 0, MaxSafeInteger) &&
      LaterIfBoth(q.checkIn, q.checkOut)
    ensures r.Accepted? ==> r.value == PropertyFilter(Page(q.page.GetOr(1), q.limit.GetOr(10)),
      q.city, q.district, q.minPrice, q.maxPrice, q.checkIn, q.checkOut)
    ensures r.Accepted? ==> r.value.paging.page >= 1 && 1 <= r.value.paging.limit <= 100
    ensures r.Rejected? ==> r.fields == FailedFields(PropertySearchChecks(q))
  {
    var cs := PropertySearchChecks(q);
    assert (forall i :: 0 <= i < |cs| ==> cs[i].ok) <==> cs[0].ok && cs[1].ok && cs[2].ok && cs[3].ok && cs[4].ok && cs[5].ok && cs[6].ok;
    Decide(cs, PropertyFilter(Page(q.page.GetOr(1), q.limit.GetOr(10)),
      q.city, q.district, q.minPrice, q.maxPrice, q.checkIn, q.checkOut))
  }

  datatype BookingSearch = BookingSearch(
    page: Option<int>, limit: Option<int>,
    status: Option<string>, sourceChannel: Option<string>,
    propertyId: Option<int>, guestName: Option<string>,
    startDate: Option<Day>, endDate: Option<Day>)

  /** The validated query of the booking list. */
  datatype BookingFilter = BookingFilter(
    paging: Page,
    status: Option<Status>, sourceChannel: Option<Channel>,
    propertyId: Option<int>, guestName: Option<string>,
    startDate: Option<Day>, endDate: Option<Day>)

  function BookingSearchChecks(q: BookingSearch): seq<FieldCheck> {
    [ FieldCheck("page", OptionalInt(q.page, 1, MaxSafeInteger)),
      FieldCheck("limit", OptionalInt(q.limit, 1, 100)),
      FieldCheck("status", OptionalStatus(q.status)),
      FieldCheck("source_channel", OptionalChannel(q.sourceChannel)),
      FieldCheck("property_id", OptionalInt(q.propertyId, 1, MaxSafeInteger)),
      FieldCheck("guest_name", q.guestName.None? || |q.guestName.value| >= 1),
      FieldCheck("end_date", LaterIfBoth(q.startDate, q.endDate)) ]
  }

  /** The query schema of `GET /bookings`. */
  function ValidateBookingSearch(q: BookingSearch): (r: Validated<BookingFilter>)
    ensures r.Accepted? <==>
      OptionalInt(q.page, 1, MaxSafeInteger) && OptionalInt(q.limit, 1, 100) &&
      OptionalStatus(q.status) && OptionalChannel(q.sourceChannel) &&
      OptionalInt(q.propertyId, 1, MaxSafeInteger) && (q.guestName.None? || |q.guestName.value| >= 1) &&
      LaterIfBoth(q.startDate, q.endDate)
    ensures r.Accepted? ==>
      var v := r.value;
      v.paging == Page(q.page.GetOr(1), q.limit.GetOr(10)) && v.propertyId == q.propertyId &&
      v.paging.page >= 1 && 1 <= v.paging.limit <= 100 &&
      v.guestName == q.guestName && v.startDate == q.startDate && v.endDate == q.endDate &&
      (v.status.Some? <==> q.status.Some?) && (v.status.Some? ==> StatusName(v.status.value) == q.status.value) &&
      (v.sourceChannel.Some? <==> q.sourceChannel.Some?) &&
      (v.sourceChannel.Some? ==> ChannelName(v.sourceChannel.value) == q.sourceChannel.value)
    ensures r.Rejected? ==> r.fields == FailedFields(BookingSearchChecks(q))
  {
    var cs := BookingSearchChecks(q);
    assert (forall i :: 0 <= i < |cs| ==> cs[i].ok) <==> cs[0].ok && cs[1].ok && cs[2].ok && cs[3].ok && cs[4].ok && cs[5].ok && cs[6].ok;
    if OptionalStatus(q.status) && OptionalChannel(q.sourceChannel) then
      Decide(cs, BookingFilter(Page(q.page.GetOr(1), q.limit.GetOr(10)), StatusOf(q.status),
        ChannelOf(q.sourceChannel), q.propertyId, q.guestName, q.startDate, q.endDate))
    else
      assert !cs[2].ok || !cs[3].ok;
      Rejected(FailedFields(cs))
  }

  /** The query schema of `GET /properties/:id/availability`. */
  function ValidateDateRange(start: Option<Day>, end: Option<Day>): (r: Validated<(Option<Day>, Option<Day>)>)
    ensures r.Accepted? <==> LaterIfBoth(start, end)
    ensures r.Accepted? ==> r.value == (start, end)
    ensures r.Rejected? ==> r.fields == ["end_date"]
  {
    if LaterIfBoth(start, end) then Accepted((start, end)) else Rejected(["end_date"])
  }

  // ---------------------------------------------------------------------------
  // The batch availability body

  datatype BatchBody = BatchBody(propertyIds: Option<seq<int>>, checkIn: Option<Day>, checkOut: Option<Day>)

  datatype BatchRequest = BatchRequest(propertyIds: seq<int>, checkIn: Day, checkOut: Day)

  /** `Joi.array().items(Joi.number().integer().positive()).min(1).max(20).required()`. */
  predicate IdListRule(o: Option<seq<int>>) {
    o.Some? && 1 <= |o.value| <= 20 && forall i :: 0 <= i < |o.value| ==> IntRule(o.value[i], 1, MaxSafeInteger)
  }

  function BatchChecks(b: BatchBody, now: int): seq<FieldCheck> {
    [ FieldCheck("property_ids", IdListRule(b.propertyIds)),
      FieldCheck("check_in", b.checkIn.Some? && NotPast(b.checkIn.value, now)),
      FieldCheck("check_out", CheckOutAfter(b.checkIn, b.checkOut)) ]
  }

  /**
   * The keys the batch endpoint declares, validated as a `Joi.object` of them would
   * validate. The route hands `validateSchema` a plain object instead (see README).
   */
  function ValidateBatch(b: BatchBody, now: int): (r: Validated<BatchRequest>)
    ensures r.Accepted? <==>
      IdListRule(b.propertyIds) && b.checkIn.Some? && NotPast(b.checkIn.value, now) && CheckOutAfter(b.checkIn, b.checkOut)
    ensures r.Accepted? ==> r.value == BatchRequest(b.propertyIds.value, b.checkIn.value, b.checkOut.value)
    ensures r.Rejected? ==> r.fields == FailedFields(BatchChecks(b, now))
  {
    var cs := BatchChecks(b, now);
    assert (forall i :: 0 <= i < |cs| ==> cs[i].ok) <==> cs[0].ok && cs[1].ok && cs[2].ok;
    if b.propertyIds.Some? && b.checkIn.Some? && b.checkOut.Some? then
      Decide(cs, BatchRequest(b.propertyIds.value, b.checkIn.value, b.checkOut.value))
    else
      assert !cs[0].ok || !cs[1].ok || !cs[2].ok;
      Rejected(FailedFields(cs))
  }

  // ---------------------------------------------------------------------------
  // What an accepted request guarantees

  /** Accepted tax ids are exactly eight ASCII digits; accepted phones have 10 to 12 characters, 10 of them digits. */
  lemma AcceptedUserIdentifiers(b: UserFields)
    requires ValidateUserCreate(b).Accepted? || ValidateUserUpdate(b).Accepted?
    ensures b.companyTaxId.Some? ==> |b.companyTaxId.value| == 8 && AllDigits(b.companyTaxId.value)
    ensures b.phone.Some? ==> PhoneShape(b.phone.value) && 10 <= |b.phone.value| <= 12 && CountDigits(b.phone.value) == 10
  {
    if b.companyTaxId.Some? { TaxIdAccepts(b.companyTaxId.value); }
    if b.phone.Some? {
      PhoneAccepts(b.phone.value);
      PhoneLengthAndDigits(b.phone.value);
    }
  }

  /** The price rule is the same on create and update. */
  lemma AcceptedPriceInRange(b: PropertyBody)
    requires ValidatePropertyCreate(b).Accepted? || (ValidatePropertyUpdate(b).Accepted? && b.basePriceTwd.Some?)
    ensures MinPrice <= b.basePriceTwd.value <= MaxPrice
  {
  }

  /** An accepted new booking has a non-empty stay starting no earlier than today and an amount >= 0. */
  lemma AcceptedBookingWellFormed(b: BookingBody, now: int)
    requires ValidateBookingCreate(b, now).Accepted?
    ensures var v := ValidateBookingCreate(b, now).value;
      v.checkIn < v.checkOut && v.checkIn * MsPerDay >= now && v.totalAmount >= 0 && v.propertyId > 0
  {
  }

  /** Keys outside a schema never change the outcome: owner_id of a property update, property_id of a booking update. */
  lemma UpdatesIgnoreForeignKeys(p: PropertyBody, owner: Option<int>, b: BookingBody, property: Option<int>)
    ensures ValidatePropertyUpdate(p.(ownerId := owner)) == ValidatePropertyUpdate(p)
    ensures ValidateBookingUpdate(b.(propertyId := property)) == ValidateBookingUpdate(b)
  {
    assert PropertyUpdateChecks(p.(ownerId := owner)) == PropertyUpdateChecks(p);
    assert BookingUpdateChecks(b.(propertyId := property)) == BookingUpdateChecks(b);
  }

  /** A booking update with one date only is accepted whatever that date is. */
  lemma LoneDateAccepted(d: Day)
    ensures ValidateBookingUpdate(BookingBody(None, None, None, None, None, Some(d), None, None, None, None, None)).Accepted?
    ensures ValidateBookingUpdate(BookingBody(None, None, None, None, Some(d), None, None, None, None, None, None)).Accepted?
  {
  }

  /**
   * The identity-number pattern is declared, but `guest_id_no` is only
   * length-checked: a booking with the eight digits "12345678", which the
   * pattern refuses, is accepted exactly when the same booking with the
   * well-formed "A123456789" is.
   */
  lemma GuestIdNotPatternChecked(b: BookingBody, now: int)
    requires b.guestIdNo == Some("12345678")
    ensures !Matches(TaiwanIdPattern, "12345678") && Matches(TaiwanIdPattern, "A123456789")
    ensures ValidateBookingCreate(b, now).Accepted? <==>
            ValidateBookingCreate(b.(guestIdNo := Some("A123456789")), now).Accepted?
  {
    TaiwanIdAccepts("12345678");
    TaiwanIdAccepts("A123456789");
    assert AllDigits("23456789");
  }
}
