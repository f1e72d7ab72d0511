/**
 * The write handlers of routes/users.js, routes/properties.js and routes/bookings.js
 * as functions from the tables before a request to the response and the tables
 * after it. Every error answer leaves the tables as they were. The class in
 * store.dfy carries the same steps out on its fields; the lemmas here say which
 * integrity rules each write keeps, and where `PUT /bookings/:id` does not.
 */
module Writes {
  import opened Wrappers
  import opened Records
  import opened JsParse
  import opened Validation
  import opened BookingRules
  import opened Tables

  /** A handler's answer and the tables it leaves behind. */
  datatype Outcome<+T> = Outcome(result: Result<T>, after: Snapshot)

  // ---------------------------------------------------------------------------
  // Partial updates: `Object.entries(req.body).forEach(…)` and `UPDATE … SET …`

  /**
   * A key of a validated update body: its column, and whether it carries a value
   * (`value !== undefined`). A key the client did not send is listed as not given,
   * which leaves the pushed columns as `Object.entries` would.
   */
  datatype Entry<C> = Entry(column: C, given: bool)

  /** The columns the `forEach` pushes onto `updates`, in key order. */
  function Supplied<C(==)>(es: seq<Entry<C>>): (r: seq<C>)
    ensures |r| <= |es|
    ensures forall i :: 0 <= i < |es| && es[i].given ==> es[i].column in r
    ensures forall c :: c in r ==> exists i :: 0 <= i < |es| && es[i].column == c && es[i].given
    ensures r == [] <==> forall i :: 0 <= i < |es| ==> !es[i].given
  {
    if es == [] then []
    else
      var init := es[..|es| - 1];
      var last := es[|es| - 1];
      assert forall i :: 0 <= i < |init| ==> init[i] == es[i];
      Supplied(init) + (if last.given then [last.column] else [])
  }

  /** One more key: its column is pushed after the others when it is given. */
  lemma SuppliedStep<C>(es: seq<Entry<C>>, i: nat)
    requires i < |es|
    ensures Supplied(es[..i + 1]) == Supplied(es[..i]) + (if es[i].given then [es[i].column] else [])
  {
    assert es[..i + 1][..i] == es[..i];
  }

  /** A column that appears once among the keys is pushed exactly when its key is given. */
  lemma SuppliedAt<C>(es: seq<Entry<C>>, k: nat)
    requires k < |es|
    requires forall i :: 0 <= i < |es| && es[i].column == es[k].column ==> i == k
    ensures es[k].column in Supplied(es) <==> es[k].given
  {
    if es[k].column in Supplied(es) {
      var i :| 0 <= i < |es| && es[i].column == es[k].column && es[i].given;
    }
  }

  /** The value in one column of a row, whatever the column's SQL type. */
  datatype Cell =
    | Text(text: string)
    | MaybeText(maybe: Option<string>)
    | Number(number: int)
    | Flag(flag: bool)
    | ChannelCell(channel: Channel)
    | StatusCell(status: Status)

  /** A value the body supplies, else the stored one: the effect of one `SET` term. */
  function Either<T>(given: Option<T>, stored: T): T { if given.Some? then given.value else stored }

  /** The same for a nullable column: a supplied value replaces NULL too. */
  function EitherNullable<T>(given: Option<T>, stored: Option<T>): Option<T> { if given.Some? then given else stored }

  // Users

  datatype UserColumn = FullName | Email | CompanyTaxId | Phone | BankCode | BankAccount

  /** The keys of `userSchemas.update`, in schema order. */
  function UserColumnAt(i: int): UserColumn {
    if i == 0 then FullName else if i == 1 then Email else if i == 2 then CompanyTaxId
    else if i == 3 then Phone else if i == 4 then BankCode else BankAccount
  }

  function UserIndex(c: UserColumn): (i: nat)
    ensures i < 6 && UserColumnAt(i) == c
  {
    match c
    case FullName => 0
    case Email => 1
    case CompanyTaxId => 2
    case Phone => 3
    case BankCode => 4
    case BankAccount => 5
  }

  function UserGiven(p: UserFields, c: UserColumn): bool {
    match c
    case FullName => p.fullName.Some?
    case Email => p.email.Some?
    case CompanyTaxId => p.companyTaxId.Some?
    case Phone => p.phone.Some?
    case BankCode => p.bankCode.Some?
    case BankAccount => p.bankAccount.Some?
  }

  function UserEntries(p: UserFields): seq<Entry<UserColumn>> {
    seq(6, i => Entry(UserColumnAt(i), UserGiven(p, UserColumnAt(i))))
  }

  function UserCell(u: User, c: UserColumn): Cell {
    match c
    case FullName => Text(u.fullName)
    case Email => Text(u.email)
    case CompanyTaxId => MaybeText(u.companyTaxId)
    case Phone => MaybeText(u.phone)
    case BankCode => MaybeText(u.bankCode)
    case BankAccount => MaybeText(u.bankAccount)
  }

  /** The value the body binds to `<column> = ?` (meaningful for a supplied column). */
  function UserValue(p: UserFields, c: UserColumn): Cell {
    match c
    case FullName => Text(p.fullName.GetOr(""))
    case Email => Text(p.email.GetOr(""))
    case CompanyTaxId => MaybeText(p.companyTaxId)
    case Phone => MaybeText(p.phone)
    case BankCode => MaybeText(p.bankCode)
    case BankAccount => MaybeText(p.bankAccount)
  }

  /** `UPDATE Users SET <supplied columns> WHERE user_id = ?` applied to the row `u`. */
  function MergeUser(u: User, p: UserFields): User {
    u.(fullName := Either(p.fullName, u.fullName), email := Either(p.email, u.email),
       companyTaxId := EitherNullable(p.companyTaxId, u.companyTaxId), phone := EitherNullable(p.phone, u.phone),
       bankCode := EitherNullable(p.bankCode, u.bankCode), bankAccount := EitherNullable(p.bankAccount, u.bankAccount))
  }

  /** A column is pushed exactly when the body gives its key. */
  lemma UserSuppliedAt(p: UserFields)
    ensures forall c :: c in Supplied(UserEntries(p)) <==> UserGiven(p, c)
  {
    var es := UserEntries(p);
    forall c ensures c in Supplied(es) <==> UserGiven(p, c) {
      var k := UserIndex(c);
      forall i | 0 <= i < |es| && es[i].column == es[k].column ensures i == k {
        assert UserIndex(UserColumnAt(i)) == i;
      }
      SuppliedAt(es, k);
    }
  }

  /** One given key is enough for the UPDATE to have a column to set. */
  lemma GivenColumnSupplied(p: BookingPatch, c: BookingColumn)
    requires BookingGiven(p, c)
    ensures Supplied(BookingEntries(p)) != []
  {
    assert BookingEntries(p)[BookingIndex(c)].given;
  }

  /** The update writes exactly the pushed columns, with the body's values, and never `user_id`. */
  lemma MergeUserOnlySupplied(u: User, p: UserFields)
    ensures MergeUser(u, p).userId == u.userId
    ensures forall c ::
      UserCell(MergeUser(u, p), c) == if c in Supplied(UserEntries(p)) then UserValue(p, c) else UserCell(u, c)
  {
    UserSuppliedAt(p);
  }

  // Properties

  datatype PropertyColumn = Title | City | District | Address | LegalLicenseNo | BasePrice

  /** The keys of `propertySchemas.update`, in schema order; `owner_id` is not one of them. */
  function PropertyColumnAt(i: int): PropertyColumn {
    if i == 0 then Title else if i == 1 then City else if i == 2 then District
    else if i == 3 then Address else if i == 4 then LegalLicenseNo else BasePrice
  }

  function PropertyIndex(c: PropertyColumn): (i: nat)
    ensures i < 6 && PropertyColumnAt(i) == c
  {
    match c
    case Title => 0
    case City => 1
    case District => 2
    case Address => 3
    case LegalLicenseNo => 4
    case BasePrice => 5
  }

  function PropertyGiven(p: PropertyPatch, c: PropertyColumn): bool {
    match c
    case Title => p.title.Some?
    case City => p.city.Some?
    case District => p.district.Some?
    case Address => p.address.Some?
    case LegalLicenseNo => p.legalLicenseNo.Some?
    case BasePrice => p.basePriceTwd.Some?
  }

  function PropertyEntries(p: PropertyPatch): seq<Entry<PropertyColumn>> {
    seq(6, i => Entry(PropertyColumnAt(i), PropertyGiven(p, PropertyColumnAt(i))))
  }

  function PropertyCell(r: Property, c: PropertyColumn): Cell {
    match c
    case Title => Text(r.title)
    case City => Text(r.city)
    case District => Text(r.district)
    case Address => Text(r.address)
    case LegalLicenseNo => MaybeText(r.legalLicenseNo)
    case BasePrice => Number(r.basePriceTwd)
  }

  function PropertyValue(p: PropertyPatch, c: PropertyColumn): Cell {
    match c
    case Title => Text(p.title.GetOr(""))
    case City => Text(p.city.GetOr(""))
    case District => Text(p.district.GetOr(""))
    case Address => Text(p.address.GetOr(""))
    case LegalLicenseNo => MaybeText(p.legalLicenseNo)
    case BasePrice => Number(p.basePriceTwd.GetOr(0))
  }

  /** `UPDATE Properties SET <supplied columns> WHERE property_id = ?` applied to the row `r`. */
  function MergeProperty(r: Property, p: PropertyPatch): Property {
    r.(title := Either(p.title, r.title), city := Either(p.city, r.city), district := Either(p.district, r.district),
       address := Either(p.address, r.address), legalLicenseNo := EitherNullable(p.legalLicenseNo, r.legalLicenseNo),
       basePriceTwd := Either(p.basePriceTwd, r.basePriceTwd))
  }

  lemma PropertySuppliedAt(p: PropertyPatch)
    ensures forall c :: c in Supplied(PropertyEntries(p)) <==> PropertyGiven(p, c)
  {
    var es := PropertyEntries(p);
    forall c ensures c in Supplied(es) <==> PropertyGiven(p, c) {
      var k := PropertyIndex(c);
      forall i | 0 <= i < |es| && es[i].column == es[k].column ensures i == k {
        assert PropertyIndex(PropertyColumnAt(i)) == i;
      }
      SuppliedAt(es, k);
    }
  }

  /** The update writes exactly the pushed columns and never the id or the owner. */
  lemma MergePropertyOnlySupplied(r: Property, p: PropertyPatch)
    ensures MergeProperty(r, p).propertyId == r.propertyId && MergeProperty(r, p).ownerId == r.ownerId
    ensures forall c ::
      PropertyCell(MergeProperty(r, p), c) == if c in Supplied(PropertyEntries(p)) then PropertyValue(p, c) else PropertyCell(r, c)
  {
    PropertySuppliedAt(p);
  }

  // Bookings

  datatype BookingColumn =
    | SourceChannel | GuestName | GuestIdNo | CheckIn | CheckOut
    | TotalAmount | TaxIncluded | Breakfast | SpecialNote | BookingStatus

  /** The keys of `bookingSchemas.update`, in schema order; `property_id` is not one of them. */
  function BookingColumnAt(i: int): BookingColumn {
    if i == 0 then SourceChannel else if i == 1 then GuestName else if i == 2 then GuestIdNo
    else if i == 3 then CheckIn else if i == 4 then CheckOut else if i == 5 then TotalAmount
    else if i == 6 then TaxIncluded else if i == 7 then Breakfast else if i == 8 then SpecialNote
    else BookingStatus
  }

  function BookingIndex(c: BookingColumn): (i: nat)
    ensures i < 10 && BookingColumnAt(i) == c
  {
    match c
    case SourceChannel => 0
    case GuestName => 1
    case GuestIdNo => 2
    case CheckIn => 3
    case CheckOut => 4
    case TotalAmount => 5
    case TaxIncluded => 6
    case Breakfast => 7
    case SpecialNote => 8
    case BookingStatus => 9
  }

  function BookingGiven(p: BookingPatch, c: BookingColumn): bool {
    match c
    case SourceChannel => p.sourceChannel.Some?
    case GuestName => p.guestName.Some?
    case GuestIdNo => p.guestIdNo.Some?
    case CheckIn => p.checkIn.Some?
    case CheckOut => p.checkOut.Some?
    case TotalAmount => p.totalAmount.Some?
    case TaxIncluded => p.isTaxIncluded.Some?
    case Breakfast => p.breakfastIncluded.Some?
    case SpecialNote => p.specialNote.Some?
    case BookingStatus => p.status.Some?
  }

  function BookingEntries(p: BookingPatch): seq<Entry<BookingColumn>> {
    seq(10, i => Entry(BookingColumnAt(i), BookingGiven(p, BookingColumnAt(i))))
  }

  function BookingCell(b: Booking, c: BookingColumn): Cell {
    match c
    case SourceChannel => ChannelCell(b.sourceChannel)
    case GuestName => Text(b.guestName)
    case GuestIdNo => Text(b.guestIdNo)
    case CheckIn => Number(b.checkIn)
    case CheckOut => Number(b.checkOut)
    case TotalAmount => Number(b.totalAmount)
    case TaxIncluded => Flag(b.isTaxIncluded)
    case Breakfast => Flag(b.breakfastIncluded)
    case SpecialNote => MaybeText(b.specialNote)
    case BookingStatus => StatusCell(b.status)
  }

  function BookingValue(p: BookingPatch, c: BookingColumn): Cell {
    match c
    case SourceChannel => ChannelCell(p.sourceChannel.GetOr(Direct))
    case GuestName => Text(p.guestName.GetOr(""))
    case GuestIdNo => Text(p.guestIdNo.GetOr(""))
    case CheckIn => Number(p.checkIn.GetOr(0))
    case CheckOut => Number(p.checkOut.GetOr(0))
    case TotalAmount => Number(p.totalAmount.GetOr(0))
    case TaxIncluded => Flag(p.isTaxIncluded.GetOr(false))
    case Breakfast => Flag(p.breakfastIncluded.GetOr(false))
    case SpecialNote => MaybeText(p.specialNote)
    case BookingStatus => StatusCell(p.status.GetOr(Reserved))
  }

  /** `UPDATE Bookings SET <supplied columns> WHERE booking_id = ?` applied to the row `b`. */
  function MergeBooking(b: Booking, p: BookingPatch): Booking {
    b.(sourceChannel := Either(p.sourceChannel, b.sourceChannel), guestName := Either(p.guestName, b.guestName),
       guestIdNo := Either(p.guestIdNo, b.guestIdNo), checkIn := Either(p.checkIn, b.checkIn),
       checkOut := Either(p.checkOut, b.checkOut), totalAmount := Either(p.totalAmount, b.totalAmount),
       isTaxIncluded := Either(p.isTaxIncluded, b.isTaxIncluded),
       breakfastIncluded := Either(p.breakfastIncluded, b.breakfastIncluded),
       specialNote := EitherNullable(p.specialNote, b.specialNote), status := Either(p.status, b.status))
  }

  lemma BookingSuppliedAt(p: BookingPatch)
    ensures forall c :: c in Supplied(BookingEntries(p)) <==> BookingGiven(p, c)
  {
    var es := BookingEntries(p);
    forall c ensures c in Supplied(es) <==> BookingGiven(p, c) {
      var k := BookingIndex(c);
      forall i | 0 <= i < |es| && es[i].column == es[k].column ensures i == k {
        assert BookingIndex(BookingColumnAt(i)) == i;
      }
      SuppliedAt(es, k);
    }
  }

  /** The update writes exactly the pushed columns and never the id or the property. */
  lemma MergeBookingOnlySupplied(b: Booking, p: BookingPatch)
    ensures MergeBooking(b, p).bookingId == b.bookingId && MergeBooking(b, p).propertyId == b.propertyId
    ensures forall c ::
      BookingCell(MergeBooking(b, p), c) == if c in Supplied(BookingEntries(p)) then BookingValue(p, c) else BookingCell(b, c)
  {
    BookingSuppliedAt(p);
    forall c ensures BookingCell(MergeBooking(b, p), c) == if BookingGiven(p, c) then BookingValue(p, c) else BookingCell(b, c) {
      match c
      case SourceChannel =>
      case GuestName =>
      case GuestIdNo =>
      case CheckIn =>
      case CheckOut =>
      case TotalAmount =>
      case TaxIncluded =>
      case Breakfast =>
      case SpecialNote =>
      case BookingStatus =>
    }
  }

  // ---------------------------------------------------------------------------
  // Users

  /** A user holds `email`. */
  predicate EmailHeld(us: seq<User>, email: string) {
    exists i :: 0 <= i < |us| && us[i].email == email
  }

  /** A user other than `id` holds `email`: the UNIQUE key refuses the row. */
  predicate EmailHeldByOther(us: seq<User>, id: int, email: string) {
    exists i :: 0 <= i < |us| && us[i].email == email && us[i].userId != id
  }

  /** `POST /users`: the schema, then the INSERT, which `ER_DUP_ENTRY` on `email` turns into 409. */
  function PostUser(s: Snapshot, nextId: int, body: UserFields): (o: Outcome<User>)
    ensures o.result.Err? ==> o.after == s
    ensures ValidateUserCreate(body).Rejected? ==>
      o.result == Err(400, ValidationError(ValidateUserCreate(body).fields))
    ensures ValidateUserCreate(body).Accepted? ==>
      var v := ValidateUserCreate(body).value;
      (EmailHeld(s.users, v.email) <==> o.result == Err(409, EmailAlreadyExists)) &&
      (!EmailHeld(s.users, v.email) ==>
        o.result == Ok(User(nextId, v.fullName, v.email, v.companyTaxId, v.phone, v.bankCode, v.bankAccount)) &&
        o.after == s.(users := s.users + [o.result.value]))
  {
    match ValidateUserCreate(body)
    case Rejected(fields) => Outcome(Err(400, ValidationError(fields)), s)
    case Accepted(v) =>
      if FindEmail(s.users, v.email).Some? then Outcome(Err(409, EmailAlreadyExists), s)
      else
        var u := User(nextId, v.fullName, v.email, v.companyTaxId, v.phone, v.bankCode, v.bankAccount);
        Outcome(Ok(u), s.(users := s.users + [u]))
  }

  /** `PUT /users/:id`: schema, id, existence, something to update, then the UPDATE and its UNIQUE key. */
  function PutUser(s: Snapshot, idText: string, body: UserFields): (o: Outcome<User>)
    ensures o.result.Err? ==> o.after == s
    ensures ValidateUserUpdate(body).Rejected? ==>
      o.result == Err(400, ValidationError(ValidateUserUpdate(body).fields))
    ensures ValidateUserUpdate(body).Accepted? && ParseInt(idText).None? ==> o.result == Err(400, InvalidUserId)
    ensures ValidateUserUpdate(body).Accepted? && ParseInt(idText).Some? ==>
      var id := ParseInt(idText).value;
      var given := Supplied(UserEntries(body)) != [];
      var taken := body.email.Some? && EmailHeldByOther(s.users, id, body.email.value);
      (!HasUser(s.users, id) ==> o.result == Err(404, UserNotFound)) &&
      (HasUser(s.users, id) && !given ==> o.result == Err(400, NoUpdateData)) &&
      (HasUser(s.users, id) && given && taken ==> o.result == Err(409, EmailAlreadyExists)) &&
      (o.result.Ok? <==> HasUser(s.users, id) && given && !taken)
    ensures o.result.Ok? ==>
      exists k :: 0 <= k < |s.users| && s.users[k].userId == ParseInt(idText).value &&
        o.result.value == MergeUser(s.users[k], body) && o.after == s.(users := s.users[k := o.result.value])
  {
    match ValidateUserUpdate(body)
    case Rejected(fields) => Outcome(Err(400, ValidationError(fields)), s)
    case Accepted(p) =>
      match ParseInt(idText)
      case None => Outcome(Err(400, InvalidUserId), s)
      case Some(id) =>
        match FindUser(s.users, id)
        case None => Outcome(Err(404, UserNotFound), s)
        case Some(k) =>
          if Supplied(UserEntries(p)) == [] then Outcome(Err(400, NoUpdateData), s)
          else if p.email.Some? && EmailHeldByOther(s.users, id, p.email.value) then
            Outcome(Err(409, EmailAlreadyExists), s)
          else
            var u := MergeUser(s.users[k], p);
            Outcome(Ok(u), s.(users := s.users[k := u]))
  }

  /** `DELETE /users/:id`: refused while the user owns any property. */
  function DeleteUser(s: Snapshot, idText: string): (o: Outcome<User>)
    ensures o.result.Err? ==> o.after == s
    ensures ParseInt(idText).None? ==> o.result == Err(400, InvalidUserId)
    ensures ParseInt(idText).Some? ==>
      var id := ParseInt(idText).value;
      (!HasUser(s.users, id) ==> o.result == Err(404, UserNotFound)) &&
      (HasUser(s.users, id) && CountOwned(s.properties, id) > 0 ==>
        o.result == Err(400, UserHasProperties(CountOwned(s.properties, id)))) &&
      (o.result.Ok? <==> HasUser(s.users, id) && forall i :: 0 <= i < |s.properties| ==> s.properties[i].ownerId != id)
    ensures o.result.Ok? ==>
      exists k :: 0 <= k < |s.users| && s.users[k] == o.result.value &&
        o.result.value.userId == ParseInt(idText).value && o.after == s.(users := Without(s.users, k))
  {
    match ParseInt(idText)
    case None => Outcome(Err(400, InvalidUserId), s)
    case Some(id) =>
      match FindUser(s.users, id)
      case None => Outcome(Err(404, UserNotFound), s)
      case Some(k) =>
        var owned := CountOwned(s.properties, id);
        if owned > 0 then Outcome(Err(400, UserHasProperties(owned)), s)
        else Outcome(Ok(s.users[k]), s.(users := Without(s.users, k)))
  }

  // ---------------------------------------------------------------------------
  // Properties

  /** `POST /properties`: the owner must exist. */
  function PostProperty(s: Snapshot, nextId: int, body: PropertyBody): (o: Outcome<Property>)
    ensures o.result.Err? ==> o.after == s
    ensures ValidatePropertyCreate(body).Rejected? ==>
      o.result == Err(400, ValidationError(ValidatePropertyCreate(body).fields))
    ensures ValidatePropertyCreate(body).Accepted? ==>
      var v := ValidatePropertyCreate(body).value;
      (!HasUser(s.users, v.ownerId) <==> o.result == Err(400, OwnerNotFound)) &&
      (HasUser(s.users, v.ownerId) ==>
        o.result == Ok(Property(nextId, v.ownerId, v.title, v.city, v.district, v.address, v.legalLicenseNo, v.basePriceTwd)) &&
        o.after == s.(properties := s.properties + [o.result.value]))
  {
    match ValidatePropertyCreate(body)
    case Rejected(fields) => Outcome(Err(400, ValidationError(fields)), s)
    case Accepted(v) =>
      if FindUser(s.users, v.ownerId).None? then Outcome(Err(400, OwnerNotFound), s)
      else
        var p := Property(nextId, v.ownerId, v.title, v.city, v.district, v.address, v.legalLicenseNo, v.basePriceTwd);
        Outcome(Ok(p), s.(properties := s.properties + [p]))
  }

  /** `PUT /properties/:id`: schema, id, existence, something to update. */
  function PutProperty(s: Snapshot, idText: string, body: PropertyBody): (o: Outcome<Property>)
    ensures o.result.Err? ==> o.after == s
    ensures ValidatePropertyUpdate(body).Rejected? ==>
      o.result == Err(400, ValidationError(ValidatePropertyUpdate(body).fields))
    ensures ValidatePropertyUpdate(body).Accepted? && ParseInt(idText).None? ==> o.result == Err(400, InvalidPropertyId)
    ensures ValidatePropertyUpdate(body).Accepted? && ParseInt(idText).Some? ==>
      var id := ParseInt(idText).value;
      var given := Supplied(PropertyEntries(ValidatePropertyUpdate(body).value)) != [];
      (!HasProperty(s.properties, id) ==> o.result == Err(404, PropertyNotFound)) &&
      (HasProperty(s.properties, id) && !given ==> o.result == Err(400, NoUpdateData)) &&
      (o.result.Ok? <==> HasProperty(s.properties, id) && given)
    ensures o.result.Ok? ==>
      exists k :: 0 <= k < |s.properties| && s.properties[k].propertyId == ParseInt(idText).value &&
        o.result.value == MergeProperty(s.properties[k], ValidatePropertyUpdate(body).value) &&
        o.after == s.(properties := s.properties[k := o.result.value])
  {
    match ValidatePropertyUpdate(body)
    case Rejected(fields) => Outcome(Err(400, ValidationError(fields)), s)
    case Accepted(p) =>
      match ParseInt(idText)
      case None => Outcome(Err(400, InvalidPropertyId), s)
      case Some(id) =>
        match FindProperty(s.properties, id)
        case None => Outcome(Err(404, PropertyNotFound), s)
        case Some(k) =>
          if Supplied(PropertyEntries(p)) == [] then Outcome(Err(400, NoUpdateData), s)
          else
            var r := MergeProperty(s.properties[k], p);
            Outcome(Ok(r), s.(properties := s.properties[k := r]))
  }

  /** `DELETE /properties/:id`: refused while any booking, of any status, references the property. */
  function DeleteProperty(s: Snapshot, idText: string): (o: Outcome<Property>)
    ensures o.result.Err? ==> o.after == s
    ensures ParseInt(idText).None? ==> o.result == Err(400, InvalidPropertyId)
    ensures ParseInt(idText).Some? ==>
      var id := ParseInt(idText).value;
      (!HasProperty(s.properties, id) ==> o.result == Err(404, PropertyNotFound)) &&
      (HasProperty(s.properties, id) && CountBookings(s.bookings, id) > 0 ==>
        o.result == Err(400, PropertyHasBookings(CountBookings(s.bookings, id)))) &&
      (o.result.Ok? <==> HasProperty(s.properties, id) && forall i :: 0 <= i < |s.bookings| ==> s.bookings[i].propertyId != id)
    ensures o.result.Ok? ==>
      exists k :: 0 <= k < |s.properties| && s.properties[k] == o.result.value &&
        o.result.value.propertyId == ParseInt(idText).value && o.after == s.(properties := Without(s.properties, k))
  {
    match ParseInt(idText)
    case None => Outcome(Err(400, InvalidPropertyId), s)
    case Some(id) =>
      match FindProperty(s.properties, id)
      case None => Outcome(Err(404, PropertyNotFound), s)
      case Some(k) =>
        var count := CountBookings(s.bookings, id);
        if count > 0 then Outcome(Err(400, PropertyHasBookings(count)), s)
        else Outcome(Ok(s.properties[k]), s.(properties := Without(s.properties, k)))
  }

  // ---------------------------------------------------------------------------
  // Bookings

  /** The created row with `suggested_amount` and `amount_used` of the 201 response. */
  datatype CreatedBooking = CreatedBooking(booking: Booking, suggestedAmount: int, amountUsed: int)

  /** `POST /bookings`: the property must exist and no active booking of it may clash with the stay. */
  function PostBooking(s: Snapshot, nextId: int, body: BookingBody, now: int): (o: Outcome<CreatedBooking>)
    ensures o.result.Err? ==> o.after == s
    ensures ValidateBookingCreate(body, now).Rejected? ==>
      o.result == Err(400, ValidationError(ValidateBookingCreate(body, now).fields))
    ensures ValidateBookingCreate(body, now).Accepted? ==>
      var v := ValidateBookingCreate(body, now).value;
      var clashes := Conflicts(s.bookings, v.propertyId, None, v.checkIn, v.checkOut);
      (!HasProperty(s.properties, v.propertyId) ==> o.result == Err(400, PropertyNotFound)) &&
      (HasProperty(s.properties, v.propertyId) && clashes != [] ==> o.result == Err(409, DateConflict(clashes))) &&
      (o.result.Ok? <==> HasProperty(s.properties, v.propertyId) && clashes == [])
    ensures o.result.Ok? ==>
      var v := ValidateBookingCreate(body, now).value;
      var c := o.result.value;
      c.booking == Booking(nextId, v.propertyId, v.sourceChannel, v.guestName, v.guestIdNo, v.checkIn, v.checkOut,
        c.amountUsed, v.isTaxIncluded, v.breakfastIncluded, v.specialNote, v.status) &&
      (exists k :: 0 <= k < |s.properties| && s.properties[k].propertyId == v.propertyId &&
        c.suggestedAmount == s.properties[k].basePriceTwd * (v.checkOut - v.checkIn)) &&
      c.amountUsed == (if v.totalAmount != 0 then v.totalAmount else c.suggestedAmount) &&
      o.after == s.(bookings := s.bookings + [c.booking])
  {
    match ValidateBookingCreate(body, now)
    case Rejected(fields) => Outcome(Err(400, ValidationError(fields)), s)
    case Accepted(v) =>
      match FindProperty(s.properties, v.propertyId)
      case None => Outcome(Err(400, PropertyNotFound), s)
      case Some(k) =>
        var clashes := Conflicts(s.bookings, v.propertyId, None, v.checkIn, v.checkOut);
        if clashes != [] then Outcome(Err(409, DateConflict(clashes)), s)
        else
          var suggested := SuggestedAmount(s.properties[k].basePriceTwd, v.checkIn, v.checkOut);
          var amount := AmountUsed(v.totalAmount, suggested);
          var b := Booking(nextId, v.propertyId, v.sourceChannel, v.guestName, v.guestIdNo, v.checkIn, v.checkOut,
            amount, v.isTaxIncluded, v.breakfastIncluded, v.specialNote, v.status);
          Outcome(Ok(CreatedBooking(b, suggested, amount)), s.(bookings := s.bookings + [b]))
  }

  /** `req.body.check_in || req.body.check_out`: a date was sent (a parsed date is never falsy). */
  predicate GivesDate(p: BookingPatch) { p.checkIn.Some? || p.checkOut.Some? }

  /** The conflict query of the update: the merged dates, the booking itself excluded by id. */
  function RedateClashes(bs: seq<Booking>, b: Booking, p: BookingPatch): seq<Booking> {
    Conflicts(bs, b.propertyId, Some(b.bookingId), Either(p.checkIn, b.checkIn), Either(p.checkOut, b.checkOut))
  }

  /** `PUT /bookings/:id`: the conflict query runs only when a date is sent; the UPDATE writes every supplied key. */
  function PutBooking(s: Snapshot, idText: string, body: BookingBody): (o: Outcome<Booking>)
    ensures o.result.Err? ==> o.after == s
    ensures ValidateBookingUpdate(body).Rejected? ==>
      o.result == Err(400, ValidationError(ValidateBookingUpdate(body).fields))
    ensures ValidateBookingUpdate(body).Accepted? && ParseInt(idText).None? ==> o.result == Err(400, InvalidBookingId)
    ensures ValidateBookingUpdate(body).Accepted? && ParseInt(idText).Some? ==>
      var p := ValidateBookingUpdate(body).value;
      var k := FindBooking(s.bookings, ParseInt(idText).value);
      (k.None? ==> o.result == Err(404, BookingNotFound)) &&
      (k.Some? ==>
        var clashes := RedateClashes(s.bookings, s.bookings[k.value], p);
        var given := Supplied(BookingEntries(p)) != [];
        (GivesDate(p) && clashes != [] ==> o.result == Err(409, DateConflict(clashes))) &&
        (!given ==> o.result == Err(400, NoUpdateData)) &&
        (o.result.Ok? <==> given && (GivesDate(p) ==> clashes == [])) &&
        (o.result.Ok? ==> o.result.value == MergeBooking(s.bookings[k.value], p) &&
                          o.after == s.(bookings := s.bookings[k.value := o.result.value])))
  {
    match ValidateBookingUpdate(body)
    case Rejected(fields) => Outcome(Err(400, ValidationError(fields)), s)
    case Accepted(p) =>
      match ParseInt(idText)
      case None => Outcome(Err(400, InvalidBookingId), s)
      case Some(id) =>
        match FindBooking(s.bookings, id)
        case None => Outcome(Err(404, BookingNotFound), s)
        case Some(k) =>
          var b := s.bookings[k];
          var clashes := RedateClashes(s.bookings, b, p);
          assert GivesDate(p) ==> BookingEntries(p)[BookingIndex(CheckIn)].given || BookingEntries(p)[BookingIndex(CheckOut)].given;
          if GivesDate(p) && clashes != [] then Outcome(Err(409, DateConflict(clashes)), s)
          else if Supplied(BookingEntries(p)) == [] then Outcome(Err(400, NoUpdateData), s)
          else
            var nb := MergeBooking(b, p);
            Outcome(Ok(nb), s.(bookings := s.bookings[k := nb]))
  }

  /** The `data` of a successful status change. */
  datatype StatusChange = StatusChange(bookingId: int, guestName: string, oldStatus: Status, newStatus: Status)

  /** `PATCH /bookings/:id/status`: only the transitions of the table are carried out. */
  function PatchBookingStatus(s: Snapshot, idText: string, status: Option<string>): (o: Outcome<StatusChange>)
    ensures o.result.Err? ==> o.after == s
    ensures ValidateStatusUpdate(status).Rejected? ==> o.result == Err(400, ValidationError(["status"]))
    ensures ValidateStatusUpdate(status).Accepted? && ParseInt(idText).None? ==> o.result == Err(400, InvalidBookingId)
    ensures ValidateStatusUpdate(status).Accepted? && ParseInt(idText).Some? ==>
      var to := ValidateStatusUpdate(status).value;
      var id := ParseInt(idText).value;
      var k := FindBooking(s.bookings, id);
      (k.None? ==> o.result == Err(404, BookingNotFound)) &&
      (k.Some? ==>
        var b := s.bookings[k.value];
        (!CanTransition(b.status, to) ==>
          o.result == Err(400, InvalidStatusTransition(b.status, to, AllowedTransitions(b.status)))) &&
        (CanTransition(b.status, to) ==>
          o.result == Ok(StatusChange(id, b.guestName, b.status, to)) &&
          o.after == s.(bookings := s.bookings[k.value := b.(status := to)])))
  {
    match ValidateStatusUpdate(status)
    case Rejected(fields) => Outcome(Err(400, ValidationError(fields)), s)
    case Accepted(to) =>
      match ParseInt(idText)
      case None => Outcome(Err(400, InvalidBookingId), s)
      case Some(id) =>
        match FindBooking(s.bookings, id)
        case None => Outcome(Err(404, BookingNotFound), s)
        case Some(k) =>
          var b := s.bookings[k];
          if !CanTransition(b.status, to) then
            Outcome(Err(400, InvalidStatusTransition(b.status, to, AllowedTransitions(b.status))), s)
          else
            Outcome(Ok(StatusChange(id, b.guestName, b.status, to)), s.(bookings := s.bookings[k := b.(status := to)]))
  }

  /** `DELETE /bookings/:id`: only a cancelled booking is removed. */
  function DeleteBooking(s: Snapshot, idText: string): (o: Outcome<Booking>)
    ensures o.result.Err? ==> o.after == s
    ensures ParseInt(idText).None? ==> o.result == Err(400, InvalidBookingId)
    ensures ParseInt(idText).Some? ==>
      var k := FindBooking(s.bookings, ParseInt(idText).value);
      (k.None? ==> o.result == Err(404, BookingNotFound)) &&
      (k.Some? && s.bookings[k.value].status != Cancelled ==>
        o.result == Err(400, CannotDeleteActiveBooking(s.bookings[k.value].status))) &&
      (k.Some? && s.bookings[k.value].status == Cancelled ==>
        o.result == Ok(s.bookings[k.value]) && o.after == s.(bookings := Without(s.bookings, k.value)))
  {
    match ParseInt(idText)
    case None => Outcome(Err(400, InvalidBookingId), s)
    case Some(id) =>
      match FindBooking(s.bookings, id)
      case None => Outcome(Err(404, BookingNotFound), s)
      case Some(k) =>
        var b := s.bookings[k];
        if b.status != Cancelled then Outcome(Err(400, CannotDeleteActiveBooking(b.status)), s)
        else Outcome(Ok(b), s.(bookings := Without(s.bookings, k)))
  }

  // ---------------------------------------------------------------------------
  // Integrity: every handler keeps the foreign keys, the UNIQUE email, the ascending
  // AUTO_INCREMENT ids and the validated ranges; a created row takes the next id.

  lemma PostUserKeepsConsistent(s: Snapshot, nu: int, np: int, nb: int, body: UserFields, after: Snapshot)
    requires Consistent(s, nu, np, nb) && nu >= 1
    requires after == PostUser(s, nu, body).after
    ensures Consistent(after, if PostUser(s, nu, body).result.Ok? then nu + 1 else nu, np, nb)
  {
    var o := PostUser(s, nu, body);
    if o.result.Ok? {
      InsertUserKeeps(s, nu, np, nb, o.result.value);
    }
  }

  lemma PutUserKeepsConsistent(s: Snapshot, nu: int, np: int, nb: int, idText: string, body: UserFields, after: Snapshot)
    requires Consistent(s, nu, np, nb)
    requires after == PutUser(s, idText, body).after
    ensures Consistent(after, nu, np, nb)
  {
    var o := PutUser(s, idText, body);
    if o.result.Ok? {
      var id := ParseInt(idText).value;
      var u := o.result.value;
      var k :| 0 <= k < |s.users| && s.users[k].userId == id && u == MergeUser(s.users[k], body) &&
        o.after == s.(users := s.users[k := u]);
      forall i | 0 <= i < |s.users| && i != k ensures s.users[i].email != u.email {
        assert s.users[i].userId != id;
        if body.email.Some? {
          assert !EmailHeldByOther(s.users, id, body.email.value);
        }
      }
      UpdateUserKeeps(s, nu, np, nb, k, u);
    }
  }

  lemma DeleteUserKeepsConsistent(s: Snapshot, nu: int, np: int, nb: int, idText: string, after: Snapshot)
    requires Consistent(s, nu, np, nb)
    requires after == DeleteUser(s, idText).after
    ensures Consistent(after, nu, np, nb)
  {
    var o := DeleteUser(s, idText);
    if o.result.Ok? {
      var k :| 0 <= k < |s.users| && s.users[k] == o.result.value &&
        o.result.value.userId == ParseInt(idText).value && o.after == s.(users := Without(s.users, k));
      DeleteUserKeeps(s, nu, np, nb, k);
    }
  }

  lemma PostPropertyKeepsConsistent(s: Snapshot, nu: int, np: int, nb: int, body: PropertyBody, after: Snapshot)
    requires Consistent(s, nu, np, nb) && np >= 1
    requires after == PostProperty(s, np, body).after
    ensures Consistent(after, nu, if PostProperty(s, np, body).result.Ok? then np + 1 else np, nb)
  {
    var o := PostProperty(s, np, body);
    if o.result.Ok? {
      InsertPropertyKeeps(s, nu, np, nb, o.result.value);
    }
  }

  lemma PutPropertyKeepsConsistent(s: Snapshot, nu: int, np: int, nb: int, idText: string, body: PropertyBody, after: Snapshot)
    requires Consistent(s, nu, np, nb)
    requires after == PutProperty(s, idText, body).after
    ensures Consistent(after, nu, np, nb)
  {
    var o := PutProperty(s, idText, body);
    if o.result.Ok? {
      var r := o.result.value;
      var k :| 0 <= k < |s.properties| && s.properties[k].propertyId == ParseInt(idText).value &&
        r == MergeProperty(s.properties[k], ValidatePropertyUpdate(body).value) &&
        o.after == s.(properties := s.properties[k := r]);
      UpdatePropertyKeeps(s, nu, np, nb, k, r);
    }
  }

  lemma DeletePropertyKeepsConsistent(s: Snapshot, nu: int, np: int, nb: int, idText: string, after: Snapshot)
    requires Consistent(s, nu, np, nb)
    requires after == DeleteProperty(s, idText).after
    ensures Consistent(after, nu, np, nb)
  {
    var o := DeleteProperty(s, idText);
    if o.result.Ok? {
      var k :| 0 <= k < |s.properties| && s.properties[k] == o.result.value &&
        o.result.value.propertyId == ParseInt(idText).value && o.after == s.(properties := Without(s.properties, k));
      DeletePropertyKeeps(s, nu, np, nb, k);
    }
  }

  /** The stored amount is never negative: a zero amount becomes at least one night at a price of 500 or more. */
  lemma PostBookingKeepsConsistent(s: Snapshot, nu: int, np: int, nb: int, body: BookingBody, now: int, after: Snapshot)
    requires Consistent(s, nu, np, nb) && nb >= 1
    requires after == PostBooking(s, nb, body, now).after
    ensures Consistent(after, nu, np, if PostBooking(s, nb, body, now).result.Ok? then nb + 1 else nb)
  {
    var o := PostBooking(s, nb, body, now);
    if o.result.Ok? {
      var v := ValidateBookingCreate(body, now).value;
      var k := FindProperty(s.properties, v.propertyId).value;
      AmountUsedPositive(v.totalAmount, s.properties[k].basePriceTwd, v.checkIn, v.checkOut);
      InsertBookingKeeps(s, nu, np, nb, o.result.value.booking);
    }
  }

  lemma PutBookingKeepsConsistent(s: Snapshot, nu: int, np: int, nb: int, idText: string, body: BookingBody, after: Snapshot)
    requires Consistent(s, nu, np, nb)
    requires after == PutBooking(s, idText, body).after
    ensures Consistent(after, nu, np, nb)
  {
    var o := PutBooking(s, idText, body);
    if o.result.Ok? {
      var k := FindBooking(s.bookings, ParseInt(idText).value).value;
      UpdateBookingKeeps(s, nu, np, nb, k, o.result.value);
    }
  }

  lemma PatchBookingStatusKeepsConsistent(s: Snapshot, nu: int, np: int, nb: int, idText: string, status: Option<string>, after: Snapshot)
    requires Consistent(s, nu, np, nb)
    requires after == PatchBookingStatus(s, idText, status).after
    ensures Consistent(after, nu, np, nb)
  {
    var o := PatchBookingStatus(s, idText, status);
    if o.result.Ok? {
      var k := FindBooking(s.bookings, ParseInt(idText).value).value;
      UpdateBookingKeeps(s, nu, np, nb, k, s.bookings[k].(status := ValidateStatusUpdate(status).value));
    }
  }

  lemma DeleteBookingKeepsConsistent(s: Snapshot, nu: int, np: int, nb: int, idText: string, after: Snapshot)
    requires Consistent(s, nu, np, nb)
    requires after == DeleteBooking(s, idText).after
    ensures Consistent(after, nu, np, nb)
  {
    var o := DeleteBooking(s, idText);
    if o.result.Ok? {
      DeleteBookingKeeps(s, nu, np, nb, FindBooking(s.bookings, ParseInt(idText).value).value);
    }
  }

  // ---------------------------------------------------------------------------
  // The calendar: no two active bookings of a property clash

  /** The conflict query of `POST /bookings` keeps the calendar free of collisions. */
  lemma PostBookingKeepsCalendar(s: Snapshot, nextId: int, body: BookingBody, now: int)
    requires NoActiveCollisions(s.bookings)
    ensures NoActiveCollisions(PostBooking(s, nextId, body, now).after.bookings)
  {
    var o := PostBooking(s, nextId, body, now);
    if o.result.Ok? {
      AppendWithoutConflictPreserves(s.bookings, o.result.value.booking);
    }
  }

  /** A status change only moves forward along the lifecycle, so it never makes a booking active. */
  lemma PatchBookingStatusKeepsCalendar(s: Snapshot, idText: string, status: Option<string>)
    requires NoActiveCollisions(s.bookings)
    ensures NoActiveCollisions(PatchBookingStatus(s, idText, status).after.bookings)
  {
    var o := PatchBookingStatus(s, idText, status);
    if o.result.Ok? {
      var k := FindBooking(s.bookings, ParseInt(idText).value).value;
      var to := ValidateStatusUpdate(status).value;
      TransitionMovesForward(s.bookings[k].status, to);
      KeepDatesPreserves(s.bookings, k, s.bookings[k].(status := to));
    }
  }

  lemma DeleteBookingKeepsCalendar(s: Snapshot, idText: string)
    requires NoActiveCollisions(s.bookings)
    ensures NoActiveCollisions(DeleteBooking(s, idText).after.bookings)
  {
    var o := DeleteBooking(s, idText);
    if o.result.Ok? {
      RemovePreserves(s.bookings, FindBooking(s.bookings, ParseInt(idText).value).value);
    }
  }

  /**
   * A PUT that sends no date but sets an active status on a cancelled or checked-out
   * booking: the update skips the conflict query and revives the old dates.
   */
  predicate Reopens(s: Snapshot, idText: string, body: BookingBody) {
    ValidateBookingUpdate(body).Accepted? && ParseInt(idText).Some? &&
    FindBooking(s.bookings, ParseInt(idText).value).Some? &&
    var p := ValidateBookingUpdate(body).value;
    var b := s.bookings[FindBooking(s.bookings, ParseInt(idText).value).value];
    !GivesDate(p) && p.status.Some? && IsActive(p.status.value) && !IsActive(b.status)
  }

  /**
   * Every PUT that does not reopen a booking keeps the calendar free of collisions:
   * with a date, the conflict query (booking excluded by id) screens the merged stay;
   * without one, the dates stay and no booking becomes active.
   */
  lemma PutBookingKeepsCalendar(s: Snapshot, idText: string, body: BookingBody)
    requires NoActiveCollisions(s.bookings)
    requires forall i, j :: 0 <= i < j < |s.bookings| ==> s.bookings[i].bookingId != s.bookings[j].bookingId
    requires !Reopens(s, idText, body)
    ensures NoActiveCollisions(PutBooking(s, idText, body).after.bookings)
  {
    var o := PutBooking(s, idText, body);
    if o.result.Ok? {
      var p := ValidateBookingUpdate(body).value;
      var k := FindBooking(s.bookings, ParseInt(idText).value).value;
      if GivesDate(p) {
        ReplaceWithoutConflictPreserves(s.bookings, k, o.result.value);
      } else {
        KeepDatesPreserves(s.bookings, k, o.result.value);
      }
    }
  }

  /** The accepted case of `PUT /bookings/:id`, from the checks the route makes. */
  lemma PutBookingAccepts(s: Snapshot, idText: string, body: BookingBody, k: nat, p: BookingPatch)
    requires ValidateBookingUpdate(body) == Accepted(p)
    requires ParseInt(idText).Some? && FindBooking(s.bookings, ParseInt(idText).value) == Some(k)
    requires Supplied(BookingEntries(p)) != []
    requires GivesDate(p) ==> RedateClashes(s.bookings, s.bookings[k], p) == []
    ensures PutBooking(s, idText, body) ==
      Outcome(Ok(MergeBooking(s.bookings[k], p)), s.(bookings := s.bookings[k := MergeBooking(s.bookings[k], p)]))
  {
  }

  /** A reopening PUT is carried out: no date means no conflict query, and `status` is a supplied key. */
  lemma ReopeningIsAccepted(s: Snapshot, idText: string, body: BookingBody)
    requires Reopens(s, idText, body)
    ensures var p := ValidateBookingUpdate(body).value;
      var k := FindBooking(s.bookings, ParseInt(idText).value).value;
      PutBooking(s, idText, body).result == Ok(MergeBooking(s.bookings[k], p)) &&
      PutBooking(s, idText, body).after.bookings == s.bookings[k := MergeBooking(s.bookings[k], p)]
  {
    var p := ValidateBookingUpdate(body).value;
    var k := FindBooking(s.bookings, ParseInt(idText).value).value;
    GivenColumnSupplied(p, BookingStatus);
    PutBookingAccepts(s, idText, body, k, p);
  }

  /** The other half: a reopened booking whose dates clash with an active booking of its property collides with it. */
  lemma ReopenedBookingCanCollide(s: Snapshot, idText: string, body: BookingBody, j: nat)
    requires Reopens(s, idText, body)
    requires var k := FindBooking(s.bookings, ParseInt(idText).value).value;
      j < |s.bookings| && j != k && s.bookings[j].propertyId == s.bookings[k].propertyId &&
      IsActive(s.bookings[j].status) &&
      DatesClash(s.bookings[j].checkIn, s.bookings[j].checkOut, s.bookings[k].checkIn, s.bookings[k].checkOut)
    ensures PutBooking(s, idText, body).result.Ok?
    ensures !NoActiveCollisions(PutBooking(s, idText, body).after.bookings)
  {
    var p := ValidateBookingUpdate(body).value;
    var k := FindBooking(s.bookings, ParseInt(idText).value).value;
    var b := s.bookings[k];
    ReopeningIsAccepted(s, idText, body);
    var nb := MergeBooking(b, p);
    var rs := s.bookings[k := nb];
    assert rs[j] == s.bookings[j] && rs[k] == nb;
    assert nb.checkIn == b.checkIn && nb.checkOut == b.checkOut && nb.propertyId == b.propertyId && IsActive(nb.status);
    ClashSymmetric(s.bookings[j].checkIn, s.bookings[j].checkOut, b.checkIn, b.checkOut);
    assert DatesClash(rs[k].checkIn, rs[k].checkOut, rs[j].checkIn, rs[j].checkOut);
  }

  /** A body with `check_in` alone. */
  function LoneCheckIn(day: Day): BookingBody {
    BookingBody(None, None, None, None, Some(day), None, None, None, None, None, None)
  }

  /** The validated form of that body. */
  lemma LoneCheckInAccepted(day: Day)
    ensures ValidateBookingUpdate(LoneCheckIn(day)) ==
      Accepted(BookingPatch(None, None, None, Some(day), None, None, None, None, None, None))
  {
  }

  /**
   * The update schema compares the dates only when both are sent, so a lone `check_in`
   * is stored as sent against the stored `check_out`; any day on or after that
   * `check_out` leaves an inverted stay.
   */
  lemma LoneCheckInIsStoredAsSent(s: Snapshot, idText: string, day: Day)
    requires ParseInt(idText).Some? && FindBooking(s.bookings, ParseInt(idText).value).Some?
    requires var k := FindBooking(s.bookings, ParseInt(idText).value).value;
      Conflicts(s.bookings, s.bookings[k].propertyId, Some(s.bookings[k].bookingId), day, s.bookings[k].checkOut) == []
    ensures var k := FindBooking(s.bookings, ParseInt(idText).value).value;
      PutBooking(s, idText, LoneCheckIn(day)).result == Ok(s.bookings[k].(checkIn := day)) &&
      PutBooking(s, idText, LoneCheckIn(day)).after.bookings == s.bookings[k := s.bookings[k].(checkIn := day)]
  {
    var k := FindBooking(s.bookings, ParseInt(idText).value).value;
    var b := s.bookings[k];
    var p := BookingPatch(None, None, None, Some(day), None, None, None, None, None, None);
    LoneCheckInAccepted(day);
    GivenColumnSupplied(p, CheckIn);
    assert RedateClashes(s.bookings, b, p) == [];
    PutBookingAccepts(s, idText, LoneCheckIn(day), k, p);
    assert MergeBooking(b, p) == b.(checkIn := day);
  }

  /** A status change cannot be repeated: no status may change to itself. */
  lemma RepeatedStatusChangeRefused(s: Snapshot, idText: string, status: Option<string>)
    requires forall i, j :: 0 <= i < j < |s.bookings| ==> s.bookings[i].bookingId != s.bookings[j].bookingId
    requires PatchBookingStatus(s, idText, status).result.Ok?
    ensures var o := PatchBookingStatus(s, idText, status);
      PatchBookingStatus(o.after, idText, status).result.Err? &&
      PatchBookingStatus(o.after, idText, status).result.error.InvalidStatusTransition?
  {
    var o := PatchBookingStatus(s, idText, status);
    var id := ParseInt(idText).value;
    var k := FindBooking(s.bookings, id).value;
    var to := ValidateStatusUpdate(status).value;
    TransitionMovesForward(s.bookings[k].status, to);
    TransitionTable(to, to);
    var rs := s.bookings[k := s.bookings[k].(status := to)];
    assert o.after.bookings == rs;
    assert rs[k].bookingId == id;
    var k2 := FindBooking(rs, id).value;
    assert k2 == k;
    assert rs[k2].status == to;
  }
}
