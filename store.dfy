/**
 * The write handlers over the MySQL database they share. Each route runs in two
 * steps, as the handlers do: its checks and `SELECT`s on the current tables (a
 * `Check…` method on a `Snapshot`, step by step as the route takes them), then the
 * one `INSERT`, `UPDATE` or `DELETE` on the three tables and their AUTO_INCREMENT
 * counters, the fields of `Database`. Both are tied to the outcome of the route in
 * `Writes`.
 */
module Store {
  import opened Wrappers
  import opened Records
  import opened JsParse
  import opened Validation
  import opened BookingRules
  import opened Tables
  import opened Writes

  /**
   * `Object.entries(req.body).forEach((key, value) => { if (value !== undefined) { updates.push(…) } })`:
   * the columns of the `SET` list, in key order.
   */
  method CollectUpdates<C(==)>(entries: seq<Entry<C>>) returns (updates: seq<C>)
    ensures updates == Supplied(entries)
  {
    updates := [];
    var i := 0;
    while i < |entries|
      invariant 0 <= i <= |entries|
      invariant updates == Supplied(entries[..i])
    {
      SuppliedStep(entries, i);
      if entries[i].given {
        updates := updates + [entries[i].column];
      }
      i := i + 1;
    }
    assert entries[..i] == entries;
  }

  // ---------------------------------------------------------------------------
  // The checks of each route, before its write

  /** `POST /users` up to the `INSERT`: the schema, then the UNIQUE key on `email`. */
  method CheckNewUser(s: Snapshot, nextId: int, body: UserFields) returns (r: Result<User>)
    ensures PostUser(s, nextId, body) == Outcome(r, if r.Ok? then s.(users := s.users + [r.value]) else s)
  {
    var v := ValidateUserCreate(body);
    if v.Rejected? {
      return Err(400, ValidationError(v.fields));
    }
    var n := v.value;
    if FindEmail(s.users, n.email).Some? {
      return Err(409, EmailAlreadyExists);
    }
    r := Ok(User(nextId, n.fullName, n.email, n.companyTaxId, n.phone, n.bankCode, n.bankAccount));
  }

  /**
   * `PUT /users/:id` up to the `UPDATE`: the schema, the id, the lookup, the `SET`
   * list and the UNIQUE key. On success `k` is the index of the row rewritten.
   */
  method CheckUserUpdate(s: Snapshot, idText: string, body: UserFields) returns (r: Result<User>, k: nat)
    ensures r.Ok? ==> k < |s.users|
    ensures PutUser(s, idText, body) == Outcome(r, if r.Ok? then s.(users := s.users[k := r.value]) else s)
  {
    k := 0;
    var v := ValidateUserUpdate(body);
    if v.Rejected? {
      return Err(400, ValidationError(v.fields)), 0;
    }
    var id := ParseInt(idText);
    if id.None? {
      return Err(400, InvalidUserId), 0;
    }
    var found := FindUser(s.users, id.value);
    if found.None? {
      return Err(404, UserNotFound), 0;
    }
    k := found.value;
    var p := v.value;
    var updates := CollectUpdates(UserEntries(p));
    if updates == [] {
      return Err(400, NoUpdateData), k;
    }
    if p.email.Some? && EmailHeldByOther(s.users, id.value, p.email.value) {
      return Err(409, EmailAlreadyExists), k;
    }
    r := Ok(MergeUser(s.users[k], p));
  }

  /** `DELETE /users/:id` up to the `DELETE`: the id, the lookup, the count of owned properties. */
  method CheckUserDeletion(s: Snapshot, idText: string) returns (r: Result<User>, k: nat)
    ensures r.Ok? ==> k < |s.users|
    ensures DeleteUser(s, idText) == Outcome(r, if r.Ok? then s.(users := Without(s.users, k)) else s)
  {
    k := 0;
    var id := ParseInt(idText);
    if id.None? {
      return Err(400, InvalidUserId), 0;
    }
    var found := FindUser(s.users, id.value);
    if found.None? {
      return Err(404, UserNotFound), 0;
    }
    k := found.value;
    var owned := CountOwned(s.properties, id.value);
    if owned > 0 {
      return Err(400, UserHasProperties(owned)), k;
    }
    r := Ok(s.users[k]);
  }

  /** `POST /properties` up to the `INSERT`: the schema, then the owner lookup. */
  method CheckNewProperty(s: Snapshot, nextId: int, body: PropertyBody) returns (r: Result<Property>)
    ensures PostProperty(s, nextId, body) == Outcome(r, if r.Ok? then s.(properties := s.properties + [r.value]) else s)
  {
    var v := ValidatePropertyCreate(body);
    if v.Rejected? {
      return Err(400, ValidationError(v.fields));
    }
    var n := v.value;
    if FindUser(s.users, n.ownerId).None? {
      return Err(400, OwnerNotFound);
    }
    r := Ok(Property(nextId, n.ownerId, n.title, n.city, n.district, n.address, n.legalLicenseNo, n.basePriceTwd));
  }

  /** `PUT /properties/:id` up to the `UPDATE`: the schema, the id, the lookup, the `SET` list. */
  method CheckPropertyUpdate(s: Snapshot, idText: string, body: PropertyBody) returns (r: Result<Property>, k: nat)
    ensures r.Ok? ==> k < |s.properties|
    ensures PutProperty(s, idText, body) == Outcome(r, if r.Ok? then s.(properties := s.properties[k := r.value]) else s)
  {
    k := 0;
    var v := ValidatePropertyUpdate(body);
    if v.Rejected? {
      return Err(400, ValidationError(v.fields)), 0;
    }
    var id := ParseInt(idText);
    if id.None? {
      return Err(400, InvalidPropertyId), 0;
    }
    var found := FindProperty(s.properties, id.value);
    if found.None? {
      return Err(404, PropertyNotFound), 0;
    }
    k := found.value;
    var updates := CollectUpdates(PropertyEntries(v.value));
    if updates == [] {
      return Err(400, NoUpdateData), k;
    }
    r := Ok(MergeProperty(s.properties[k], v.value));
  }

  /** `DELETE /properties/:id` up to the `DELETE`: the id, the lookup, the count of bookings. */
  method CheckPropertyDeletion(s: Snapshot, idText: string) returns (r: Result<Property>, k: nat)
    ensures r.Ok? ==> k < |s.properties|
    ensures DeleteProperty(s, idText) == Outcome(r, if r.Ok? then s.(properties := Without(s.properties, k)) else s)
  {
    k := 0;
    var id := ParseInt(idText);
    if id.None? {
      return Err(400, InvalidPropertyId), 0;
    }
    var found := FindProperty(s.properties, id.value);
    if found.None? {
      return Err(404, PropertyNotFound), 0;
    }
    k := found.value;
    var count := CountBookings(s.bookings, id.value);
    if count > 0 {
      return Err(400, PropertyHasBookings(count)), k;
    }
    r := Ok(s.properties[k]);
  }

  /**
   * `POST /bookings` up to the `INSERT`: the schema, the property lookup, the conflict
   * query, then `suggested_amount` and `amount_used`.
   */
  method CheckNewBooking(s: Snapshot, nextId: int, body: BookingBody, now: int) returns (r: Result<CreatedBooking>)
    ensures PostBooking(s, nextId, body, now) == Outcome(r, if r.Ok? then s.(bookings := s.bookings + [r.value.booking]) else s)
  {
    var v := ValidateBookingCreate(body, now);
    if v.Rejected? {
      return Err(400, ValidationError(v.fields));
    }
    var n := v.value;
    var k := FindProperty(s.properties, n.propertyId);
    if k.None? {
      return Err(400, PropertyNotFound);
    }
    var clashes := Conflicts(s.bookings, n.propertyId, None, n.checkIn, n.checkOut);
    if clashes != [] {
      return Err(409, DateConflict(clashes));
    }
    var suggested := SuggestedAmount(s.properties[k.value].basePriceTwd, n.checkIn, n.checkOut);
    var amount := AmountUsed(n.totalAmount, suggested);
    var b := Booking(nextId, n.propertyId, n.sourceChannel, n.guestName, n.guestIdNo, n.checkIn, n.checkOut,
      amount, n.isTaxIncluded, n.breakfastIncluded, n.specialNote, n.status);
    r := Ok(CreatedBooking(b, suggested, amount));
  }

  /**
   * `PUT /bookings/:id` up to the `UPDATE`: the schema, the id, the lookup, the
   * conflict query when a date is sent and the `SET` list.
   */
  method CheckBookingUpdate(s: Snapshot, idText: string, body: BookingBody) returns (r: Result<Booking>, k: nat)
    ensures r.Ok? ==> k < |s.bookings|
    ensures PutBooking(s, idText, body) == Outcome(r, if r.Ok? then s.(bookings := s.bookings[k := r.value]) else s)
  {
    k := 0;
    var v := ValidateBookingUpdate(body);
    if v.Rejected? {
      return Err(400, ValidationError(v.fields)), 0;
    }
    var id := ParseInt(idText);
    if id.None? {
      return Err(400, InvalidBookingId), 0;
    }
    var found := FindBooking(s.bookings, id.value);
    if found.None? {
      return Err(404, BookingNotFound), 0;
    }
    k := found.value;
    var p := v.value;
    var b := s.bookings[k];
    if GivesDate(p) {
      var clashes := RedateClashes(s.bookings, b, p);
      if clashes != [] {
        return Err(409, DateConflict(clashes)), k;
      }
    }
    var updates := CollectUpdates(BookingEntries(p));
    if updates == [] {
      return Err(400, NoUpdateData), k;
    }
    r := Ok(MergeBooking(b, p));
  }

  /**
   * `PATCH /bookings/:id/status` up to the `UPDATE`: the schema, the id, the lookup and
   * the transition table. On success `row` is what the `UPDATE` writes at index `k`.
   */
  method CheckStatusChange(s: Snapshot, idText: string, status: Option<string>)
    returns (r: Result<StatusChange>, k: nat, row: Booking)
    ensures r.Ok? ==> k < |s.bookings|
    ensures PatchBookingStatus(s, idText, status) == Outcome(r, if r.Ok? then s.(bookings := s.bookings[k := row]) else s)
  {
    k, row := 0, Booking(0, 0, Airbnb, [], [], 0, 0, 0, false, false, None, Reserved);
    var v := ValidateStatusUpdate(status);
    if v.Rejected? {
      return Err(400, ValidationError(v.fields)), k, row;
    }
    var id := ParseInt(idText);
    if id.None? {
      return Err(400, InvalidBookingId), k, row;
    }
    var found := FindBooking(s.bookings, id.value);
    if found.None? {
      return Err(404, BookingNotFound), k, row;
    }
    k := found.value;
    var b := s.bookings[k];
    var to := v.value;
    if !CanTransition(b.status, to) {
      return Err(400, InvalidStatusTransition(b.status, to, AllowedTransitions(b.status))), k, row;
    }
    row := b.(status := to);
    r := Ok(StatusChange(id.value, b.guestName, b.status, to));
  }

  /** `DELETE /bookings/:id` up to the `DELETE`: the id, the lookup, the status guard. */
  method CheckBookingDeletion(s: Snapshot, idText: string) returns (r: Result<Booking>, k: nat)
    ensures r.Ok? ==> k < |s.bookings|
    ensures DeleteBooking(s, idText) == Outcome(r, if r.Ok? then s.(bookings := Without(s.bookings, k)) else s)
  {
    k := 0;
    var id := ParseInt(idText);
    if id.None? {
      return Err(400, InvalidBookingId), 0;
    }
    var found := FindBooking(s.bookings, id.value);
    if found.None? {
      return Err(404, BookingNotFound), 0;
    }
    k := found.value;
    var b := s.bookings[k];
    if b.status != Cancelled {
      return Err(400, CannotDeleteActiveBooking(b.status)), k;
    }
    r := Ok(b);
  }

  class Database {
    var users: seq<User>
    var properties: seq<Property>
    var bookings: seq<Booking>
    /** The ids the next INSERT into each table receives. */
    var nextUserId: int
    var nextPropertyId: int
    var nextBookingId: int

    function Tables(): Snapshot
      reads this
    {
      Snapshot(users, properties, bookings)
    }

    /** The foreign keys, the UNIQUE email, the ascending ids below the counters and the validated ranges hold. */
    ghost predicate Valid()
      reads this
    {
      nextUserId >= 1 && nextPropertyId >= 1 && nextBookingId >= 1 &&
      Consistent(Tables(), nextUserId, nextPropertyId, nextBookingId)
    }

    /** An empty database. */
    constructor ()
      ensures Valid()
      ensures Tables() == Snapshot([], [], [])
      ensures nextUserId == 1 && nextPropertyId == 1 && nextBookingId == 1
    {
      users, properties, bookings := [], [], [];
      nextUserId, nextPropertyId, nextBookingId := 1, 1, 1;
    }

    // -------------------------------------------------------------------------
    // routes/users.js

    /** `POST /users`. */
    method CreateUser(body: UserFields) returns (r: Result<User>)
      requires Valid()
      modifies this
      ensures Valid()
      ensures Outcome(r, Tables()) == PostUser(old(Tables()), old(nextUserId), body)
      ensures nextUserId == old(nextUserId) + (if r.Ok? then 1 else 0)
      ensures nextPropertyId == old(nextPropertyId) && nextBookingId == old(nextBookingId)
    {
      var s, n := Tables(), nextUserId;
      r := CheckNewUser(s, n, body);
      if r.Ok? {
        users := s.users + [r.value];
        nextUserId := n + 1;
      }
      PostUserKeepsConsistent(s, n, nextPropertyId, nextBookingId, body, Tables());
    }

    /** `PUT /users/:id`. */
    method UpdateUser(idText: string, body: UserFields) returns (r: Result<User>)
      requires Valid()
      modifies this
      ensures Valid()
      ensures Outcome(r, Tables()) == PutUser(old(Tables()), idText, body)
      ensures nextUserId == old(nextUserId) && nextPropertyId == old(nextPropertyId) && nextBookingId == old(nextBookingId)
    {
      var s := Tables();
      var k;
      r, k := CheckUserUpdate(s, idText, body);
      if r.Ok? {
        users := s.users[k := r.value];
      }
      PutUserKeepsConsistent(s, nextUserId, nextPropertyId, nextBookingId, idText, body, Tables());
    }

    /** `DELETE /users/:id`. */
    method RemoveUser(idText: string) returns (r: Result<User>)
      requires Valid()
      modifies this
      ensures Valid()
      ensures Outcome(r, Tables()) == DeleteUser(old(Tables()), idText)
      ensures nextUserId == old(nextUserId) && nextPropertyId == old(nextPropertyId) && nextBookingId == old(nextBookingId)
    {
      var s := Tables();
      var k;
      r, k := CheckUserDeletion(s, idText);
      if r.Ok? {
        users := Without(s.users, k);
      }
      DeleteUserKeepsConsistent(s, nextUserId, nextPropertyId, nextBookingId, idText, Tables());
    }

    // -------------------------------------------------------------------------
    // routes/properties.js

    /** `POST /properties`. */
    method CreateProperty(body: PropertyBody) returns (r: Result<Property>)
      requires Valid()
      modifies this
      ensures Valid()
      ensures Outcome(r, Tables()) == PostProperty(old(Tables()), old(nextPropertyId), body)
      ensures nextPropertyId == old(nextPropertyId) + (if r.Ok? then 1 else 0)
      ensures nextUserId == old(nextUserId) && nextBookingId == old(nextBookingId)
    {
      var s, n := Tables(), nextPropertyId;
      r := CheckNewProperty(s, n, body);
      if r.Ok? {
        properties := s.properties + [r.value];
        nextPropertyId := n + 1;
      }
      PostPropertyKeepsConsistent(s, nextUserId, n, nextBookingId, body, Tables());
    }

    /** `PUT /properties/:id`. */
    method UpdateProperty(idText: string, body: PropertyBody) returns (r: Result<Property>)
      requires Valid()
      modifies this
      ensures Valid()
      ensures Outcome(r, Tables()) == PutProperty(old(Tables()), idText, body)
      ensures nextUserId == old(nextUserId) && nextPropertyId == old(nextPropertyId) && nextBookingId == old(nextBookingId)
    {
      var s := Tables();
      var k;
      r, k := CheckPropertyUpdate(s, idText, body);
      if r.Ok? {
        properties := s.properties[k := r.value];
      }
      PutPropertyKeepsConsistent(s, nextUserId, nextPropertyId, nextBookingId, idText, body, Tables());
    }

    /** `DELETE /properties/:id`. */
    method RemoveProperty(idText: string) returns (r: Result<Property>)
      requires Valid()
      modifies this
      ensures Valid()
      ensures Outcome(r, Tables()) == DeleteProperty(old(Tables()), idText)
      ensures nextUserId == old(nextUserId) && nextPropertyId == old(nextPropertyId) && nextBookingId == old(nextBookingId)
    {
      var s := Tables();
      var k;
      r, k := CheckPropertyDeletion(s, idText);
      if r.Ok? {
        properties := Without(s.properties, k);
      }
      DeletePropertyKeepsConsistent(s, nextUserId, nextPropertyId, nextBookingId, idText, Tables());
    }

    // -------------------------------------------------------------------------
    // routes/bookings.js

    /** `POST /bookings`, `now` being the instant of the request. */
    method CreateBooking(body: BookingBody, now: int) returns (r: Result<CreatedBooking>)
      requires Valid()
      modifies this
      ensures Valid()
      ensures Outcome(r, Tables()) == PostBooking(old(Tables()), old(nextBookingId), body, now)
      ensures nextBookingId == old(nextBookingId) + (if r.Ok? then 1 else 0)
      ensures nextUserId == old(nextUserId) && nextPropertyId == old(nextPropertyId)
    {
      var s, n := Tables(), nextBookingId;
      r := CheckNewBooking(s, n, body, now);
      if r.Ok? {
        bookings := s.bookings + [r.value.booking];
        nextBookingId := n + 1;
      }
      PostBookingKeepsConsistent(s, nextUserId, nextPropertyId, n, body, now, Tables());
    }

    /** `PUT /bookings/:id`. */
    method UpdateBooking(idText: string, body: BookingBody) returns (r: Result<Booking>)
      requires Valid()
      modifies this
      ensures Valid()
      ensures Outcome(r, Tables()) == PutBooking(old(Tables()), idText, body)
      ensures nextUserId == old(nextUserId) && nextPropertyId == old(nextPropertyId) && nextBookingId == old(nextBookingId)
    {
      var s := Tables();
      var k;
      r, k := CheckBookingUpdate(s, idText, body);
      if r.Ok? {
        bookings := s.bookings[k := r.value];
      }
      PutBookingKeepsConsistent(s, nextUserId, nextPropertyId, nextBookingId, idText, body, Tables());
    }

    /** `PATCH /bookings/:id/status`. */
    method UpdateBookingStatus(idText: string, status: Option<string>) returns (r: Result<StatusChange>)
      requires Valid()
      modifies this
      ensures Valid()
      ensures Outcome(r, Tables()) == PatchBookingStatus(old(Tables()), idText, status)
      ensures nextUserId == old(nextUserId) && nextPropertyId == old(nextPropertyId) && nextBookingId == old(nextBookingId)
    {
      var s := Tables();
      var k, row;
      r, k, row := CheckStatusChange(s, idText, status);
      if r.Ok? {
        bookings := s.bookings[k := row];
      }
      PatchBookingStatusKeepsConsistent(s, nextUserId, nextPropertyId, nextBookingId, idText, status, Tables());
    }

    /** `DELETE /bookings/:id`. */
    method RemoveBooking(idText: string) returns (r: Result<Booking>)
      requires Valid()
      modifies this
      ensures Valid()
      ensures Outcome(r, Tables()) == DeleteBooking(old(Tables()), idText)
      ensures nextUserId == old(nextUserId) && nextPropertyId == old(nextPropertyId) && nextBookingId == old(nextBookingId)
    {
      var s := Tables();
      var k;
      r, k := CheckBookingDeletion(s, idText);
      if r.Ok? {
        bookings := Without(s.bookings, k);
      }
      DeleteBookingKeepsConsistent(s, nextUserId, nextPropertyId, nextBookingId, idText, Tables());
    }
  }
}
