/**
 * What a client observes over several requests: a row created is read back, a row
 * deleted is gone, a booking created blocks its own dates, and the clean-up of the
 * API test script (create, cancel, delete) leaves the Bookings table as it found it.
 */
module Scenarios {
  import opened Wrappers
  import opened Records
  import opened JsParse
  import opened Validation
  import opened BookingRules
  import opened Tables
  import opened Reads
  import opened Writes

  /** `GET /users/:id` with the id `POST /users` answered returns the created row. */
  lemma CreatedUserIsFound(s: Snapshot, nu: int, np: int, nb: int, body: UserFields)
    requires Consistent(s, nu, np, nb)
    requires PostUser(s, nu, body).result.Ok?
    ensures var o := PostUser(s, nu, body);
      GetUser(o.after, IntString(nu)) == Ok(o.result.value)
  {
    var o := PostUser(s, nu, body);
    ParseIntRoundTrip(nu);
    assert o.after.users == s.users + [o.result.value];
    UserFoundAtTheEnd(s.users, o.result.value);
  }

  /** A user appended with an id above every stored id is found at the end. */
  lemma UserFoundAtTheEnd(us: seq<User>, u: User)
    requires forall i :: 0 <= i < |us| ==> us[i].userId < u.userId
    ensures FindUser(us + [u], u.userId) == Some(|us|)
  {
    assert (us + [u])[|us|] == u;
  }

  /** After a successful `DELETE /users/:id`, `GET /users/:id` answers 404. */
  lemma DeletedUserIsGone(s: Snapshot, nu: int, np: int, nb: int, idText: string)
    requires Consistent(s, nu, np, nb)
    requires DeleteUser(s, idText).result.Ok?
    ensures GetUser(DeleteUser(s, idText).after, idText) == Err(404, UserNotFound)
  {
    var o := DeleteUser(s, idText);
    var id := ParseInt(idText).value;
    var k :| 0 <= k < |s.users| && s.users[k] == o.result.value && o.after == s.(users := Without(s.users, k));
    var us := Without(s.users, k);
    forall i | 0 <= i < |us| ensures us[i].userId != id {
      if i < k {
        assert s.users[i].userId < s.users[k].userId;
      } else {
        assert s.users[i + 1].userId > s.users[k].userId;
      }
    }
  }

  /**
   * A created booking that is active blocks its own dates: sending the same body again
   * is refused with 409, the created booking among the conflicts.
   */
  lemma CreatedBookingBlocksItsDates(s: Snapshot, n1: int, n2: int, body: BookingBody, now: int)
    requires PostBooking(s, n1, body, now).result.Ok?
    requires IsActive(ValidateBookingCreate(body, now).value.status)
    ensures var o := PostBooking(s, n1, body, now);
      var again := PostBooking(o.after, n2, body, now);
      again.result.Err? && again.result.httpStatus == 409 &&
      again.result.error.DateConflict? && o.result.value.booking in again.result.error.conflicting
  {
    var o := PostBooking(s, n1, body, now);
    var v := ValidateBookingCreate(body, now).value;
    var b := o.result.value.booking;
    var k :| 0 <= k < |s.properties| && s.properties[k].propertyId == v.propertyId;
    assert HasProperty(o.after.properties, v.propertyId);
    assert b in o.after.bookings && Blocks(b, v.propertyId, None, v.checkIn, v.checkOut);
  }

  /** The booking of `bs` with id `id`, when every other id is smaller and `bs[k]` has it. */
  lemma FoundAtTheEnd(bs: seq<Booking>, id: int, k: nat)
    requires k < |bs| && bs[k].bookingId == id
    requires forall i :: 0 <= i < |bs| && i != k ==> bs[i].bookingId < id
    ensures FindBooking(bs, id) == Some(k)
  {
  }

  /**
   * The clean-up of the booking test: `POST /bookings` with the default status, then
   * `PATCH /bookings/:id/status` to 已取消, then `DELETE /bookings/:id`. Each step
   * succeeds and the Bookings table ends as it began.
   */
  lemma CreateCancelDelete(s: Snapshot, nu: int, np: int, nb: int, body: BookingBody, now: int)
    requires Consistent(s, nu, np, nb)
    requires PostBooking(s, nb, body, now).result.Ok?
    requires ValidateBookingCreate(body, now).value.status == Reserved
    ensures var created := PostBooking(s, nb, body, now);
      var cancelled := PatchBookingStatus(created.after, IntString(nb), Some(StatusName(Cancelled)));
      var deleted := DeleteBooking(cancelled.after, IntString(nb));
      cancelled.result.Ok? && deleted.result.Ok? && deleted.after == s
  {
    var created := PostBooking(s, nb, body, now);
    var b := created.result.value.booking;
    assert created.after == s.(bookings := s.bookings + [b]);
    ParseIntRoundTrip(nb);
    StatusUpdateAcceptsNames(Cancelled);
    CancelledAtTheEnd(s, b, IntString(nb), Some(StatusName(Cancelled)));
    DeletedAtTheEnd(s, b.(status := Cancelled), IntString(nb));
  }

  /** `PATCH` with a status text the schema reads as 已取消, of a reserved booking stored last, above every other id. */
  lemma CancelledAtTheEnd(s: Snapshot, b: Booking, idText: string, status: Option<string>)
    requires ParseInt(idText) == Some(b.bookingId)
    requires ValidateStatusUpdate(status) == Accepted(Cancelled)
    requires b.status == Reserved
    requires forall i :: 0 <= i < |s.bookings| ==> s.bookings[i].bookingId < b.bookingId
    ensures var o := PatchBookingStatus(s.(bookings := s.bookings + [b]), idText, status);
      o.result.Ok? && o.after == s.(bookings := s.bookings + [b.(status := Cancelled)])
  {
    var n := |s.bookings|;
    FoundAtTheEnd(s.bookings + [b], b.bookingId, n);
    assert CanTransition(Reserved, Cancelled);
    UpdateLast(s.bookings, b, b.(status := Cancelled));
  }

  /** `DELETE` of a cancelled booking stored last, above every other id, restores the table as it was before. */
  lemma DeletedAtTheEnd(s: Snapshot, c: Booking, idText: string)
    requires ParseInt(idText) == Some(c.bookingId)
    requires c.status == Cancelled
    requires forall i :: 0 <= i < |s.bookings| ==> s.bookings[i].bookingId < c.bookingId
    ensures DeleteBooking(s.(bookings := s.bookings + [c]), idText) == Outcome(Ok(c), s)
  {
    var n := |s.bookings|;
    FoundAtTheEnd(s.bookings + [c], c.bookingId, n);
    WithoutLast(s.bookings, c);
  }
}
