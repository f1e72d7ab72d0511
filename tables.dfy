/**
 * The three tables as sequences of rows in primary-key order (AUTO_INCREMENT
 * appends at the end), the lookups the handlers run against them, and the
 * integrity the handlers and the schema's keys keep.
 */
module Tables {
  import opened Wrappers
  import opened Records
  import opened Seqs

  /** The contents of the database at one moment. */
  datatype Snapshot = Snapshot(users: seq<User>, properties: seq<Property>, bookings: seq<Booking>)

  // ---------------------------------------------------------------------------
  // Lookups: `SELECT … WHERE <key> = ?`

  predicate HasUser(us: seq<User>, id: int) { exists i :: 0 <= i < |us| && us[i].userId == id }
  predicate HasProperty(ps: seq<Property>, id: int) { exists i :: 0 <= i < |ps| && ps[i].propertyId == id }

  function FindUser(us: seq<User>, id: int): (r: Option<nat>)
    ensures r.Some? ==> r.value < |us| && us[r.value].userId == id
    ensures r.None? <==> !HasUser(us, id)
  {
    if us == [] then None
    else if us[0].userId == id then Some(0)
    else
      var r := FindUser(us[1..], id);
      assert r.None? ==> forall i :: 1 <= i < |us| ==> us[i].userId != id by {
        if r.None? { forall i | 1 <= i < |us| ensures us[i].userId != id { assert us[1..][i - 1] == us[i]; } }
      }
      if r.Some? then Some(r.value + 1) else None
  }

  function FindProperty(ps: seq<Property>, id: int): (r: Option<nat>)
    ensures r.Some? ==> r.value < |ps| && ps[r.value].propertyId == id
    ensures r.None? <==> !HasProperty(ps, id)
  {
    if ps == [] then None
    else if ps[0].propertyId == id then Some(0)
    else
      var r := FindProperty(ps[1..], id);
      assert r.None? ==> forall i :: 1 <= i < |ps| ==> ps[i].propertyId != id by {
        if r.None? { forall i | 1 <= i < |ps| ensures ps[i].propertyId != id { assert ps[1..][i - 1] == ps[i]; } }
      }
      if r.Some? then Some(r.value + 1) else None
  }

  function FindBooking(bs: seq<Booking>, id: int): (r: Option<nat>)
    ensures r.Some? ==> r.value < |bs| && bs[r.value].bookingId == id
    ensures r.None? <==> forall i :: 0 <= i < |bs| ==> bs[i].bookingId != id
  {
    if bs == [] then None
    else if bs[0].bookingId == id then Some(0)
    else
      var r := FindBooking(bs[1..], id);
      assert r.None? ==> forall i :: 1 <= i < |bs| ==> bs[i].bookingId != id by {
        if r.None? { forall i | 1 <= i < |bs| ensures bs[i].bookingId != id { assert bs[1..][i - 1] == bs[i]; } }
      }
      if r.Some? then Some(r.value + 1) else None
  }

  /** The user holding `email`, which the UNIQUE key on `email` allows to be one at most. */
  function FindEmail(us: seq<User>, email: string): (r: Option<nat>)
    ensures r.Some? ==> r.value < |us| && us[r.value].email == email
    ensures r.None? <==> forall i :: 0 <= i < |us| ==> us[i].email != email
  {
    if us == [] then None
    else if us[0].email == email then Some(0)
    else
      var r := FindEmail(us[1..], email);
      assert r.None? ==> forall i :: 1 <= i < |us| ==> us[i].email != email by {
        if r.None? { forall i | 1 <= i < |us| ensures us[i].email != email { assert us[1..][i - 1] == us[i]; } }
      }
      if r.Some? then Some(r.value + 1) else None
  }

  /** `SELECT COUNT(*) FROM Properties WHERE owner_id = ?`. */
  function CountOwned(ps: seq<Property>, ownerId: int): (n: nat)
    ensures n == |Filter(ps, (p: Property) => p.ownerId == ownerId)|
    ensures n <= |ps|
    ensures n == 0 <==> forall i :: 0 <= i < |ps| ==> ps[i].ownerId != ownerId
  {
    if ps == [] then 0
    else
      var rest := CountOwned(ps[1..], ownerId);
      assert rest == 0 <==> forall i :: 1 <= i < |ps| ==> ps[i].ownerId != ownerId by {
        assert forall i :: 1 <= i < |ps| ==> ps[1..][i - 1] == ps[i];
      }
      (if ps[0].ownerId == ownerId then 1 else 0) + rest
  }

  /** `SELECT COUNT(*) FROM Bookings WHERE property_id = ?`, whatever the status. */
  function CountBookings(bs: seq<Booking>, propertyId: int): (n: nat)
    ensures n == |Filter(bs, (b: Booking) => b.propertyId == propertyId)|
    ensures n <= |bs|
    ensures n == 0 <==> forall i :: 0 <= i < |bs| ==> bs[i].propertyId != propertyId
  {
    if bs == [] then 0
    else
      var rest := CountBookings(bs[1..], propertyId);
      assert rest == 0 <==> forall i :: 1 <= i < |bs| ==> bs[i].propertyId != propertyId by {
        assert forall i :: 1 <= i < |bs| ==> bs[1..][i - 1] == bs[i];
      }
      (if bs[0].propertyId == propertyId then 1 else 0) + rest
  }

  /** The row sequence without row `k` (`DELETE … WHERE <key> = ?`). */
  function Without<T>(s: seq<T>, k: nat): (r: seq<T>)
    requires k < |s|
    ensures |r| == |s| - 1
    ensures forall i :: 0 <= i < |r| ==> r[i] == if i < k then s[i] else s[i + 1]
  {
    s[..k] + s[k + 1..]
  }

  /** Rewriting the last row of `xs + [x]` gives `xs + [y]`. */
  lemma UpdateLast<T>(xs: seq<T>, x: T, y: T)
    ensures (xs + [x])[|xs| := y] == xs + [y]
  {
    assert forall i :: 0 <= i < |xs| ==> (xs + [x])[|xs| := y][i] == xs[i];
  }

  /** Deleting the last row of `xs + [x]` gives `xs`. */
  lemma WithoutLast<T>(xs: seq<T>, x: T)
    ensures Without(xs + [x], |xs|) == xs
  {
    assert (xs + [x])[..|xs|] == xs;
  }

  // ---------------------------------------------------------------------------
  // Integrity

  /** Users: ids ascending from 1 and below the next AUTO_INCREMENT value; emails unique. */
  predicate UsersValid(us: seq<User>, nextId: int) {
    (forall i :: 0 <= i < |us| ==> 1 <= us[i].userId < nextId) &&
    (forall i, j :: 0 <= i < j < |us| ==> us[i].userId < us[j].userId) &&
    (forall i, j :: 0 <= i < j < |us| ==> us[i].email != us[j].email)
  }

  /** Properties: ids as for users; every owner exists; prices within the validated range. */
  predicate PropertiesValid(ps: seq<Property>, us: seq<User>, nextId: int) {
    (forall i :: 0 <= i < |ps| ==> 1 <= ps[i].propertyId < nextId) &&
    (forall i, j :: 0 <= i < j < |ps| ==> ps[i].propertyId < ps[j].propertyId) &&
    (forall i :: 0 <= i < |ps| ==> HasUser(us, ps[i].ownerId)) &&
    (forall i :: 0 <= i < |ps| ==> 500 <= ps[i].basePriceTwd <= 50000)
  }

  /** Bookings: ids as for users; every booking's property exists; amounts are not negative. */
  predicate BookingsValid(bs: seq<Booking>, ps: seq<Property>, nextId: int) {
    (forall i :: 0 <= i < |bs| ==> 1 <= bs[i].bookingId < nextId) &&
    (forall i, j :: 0 <= i < j < |bs| ==> bs[i].bookingId < bs[j].bookingId) &&
    (forall i :: 0 <= i < |bs| ==> HasProperty(ps, bs[i].propertyId)) &&
    (forall i :: 0 <= i < |bs| ==> bs[i].totalAmount >= 0)
  }

  predicate Consistent(s: Snapshot, nextUserId: int, nextPropertyId: int, nextBookingId: int) {
    UsersValid(s.users, nextUserId) &&
    PropertiesValid(s.properties, s.users, nextPropertyId) &&
    BookingsValid(s.bookings, s.properties, nextBookingId)
  }

  /** With ascending ids a lookup by id finds the one row with that id. */
  lemma BookingIdsDistinct(bs: seq<Booking>, ps: seq<Property>, nextId: int)
    requires BookingsValid(bs, ps, nextId)
    ensures forall i, j :: 0 <= i < j < |bs| ==> bs[i].bookingId != bs[j].bookingId
  {
  }

  // ---------------------------------------------------------------------------
  // The writes keep the tables consistent

  lemma {:induction false} HasUserAppend(us: seq<User>, u: User, id: int)
    ensures HasUser(us + [u], id) <==> HasUser(us, id) || u.userId == id
  {
    if HasUser(us, id) {
      var i :| 0 <= i < |us| && us[i].userId == id;
      assert (us + [u])[i] == us[i];
    }
    if u.userId == id { assert (us + [u])[|us|] == u; }
    if HasUser(us + [u], id) {
      var i :| 0 <= i < |us| + 1 && (us + [u])[i].userId == id;
      if i < |us| { assert (us + [u])[i] == us[i]; }
    }
  }

  lemma {:induction false} HasPropertyAppend(ps: seq<Property>, p: Property, id: int)
    ensures HasProperty(ps + [p], id) <==> HasProperty(ps, id) || p.propertyId == id
  {
    if HasProperty(ps, id) {
      var i :| 0 <= i < |ps| && ps[i].propertyId == id;
      assert (ps + [p])[i] == ps[i];
    }
    if p.propertyId == id { assert (ps + [p])[|ps|] == p; }
    if HasProperty(ps + [p], id) {
      var i :| 0 <= i < |ps| + 1 && (ps + [p])[i].propertyId == id;
      if i < |ps| { assert (ps + [p])[i] == ps[i]; }
    }
  }

  lemma HasUserWithout(us: seq<User>, k: nat, id: int)
    requires k < |us| && HasUser(us, id) && us[k].userId != id
    ensures HasUser(Without(us, k), id)
  {
    var j :| 0 <= j < |us| && us[j].userId == id;
    var r := Without(us, k);
    if j < k { assert r[j] == us[j]; } else { assert r[j - 1] == us[j]; }
  }

  lemma HasPropertyWithout(ps: seq<Property>, k: nat, id: int)
    requires k < |ps| && HasProperty(ps, id) && ps[k].propertyId != id
    ensures HasProperty(Without(ps, k), id)
  {
    var j :| 0 <= j < |ps| && ps[j].propertyId == id;
    var r := Without(ps, k);
    if j < k { assert r[j] == ps[j]; } else { assert r[j - 1] == ps[j]; }
  }

  /** `INSERT INTO Users`: the new row takes the next id and an email nobody holds. */
  lemma InsertUserKeeps(s: Snapshot, nu: int, np: int, nb: int, u: User)
    requires Consistent(s, nu, np, nb) && nu >= 1
    requires u.userId == nu && FindEmail(s.users, u.email).None?
    ensures Consistent(s.(users := s.users + [u]), nu + 1, np, nb)
  {
    var us := s.users + [u];
    assert forall i :: 0 <= i < |s.users| ==> us[i] == s.users[i];
    forall i | 0 <= i < |s.properties| ensures HasUser(us, s.properties[i].ownerId) {
      HasUserAppend(s.users, u, s.properties[i].ownerId);
    }
  }

  /** `UPDATE Users`: same id, and an email no other user holds. */
  lemma UpdateUserKeeps(s: Snapshot, nu: int, np: int, nb: int, k: nat, u: User)
    requires Consistent(s, nu, np, nb) && k < |s.users|
    requires u.userId == s.users[k].userId
    requires forall i :: 0 <= i < |s.users| && i != k ==> s.users[i].email != u.email
    ensures Consistent(s.(users := s.users[k := u]), nu, np, nb)
  {
    var us := s.users[k := u];
    forall i | 0 <= i < |s.properties| ensures HasUser(us, s.properties[i].ownerId) {
      var j :| 0 <= j < |s.users| && s.users[j].userId == s.properties[i].ownerId;
      assert us[j].userId == s.properties[i].ownerId;
    }
  }

  /** `DELETE FROM Users` of a user who owns no property. */
  lemma DeleteUserKeeps(s: Snapshot, nu: int, np: int, nb: int, k: nat)
    requires Consistent(s, nu, np, nb) && k < |s.users|
    requires CountOwned(s.properties, s.users[k].userId) == 0
    ensures Consistent(s.(users := Without(s.users, k)), nu, np, nb)
  {
    var us := Without(s.users, k);
    UsersWithout(s.users, nu, k);
    forall i | 0 <= i < |s.properties| ensures HasUser(us, s.properties[i].ownerId) {
      HasUserWithout(s.users, k, s.properties[i].ownerId);
    }
  }

  lemma UsersWithout(us: seq<User>, nu: int, k: nat)
    requires UsersValid(us, nu) && k < |us|
    ensures UsersValid(Without(us, k), nu)
  {
    var r := Without(us, k);
    forall i, j | 0 <= i < j < |r| ensures r[i].userId < r[j].userId && r[i].email != r[j].email {
      var i', j' := if i < k then i else i + 1, if j < k then j else j + 1;
      assert r[i] == us[i'] && r[j] == us[j'] && i' < j';
    }
  }

  /** `INSERT INTO Properties` with an existing owner and a validated price. */
  lemma InsertPropertyKeeps(s: Snapshot, nu: int, np: int, nb: int, p: Property)
    requires Consistent(s, nu, np, nb) && np >= 1
    requires p.propertyId == np && HasUser(s.users, p.ownerId) && 500 <= p.basePriceTwd <= 50000
    ensures Consistent(s.(properties := s.properties + [p]), nu, np + 1, nb)
  {
    var ps := s.properties + [p];
    assert forall i :: 0 <= i < |s.properties| ==> ps[i] == s.properties[i];
    forall i | 0 <= i < |s.bookings| ensures HasProperty(ps, s.bookings[i].propertyId) {
      HasPropertyAppend(s.properties, p, s.bookings[i].propertyId);
    }
  }

  /** `UPDATE Properties` that keeps the id and the owner and a validated price. */
  lemma UpdatePropertyKeeps(s: Snapshot, nu: int, np: int, nb: int, k: nat, p: Property)
    requires Consistent(s, nu, np, nb) && k < |s.properties|
    requires p.propertyId == s.properties[k].propertyId && p.ownerId == s.properties[k].ownerId
    requires 500 <= p.basePriceTwd <= 50000
    ensures Consistent(s.(properties := s.properties[k := p]), nu, np, nb)
  {
    var ps := s.properties[k := p];
    forall i | 0 <= i < |s.bookings| ensures HasProperty(ps, s.bookings[i].propertyId) {
      var j :| 0 <= j < |s.properties| && s.properties[j].propertyId == s.bookings[i].propertyId;
      assert ps[j].propertyId == s.bookings[i].propertyId;
    }
  }

  /** `DELETE FROM Properties` of a property no booking references. */
  lemma DeletePropertyKeeps(s: Snapshot, nu: int, np: int, nb: int, k: nat)
    requires Consistent(s, nu, np, nb) && k < |s.properties|
    requires CountBookings(s.bookings, s.properties[k].propertyId) == 0
    ensures Consistent(s.(properties := Without(s.properties, k)), nu, np, nb)
  {
    var ps := Without(s.properties, k);
    PropertiesWithout(s.properties, s.users, np, k);
    forall i | 0 <= i < |s.bookings| ensures HasProperty(ps, s.bookings[i].propertyId) {
      HasPropertyWithout(s.properties, k, s.bookings[i].propertyId);
    }
  }

  lemma PropertiesWithout(ps: seq<Property>, us: seq<User>, np: int, k: nat)
    requires PropertiesValid(ps, us, np) && k < |ps|
    ensures PropertiesValid(Without(ps, k), us, np)
  {
    var r := Without(ps, k);
    forall i, j | 0 <= i < j < |r| ensures r[i].propertyId < r[j].propertyId {
      var i', j' := if i < k then i else i + 1, if j < k then j else j + 1;
      assert r[i] == ps[i'] && r[j] == ps[j'] && i' < j';
    }
  }

  /** `INSERT INTO Bookings` for an existing property with an amount >= 0. */
  lemma InsertBookingKeeps(s: Snapshot, nu: int, np: int, nb: int, b: Booking)
    requires Consistent(s, nu, np, nb) && nb >= 1
    requires b.bookingId == nb && HasProperty(s.properties, b.propertyId) && b.totalAmount >= 0
    ensures Consistent(s.(bookings := s.bookings + [b]), nu, np, nb + 1)
  {
    var bs := s.bookings + [b];
    assert forall i :: 0 <= i < |s.bookings| ==> bs[i] == s.bookings[i];
  }

  /** `UPDATE Bookings` that keeps the id and the property and an amount >= 0. */
  lemma UpdateBookingKeeps(s: Snapshot, nu: int, np: int, nb: int, k: nat, b: Booking)
    requires Consistent(s, nu, np, nb) && k < |s.bookings|
    requires b.bookingId == s.bookings[k].bookingId && b.propertyId == s.bookings[k].propertyId
    requires b.totalAmount >= 0
    ensures Consistent(s.(bookings := s.bookings[k := b]), nu, np, nb)
  {
  }

  /** `DELETE FROM Bookings`. */
  lemma DeleteBookingKeeps(s: Snapshot, nu: int, np: int, nb: int, k: nat)
    requires Consistent(s, nu, np, nb) && k < |s.bookings|
    ensures Consistent(s.(bookings := Without(s.bookings, k)), nu, np, nb)
  {
    BookingsWithout(s.bookings, s.properties, nb, k);
  }

  lemma BookingsWithout(bs: seq<Booking>, ps: seq<Property>, nb: int, k: nat)
    requires BookingsValid(bs, ps, nb) && k < |bs|
    ensures BookingsValid(Without(bs, k), ps, nb)
  {
    var r := Without(bs, k);
    forall i, j | 0 <= i < j < |r| ensures r[i].bookingId < r[j].bookingId {
      var i', j' := if i < k then i else i + 1, if j < k then j else j + 1;
      assert r[i] == bs[i'] && r[j] == bs[j'] && i' < j';
    }
  }
}
