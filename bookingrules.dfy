/**
 * The booking rules the handlers of routes/bookings.js and routes/properties.js
 * write into their SQL: which bookings block a stay, the status state machine,
 * the stay classification of `GET /bookings/:id`, and the amount of a new booking.
 */
module BookingRules {
  import opened Wrappers
  import opened Records

  // ---------------------------------------------------------------------------
  // Date conflicts

  /** `status IN ('已預訂', '已入住')`: the statuses that hold a property's dates. */
  predicate IsActive(s: Status) { s == Reserved || s == CheckedIn }

  /**
   * The conflict test of the SQL, for a stored booking [ci, co] and the requested
   * stay [newIn, newOut]: `(check_in <= newOut AND check_out > newIn) OR
   * (check_in < newOut AND check_out >= newIn)`.
   */
  predicate DatesClash(ci: Day, co: Day, newIn: Day, newOut: Day) {
    (ci <= newOut && co > newIn) || (ci < newOut && co >= newIn)
  }

  /** The test of `GET /properties/:id/availability`, with a third clause for stays inside the range. */
  predicate DatesClashOrWithin(ci: Day, co: Day, start: Day, end: Day) {
    DatesClash(ci, co, start, end) || (ci >= start && co <= end)
  }

  /** A booking that the conflict query of a request for `propertyId` returns. */
  predicate Blocks(b: Booking, propertyId: int, exclude: Option<int>, newIn: Day, newOut: Day) {
    b.propertyId == propertyId && IsActive(b.status) &&
    (exclude.None? || b.bookingId != exclude.value) &&
    DatesClash(b.checkIn, b.checkOut, newIn, newOut)
  }

  /** The rows of the conflict query, in table order; `exclude` is `booking_id != ?` of the update. */
  function Conflicts(rows: seq<Booking>, propertyId: int, exclude: Option<int>, newIn: Day, newOut: Day): (r: seq<Booking>)
    ensures |r| <= |rows|
    ensures forall b :: b in r <==> b in rows && Blocks(b, propertyId, exclude, newIn, newOut)
  {
    if rows == [] then []
    else
      var rest := Conflicts(rows[1..], propertyId, exclude, newIn, newOut);
      if Blocks(rows[0], propertyId, exclude, newIn, newOut) then [rows[0]] + rest else rest
  }

  /** The two clauses together reject exactly the closed intersection, less one degenerate case. */
  lemma ClashExactly(ci: Day, co: Day, newIn: Day, newOut: Day)
    ensures DatesClash(ci, co, newIn, newOut) <==> ci <= newOut && co >= newIn && !(ci == newOut && co == newIn)
  {
  }

  /** For well-formed stays the test is closed-interval intersection, not half-open overlap. */
  lemma ClashIsClosedIntersection(ci: Day, co: Day, newIn: Day, newOut: Day)
    requires ci < co && newIn < newOut
    ensures DatesClash(ci, co, newIn, newOut) <==> ci <= newOut && co >= newIn
  {
  }

  /** A stay that starts on another's check-out day, or ends on its check-in day, conflicts. */
  lemma BackToBackConflicts(ci: Day, co: Day, other: Day)
    requires ci < co
    ensures other > co ==> DatesClash(ci, co, co, other)
    ensures other < ci ==> DatesClash(ci, co, other, ci)
  {
  }

  /** Every half-open overlap is a conflict; the test also rejects stays that only touch. */
  lemma HalfOpenOverlapConflicts(ci: Day, co: Day, newIn: Day, newOut: Day)
    requires ci < co && newIn < newOut
    ensures ci < newOut && newIn < co ==> DatesClash(ci, co, newIn, newOut)
    ensures DatesClash(ci, co, newIn, newOut) && !(ci < newOut && newIn < co) ==> co == newIn || ci == newOut
  {
  }

  /** Which of the two stays is the stored one does not matter. */
  lemma ClashSymmetric(a1: Day, a2: Day, b1: Day, b2: Day)
    ensures DatesClash(a1, a2, b1, b2) <==> DatesClash(b1, b2, a1, a2)
  {
  }

  /** The third clause adds nothing for well-formed rows and ranges. */
  lemma WithinClauseRedundant(ci: Day, co: Day, start: Day, end: Day)
    requires ci < co && start < end
    ensures DatesClashOrWithin(ci, co, start, end) <==> DatesClash(ci, co, start, end)
  {
  }

  /** A row stored with check-out before check-in can match the third clause alone. */
  lemma WithinClauseMatchesInvertedRow()
    ensures DatesClashOrWithin(10, 5, 0, 7) && !DatesClash(10, 5, 0, 7)
  {
  }

  /** No two active bookings of one property have clashing dates. */
  predicate NoActiveCollisions(rows: seq<Booking>) {
    forall i, j ::
      (0 <= i < |rows| && 0 <= j < |rows| && i != j &&
       rows[i].propertyId == rows[j].propertyId && IsActive(rows[i].status) && IsActive(rows[j].status)) ==>
      !DatesClash(rows[i].checkIn, rows[i].checkOut, rows[j].checkIn, rows[j].checkOut)
  }

  /** Adding a booking that the conflict query does not reject keeps the property's calendar free of collisions. */
  lemma AppendWithoutConflictPreserves(rows: seq<Booking>, b: Booking)
    requires NoActiveCollisions(rows)
    requires Conflicts(rows, b.propertyId, None, b.checkIn, b.checkOut) == []
    ensures NoActiveCollisions(rows + [b])
  {
    var rs := rows + [b];
    forall i, j | 0 <= i < |rs| && 0 <= j < |rs| && i != j &&
      rs[i].propertyId == rs[j].propertyId && IsActive(rs[i].status) && IsActive(rs[j].status)
      ensures !DatesClash(rs[i].checkIn, rs[i].checkOut, rs[j].checkIn, rs[j].checkOut)
    {
      if i == |rows| {
        assert rs[j] == rows[j] && rows[j] in rows;
        assert !Blocks(rows[j], b.propertyId, None, b.checkIn, b.checkOut);
        ClashSymmetric(b.checkIn, b.checkOut, rows[j].checkIn, rows[j].checkOut);
      } else if j == |rows| {
        assert rs[i] == rows[i] && rows[i] in rows;
        assert !Blocks(rows[i], b.propertyId, None, b.checkIn, b.checkOut);
      } else {
        assert rs[i] == rows[i] && rs[j] == rows[j];
      }
    }
  }

  /**
   * Rewriting booking `k` without touching its property or its dates keeps the calendar
   * free of collisions, unless the rewrite makes an inactive booking active.
   */
  lemma KeepDatesPreserves(rows: seq<Booking>, k: nat, nb: Booking)
    requires NoActiveCollisions(rows) && k < |rows|
    requires nb.propertyId == rows[k].propertyId && nb.checkIn == rows[k].checkIn && nb.checkOut == rows[k].checkOut
    requires IsActive(nb.status) ==> IsActive(rows[k].status)
    ensures NoActiveCollisions(rows[k := nb])
  {
    var rs := rows[k := nb];
    forall i, j | 0 <= i < |rs| && 0 <= j < |rs| && i != j &&
      rs[i].propertyId == rs[j].propertyId && IsActive(rs[i].status) && IsActive(rs[j].status)
      ensures !DatesClash(rs[i].checkIn, rs[i].checkOut, rs[j].checkIn, rs[j].checkOut)
    {
      assert IsActive(rows[i].status) && IsActive(rows[j].status);
    }
  }

  /**
   * Rewriting booking `k` (same id, same property) with dates that the conflict query of
   * the update accepts, the booking itself excluded by id, keeps the calendar free of
   * collisions whatever the new status, provided ids are distinct.
   */
  lemma ReplaceWithoutConflictPreserves(rows: seq<Booking>, k: nat, nb: Booking)
    requires NoActiveCollisions(rows) && k < |rows|
    requires forall i, j :: 0 <= i < j < |rows| ==> rows[i].bookingId != rows[j].bookingId
    requires nb.propertyId == rows[k].propertyId && nb.bookingId == rows[k].bookingId
    requires Conflicts(rows, nb.propertyId, Some(nb.bookingId), nb.checkIn, nb.checkOut) == []
    ensures NoActiveCollisions(rows[k := nb])
  {
    var rs := rows[k := nb];
    forall i, j | 0 <= i < |rs| && 0 <= j < |rs| && i != j &&
      rs[i].propertyId == rs[j].propertyId && IsActive(rs[i].status) && IsActive(rs[j].status)
      ensures !DatesClash(rs[i].checkIn, rs[i].checkOut, rs[j].checkIn, rs[j].checkOut)
    {
      if i == k {
        assert rows[j] in rows && rows[j].bookingId != nb.bookingId;
        assert !Blocks(rows[j], nb.propertyId, Some(nb.bookingId), nb.checkIn, nb.checkOut);
        ClashSymmetric(nb.checkIn, nb.checkOut, rows[j].checkIn, rows[j].checkOut);
      } else if j == k {
        assert rows[i] in rows && rows[i].bookingId != nb.bookingId;
        assert !Blocks(rows[i], nb.propertyId, Some(nb.bookingId), nb.checkIn, nb.checkOut);
      }
    }
  }

  /** Removing a booking keeps the calendar free of collisions. */
  lemma RemovePreserves(rows: seq<Booking>, k: nat)
    requires NoActiveCollisions(rows) && k < |rows|
    ensures NoActiveCollisions(rows[..k] + rows[k + 1..])
  {
    var rs := rows[..k] + rows[k + 1..];
    forall i, j | 0 <= i < |rs| && 0 <= j < |rs| && i != j &&
      rs[i].propertyId == rs[j].propertyId && IsActive(rs[i].status) && IsActive(rs[j].status)
      ensures !DatesClash(rs[i].checkIn, rs[i].checkOut, rs[j].checkIn, rs[j].checkOut)
    {
      var i' := if i < k then i else i + 1;
      var j' := if j < k then j else j + 1;
      assert rs[i] == rows[i'] && rs[j] == rows[j'];
    }
  }

  // ---------------------------------------------------------------------------
  // The status state machine

  /** `validTransitions`: the statuses each status may change to, in the table's order. */
  function AllowedTransitions(s: Status): (r: seq<Status>)
    ensures s == CheckedOut || s == Cancelled <==> r == []
  {
    match s
    case Reserved => [CheckedIn, Cancelled]
    case CheckedIn => [CheckedOut]
    case CheckedOut => []
    case Cancelled => []
  }

  /** `validTransitions[currentStatus].includes(status)`. */
  predicate CanTransition(from: Status, to: Status) { to in AllowedTransitions(from) }

  /** The transition table, as pairs. */
  lemma TransitionTable(from: Status, to: Status)
    ensures CanTransition(from, to) <==>
      (from == Reserved && (to == CheckedIn || to == Cancelled)) || (from == CheckedIn && to == CheckedOut)
  {
  }

  /** Position of a status along the lifecycle. */
  function Rank(s: Status): nat {
    match s
    case Reserved => 0
    case CheckedIn => 1
    case CheckedOut => 2
    case Cancelled => 2
  }

  /** Every transition moves forward, and a booking never becomes active again. */
  lemma TransitionMovesForward(from: Status, to: Status)
    requires CanTransition(from, to)
    ensures Rank(to) > Rank(from)
    ensures IsActive(to) ==> IsActive(from)
    ensures from != to
  {
  }

  /** A sequence of statuses in which each step is an allowed transition. */
  predicate IsLifecycle(c: seq<Status>) {
    forall i :: 0 <= i < |c| - 1 ==> CanTransition(c[i], c[i + 1])
  }

  lemma {:induction false} LifecycleRank(c: seq<Status>)
    requires |c| >= 1 && IsLifecycle(c)
    ensures Rank(c[|c| - 1]) >= Rank(c[0]) + |c| - 1
    decreases |c|
  {
    if |c| > 1 {
      var p := c[..|c| - 1];
      assert IsLifecycle(p) by {
        forall i | 0 <= i < |p| - 1 ensures CanTransition(p[i], p[i + 1]) { assert p[i] == c[i] && p[i + 1] == c[i + 1]; }
      }
      LifecycleRank(p);
      TransitionMovesForward(c[|c| - 2], c[|c| - 1]);
    }
  }

  /** A booking changes status at most twice through PATCH: Reserved, CheckedIn, CheckedOut. */
  lemma LifecycleIsShort(c: seq<Status>)
    requires |c| >= 1 && IsLifecycle(c)
    ensures |c| <= 3
    ensures |c| == 3 ==> c == [Reserved, CheckedIn, CheckedOut]
  {
    LifecycleRank(c);
    if |c| == 3 {
      assert CanTransition(c[0], c[1]) && CanTransition(c[1], c[2]);
    }
  }

  // ---------------------------------------------------------------------------
  // The stay classification of GET /bookings/:id

  /** `current_status`: 未入住, 已結束, 住宿中, 未知. */
  datatype StayPhase = NotStarted | Ended | Staying | Unknown

  function PhaseName(p: StayPhase): string {
    match p
    case NotStarted => "未入住"
    case Ended => "已結束"
    case Staying => "住宿中"
    case Unknown => "未知"
  }

  /** The `CASE … END` expression, evaluated in order against `CURDATE()` (`today`). */
  function CurrentPhase(checkIn: Day, checkOut: Day, today: Day): StayPhase {
    if checkIn > today then NotStarted
    else if checkOut < today then Ended
    else if checkIn <= today <= checkOut then Staying
    else Unknown
  }

  /** The fallback branch is never taken, even for a row with inverted dates. */
  lemma PhaseNeverUnknown(checkIn: Day, checkOut: Day, today: Day)
    ensures CurrentPhase(checkIn, checkOut, today) != Unknown
    ensures CurrentPhase(checkIn, checkOut, today) == Staying <==> checkIn <= today <= checkOut
  {
  }

  // ---------------------------------------------------------------------------
  // Amounts

  /** `moment(check_out).diff(moment(check_in), 'days')` and `DATEDIFF(check_out, check_in)`. */
  function StayNights(checkIn: Day, checkOut: Day): int { checkOut - checkIn }

  /** `suggested_amount`: the base price times the number of nights. */
  function SuggestedAmount(basePrice: int, checkIn: Day, checkOut: Day): int {
    basePrice * StayNights(checkIn, checkOut)
  }

  /** `total_amount || suggestedAmount`: a zero amount falls back to the suggestion. */
  function AmountUsed(totalAmount: int, suggested: int): int {
    if totalAmount != 0 then totalAmount else suggested
  }

  /** For a valid price and stay the stored amount is the client's positive amount or at least one night's price. */
  lemma AmountUsedPositive(totalAmount: int, basePrice: int, checkIn: Day, checkOut: Day)
    requires totalAmount >= 0 && basePrice >= 500 && checkIn < checkOut
    ensures var a := AmountUsed(totalAmount, SuggestedAmount(basePrice, checkIn, checkOut));
      a > 0 && (totalAmount > 0 ==> a == totalAmount) &&
      (totalAmount == 0 ==> a >= basePrice && a == basePrice * (checkOut - checkIn))
  {
    var n := checkOut - checkIn;
    assert basePrice * n >= basePrice * 1 by {
      assert basePrice * n - basePrice * 1 == basePrice * (n - 1);
      assert basePrice * (n - 1) >= 0;
    }
  }
}
