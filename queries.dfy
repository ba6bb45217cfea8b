/**
 * The two booking queries of the controller, written as filters over the
 * in-memory sequence of booking rows.
 */
module Queries {
  import opened Domain
  import opened Schedule

  /**
   * A row the creation-time query matches: same station, an active status,
   * and a scheduled instant inside the symmetric window around `t`. The
   * row's own service plays no part.
   */
  predicate ConflictsWith(b: Booking, stationId: int, t: int, d: int)
  {
    b.stationId == stationId && IsActive(b.status) && InWindow(b.scheduledDate, t, d)
  }

  /** The `findOne` of the creation-time overlap check: some matching row, if any. */
  function FindConflict(bookings: seq<Booking>, stationId: int, t: int, d: int): (r: Option<Booking>)
    ensures r.Some? ==> r.value in bookings && ConflictsWith(r.value, stationId, t, d)
    ensures r.None? <==> forall b :: b in bookings ==> !ConflictsWith(b, stationId, t, d)
  {
    if |bookings| == 0 then None
    else if ConflictsWith(bookings[0], stationId, t, d) then Some(bookings[0])
    else FindConflict(bookings[1..], stationId, t, d)
  }

  /**
   * A row the slot-grid query matches: same station AND same service, an
   * active status, and a scheduled instant in the closed range [lo, hi].
   */
  predicate FetchedFor(b: Booking, stationId: int, serviceId: int, lo: int, hi: int)
  {
    b.stationId == stationId && b.serviceId == serviceId && IsActive(b.status) &&
    lo <= b.scheduledDate <= hi
  }

  /** The `findAll` of the slot grid: the matching rows, in store order. */
  function FetchDayBookings(bookings: seq<Booking>, stationId: int, serviceId: int, lo: int, hi: int)
    : (r: seq<Booking>)
    ensures |r| <= |bookings|
    ensures forall b :: b in r <==> b in bookings && FetchedFor(b, stationId, serviceId, lo, hi)
  {
    if |bookings| == 0 then []
    else
      var rest := FetchDayBookings(bookings[1..], stationId, serviceId, lo, hi);
      if FetchedFor(bookings[0], stationId, serviceId, lo, hi) then [bookings[0]] + rest else rest
  }

  /**
   * The two queries have different scopes: an active booking of another
   * service at the same station is found by the creation-time query for any
   * candidate whose window contains it, but is never fetched for the slot
   * grid of that service, whatever the range.
   */
  lemma {:induction false} ScopesDiffer(bookings: seq<Booking>, b: Booking, serviceId: int,
                                        t: int, d: int, lo: int, hi: int)
    requires b in bookings && IsActive(b.status) && b.serviceId != serviceId
    requires InWindow(b.scheduledDate, t, d)
    ensures FindConflict(bookings, b.stationId, t, d).Some?
    ensures b !in FetchDayBookings(bookings, b.stationId, serviceId, lo, hi)
  {
    assert ConflictsWith(b, b.stationId, t, d);
  }

  /**
   * The hours check admits 18:30, but the slot grid only fetches bookings
   * scheduled up to 18:00: a booking admitted at 18:30 is never fetched,
   * although for a 90-minute service it overlaps the 17:30 slot.
   */
  lemma {:induction false} LateBookingMissedByGrid(bookings: seq<Booking>, b: Booking, day: int)
    requires b.scheduledDate == day * MinutesPerDay + 18 * MinutesPerHour + 30
    ensures !IsClosedHour(b.scheduledDate)
    ensures b !in FetchDayBookings(bookings, b.stationId, b.serviceId, OpeningTime(day), ClosingTime(day))
    ensures ThreeWayOverlap(OpeningTime(day) + 19 * SlotStep, OpeningTime(day) + 19 * SlotStep + 90,
                            b.scheduledDate, b.scheduledDate + 90)
  {
    MinuteOfDay(day, 18 * MinutesPerHour + 30);
  }
}
