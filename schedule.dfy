/**
 * Time arithmetic of the booking controller. An instant is an integer number
 * of minutes counted from a local midnight, so day `d` begins at
 * `d * MinutesPerDay`; guards on bookings and the interval tests of the slot
 * grid are predicates over such instants.
 */
module Schedule {

  const MinutesPerHour: int := 60
  const MinutesPerDay: int := 24 * MinutesPerHour

  /** Opening and closing hour of every station: a fixed global policy, 8:00 - 18:00. */
  const OpenHour: int := 8
  const CloseHour: int := 18

  /** The width of a slot in the availability grid, in minutes. */
  const SlotStep: int := 30

  /** The day an instant falls on. */
  function DayOf(t: int): int
  {
    t / MinutesPerDay
  }

  /** The local hour-of-day of an instant (what `getHours()` reads). */
  function HourOf(t: int): (h: int)
    ensures 0 <= h < 24
    ensures DayOf(t) * MinutesPerDay + h * MinutesPerHour <= t
    ensures t < DayOf(t) * MinutesPerDay + (h + 1) * MinutesPerHour
  {
    (t % MinutesPerDay) / MinutesPerHour
  }

  /** The instant at which the station opens on day `day`. */
  function OpeningTime(day: int): (t: int)
    ensures DayOf(t) == day && HourOf(t) == OpenHour && t % MinutesPerHour == 0
  {
    day * MinutesPerDay + OpenHour * MinutesPerHour
  }

  /** The instant at which the station closes on day `day`. */
  function ClosingTime(day: int): (t: int)
    ensures DayOf(t) == day && HourOf(t) == CloseHour && t % MinutesPerHour == 0
    ensures t - OpeningTime(day) == (CloseHour - OpenHour) * MinutesPerHour
  {
    day * MinutesPerDay + CloseHour * MinutesPerHour
  }

  // ---------------------------------------------------------------------
  // Guards of the booking admission
  // ---------------------------------------------------------------------

  /** The past check: only an instant strictly before `now` is refused. */
  predicate IsPast(t: int, now: int)
  {
    t < now
  }

  /** The opening-hours check, which compares the hour field alone. */
  predicate IsClosedHour(t: int)
  {
    HourOf(t) < OpenHour || HourOf(t) > CloseHour
  }

  /**
   * Because minutes are ignored, the accepted instants of a day are exactly
   * those from 08:00 up to but excluding 19:00 - a whole hour past closing time.
   */
  lemma {:induction false} AcceptedHoursExactly(t: int)
    ensures !IsClosedHour(t) <==>
      OpenHour * MinutesPerHour <= t % MinutesPerDay < (CloseHour + 1) * MinutesPerHour
  {
  }

  /** The instant `m` minutes into day `day` has minute-of-day `m`. */
  lemma {:induction false} MinuteOfDay(day: int, m: int)
    requires 0 <= m < MinutesPerDay
    ensures DayOf(day * MinutesPerDay + m) == day
    ensures (day * MinutesPerDay + m) % MinutesPerDay == m
  {
  }

  /** 18:45 is after closing time and still passes the opening-hours check; 07:59 and 19:00 do not. */
  lemma {:induction false} HourCheckBoundaries(day: int)
    ensures !IsClosedHour(day * MinutesPerDay + 18 * MinutesPerHour + 45)
    ensures !IsClosedHour(day * MinutesPerDay + 18 * MinutesPerHour + 59)
    ensures IsClosedHour(day * MinutesPerDay + 7 * MinutesPerHour + 59)
    ensures IsClosedHour(day * MinutesPerDay + 19 * MinutesPerHour)
  {
    MinuteOfDay(day, 18 * MinutesPerHour + 45);
    MinuteOfDay(day, 18 * MinutesPerHour + 59);
    MinuteOfDay(day, 7 * MinutesPerHour + 59);
    MinuteOfDay(day, 19 * MinutesPerHour);
  }

  /**
   * The symmetric window of the creation-time overlap check: an existing
   * booking at `s` is in the way of a candidate at `t` with duration `d` when
   * `s` lies in the closed interval [t - d, t + d].
   */
  predicate InWindow(s: int, t: int, d: int)
  {
    t - d <= s <= t + d
  }

  /** The window is a distance test, symmetric in the two instants. */
  lemma WindowIsDistance(s: int, t: int, d: int)
    ensures InWindow(s, t, d) <==> (if s <= t then t - s else s - t) <= d
    ensures InWindow(s, t, d) <==> InWindow(t, s, d)
  {
  }

  // ---------------------------------------------------------------------
  // Interval tests of the slot grid
  // ---------------------------------------------------------------------

  /**
   * The availability test of the slot grid for a slot [s, e) and a booking
   * [b, f): the slot starts inside the booking, or ends inside it, or covers it.
   */
  predicate ThreeWayOverlap(s: int, e: int, b: int, f: int)
  {
    (s >= b && s < f) || (e > b && e <= f) || (s <= b && e >= f)
  }

  /** Intersection of the half-open intervals [s, e) and [b, f). */
  predicate Intersects(s: int, e: int, b: int, f: int)
  {
    s < f && b < e
  }

  /** For non-empty intervals the three-way test is exactly half-open intersection. */
  lemma ThreeWayIsIntersection(s: int, e: int, b: int, f: int)
    requires s < e && b < f
    ensures ThreeWayOverlap(s, e, b, f) <==> Intersects(s, e, b, f)
  {
  }

  /** For zero-length intervals the three-way test still fires when the two starts coincide. */
  lemma ThreeWayZeroLength(s: int, b: int)
    ensures ThreeWayOverlap(s, s, b, b) <==> s == b
    ensures !Intersects(s, s, b, b)
  {
  }

  /**
   * With one duration `d > 0` on both sides the window is exact except at its
   * two ends: bookings that intersect are always inside it, and the only
   * instants inside it that do not intersect are those exactly `d` away
   * (back-to-back bookings, which the window refuses).
   */
  lemma WindowForEqualDurations(s: int, t: int, d: int)
    requires d > 0
    ensures Intersects(s, s + d, t, t + d) ==> InWindow(s, t, d)
    ensures InWindow(s, t, d) && !Intersects(s, s + d, t, t + d) ==> s == t - d || s == t + d
  {
  }

  /**
   * The window uses the candidate's duration only, so a longer existing
   * booking that started earlier is missed: a 120-minute booking at t - 90
   * runs until t + 30 and intersects a 60-minute candidate at t, yet lies
   * outside [t - 60, t + 60].
   */
  lemma WindowMissesLongerBooking(t: int)
    ensures !InWindow(t - 90, t, 60)
    ensures Intersects(t - 90, t - 90 + 120, t, t + 60)
  {
  }
}
