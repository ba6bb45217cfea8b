/**
 * The decision part of booking creation: the six checks run before anything
 * is written, in a fixed order, the first failure deciding the answer.
 */
module Admission {
  import opened Domain
  import opened Schedule
  import opened Queries

  /** What a client sends to create a booking (already past the route's field validation). */
  datatype BookingRequest = BookingRequest(
    serviceId: int,
    stationId: int,
    scheduledDate: int,
    vehicleDetails: string,
    specialInstructions: Option<string>)

  predicate ServiceOk(services: map<int, Service>, serviceId: int)
  {
    serviceId in services && services[serviceId].isActive
  }

  predicate StationOk(stations: map<int, Station>, stationId: int)
  {
    stationId in stations && stations[stationId].isActive
  }

  /** An active price row for the pair exists; the unique index allows at most one row per pair. */
  predicate PriceOk(prices: map<(int, int), StationServicePrice>, stationId: int, serviceId: int)
  {
    (stationId, serviceId) in prices && prices[(stationId, serviceId)].isActive
  }

  /** Some active booking at the station lies in the symmetric window of the candidate. */
  predicate HasConflict(bookings: seq<Booking>, stationId: int, t: int, d: int)
  {
    exists i :: 0 <= i < |bookings| && ConflictsWith(bookings[i], stationId, t, d)
  }

  /** The duration of a service, or 0 for one that does not exist. */
  function DurationOf(services: map<int, Service>, serviceId: int): int
  {
    if serviceId in services then services[serviceId].estimatedDuration else 0
  }

  /**
   * The checks of booking creation, in the order the controller runs them;
   * on success the answer is the price to charge.
   */
  function Admit(
    services: map<int, Service>,
    stations: map<int, Station>,
    prices: map<(int, int), StationServicePrice>,
    bookings: seq<Booking>,
    req: BookingRequest,
    now: int): (r: Result<int>)
    ensures r.Ok? <==>
      ServiceOk(services, req.serviceId) && StationOk(stations, req.stationId) &&
      PriceOk(prices, req.stationId, req.serviceId) &&
      !IsPast(req.scheduledDate, now) && !IsClosedHour(req.scheduledDate) &&
      !HasConflict(bookings, req.stationId, req.scheduledDate, services[req.serviceId].estimatedDuration)
    ensures r.Ok? ==> r.value == prices[(req.stationId, req.serviceId)].price
  {
    if !ServiceOk(services, req.serviceId) then Err(ServiceNotFound)
    else if !StationOk(stations, req.stationId) then Err(StationNotFound)
    else if !PriceOk(prices, req.stationId, req.serviceId) then Err(ServiceNotOffered)
    else if IsPast(req.scheduledDate, now) then Err(PastSchedule)
    else if IsClosedHour(req.scheduledDate) then Err(StationClosed)
    else if FindConflict(bookings, req.stationId, req.scheduledDate,
                         services[req.serviceId].estimatedDuration).Some? then Err(SlotUnavailable)
    else Ok(prices[(req.stationId, req.serviceId)].price)
  }

  // ---------------------------------------------------------------------
  // An independent statement of the order: a list of checks and its first failure
  // ---------------------------------------------------------------------

  /** One check: whether it passes and the error it reports when it does not. */
  datatype Check = Check(passes: bool, failure: Error)

  /** The error of the first check that fails, if any fails. */
  function FirstFailure(checks: seq<Check>): (r: Option<Error>)
    ensures r.None? <==> forall i :: 0 <= i < |checks| ==> checks[i].passes
    ensures r.Some? ==> exists i :: 0 <= i < |checks| && !checks[i].passes &&
                                    checks[i].failure == r.value &&
                                    forall j :: 0 <= j < i ==> checks[j].passes
  {
    if |checks| == 0 then None
    else if !checks[0].passes then Some(checks[0].failure)
    else
      var r := FirstFailure(checks[1..]);
      if r.Some? then
        ghost var i :| 0 <= i < |checks[1..]| && !checks[1..][i].passes &&
                       checks[1..][i].failure == r.value &&
                       forall j :: 0 <= j < i ==> checks[1..][j].passes;
        assert !checks[i + 1].passes && forall j :: 0 <= j < i + 1 ==> checks[j].passes;
        r
      else r
  }

  /** The first failing check decides: the checks after it are never consulted. */
  lemma {:induction false} FirstFailureAt(checks: seq<Check>, k: int)
    requires 0 <= k < |checks| && !checks[k].passes
    requires forall j :: 0 <= j < k ==> checks[j].passes
    ensures FirstFailure(checks) == Some(checks[k].failure)
  {
    var r := FirstFailure(checks);
    assert r.Some?;
    var i :| 0 <= i < |checks| && !checks[i].passes && checks[i].failure == r.value &&
             forall j :: 0 <= j < i ==> checks[j].passes;
    assert i == k;
  }

  /** The six checks of booking creation, each stated on its own. */
  function AdmissionChecks(
    services: map<int, Service>,
    stations: map<int, Station>,
    prices: map<(int, int), StationServicePrice>,
    bookings: seq<Booking>,
    req: BookingRequest,
    now: int): seq<Check>
  {
    [ Check(ServiceOk(services, req.serviceId), ServiceNotFound),
      Check(StationOk(stations, req.stationId), StationNotFound),
      Check(PriceOk(prices, req.stationId, req.serviceId), ServiceNotOffered),
      Check(!IsPast(req.scheduledDate, now), PastSchedule),
      Check(!IsClosedHour(req.scheduledDate), StationClosed),
      Check(!HasConflict(bookings, req.stationId, req.scheduledDate, DurationOf(services, req.serviceId)),
            SlotUnavailable) ]
  }

  /** Booking creation fails with the error of the first failing check, and succeeds when none fails. */
  lemma {:induction false} AdmitFollowsCheckOrder(
    services: map<int, Service>,
    stations: map<int, Station>,
    prices: map<(int, int), StationServicePrice>,
    bookings: seq<Booking>,
    req: BookingRequest,
    now: int)
    ensures var f := FirstFailure(AdmissionChecks(services, stations, prices, bookings, req, now));
            var r := Admit(services, stations, prices, bookings, req, now);
            (r.Ok? <==> f.None?) && (f.Some? ==> r == Err(f.value))
  {
    var cs := AdmissionChecks(services, stations, prices, bookings, req, now);
    var k := if !cs[0].passes then 0 else if !cs[1].passes then 1 else if !cs[2].passes then 2
             else if !cs[3].passes then 3 else if !cs[4].passes then 4 else if !cs[5].passes then 5 else 6;
    if k < 6 {
      FirstFailureAt(cs, k);
    }
  }

  /** The answers of booking creation: 404 for the three lookups, 400 for the two time guards, 409 for a conflict. */
  lemma AdmissionStatusCodes(
    services: map<int, Service>,
    stations: map<int, Station>,
    prices: map<(int, int), StationServicePrice>,
    bookings: seq<Booking>,
    req: BookingRequest,
    now: int)
    ensures var r := Admit(services, stations, prices, bookings, req, now);
            r.Err? ==>
              (HttpStatus(r.error) == 404 <==> r.error in {ServiceNotFound, StationNotFound, ServiceNotOffered}) &&
              (HttpStatus(r.error) == 400 <==> r.error in {PastSchedule, StationClosed}) &&
              (HttpStatus(r.error) == 409 <==> r.error == SlotUnavailable)
  {
  }

  /**
   * An admitted booking keeps its distance: every active booking at the
   * station is more than the candidate's duration away from it.
   */
  lemma {:induction false} AdmittedIsSeparated(
    services: map<int, Service>,
    stations: map<int, Station>,
    prices: map<(int, int), StationServicePrice>,
    bookings: seq<Booking>,
    req: BookingRequest,
    now: int)
    requires Admit(services, stations, prices, bookings, req, now).Ok?
    ensures forall b :: b in bookings && b.stationId == req.stationId && IsActive(b.status) ==>
      b.scheduledDate < req.scheduledDate - services[req.serviceId].estimatedDuration ||
      b.scheduledDate > req.scheduledDate + services[req.serviceId].estimatedDuration
  {
    var d := services[req.serviceId].estimatedDuration;
    forall b | b in bookings && b.stationId == req.stationId && IsActive(b.status)
      ensures !InWindow(b.scheduledDate, req.scheduledDate, d)
    {
      var i :| 0 <= i < |bookings| && bookings[i] == b;
      assert !ConflictsWith(bookings[i], req.stationId, req.scheduledDate, d);
    }
  }

  /** A booking at exactly `now` passes the past check: the comparison is strict. */
  lemma NowIsNotPast(t: int)
    ensures !IsPast(t, t) && IsPast(t - 1, t)
  {
  }
}
