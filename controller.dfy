/**
 * The booking controller over an in-memory store: the catalog it reads
 * (services, stations, station-service prices), the booking rows it inserts
 * and updates, and the status history it appends to.
 */
module BookingController {
  import opened Domain
  import opened Schedule
  import opened Queries
  import opened Admission
  import opened Slots

  /** The `date` query parameter of the slot listing. */
  datatype DateParam = Missing | Unparseable | Day(day: int)

  class BookingStore {
    var services: map<int, Service>
    var stations: map<int, Station>
    var prices: map<(int, int), StationServicePrice>
    var bookings: seq<Booking>
    var history: seq<HistoryEntry>

    /**
     * Booking ids are assigned in insertion order from 1, every history row
     * belongs to an existing booking, and each booking's status is the status
     * recorded by its latest history row.
     */
    ghost predicate Valid()
      reads this
    {
      && (forall i :: 0 <= i < |bookings| ==> bookings[i].id == i + 1)
      && (forall j :: 0 <= j < |history| ==> 1 <= history[j].bookingId <= |bookings|)
      && (forall i :: 0 <= i < |bookings| ==> LatestStatus(history, i + 1) == Some(bookings[i].status))
    }

    /** The booking with primary key `id`, when there is one. */
    predicate HasBooking(id: int)
      reads this
    {
      1 <= id <= |bookings|
    }

    constructor (services: map<int, Service>, stations: map<int, Station>,
                 prices: map<(int, int), StationServicePrice>)
      ensures Valid()
      ensures this.services == services && this.stations == stations && this.prices == prices
      ensures bookings == [] && history == []
    {
      this.services := services;
      this.stations := stations;
      this.prices := prices;
      bookings := [];
      history := [];
    }

    /**
     * Booking creation. When the checks pass, one `pending` booking priced
     * from the station-service row is inserted and one `pending` history row
     * is appended; on any failure nothing is written.
     */
    method CreateBooking(req: BookingRequest, userId: int, now: int) returns (r: Result<Booking>)
      requires Valid()
      modifies this`bookings, this`history
      ensures Valid()
      ensures var a := Admit(services, stations, prices, old(bookings), req, now);
        && (a.Err? ==> r == Err(a.error) && bookings == old(bookings) && history == old(history))
        && (a.Ok? ==>
              && r == Ok(Booking(|old(bookings)| + 1, userId, req.serviceId, req.stationId, req.scheduledDate,
                                 req.vehicleDetails, a.value, req.specialInstructions, Pending))
              && bookings == old(bookings) + [r.value]
              && history == old(history) + [HistoryEntry(r.value.id, Pending, "Booking created", userId)])
    {
      var a := Admit(services, stations, prices, bookings, req, now);
      if a.Err? {
        return Err(a.error);
      }
      var booking := Booking(|bookings| + 1, userId, req.serviceId, req.stationId, req.scheduledDate,
                             req.vehicleDetails, a.value, req.specialInstructions, Pending);
      var entry := HistoryEntry(booking.id, Pending, "Booking created", userId);
      forall id | true
        ensures LatestStatus(history + [entry], id) ==
                if id == booking.id then Some(Pending) else LatestStatus(history, id)
      {
        LatestStatusAppend(history, entry, id);
      }
      bookings := bookings + [booking];
      history := history + [entry];
      r := Ok(booking);
    }

    /**
     * A status update: the booking must exist, a client may only touch its
     * own bookings, and the new status must be one of the five. Any status
     * may follow any other; one history row records the change.
     */
    method UpdateBookingStatus(id: int, status: string, notes: Option<string>, userId: int, role: Role)
      returns (r: Result<Booking>)
      requires Valid()
      modifies this`bookings, this`history
      ensures Valid()
      ensures !old(HasBooking(id)) ==>
        r == Err(BookingNotFound) && bookings == old(bookings) && history == old(history)
      ensures old(HasBooking(id)) && role == Client && old(bookings)[id - 1].userId != userId ==>
        r == Err(NotAuthorized) && bookings == old(bookings) && history == old(history)
      ensures old(HasBooking(id)) && !(role == Client && old(bookings)[id - 1].userId != userId) ==>
        && (ParseStatus(status).None? ==>
              r == Err(InvalidStatus) && bookings == old(bookings) && history == old(history))
        && (ParseStatus(status).Some? ==>
              && r == Ok(old(bookings)[id - 1].(status := ParseStatus(status).value))
              && bookings == old(bookings)[id - 1 := r.value]
              && history == old(history) +
                   [HistoryEntry(id, r.value.status, NoteOr(notes, "Status changed to " + status), userId)])
    {
      if !HasBooking(id) {
        return Err(BookingNotFound);
      }
      var booking := bookings[id - 1];
      if role == Client && booking.userId != userId {
        return Err(NotAuthorized);
      }
      var parsed := ParseStatus(status);
      if parsed.None? {
        return Err(InvalidStatus);
      }
      var updated := booking.(status := parsed.value);
      var entry := HistoryEntry(id, parsed.value, NoteOr(notes, "Status changed to " + status), userId);
      SetStatus(id, updated, entry);
      r := Ok(updated);
    }

    /**
     * A cancellation: only the owner's booking is found, and a cancelled or
     * completed booking cannot be cancelled. Otherwise the status becomes
     * `cancelled` and one `cancelled` history row is appended.
     */
    method CancelBooking(id: int, reason: Option<string>, userId: int) returns (r: Outcome)
      requires Valid()
      modifies this`bookings, this`history
      ensures Valid()
      ensures !(old(HasBooking(id)) && old(bookings)[id - 1].userId == userId) ==>
        r == Failed(BookingNotFound) && bookings == old(bookings) && history == old(history)
      ensures old(HasBooking(id)) && old(bookings)[id - 1].userId == userId ==>
        && (CancelGuard(old(bookings)[id - 1].status).Some? ==>
              && r == Failed(CancelGuard(old(bookings)[id - 1].status).value)
              && bookings == old(bookings) && history == old(history))
        && (CancelGuard(old(bookings)[id - 1].status).None? ==>
              && r == Done
              && bookings == old(bookings)[id - 1 := old(bookings)[id - 1].(status := Cancelled)]
              && history == old(history) +
                   [HistoryEntry(id, Cancelled, NoteOr(reason, "Booking cancelled by user"), userId)])
    {
      if !(HasBooking(id) && bookings[id - 1].userId == userId) {
        return Failed(BookingNotFound);
      }
      var booking := bookings[id - 1];
      var guard := CancelGuard(booking.status);
      if guard.Some? {
        return Failed(guard.value);
      }
      var entry := HistoryEntry(id, Cancelled, NoteOr(reason, "Booking cancelled by user"), userId);
      SetStatus(id, booking.(status := Cancelled), entry);
      r := Done;
    }

    /** Writes one booking's new status together with the history row recording it. */
    method SetStatus(id: int, updated: Booking, entry: HistoryEntry)
      requires Valid() && HasBooking(id)
      requires updated == bookings[id - 1].(status := entry.status) && entry.bookingId == id
      modifies this`bookings, this`history
      ensures Valid()
      ensures bookings == old(bookings)[id - 1 := updated]
      ensures history == old(history) + [entry]
    {
      forall bid | 1 <= bid <= |bookings|
        ensures LatestStatus(history + [entry], bid) ==
                if bid == id then Some(entry.status) else LatestStatus(history, bid)
      {
        LatestStatusAppend(history, entry, bid);
      }
      bookings := bookings[id - 1 := updated];
      history := history + [entry];
    }

    /**
     * The slot listing. All three parameters are required; station and
     * service need only exist (their active flags are not consulted). The
     * grid is computed from one query: active bookings of this station AND
     * service scheduled between 08:00 and 18:00 inclusive.
     */
    method AvailableTimeSlots(stationId: Option<int>, serviceId: Option<int>, date: DateParam, now: int)
      returns (r: Result<seq<Slot>>)
      ensures stationId.None? || serviceId.None? || date.Missing? ==> r == Err(MissingParameters)
      ensures stationId.Some? && serviceId.Some? && !date.Missing? ==>
        && (stationId.value !in stations || serviceId.value !in services ==> r == Err(StationOrServiceNotFound))
        && (stationId.value in stations && serviceId.value in services ==>
              && (date.Unparseable? ==> r == Err(ServerError))
              && (date.Day? ==>
                    r.Ok? &&
                    IsGrid(r.value, date.day, services[serviceId.value].estimatedDuration,
                           FetchDayBookings(bookings, stationId.value, serviceId.value,
                                            OpeningTime(date.day), ClosingTime(date.day)),
                           now)))
    {
      if stationId.None? || serviceId.None? || date.Missing? {
        return Err(MissingParameters);
      }
      if stationId.value !in stations || serviceId.value !in services {
        return Err(StationOrServiceNotFound);
      }
      if date.Unparseable? {
        return Err(ServerError);
      }
      var service := services[serviceId.value];
      var existing := FetchDayBookings(bookings, stationId.value, serviceId.value,
                                       OpeningTime(date.day), ClosingTime(date.day));
      var slots := GenerateSlots(date.day, service.estimatedDuration, existing, now);
      r := Ok(slots);
    }
  }
}
