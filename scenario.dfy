/**
 * Clients of the booking controller: the store's contracts alone decide the
 * outcome of requests against one station offering one 60-minute service.
 */
module Scenario {
  import opened Domain
  import opened Schedule
  import opened Queries
  import opened Admission
  import opened BookingController

  /** A store with station 1 offering service 1 (60 minutes) at 45.00. */
  method NewStore() returns (store: BookingStore)
    ensures fresh(store) && store.Valid()
    ensures store.services == map[1 := Service(60, true)] && store.stations == map[1 := Station(true)]
    ensures store.prices == map[(1, 1) := StationServicePrice(4500, true)]
    ensures store.bookings == [] && store.history == []
  {
    store := new BookingStore(map[1 := Service(60, true)], map[1 := Station(true)],
                              map[(1, 1) := StationServicePrice(4500, true)]);
  }

  /** A store holding one pending booking at 09:00 of day `day`, id 1, of user 7. */
  method StoreWithOneBooking(day: int) returns (store: BookingStore)
    ensures fresh(store) && store.Valid()
    ensures store.services == map[1 := Service(60, true)] && store.stations == map[1 := Station(true)]
    ensures store.prices == map[(1, 1) := StationServicePrice(4500, true)]
    ensures store.bookings == [Booking(1, 7, 1, 1, day * MinutesPerDay + 9 * MinutesPerHour, "car", 4500, None, Pending)]
    ensures store.history == [HistoryEntry(1, Pending, "Booking created", 7)]
  {
    store := NewStore();
    var now := day * MinutesPerDay;
    MinuteOfDay(day, 9 * MinutesPerHour);
    var r := store.CreateBooking(BookingRequest(1, 1, now + 9 * MinutesPerHour, "car", None), 7, now);
  }

  /** A booking at 09:00 blocks a request at 09:30: it lies inside [08:30, 10:30]. */
  method ConflictScenario(day: int)
  {
    var store := StoreWithOneBooking(day);
    var now := day * MinutesPerDay;
    var at930 := day * MinutesPerDay + 9 * MinutesPerHour + 30;
    MinuteOfDay(day, 9 * MinutesPerHour + 30);
    assert ConflictsWith(store.bookings[0], 1, at930, 60);
    var r := store.CreateBooking(BookingRequest(1, 1, at930, "car", None), 8, now);
    assert r == Err(SlotUnavailable) && |store.bookings| == 1;
  }

  /** A booking at 09:00 does not block a request at 11:30, which gets the next id. */
  method ClearScenario(day: int)
  {
    var store := StoreWithOneBooking(day);
    var now := day * MinutesPerDay;
    var at1130 := day * MinutesPerDay + 11 * MinutesPerHour + 30;
    MinuteOfDay(day, 11 * MinutesPerHour + 30);
    var r := store.CreateBooking(BookingRequest(1, 1, at1130, "car", None), 8, now);
    assert r.Ok? && r.value.id == 2 && |store.bookings| == 2;
  }

  /** 07:00 is refused as closed, 10:00 of the day before as past. */
  method GuardScenario(day: int)
  {
    var store := NewStore();
    var now := day * MinutesPerDay;
    MinuteOfDay(day, 7 * MinutesPerHour);
    var r := store.CreateBooking(BookingRequest(1, 1, now + 7 * MinutesPerHour, "car", None), 8, now);
    assert r == Err(StationClosed);
    r := store.CreateBooking(BookingRequest(1, 1, now + 10 * MinutesPerHour - MinutesPerDay, "car", None), 8, now);
    assert r == Err(PastSchedule) && store.bookings == [];
  }

  /** Only the owner finds the booking; it is cancelled once and a second cancellation is refused. */
  method CancelScenario(day: int)
  {
    var store := StoreWithOneBooking(day);
    var c := store.CancelBooking(1, None, 8);
    assert c == Failed(BookingNotFound);
    c := store.CancelBooking(1, None, 7);
    assert c == Done && store.bookings[0].status == Cancelled;
    c := store.CancelBooking(1, Some("again"), 7);
    assert c == Failed(AlreadyCancelled);
  }

  /** A status update refuses an unknown status name and a client touching someone else's booking. */
  method RefusedUpdateScenario(day: int)
  {
    var store := StoreWithOneBooking(day);
    var u := store.UpdateBookingStatus(1, "done", None, 1, Admin);
    assert u == Err(InvalidStatus);
    u := store.UpdateBookingStatus(1, "completed", None, 8, Client);
    assert u == Err(NotAuthorized) && store.bookings[0].status == Pending;
  }

  /** Any transition goes through a status update, even out of `completed`. */
  method ReopenScenario(day: int)
  {
    var store := StoreWithOneBooking(day);
    var u := store.UpdateBookingStatus(1, "completed", None, 1, Admin);
    assert u.Ok? && store.bookings[0].status == Completed;
    u := store.UpdateBookingStatus(1, "pending", Some("reopened"), 1, Admin);
    assert u.Ok? && store.bookings[0].status == Pending;
    assert store.history[|store.history| - 1] == HistoryEntry(1, Pending, "reopened", 1);
  }
}
