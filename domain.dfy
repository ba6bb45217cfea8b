/** Records, the booking status enum and the error kinds of the booking controller. */
module Domain {

  datatype Option<+T> = None | Some(value: T)

  /** An operation's outcome: a value, or the error that ended the request. */
  datatype Result<+T> = Ok(value: T) | Err(error: Error)

  /** The outcome of an operation whose success carries no data. */
  datatype Outcome = Done | Failed(error: Error)

  /** The five booking states of the status enum. */
  datatype Status = Pending | Confirmed | InProgress | Completed | Cancelled

  /** The wire name of each status. */
  function StatusName(s: Status): string
  {
    match s
    case Pending => "pending"
    case Confirmed => "confirmed"
    case InProgress => "in_progress"
    case Completed => "completed"
    case Cancelled => "cancelled"
  }

  /** The names a status update accepts, in the order the controller lists them. */
  const ValidStatuses: seq<string> := ["pending", "confirmed", "in_progress", "completed", "cancelled"]

  /** Reads a status name sent by a client; anything outside the enum is refused. */
  function ParseStatus(s: string): (r: Option<Status>)
    ensures r.Some? <==> s in ValidStatuses
    ensures r.Some? ==> StatusName(r.value) == s
  {
    if s == "pending" then Some(Pending)
    else if s == "confirmed" then Some(Confirmed)
    else if s == "in_progress" then Some(InProgress)
    else if s == "completed" then Some(Completed)
    else if s == "cancelled" then Some(Cancelled)
    else None
  }

  /** Every status survives printing and parsing back. */
  lemma {:induction false} ParseStatusName(st: Status)
    ensures StatusName(st) in ValidStatuses
    ensures ParseStatus(StatusName(st)) == Some(st)
  {
    match st
    case Pending =>
    case Confirmed =>
    case InProgress =>
    case Completed =>
    case Cancelled =>
  }

  /** Bookings that still occupy the station: the `status: ['pending', 'confirmed', 'in_progress']` filter. */
  predicate IsActive(s: Status)
  {
    s == Pending || s == Confirmed || s == InProgress
  }

  /** User roles; only `Client` is restricted to its own bookings. */
  datatype Role = Client | Admin | SuperAdmin

  /** A service; only its duration (minutes) and active flag matter to scheduling. */
  datatype Service = Service(estimatedDuration: int, isActive: bool)

  /** A station; only its active flag matters to scheduling. */
  datatype Station = Station(isActive: bool)

  /** The price row joining a station and a service (price in cents). */
  datatype StationServicePrice = StationServicePrice(price: int, isActive: bool)

  /** A booking row: times are minutes, the price is in cents, vehicle details are an opaque blob. */
  datatype Booking = Booking(
    id: int,
    userId: int,
    serviceId: int,
    stationId: int,
    scheduledDate: int,
    vehicleDetails: string,
    totalPrice: int,
    specialInstructions: Option<string>,
    status: Status)

  /** One row of the append-only status audit log. */
  datatype HistoryEntry = HistoryEntry(bookingId: int, status: Status, notes: string, changedBy: int)

  /** The failures the controller reports, one per distinct message. */
  datatype Error =
    | ServiceNotFound           // 'Service not found or inactive'
    | StationNotFound           // 'Station not found or inactive'
    | ServiceNotOffered         // 'Service not available at this station'
    | PastSchedule              // 'Scheduled date must be in the future'
    | StationClosed             // 'Station is closed at this time'
    | SlotUnavailable           // 'Time slot not available'
    | BookingNotFound           // 'Booking not found'
    | NotAuthorized             // 'Not authorized to update this booking'
    | InvalidStatus             // 'Invalid status'
    | AlreadyCancelled          // 'Booking is already cancelled'
    | CompletedNotCancellable   // 'Cannot cancel completed booking'
    | MissingParameters         // 'Station ID, Service ID, and Date are required'
    | StationOrServiceNotFound  // 'Station or Service not found'
    | ServerError               // the catch-all 500 answer

  /** The HTTP status each failure is answered with. */
  function HttpStatus(e: Error): int
  {
    match e
    case ServiceNotFound => 404
    case StationNotFound => 404
    case ServiceNotOffered => 404
    case PastSchedule => 400
    case StationClosed => 400
    case SlotUnavailable => 409
    case BookingNotFound => 404
    case NotAuthorized => 403
    case InvalidStatus => 400
    case AlreadyCancelled => 400
    case CompletedNotCancellable => 400
    case MissingParameters => 400
    case StationOrServiceNotFound => 404
    case ServerError => 500
  }

  /** JavaScript's `notes || fallback`: a missing or empty note gives way to the fallback. */
  function NoteOr(note: Option<string>, fallback: string): string
  {
    if note.Some? && note.value != "" then note.value else fallback
  }

  /**
   * The guard of a cancellation: an already cancelled or a completed booking
   * cannot be cancelled, with its own message for each.
   */
  function CancelGuard(st: Status): (r: Option<Error>)
    ensures r.None? <==> IsActive(st)
    ensures st == Cancelled <==> r == Some(AlreadyCancelled)
    ensures st == Completed <==> r == Some(CompletedNotCancellable)
  {
    if st == Cancelled then Some(AlreadyCancelled)
    else if st == Completed then Some(CompletedNotCancellable)
    else None
  }

  /**
   * The status of the most recent history row of booking `id`: the row a
   * newest-first query with limit 1 returns.
   */
  function LatestStatus(history: seq<HistoryEntry>, id: int): (r: Option<Status>)
    ensures r.None? <==> forall j :: 0 <= j < |history| ==> history[j].bookingId != id
    ensures r.Some? ==> exists j :: 0 <= j < |history| && history[j].bookingId == id &&
                                    history[j].status == r.value &&
                                    forall k :: j < k < |history| ==> history[k].bookingId != id
  {
    if |history| == 0 then None
    else if history[|history| - 1].bookingId == id then Some(history[|history| - 1].status)
    else LatestStatus(history[..|history| - 1], id)
  }

  /** Appending a row makes it the latest one of its booking and leaves the others' alone. */
  lemma {:induction false} LatestStatusAppend(history: seq<HistoryEntry>, e: HistoryEntry, id: int)
    ensures LatestStatus(history + [e], id) ==
      if e.bookingId == id then Some(e.status) else LatestStatus(history, id)
  {
    assert (history + [e])[..|history|] == history;
  }
}
