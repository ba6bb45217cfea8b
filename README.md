# Booking scheduling rules of a car-service station backend

This project models the decision logic of the booking controller of a
car-service booking platform:

- **Booking creation.** Six checks run in a fixed order: the service exists
  and is active, the station exists and is active, an active
  station-service price exists, the time is not in the past, the hour is
  inside 8-18, and no active booking at the station lies in the symmetric
  window of ±duration around the requested time. The first check that fails
  decides the answer (404, 404, 404, 400, 400, 409). If all pass, one
  `pending` booking is inserted at the station-service price, together with
  one `pending` history row.
- **The availability grid.** A loop steps from 08:00 to 18:00 in 30-minute
  steps. Each slot is marked available when no fetched booking meets it
  under the three-way overlap test and it starts after `now`. The fetched
  bookings are the active ones of the same station and service, scheduled
  in the closed range [08:00, 18:00].
- **Status changes.** A status update checks that the booking exists, that a
  client only touches its own bookings, and that the status is one of the
  five names. A cancellation finds only the owner's booking and refuses
  cancelled and completed bookings. Each change rewrites the booking's
  status and appends exactly one history row.

Time is an integer number of minutes counted from a local midnight. Day `d`
starts at `d * 1440`, and the hour of an instant is `(t % 1440) / 60`.

The store is a class, `BookingController.BookingStore`. It holds the catalog
(services, stations, prices keyed by station and service) and the sequences
of booking rows and history rows. Its invariant `Valid()` has three parts:
- booking ids follow insertion order from 1;
- every history row names an existing booking;
- each booking's status is the status of its latest history row.

Every mutating method keeps this invariant. The clock (`now`), the
requesting user and the user's role are parameters.

Modules:
- `Domain` (domain.dfy): records, the status enum, errors and status-code
  table, the cancel guard, the latest-history function.
- `Schedule` (schedule.dfy): time arithmetic, the hour and past guards, the
  symmetric window, the three-way overlap test.
- `Queries` (queries.dfy): the two booking queries, as filters over the
  sequence of rows.
- `Admission` (admission.dfy): the check chain of booking creation.
- `Slots` (slots.dfy): the grid loop.
- `BookingController` (controller.dfy): the store class and its four
  operations.
- `Scenario` (scenario.dfy): client methods. They derive the outcome of
  concrete request sequences from the contracts alone.

The model keeps the code's quirks as they are, even where the messages and
comments suggest a different intent:
- The past check is strict: a booking at exactly `now` is accepted, although
  the message asks for a date "in the future".
- The hours check compares the hour field only, so it accepts anything from
  08:00 up to but excluding 19:00, although the message gives 6:00 PM as
  closing time.
- The status update allows every transition, including out of `completed`
  and `cancelled`; its "validate status transition" step only checks the
  name. Only cancellation refuses those two states.
- The slot listing checks only that the station and service exist, not that
  they are active.
- Creation checks conflicts against every service at the station. The grid
  only considers the requested service.
- The hours check admits bookings up to 18:59, but the grid fetches only
  bookings scheduled up to 18:00. A booking at 18:30 is therefore never seen
  by the grid, although for a 90-minute service it overlaps the 17:30 slot.

## Model

| member | source | states |
|---|---|---|
| `Domain.ParseStatus` | backend/controllers/bookingController.js:252-259 | a status name is accepted exactly when it is one of the five enum names, and the accepted status prints back to the same name |
| `Domain.ParseStatusName` | backend/models/Booking.js:45 | every enum value's name is a valid status name and parses back to that value |
| `Domain.CancelGuard` | backend/controllers/bookingController.js:309-322 | cancellation is refused exactly for cancelled bookings (already cancelled) and completed bookings (cannot cancel); it is allowed exactly for the active statuses |
| `Domain.LatestStatus` | backend/controllers/bookingController.js:151-156 | the latest history row of a booking: none exactly when the booking has no row, otherwise the status of a row for it after which no row for it follows |
| `Domain.LatestStatusAppend` | backend/controllers/bookingController.js:264-270 | an appended history row becomes the latest row of its booking and leaves every other booking's latest row unchanged |
| `Schedule.HourOf` | backend/controllers/bookingController.js:54-56 | the hour of an instant is in 0..23 and identifies the hour-long stretch of its day that contains the instant |
| `Schedule.OpeningTime` | backend/controllers/bookingController.js:374 | the grid starts on the requested day at 08:00 sharp |
| `Schedule.ClosingTime` | backend/controllers/bookingController.js:375 | the grid ends on the requested day at 18:00 sharp, 600 minutes after the opening |
| `Schedule.AcceptedHoursExactly` | backend/controllers/bookingController.js:55-64 | the hours check accepts an instant exactly when its minute of the day lies in [08:00, 19:00), because minutes are ignored |
| `Schedule.HourCheckBoundaries` | backend/controllers/bookingController.js:59-64 | 18:45 and 18:59 pass the hours check after closing time; 07:59 and 19:00 fail it |
| `Schedule.WindowIsDistance` | backend/controllers/bookingController.js:67-78 | the closed window [t - d, t + d] contains an instant exactly when it is at most d away from t, and is symmetric in the two instants |
| `Schedule.ThreeWayIsIntersection` | backend/controllers/bookingController.js:402-406 | for non-empty intervals the three-way test is equivalent to half-open intersection |
| `Schedule.ThreeWayZeroLength` | backend/controllers/bookingController.js:402-406 | for zero-length intervals the three-way test still fires when the starts coincide, although half-open intervals never intersect |
| `Schedule.WindowForEqualDurations` | backend/controllers/bookingController.js:67-78 | with one positive duration on both sides, every intersecting booking is in the window, and the only non-intersecting instants in it are exactly one duration away |
| `Schedule.WindowMissesLongerBooking` | backend/controllers/bookingController.js:70-75 | the window uses the candidate's duration only: a 120-minute booking 90 minutes earlier intersects a 60-minute candidate yet lies outside the window |
| `Queries.FindConflict` | backend/controllers/bookingController.js:67-78 | the creation-time query returns a row of the store that is at the station, active and inside the window, and returns nothing exactly when no row is |
| `Queries.FetchDayBookings` | backend/controllers/bookingController.js:378-387 | the grid query returns exactly the rows of the same station and service, with an active status and a scheduled time in the closed range [lo, hi] |
| `Queries.ScopesDiffer` | backend/controllers/bookingController.js:378-387 | in any store, an active booking of another service at the station is found by the creation-time query for every candidate window that contains it, and is never fetched for the grid of that service, whatever the range |
| `Queries.LateBookingMissedByGrid` | backend/controllers/bookingController.js:374-387 | a booking at 18:30 passes the hours check, is never fetched for its day's grid (which stops at 18:00), and for a 90-minute service overlaps the 17:30 slot |
| `Admission.Admit` | backend/controllers/bookingController.js:13-85 | creation is admitted exactly when all six checks pass, and then at the price of the station-service row |
| `Admission.FirstFailure` | backend/controllers/bookingController.js:13-85 | a chain of checks reports nothing exactly when every check passes, and otherwise the error of a failing check before which every check passes |
| `Admission.FirstFailureAt` | backend/controllers/bookingController.js:13-85 | in a chain of checks the error reported is that of the first failing check, whatever the later checks say |
| `Admission.AdmitFollowsCheckOrder` | backend/controllers/bookingController.js:13-85 | creation fails exactly when one of the six checks, listed in source order, fails, and then with the error of the first one that fails |
| `Admission.AdmissionStatusCodes` | backend/controllers/bookingController.js:14-84 | a refused creation is answered 404 exactly for the three lookup failures, 400 exactly for the past and closed checks, 409 exactly for a conflict |
| `Admission.AdmittedIsSeparated` | backend/controllers/bookingController.js:66-85 | after an admission every active booking at the station is more than the candidate's duration away from the new time, whatever its service |
| `Admission.NowIsNotPast` | backend/controllers/bookingController.js:43-51 | an instant equal to `now` passes the past check; one minute earlier fails it |
| `Slots.BlockedIsIntersection` | backend/controllers/bookingController.js:398-407 | for a positive duration a slot is blocked exactly when it intersects the half-open interval of some fetched booking |
| `Slots.GenerateSlots` | backend/controllers/bookingController.js:389-420 | the loop yields 20 slots; the k-th starts 30k minutes after 08:00 and before 18:00 and ends one service duration later; it is available exactly when unblocked and strictly after `now` |
| `Slots.GridIsDetermined` | backend/controllers/bookingController.js:389-420 | two grids computed from the same bookings, duration, day and `now` are identical |
| `Slots.SlotStartsAscend` | backend/controllers/bookingController.js:394-419 | consecutive slot starts are exactly 30 minutes apart and strictly ascending |
| `Slots.GridCoversDay` | backend/controllers/bookingController.js:374-420 | the grid has 20 slots, the first at 08:00 and the last at 17:30, ending its step at 18:00 |
| `Slots.TenOClockExample` | backend/controllers/bookingController.js:398-407 | a 30-minute booking at 10:00 blocks the 10:00 slot but not the 09:00 or 11:00 slots; for a 60-minute service it also blocks 09:30 |
| `BookingController.BookingStore.CreateBooking` | backend/controllers/bookingController.js:7-105 | on a refused admission nothing is written; otherwise exactly one `pending` booking with the next id and the station-service price is appended, and one `pending` "Booking created" history row by the user; the invariant is kept |
| `BookingController.BookingStore.UpdateBookingStatus` | backend/controllers/bookingController.js:230-270 | missing booking, a client on someone else's booking and an unknown status name are refused in that order without writes; otherwise only that booking's status changes and one history row with the note or "Status changed to ..." is appended |
| `BookingController.BookingStore.CancelBooking` | backend/controllers/bookingController.js:289-333 | a booking that is not the user's is not found; cancelled and completed bookings are refused without writes; otherwise only that booking becomes `cancelled` and one `cancelled` history row with the reason or the default note is appended |
| `BookingController.BookingStore.SetStatus` | backend/controllers/bookingController.js:324-333 | a status change and its history row are written together, and the invariant tying each booking to its latest history row is kept |
| `BookingController.BookingStore.AvailableTimeSlots` | backend/controllers/bookingController.js:351-438 | missing parameters give 400 and an unknown station or service gives 404, in that order; an unparseable date gives 500; otherwise the result is the grid of the day over the same-station, same-service active bookings fetched for the day |

The contracts above are stated in terms of these definitions, each a direct
rendering of a source expression (all in backend/controllers/bookingController.js
unless noted):
- `Schedule.IsPast`: the strict comparison of line 46.
- `Schedule.IsClosedHour`: the hour-field test of line 59.
- `Schedule.InWindow`: the closed `between` window of lines 70-75.
- `Schedule.ThreeWayOverlap`: the three-way test of lines 402-406.
- `Queries.ConflictsWith`: the `where` clause of the creation-time `findOne`, lines 67-78.
- `Queries.FetchedFor`: the `where` clause of the grid's `findAll`, lines 378-387.
- `Slots.Blocked`: the `some` callback of lines 398-407.
- `Domain.IsActive`: the active-status list of lines 76 and 385.
- `Domain.HttpStatus`: the `res.status` code of each error answer (lines 14-84, 236-259, 303-322, 357-371, 432-436).
- `Domain.NoteOr`: JavaScript's `notes || fallback` of lines 268 and 331.
- `Admission.AdmissionChecks`: the six checks of lines 13-85, in source order.

## Left out

- HTTP and framework plumbing are not modelled: request parsing, JSON responses, logging. The generic 500 answer for storage failures is left out too; only the unparseable-date case, whose 500 is certain, is modelled.
- The route-level field validation before booking creation is not modelled: the integer ids, ISO date and vehicle-detail fields answered with 400 'Validation failed'. Requests reach the model already well-formed.
- The re-read of the created booking with its service, station and user (bookingController.js:110-116) is left out. So are the list and detail reads `getUserBookings` and `getBookingById`. They are read-only storage queries.
- Local-timezone and daylight-saving effects of the date library are left out. So are millisecond precision and the locale-formatted `displayTime` label, and the `date` echoed in the slot response. Instants are whole minutes in one implicit zone.
- `BookingController.BookingStore.AvailableTimeSlots`: the source reads the clock afresh for every slot; the model takes one `now` for the whole loop.
- Booking creation writes the booking and its history row as two separate storage calls, and the source does not wrap them in a transaction. The model performs both in one step, so a failure between the two writes is not represented.
- Concurrency is not modelled, including the race between two simultaneous creations that both pass the overlap check. Requests are sequential.
- Prices are whole cents (`int`) rather than `DECIMAL(10,2)`; they are only copied. Vehicle details are an opaque string.
- Receipts, authentication and tokens, chat relay, server setup and the admin, station and service controllers are not part of this model. They hold no scheduling logic.
