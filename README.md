# Hall booking ledger, modelled in Dafny

This project models the booking ledger of the hall-booking service. The
service keeps an in-memory store of two JavaScript arrays, `rooms` and
`bookings`, and handles five routes over them:

- `POST /rooms` creates a room;
- `POST /bookings` admits a booking after a field check, a room lookup and a
  clash scan;
- `GET /rooms` lists the rooms, each with its bookings;
- `GET /customers` lists every booking with its room name;
- `GET /customers/:name` lists one customer's bookings and counts them.

Layout:

- `fields.dfy` (module `Fields`): request fields that may be absent, and
  JavaScript's truthiness test on them.
- `hall_data.dfy` (module `HallData`): the `Room` and `Booking` records and
  `rooms.find` by id. It also holds the store invariant: ids equal position
  plus one, and every booking names an existing room.
- `conflicts.dfy` (module `Conflicts`): the clash test exactly as the
  handler writes it, the `some` scan over stored bookings, and what the test
  does and does not guarantee against half-open interval overlap.
- `seqs.dfy` (module `Seqs`): `Array.prototype.filter`.
- `queries.dfy` (module `Queries`): the three GET handlers as functions, with
  lemmas on order, completeness and counts.
- `booking_routes.dfy` (module `BookingRoutes`): the store as class
  `HallStore`, whose fields `rooms` and `bookings` are sequences. The two POST
  handlers are its methods. Client methods at the end replay concrete booking
  sequences.

The clash test is modelled as written. A new slot clashes with a stored
booking of the same room and date when the new start lies in
`[b.startTime, b.endTime)` or the new end lies in `(b.startTime, b.endTime]`.
A slot that strictly encloses a stored booking is therefore admitted. Nothing
checks that a booking starts before it ends. Pairwise non-overlap of the
bookings of one room and date is thus not an invariant of the store. The
model proves the exact reach of the test instead
(`Conflicts.ClashIsOverlapWithoutEnclosure`,
`Conflicts.AdmittedOverlapsAreEnclosures`) and exhibits a store that ends up
with two overlapping bookings (`Conflicts.AdmissionDoesNotKeepNonOverlap`,
`BookingRoutes.EnclosingSlotScenario`).

The code does not check `startTime < endTime`, does not range-check seats or
price, does not enforce non-overlap and does not report a dangling room
reference. The model follows the code in each of these, except the dangling
reference, which the queries rule out by a precondition (see "## Left out").

Modelling choices:

- An HTTP response becomes an `Outcome`: `Created(record)` for 201,
  `BadRequest` for a missing field, `NotFound` for an unknown room, and
  `Conflict` for a clash (the source answers 400 for a clash).
- A request field is an `Option`. A field passes the `!field` test when it is
  given and is not falsy for its type: not `""` for text, not `0` for numbers.
  Amenities are a JavaScript array, which is truthy even when empty. A time is
  a non-empty `"HH:MM"` string, which is truthy once given.
- A time of day is an integer that orders times as the source's comparison of
  zero-padded `"HH:MM"` strings does, for instance minutes since midnight.
- `roomId` is an integer compared with `==`, as the source's `===` compares
  two numbers.
- The store starts empty. `data/hallData` is not part of this model.

## Model

| member | source | states |
|---|---|---|
| `HallData.FindRoom` | routes/bookingRoutes.js:27 | `rooms.find` by id: a room is found exactly when some room carries the id; the result is the first room with that id |
| `HallData.FindRoomByPosition` | routes/bookingRoutes.js:27-28 | with ids equal to position + 1, a room id exists exactly when it lies in 1..length, and the lookup returns the room at position id - 1 |
| `HallData.PositionalIdsAreUnique` | routes/bookingRoutes.js:13-41 | ids assigned as position + 1 (rooms at line 13, bookings at line 41) are unique among rooms and strictly increasing among bookings |
| `HallData.AddRoomKeepsInvariant` | routes/bookingRoutes.js:13-14 | appending a room with id = old length + 1 keeps positional ids and keeps every booking's room reachable |
| `HallData.AddBookingKeepsInvariant` | routes/bookingRoutes.js:40-48 | appending a booking with id = old length + 1 whose room exists keeps the store invariant, including that every booking names an existing room |
| `Conflicts.HasConflict` | routes/bookingRoutes.js:31-37 | the `some` scan reports a conflict exactly when some stored booking clashes with the slot |
| `Conflicts.ClashIsOverlap` | routes/bookingRoutes.js:35-36 | soundness: for a slot with start < end, a clash implies a genuine half-open overlap in the same room and date |
| `Conflicts.ClashIsOverlapWithoutEnclosure` | routes/bookingRoutes.js:35-36 | for well-formed intervals, the test flags a booking exactly when the intervals overlap and the new slot does not strictly enclose it |
| `Conflicts.EnclosingSlotIsMissed` | routes/bookingRoutes.js:35-36 | incompleteness: for a booking with start <= end, a slot that strictly encloses it in the same room and date overlaps it, yet is not flagged |
| `Conflicts.AdjacentSlotsDoNotClash` | routes/bookingRoutes.js:35-36 | for a slot with start < end, a slot that starts where a booking ends, or ends where it starts, does not clash with it |
| `Conflicts.ConflictMeansOverlap` | routes/bookingRoutes.js:31-38 | when the scan rejects a slot with start < end, some stored booking really overlaps it |
| `Conflicts.AdmittedOverlapsAreEnclosures` | routes/bookingRoutes.js:31-38 | when the scan admits a well-formed slot, each well-formed stored booking it overlaps is one it strictly encloses |
| `Conflicts.ConflictDependsOnlyOnPartition` | routes/bookingRoutes.js:33-34 | bookings for another room or another date never affect the scan: it answers as it would over the slot's own room and date alone |
| `Conflicts.AdmissionDoesNotKeepNonOverlap` | routes/bookingRoutes.js:31-48 | a non-overlapping ledger holding [9:00, 10:00) admits [8:00, 12:00) for the same room and date, and the result is no longer non-overlapping |
| `Seqs.Filter` | routes/bookingRoutes.js:55 | `filter` keeps exactly the elements the predicate accepts and never lengthens the sequence |
| `Seqs.FilterCounts` | routes/bookingRoutes.js:55 | multiplicity: an accepted value occurs in the result as often as in the input, a rejected one not at all |
| `Seqs.FilterAppend` | routes/bookingRoutes.js:55 | order: filtering a concatenation is the concatenation of the filtered parts, so the result keeps the input's order |
| `Queries.RoomName` | routes/bookingRoutes.js:64-67 | the room name shown for a booking is that of a room carrying the booking's room id |
| `Queries.RoomsWithBookings` | routes/bookingRoutes.js:53-58 | one entry per room, in room order, each holding the room and exactly the store's bookings with that room id |
| `Queries.RoomBookingsInStoreOrder` | routes/bookingRoutes.js:54-57 | each room's list keeps the store's creation order (booking ids strictly increase along it) |
| `Queries.EachBookingListedOnce` | routes/bookingRoutes.js:54-57 | in a consistent store, every booking is listed under exactly one room, the one at position roomId - 1 |
| `Queries.CustomerBookings` | routes/bookingRoutes.js:62-73 | one record per booking, in store order, copying its customer, date and times and naming a room with its room id |
| `Queries.CustomerBookingsUseRoomAtPosition` | routes/bookingRoutes.js:63-67 | in a consistent store, the room name of record i is that of the room at position roomId - 1 |
| `Queries.BookingsForCustomer` | routes/bookingRoutes.js:77-95 | `totalBookings` equals the number of records, and every record shows a booking made under exactly that name, with its id and room name |
| `Queries.FilterKeepsIdOrder` | routes/bookingRoutes.js:79-80 | filtering a sequence whose booking ids increase yields one whose ids increase |
| `Queries.CustomerCountIsOccurrences` | routes/bookingRoutes.js:79-80 | the number of bookings a customer filter keeps equals the number of times the name occurs among the store's customer names |
| `Queries.CustomerTotalIsExactCount` | routes/bookingRoutes.js:93-94 | `totalBookings` equals the occurrences of the name; an unknown name gives `{totalBookings: 0, records: []}` |
| `Queries.CustomerRecordIds` | routes/bookingRoutes.js:79-91 | the booking ids of the records, in record order, equal `CustomerIds`, an independent left-to-right listing of the ids of the bookings made under exactly that name |
| `Queries.CustomerRecordsAreComplete` | routes/bookingRoutes.js:79-91 | in a consistent store, every booking made under the name has a record, and record ids strictly increase (creation order, no repeats) |
| `BookingRoutes.HallStore.constructor` | routes/bookingRoutes.js:3 | the store starts with no rooms and no bookings, and is consistent |
| `BookingRoutes.HallStore.CreateRoom` | routes/bookingRoutes.js:6-16 | a falsy field gives BadRequest and leaves the rooms unchanged; otherwise one room with id = old count + 1 and the given fields is appended; bookings are never touched and the store stays consistent |
| `BookingRoutes.HallStore.BookRoom` | routes/bookingRoutes.js:19-50 | BadRequest exactly for a falsy field, NotFound exactly for an unknown room, Conflict exactly when some stored booking clashes; otherwise one booking with id = old count + 1 and the given fields is appended; rooms never change, failures change nothing, and every booking keeps naming an existing room |
| `BookingRoutes.OneRoomStore` | routes/bookingRoutes.js:13-14 | creating one room in an empty store gives it id 1, and id 2 names no room |
| `BookingRoutes.AdjacentSlotsScenario` | routes/bookingRoutes.js:31-48 | with [9:00, 10:00) booked, [10:00, 11:00) and then [8:00, 9:00) are admitted for the same room and date |
| `BookingRoutes.OverlapScenario` | routes/bookingRoutes.js:31-48 | with [9:00, 10:00) booked, [9:30, 10:30) is refused as a conflict and the same hour on the next day is admitted |
| `BookingRoutes.EnclosingSlotScenario` | routes/bookingRoutes.js:26-48 | with [9:00, 10:00) booked, [8:00, 12:00) is admitted and overlaps it; a booking for an unregistered room id gets NotFound |

## Left out

- `index.js`: the Express application, JSON middleware, port binding and log line.
- Express routing, `req`/`res`, JSON serialisation, HTTP status codes and the message strings. Handlers become methods and functions, and responses become `Outcome` values and records.
- Concurrency: each handler runs to completion on one event loop, so each operation is one sequential method.
- The contents of `data/hallData`: the store starts empty.
- JavaScript values of other types: a `roomId` sent as the string `"1"` never matches under `===`. An amenities value that is not an array, and `NaN`, `null` or `false`, are only covered as "absent".
- Time strings that are not zero-padded `"HH:MM"`: their lexicographic order is not that of the integers the model uses.
- Floating-point behaviour of `seatsAvailable` and `pricePerHour`: seats are integers and prices are exact reals.
- The crash at lines 67 and 85 when a booking names a missing room: the queries require every booking to name an existing room, which the store invariant guarantees.
- Queries.RoomsWithBookings: the response spreads the room's fields and a `bookings` field into one object; the model pairs the room with its bookings instead.
