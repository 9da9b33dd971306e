/** The two POST handlers of routes/bookingRoutes.js: room creation (lines
    6-16) and booking admission (lines 19-50), as methods of the in-memory
    store whose `rooms` and `bookings` they append to. */
module BookingRoutes {
  import opened Fields
  import opened HallData
  import opened Conflicts

  /** What a handler answers: 201 with the created record, 400 for a missing
      field, 404 for an unknown room, 400 for a clash. */
  datatype Outcome<T> = Created(value: T) | BadRequest | NotFound | Conflict

  /** The body of POST /rooms. */
  datatype RoomRequest = RoomRequest(
    roomName: Option<string>,
    seatsAvailable: Option<int>,
    amenities: Option<seq<string>>,
    pricePerHour: Option<real>)

  /** The body of POST /bookings. */
  datatype BookingRequest = BookingRequest(
    customerName: Option<string>,
    roomId: Option<int>,
    date: Option<string>,
    startTime: Option<int>,
    endTime: Option<int>)

  /** The four fields pass the truthiness test of line 9. */
  predicate RoomRequestComplete(req: RoomRequest)
  {
    TextGiven(req.roomName) && NumberGiven(req.seatsAvailable) &&
    ListGiven(req.amenities) && AmountGiven(req.pricePerHour)
  }

  /** The five fields pass the truthiness test of line 22. */
  predicate BookingRequestComplete(req: BookingRequest)
  {
    TextGiven(req.customerName) && NumberGiven(req.roomId) && TextGiven(req.date) &&
    TimeGiven(req.startTime) && TimeGiven(req.endTime)
  }

  /** The slot a complete booking request asks for. */
  function RequestedSlot(req: BookingRequest): Slot
    requires BookingRequestComplete(req)
  {
    Slot(req.roomId.value, req.date.value, req.startTime.value, req.endTime.value)
  }

  /** The shared store of rooms and bookings. */
  class HallStore {
    var rooms: seq<Room>
    var bookings: seq<Booking>

    ghost predicate Valid()
      reads this
    {
      StoreInvariant(rooms, bookings)
    }

    /** The store starts empty. */
    constructor ()
      ensures Valid()
      ensures rooms == [] && bookings == []
    {
      rooms := [];
      bookings := [];
    }

    /** POST /rooms: an incomplete request is refused and changes nothing; a
        complete one appends a room numbered one past the current count. */
    method CreateRoom(req: RoomRequest) returns (out: Outcome<Room>)
      requires Valid()
      modifies this
      ensures Valid()
      ensures bookings == old(bookings)
      ensures out.BadRequest? || out.Created?
      ensures out.BadRequest? <==> !RoomRequestComplete(req)
      ensures out.BadRequest? ==> rooms == old(rooms)
      ensures out.Created? ==>
        out.value == Room(|old(rooms)| + 1, req.roomName.value, req.seatsAvailable.value,
                          req.amenities.value, req.pricePerHour.value) &&
        rooms == old(rooms) + [out.value]
    {
      if !RoomRequestComplete(req) {
        return BadRequest;
      }
      var room := Room(|rooms| + 1, req.roomName.value, req.seatsAvailable.value,
                       req.amenities.value, req.pricePerHour.value);
      AddRoomKeepsInvariant(rooms, bookings, room);
      rooms := rooms + [room];
      out := Created(room);
    }

    /** POST /bookings: refuse an incomplete request, then an unknown room,
        then a slot the clash test flags against any stored booking; otherwise
        append a booking numbered one past the current count. Only the last
        case changes the store, and never its rooms. */
    method BookRoom(req: BookingRequest) returns (out: Outcome<Booking>)
      requires Valid()
      modifies this
      ensures Valid()
      ensures rooms == old(rooms)
      ensures out.BadRequest? <==> !BookingRequestComplete(req)
      ensures out.NotFound? <==> BookingRequestComplete(req) && !HasRoom(rooms, req.roomId.value)
      ensures out.Conflict? <==>
        BookingRequestComplete(req) && HasRoom(rooms, req.roomId.value) &&
        exists i :: 0 <= i < |old(bookings)| && Clashes(old(bookings)[i], RequestedSlot(req))
      ensures !out.Created? ==> bookings == old(bookings)
      ensures out.Created? ==>
        out.value == Booking(|old(bookings)| + 1, req.customerName.value, req.roomId.value,
                             req.date.value, req.startTime.value, req.endTime.value) &&
        bookings == old(bookings) + [out.value]
    {
      if !BookingRequestComplete(req) {
        return BadRequest;
      }
      var roomId := req.roomId.value;
      var room := FindRoom(rooms, roomId);
      if room.None? {
        return NotFound;
      }
      var slot := RequestedSlot(req);
      if HasConflict(bookings, slot) {
        return Conflict;
      }
      var booking := Booking(|bookings| + 1, req.customerName.value, roomId,
                             slot.date, slot.startTime, slot.endTime);
      AddBookingKeepsInvariant(rooms, bookings, booking);
      bookings := bookings + [booking];
      out := Created(booking);
    }
  }

  /** A booking request for room 1 on the given date and times. */
  function RequestFor(customer: string, date: string, startTime: int, endTime: int): BookingRequest
  {
    BookingRequest(Some(customer), Some(1), Some(date), Some(startTime), Some(endTime))
  }

  /** A store holding one room, "Hall A", with id 1. */
  method OneRoomStore() returns (store: HallStore)
    ensures fresh(store) && store.Valid()
    ensures store.rooms == [Room(1, "Hall A", 20, ["Projector"], 150.0)] && store.bookings == []
    ensures HasRoom(store.rooms, 1) && !HasRoom(store.rooms, 2)
  {
    store := new HallStore();
    var room := store.CreateRoom(RoomRequest(Some("Hall A"), Some(20), Some(["Projector"]), Some(150.0)));
    assert store.rooms[0].id == 1;
  }

  /** With [9:00, 10:00) booked (times in minutes of the day), [10:00, 11:00)
      and [8:00, 9:00) are both admitted for the same room and date. */
  method AdjacentSlotsScenario() returns (first: Outcome<Booking>, after: Outcome<Booking>,
                                          before: Outcome<Booking>)
    ensures first.Created? && after.Created? && before.Created?
  {
    var store := OneRoomStore();
    first := store.BookRoom(RequestFor("Alice", "2024-01-01", 540, 600));
    assert store.bookings == [Booking(1, "Alice", 1, "2024-01-01", 540, 600)];
    after := store.BookRoom(RequestFor("Bob", "2024-01-01", 600, 660));
    assert store.bookings == [Booking(1, "Alice", 1, "2024-01-01", 540, 600),
                              Booking(2, "Bob", 1, "2024-01-01", 600, 660)];
    before := store.BookRoom(RequestFor("Carol", "2024-01-01", 480, 540));
  }

  /** With [9:00, 10:00) booked, [9:30, 10:30) is refused as a clash for the
      same room and date, while the same hour on the next day is admitted. */
  method OverlapScenario() returns (first: Outcome<Booking>, overlapping: Outcome<Booking>,
                                    nextDay: Outcome<Booking>)
    ensures first.Created? && overlapping.Conflict? && nextDay.Created?
  {
    var store := OneRoomStore();
    first := store.BookRoom(RequestFor("Alice", "2024-01-01", 540, 600));
    assert store.bookings == [Booking(1, "Alice", 1, "2024-01-01", 540, 600)];
    overlapping := store.BookRoom(RequestFor("Dave", "2024-01-01", 570, 630));
    assert Clashes(store.bookings[0], Slot(1, "2024-01-01", 570, 630));
    nextDay := store.BookRoom(RequestFor("Erin", "2024-01-02", 540, 600));
  }

  /** With [9:00, 10:00) booked, the enclosing [8:00, 12:00) is admitted for
      the same room and date, so the store then holds two overlapping
      bookings; a booking for a room that does not exist is refused. */
  method EnclosingSlotScenario() returns (inner: Outcome<Booking>, outer: Outcome<Booking>,
                                          missing: Outcome<Booking>)
    ensures inner.Created? && outer.Created?
    ensures Overlaps(inner.value, SlotOf(outer.value))
    ensures missing.NotFound?
  {
    var store := OneRoomStore();
    inner := store.BookRoom(RequestFor("Alice", "2024-01-01", 540, 600));
    assert store.bookings == [Booking(1, "Alice", 1, "2024-01-01", 540, 600)];
    outer := store.BookRoom(RequestFor("Bob", "2024-01-01", 480, 720));
    missing := store.BookRoom(BookingRequest(Some("Carol"), Some(2), Some("2024-01-01"), Some(540), Some(600)));
  }
}
