/** The three read-only GET handlers of routes/bookingRoutes.js (lines 53-95):
    rooms with their bookings, every booking with its room name, and one
    customer's bookings with a count. */
module Queries {
  import opened HallData
  import opened Seqs

  /** A room spread into a record together with its bookings (line 56). */
  datatype RoomWithBookings = RoomWithBookings(room: Room, bookings: seq<Booking>)

  /** One entry of the customers listing (lines 65-71). */
  datatype CustomerBooking = CustomerBooking(
    customerName: string,
    roomName: string,
    date: string,
    startTime: int,
    endTime: int)

  /** One entry of a single customer's listing (lines 83-90). */
  datatype CustomerRecord = CustomerRecord(
    customerName: string,
    roomName: string,
    date: string,
    startTime: int,
    endTime: int,
    bookingId: int)

  /** The body of the single-customer response (line 94). */
  datatype CustomerSummary = CustomerSummary(totalBookings: int, records: seq<CustomerRecord>)

  /** `(b) => b.roomId === roomId` */
  function ForRoom(roomId: int): Booking -> bool
  {
    (b: Booking) => b.roomId == roomId
  }

  /** `(b) => b.customerName === name` */
  function ForCustomer(name: string): Booking -> bool
  {
    (b: Booking) => b.customerName == name
  }

  /** `rooms.find((r) => r.id === roomId).roomName`; the requires stands for
      the source's reliance on the room being there. */
  function RoomName(rooms: seq<Room>, roomId: int): (name: string)
    requires HasRoom(rooms, roomId)
    ensures exists j :: 0 <= j < |rooms| && rooms[j].id == roomId && rooms[j].roomName == name
  {
    FindRoom(rooms, roomId).value.roomName
  }

  /** GET /rooms: one entry per room, in room order, each with exactly the
      bookings of that room. */
  function RoomsWithBookings(rooms: seq<Room>, bookings: seq<Booking>): (r: seq<RoomWithBookings>)
    ensures |r| == |rooms|
    ensures forall i :: 0 <= i < |r| ==> r[i].room == rooms[i]
    ensures forall i :: 0 <= i < |r| ==>
      forall b :: b in r[i].bookings <==> b in bookings && b.roomId == rooms[i].id
  {
    seq(|rooms|, i requires 0 <= i < |rooms| =>
      RoomWithBookings(rooms[i], Filter(bookings, ForRoom(rooms[i].id))))
  }

  /** GET /customers: one entry per booking, in store order, carrying the
      booking's own fields and the name of a room with the booking's room id. */
  function CustomerBookings(rooms: seq<Room>, bookings: seq<Booking>): (r: seq<CustomerBooking>)
    requires EveryBookingHasRoom(rooms, bookings)
    ensures |r| == |bookings|
    ensures forall i :: 0 <= i < |r| ==>
      r[i].customerName == bookings[i].customerName && r[i].date == bookings[i].date &&
      r[i].startTime == bookings[i].startTime && r[i].endTime == bookings[i].endTime
    ensures forall i :: 0 <= i < |r| ==>
      exists j :: 0 <= j < |rooms| && rooms[j].id == bookings[i].roomId && rooms[j].roomName == r[i].roomName
  {
    var r := seq(|bookings|, i requires 0 <= i < |bookings| =>
      var b := bookings[i];
      CustomerBooking(b.customerName, RoomName(rooms, b.roomId), b.date, b.startTime, b.endTime));
    assert forall i :: 0 <= i < |r| ==> r[i].roomName == RoomName(rooms, bookings[i].roomId);
    r
  }

  /** `rec` shows booking `b`: its fields, its id, and the name of a room
      carrying the booking's room id. */
  predicate ShowsBooking(rooms: seq<Room>, b: Booking, rec: CustomerRecord)
  {
    rec == CustomerRecord(b.customerName, rec.roomName, b.date, b.startTime, b.endTime, b.id) &&
    exists j :: 0 <= j < |rooms| && rooms[j].id == b.roomId && rooms[j].roomName == rec.roomName
  }

  /** GET /customers/:name: the bookings made under exactly this name, in
      store order, each with its room name and booking id, and their count. */
  function BookingsForCustomer(rooms: seq<Room>, bookings: seq<Booking>, name: string): (r: CustomerSummary)
    requires EveryBookingHasRoom(rooms, bookings)
    ensures r.totalBookings == |r.records|
    ensures forall k :: 0 <= k < |r.records| ==>
      exists i :: 0 <= i < |bookings| && bookings[i].customerName == name &&
        ShowsBooking(rooms, bookings[i], r.records[k])
  {
    var mine := Filter(bookings, ForCustomer(name));
    var records := seq(|mine|, k requires 0 <= k < |mine| =>
      var b := mine[k];
      assert b in bookings;
      CustomerRecord(b.customerName, RoomName(rooms, b.roomId), b.date, b.startTime, b.endTime, b.id));
    assert forall k :: 0 <= k < |records| ==>
      exists i :: 0 <= i < |bookings| && bookings[i].customerName == name &&
        ShowsBooking(rooms, bookings[i], records[k])
    by {
      forall k | 0 <= k < |records|
        ensures exists i :: (0 <= i < |bookings| && bookings[i].customerName == name &&
          ShowsBooking(rooms, bookings[i], records[k]))
      {
        assert mine[k] in bookings && ForCustomer(name)(mine[k]);
        var i :| 0 <= i < |bookings| && bookings[i] == mine[k];
        assert records[k].roomName == RoomName(rooms, mine[k].roomId);
        assert ShowsBooking(rooms, bookings[i], records[k]);
      }
    }
    CustomerSummary(|records|, records)
  }

  /** The customer names of the store, booking by booking. */
  function CustomerNames(bookings: seq<Booking>): seq<string>
  {
    if bookings == [] then [] else [bookings[0].customerName] + CustomerNames(bookings[1..])
  }

  /** Filtering keeps the store's order: ids that grow along the store grow
      along any filtered part of it. */
  lemma {:induction false} FilterKeepsIdOrder(bookings: seq<Booking>, keep: Booking -> bool)
    requires IdsIncreasing(bookings)
    ensures IdsIncreasing(Filter(bookings, keep))
  {
    if bookings != [] {
      var rest := Filter(bookings[1..], keep);
      FilterKeepsIdOrder(bookings[1..], keep);
      forall b | b in rest ensures bookings[0].id < b.id {
        var j :| 0 <= j < |bookings[1..]| && bookings[1..][j] == b;
        assert bookings[j + 1] == b;
      }
    }
  }

  /** With positional booking ids, each room's list holds the store's bookings
      for that room in creation (id) order. */
  lemma RoomBookingsInStoreOrder(rooms: seq<Room>, bookings: seq<Booking>)
    requires BookingIdsArePositions(bookings)
    ensures var r := RoomsWithBookings(rooms, bookings);
      forall i :: 0 <= i < |r| ==> IdsIncreasing(r[i].bookings)
  {
    forall i | 0 <= i < |rooms| ensures IdsIncreasing(Filter(bookings, ForRoom(rooms[i].id))) {
      FilterKeepsIdOrder(bookings, ForRoom(rooms[i].id));
    }
  }

  /** In a consistent store, every booking is listed under exactly one room:
      the room at position roomId - 1. */
  lemma EachBookingListedOnce(rooms: seq<Room>, bookings: seq<Booking>)
    requires StoreInvariant(rooms, bookings)
    ensures var r := RoomsWithBookings(rooms, bookings);
      forall b :: b in bookings ==>
        1 <= b.roomId <= |r| && b in r[b.roomId - 1].bookings &&
        forall j :: 0 <= j < |r| && b in r[j].bookings ==> j == b.roomId - 1
  {
    forall b | b in bookings ensures 1 <= b.roomId <= |rooms| {
      var k :| 0 <= k < |bookings| && bookings[k] == b;
      FindRoomByPosition(rooms, b.roomId);
    }
  }

  /** In a consistent store, the room name shown for a booking is that of the
      room at position roomId - 1. */
  lemma CustomerBookingsUseRoomAtPosition(rooms: seq<Room>, bookings: seq<Booking>)
    requires StoreInvariant(rooms, bookings)
    ensures forall i :: 0 <= i < |bookings| ==>
      1 <= bookings[i].roomId <= |rooms| &&
      CustomerBookings(rooms, bookings)[i].roomName == rooms[bookings[i].roomId - 1].roomName
  {
    forall i | 0 <= i < |bookings|
      ensures 1 <= bookings[i].roomId <= |rooms| &&
        CustomerBookings(rooms, bookings)[i].roomName == rooms[bookings[i].roomId - 1].roomName
    {
      FindRoomByPosition(rooms, bookings[i].roomId);
    }
  }

  /** The count of a customer's bookings is the number of times the name
      occurs among the store's customer names. */
  lemma {:induction false} CustomerCountIsOccurrences(bookings: seq<Booking>, name: string)
    ensures |Filter(bookings, ForCustomer(name))| == multiset(CustomerNames(bookings))[name]
  {
    if bookings != [] {
      CustomerCountIsOccurrences(bookings[1..], name);
      assert multiset(CustomerNames(bookings)) ==
        multiset{bookings[0].customerName} + multiset(CustomerNames(bookings[1..]));
    }
  }

  /** totalBookings counts exactly the bookings made under the name, and a name
      that made none gets a count of 0 and no records. */
  lemma CustomerTotalIsExactCount(rooms: seq<Room>, bookings: seq<Booking>, name: string)
    requires EveryBookingHasRoom(rooms, bookings)
    ensures var r := BookingsForCustomer(rooms, bookings, name);
      r.totalBookings == |r.records| == multiset(CustomerNames(bookings))[name] &&
      (name !in CustomerNames(bookings) ==> r == CustomerSummary(0, []))
  {
    CustomerCountIsOccurrences(bookings, name);
  }

  /** The ids of the bookings made under exactly `name`, in store order. */
  function CustomerIds(bookings: seq<Booking>, name: string): seq<int>
  {
    if bookings == [] then []
    else
      (if bookings[0].customerName == name then [bookings[0].id] else []) +
      CustomerIds(bookings[1..], name)
  }

  /** The ids of a sequence of bookings, in order. */
  function IdsOf(bookings: seq<Booking>): seq<int>
  {
    if bookings == [] then [] else [bookings[0].id] + IdsOf(bookings[1..])
  }

  /** Filtering by customer and then taking ids gives that customer's ids. */
  lemma {:induction false} CustomerFilterIds(bookings: seq<Booking>, name: string)
    ensures IdsOf(Filter(bookings, ForCustomer(name))) == CustomerIds(bookings, name)
  {
    if bookings != [] {
      CustomerFilterIds(bookings[1..], name);
      var rest := Filter(bookings[1..], ForCustomer(name));
      if bookings[0].customerName == name {
        assert [bookings[0]] + rest != [] && ([bookings[0]] + rest)[1..] == rest;
      }
    }
  }

  /** The ids of `bookings`, read by position. */
  lemma {:induction false} IdsOfAt(bookings: seq<Booking>)
    ensures |IdsOf(bookings)| == |bookings|
    ensures forall k :: 0 <= k < |bookings| ==> IdsOf(bookings)[k] == bookings[k].id
  {
    if bookings != [] {
      IdsOfAt(bookings[1..]);
    }
  }

  /** Record k of a customer's listing is built from the k-th booking the
      customer filter keeps (a reading of the listing's definition). */
  lemma RecordsFollowFilter(rooms: seq<Room>, bookings: seq<Booking>, name: string)
    requires EveryBookingHasRoom(rooms, bookings)
    ensures var mine := Filter(bookings, ForCustomer(name));
      var records := BookingsForCustomer(rooms, bookings, name).records;
      |records| == |mine| && forall k :: 0 <= k < |records| ==> records[k].bookingId == mine[k].id
  {
  }

  /** The booking ids of a customer's records, in record order, are the ids of
      that customer's bookings in store order. */
  lemma CustomerRecordIds(rooms: seq<Room>, bookings: seq<Booking>, name: string)
    requires EveryBookingHasRoom(rooms, bookings)
    ensures var records := BookingsForCustomer(rooms, bookings, name).records;
      seq(|records|, k requires 0 <= k < |records| => records[k].bookingId) == CustomerIds(bookings, name)
  {
    var mine := Filter(bookings, ForCustomer(name));
    var records := BookingsForCustomer(rooms, bookings, name).records;
    RecordsFollowFilter(rooms, bookings, name);
    CustomerFilterIds(bookings, name);
    IdsOfAt(mine);
  }

  /** In a consistent store, a customer's records are all of that customer's
      bookings, each exactly once, in creation order. */
  lemma CustomerRecordsAreComplete(rooms: seq<Room>, bookings: seq<Booking>, name: string)
    requires StoreInvariant(rooms, bookings)
    ensures var records := BookingsForCustomer(rooms, bookings, name).records;
      (forall i :: 0 <= i < |bookings| && bookings[i].customerName == name ==>
        exists k :: 0 <= k < |records| && records[k].bookingId == bookings[i].id) &&
      (forall k, l :: 0 <= k < l < |records| ==> records[k].bookingId < records[l].bookingId)
  {
    var mine := Filter(bookings, ForCustomer(name));
    var records := BookingsForCustomer(rooms, bookings, name).records;
    PositionalIdsAreUnique(rooms, bookings);
    FilterKeepsIdOrder(bookings, ForCustomer(name));
    RecordsFollowFilter(rooms, bookings, name);
    forall i | 0 <= i < |bookings| && bookings[i].customerName == name
      ensures exists k :: 0 <= k < |records| && records[k].bookingId == bookings[i].id
    {
      assert bookings[i] in mine;
      var k :| 0 <= k < |mine| && mine[k] == bookings[i];
      assert records[k].bookingId == bookings[i].id;
    }
  }
}
