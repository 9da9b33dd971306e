/** The two collections the routes share, `rooms` and `bookings`, the records
    they hold, and the facts that keep them consistent: ids equal to position
    plus one, and every booking naming a room that exists. */
module HallData {
  import opened Fields

  /** A registered room; `id` is assigned by the store. */
  datatype Room = Room(
    id: int,
    roomName: string,
    seatsAvailable: int,
    amenities: seq<string>,
    pricePerHour: real)

  /** A committed booking. A time of day is kept as an integer that orders
      times the way the source's comparison of "HH:MM" strings does. */
  datatype Booking = Booking(
    id: int,
    customerName: string,
    roomId: int,
    date: string,
    startTime: int,
    endTime: int)

  /** Room ids are 1, 2, 3, ... in insertion order. */
  predicate RoomIdsArePositions(rooms: seq<Room>)
  {
    forall i :: 0 <= i < |rooms| ==> rooms[i].id == i + 1
  }

  /** Booking ids are 1, 2, 3, ... in insertion order. */
  predicate BookingIdsArePositions(bookings: seq<Booking>)
  {
    forall i :: 0 <= i < |bookings| ==> bookings[i].id == i + 1
  }

  /** Booking ids grow strictly along the sequence. */
  predicate IdsIncreasing(bookings: seq<Booking>)
  {
    forall i, j :: 0 <= i < j < |bookings| ==> bookings[i].id < bookings[j].id
  }

  /** Some room carries the id `id`. */
  predicate HasRoom(rooms: seq<Room>, id: int)
  {
    exists j :: 0 <= j < |rooms| && rooms[j].id == id
  }

  /** Every booking refers to a room of the store. */
  predicate EveryBookingHasRoom(rooms: seq<Room>, bookings: seq<Booking>)
  {
    forall i :: 0 <= i < |bookings| ==> HasRoom(rooms, bookings[i].roomId)
  }

  /** The consistency of the store that both POST handlers keep. */
  predicate StoreInvariant(rooms: seq<Room>, bookings: seq<Booking>)
  {
    RoomIdsArePositions(rooms) && BookingIdsArePositions(bookings) &&
    EveryBookingHasRoom(rooms, bookings)
  }

  /** No room before position `k` carries the id `id`. */
  predicate NoMatchBefore(rooms: seq<Room>, id: int, k: int)
    requires 0 <= k <= |rooms|
  {
    forall j :: 0 <= j < k ==> rooms[j].id != id
  }

  /** `rooms.find((r) => r.id === id)`: the first room with that id, if any. */
  function FindRoom(rooms: seq<Room>, id: int): (r: Option<Room>)
    ensures r.Some? <==> HasRoom(rooms, id)
    ensures r.Some? ==>
      exists k :: 0 <= k < |rooms| && rooms[k] == r.value && r.value.id == id &&
        NoMatchBefore(rooms, id, k)
  {
    if rooms == [] then None
    else if rooms[0].id == id then
      assert NoMatchBefore(rooms, id, 0);
      Some(rooms[0])
    else
      var rest := FindRoom(rooms[1..], id);
      assert HasRoom(rooms, id) ==> HasRoom(rooms[1..], id) by {
        if HasRoom(rooms, id) {
          var j :| 0 <= j < |rooms| && rooms[j].id == id;
          assert rooms[1..][j - 1].id == id;
        }
      }
      assert rest.Some? ==>
        exists k :: 0 <= k < |rooms| && rooms[k] == rest.value && rest.value.id == id &&
          NoMatchBefore(rooms, id, k)
      by {
        if rest.Some? {
          var k :| 0 <= k < |rooms| - 1 && rooms[1..][k] == rest.value && rest.value.id == id &&
            NoMatchBefore(rooms[1..], id, k);
          assert rooms[k + 1] == rest.value;
          assert NoMatchBefore(rooms, id, k + 1) by {
            forall j | 0 <= j < k + 1 ensures rooms[j].id != id {
              if j > 0 { assert rooms[j] == rooms[1..][j - 1]; }
            }
          }
        }
      }
      rest
  }

  /** With positional ids, the room with id `id` sits at position `id - 1`,
      and ids outside 1..|rooms| find nothing. */
  lemma FindRoomByPosition(rooms: seq<Room>, id: int)
    requires RoomIdsArePositions(rooms)
    ensures HasRoom(rooms, id) <==> 1 <= id <= |rooms|
    ensures FindRoom(rooms, id) == if 1 <= id <= |rooms| then Some(rooms[id - 1]) else None
  {
    if 1 <= id <= |rooms| {
      assert rooms[id - 1].id == id;
    }
  }

  /** Positional ids are unique, in both collections. */
  lemma PositionalIdsAreUnique(rooms: seq<Room>, bookings: seq<Booking>)
    requires RoomIdsArePositions(rooms) && BookingIdsArePositions(bookings)
    ensures forall i, j :: 0 <= i < |rooms| && 0 <= j < |rooms| && rooms[i].id == rooms[j].id ==> i == j
    ensures IdsIncreasing(bookings)
  {
  }

  /** Appending a room whose id is the old length plus one keeps the store
      consistent (the append at routes/bookingRoutes.js line 14). */
  lemma {:induction false} AddRoomKeepsInvariant(rooms: seq<Room>, bookings: seq<Booking>, room: Room)
    requires StoreInvariant(rooms, bookings)
    requires room.id == |rooms| + 1
    ensures StoreInvariant(rooms + [room], bookings)
  {
    var rooms' := rooms + [room];
    forall i | 0 <= i < |bookings| ensures HasRoom(rooms', bookings[i].roomId) {
      var j :| 0 <= j < |rooms| && rooms[j].id == bookings[i].roomId;
      assert rooms'[j] == rooms[j];
    }
  }

  /** Appending a booking whose id is the old length plus one and whose room
      exists keeps the store consistent (the append at line 48). */
  lemma {:induction false} AddBookingKeepsInvariant(rooms: seq<Room>, bookings: seq<Booking>, booking: Booking)
    requires StoreInvariant(rooms, bookings)
    requires booking.id == |bookings| + 1 && HasRoom(rooms, booking.roomId)
    ensures StoreInvariant(rooms, bookings + [booking])
  {
    var bookings' := bookings + [booking];
    forall i | 0 <= i < |bookings'| ensures HasRoom(rooms, bookings'[i].roomId) {
      if i < |bookings| { assert bookings'[i] == bookings[i]; }
    }
  }
}
