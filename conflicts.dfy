/** The clash test that booking admission runs against every stored booking
    (routes/bookingRoutes.js lines 31-37), exactly as the source writes it, and
    what it does and does not guarantee compared with half-open interval
    overlap. */
module Conflicts {
  import opened HallData
  import Seqs

  /** The room, date and times a booking request asks for. */
  datatype Slot = Slot(roomId: int, date: string, startTime: int, endTime: int)

  /** The slot a stored booking occupies. */
  function SlotOf(b: Booking): Slot
  {
    Slot(b.roomId, b.date, b.startTime, b.endTime)
  }

  /** The source's test: same room, same date, and either the new start lies
      in [b.startTime, b.endTime) or the new end lies in (b.startTime, b.endTime]. */
  predicate Clashes(b: Booking, c: Slot)
  {
    b.roomId == c.roomId && b.date == c.date &&
    ((c.startTime >= b.startTime && c.startTime < b.endTime) ||
     (c.endTime > b.startTime && c.endTime <= b.endTime))
  }

  /** Same room, same date, and the half-open intervals intersect. */
  predicate Overlaps(b: Booking, c: Slot)
  {
    b.roomId == c.roomId && b.date == c.date &&
    c.startTime < b.endTime && b.startTime < c.endTime
  }

  /** The slot starts strictly before the booking and ends strictly after it. */
  predicate Encloses(c: Slot, b: Booking)
  {
    c.startTime < b.startTime && b.endTime < c.endTime
  }

  /** `bookings.some(...)` with the clash test. */
  function HasConflict(bookings: seq<Booking>, c: Slot): (r: bool)
    ensures r <==> exists i :: 0 <= i < |bookings| && Clashes(bookings[i], c)
  {
    if bookings == [] then false
    else
      assert forall i :: 0 < i < |bookings| ==> bookings[i] == bookings[1..][i - 1];
      Clashes(bookings[0], c) || HasConflict(bookings[1..], c)
  }

  /** The bookings of the slot's room on the slot's date. */
  function InPartition(c: Slot): Booking -> bool
  {
    (b: Booking) => b.roomId == c.roomId && b.date == c.date
  }

  /** Soundness: for a slot that starts before it ends, a clash is a genuine
      half-open overlap. */
  lemma ClashIsOverlap(b: Booking, c: Slot)
    requires c.startTime < c.endTime
    ensures Clashes(b, c) ==> Overlaps(b, c)
  {
  }

  /** The exact reach of the test for well-formed intervals: it flags every
      overlap except a slot that strictly encloses the booking. */
  lemma ClashIsOverlapWithoutEnclosure(b: Booking, c: Slot)
    requires c.startTime < c.endTime && b.startTime < b.endTime
    ensures Clashes(b, c) <==> Overlaps(b, c) && !Encloses(c, b)
  {
  }

  /** Incompleteness: a slot that strictly encloses a booking of the same room
      and date, one that does not end before it starts, overlaps it, yet the
      test lets it through. */
  lemma EnclosingSlotIsMissed(b: Booking, c: Slot)
    requires b.roomId == c.roomId && b.date == c.date
    requires b.startTime <= b.endTime && Encloses(c, b)
    ensures Overlaps(b, c) && !Clashes(b, c)
  {
  }

  /** A slot that starts before it ends and only touches a booking at an end
      point does not clash with it. */
  lemma AdjacentSlotsDoNotClash(b: Booking, c: Slot)
    requires c.startTime < c.endTime
    requires c.startTime == b.endTime || c.endTime == b.startTime
    ensures !Clashes(b, c)
  {
  }

  /** Scan-level soundness: when the scan reports a conflict for a slot that
      starts before it ends, some stored booking really overlaps the slot. */
  lemma {:induction false} ConflictMeansOverlap(bookings: seq<Booking>, c: Slot)
    requires c.startTime < c.endTime
    requires HasConflict(bookings, c)
    ensures exists i :: 0 <= i < |bookings| && Overlaps(bookings[i], c)
  {
    var i :| 0 <= i < |bookings| && Clashes(bookings[i], c);
    ClashIsOverlap(bookings[i], c);
  }

  /** Scan-level reach: when the scan admits a slot, every stored booking of
      well-formed interval that the slot overlaps is one the slot strictly
      encloses. Other stored bookings, inverted ones included, may be present. */
  lemma {:induction false} AdmittedOverlapsAreEnclosures(bookings: seq<Booking>, c: Slot)
    requires c.startTime < c.endTime
    requires !HasConflict(bookings, c)
    ensures forall i ::
      (0 <= i < |bookings| && bookings[i].startTime < bookings[i].endTime && Overlaps(bookings[i], c))
      ==> Encloses(c, bookings[i])
  {
    forall i | 0 <= i < |bookings| && bookings[i].startTime < bookings[i].endTime && Overlaps(bookings[i], c)
      ensures Encloses(c, bookings[i])
    {
      ClashIsOverlapWithoutEnclosure(bookings[i], c);
    }
  }

  /** Bookings of other rooms or other dates never matter: the scan over the
      whole store answers as the scan over the slot's own room and date. */
  lemma {:induction false} ConflictDependsOnlyOnPartition(bookings: seq<Booking>, c: Slot)
    ensures HasConflict(bookings, c) == HasConflict(Seqs.Filter(bookings, InPartition(c)), c)
  {
    var own := Seqs.Filter(bookings, InPartition(c));
    if HasConflict(bookings, c) {
      var i :| 0 <= i < |bookings| && Clashes(bookings[i], c);
      assert bookings[i] in own;
      var k :| 0 <= k < |own| && own[k] == bookings[i];
    }
    if HasConflict(own, c) {
      var k :| 0 <= k < |own| && Clashes(own[k], c);
      assert own[k] in bookings;
      var i :| 0 <= i < |bookings| && bookings[i] == own[k];
    }
  }

  /** Pairwise non-overlap within each room and date. */
  predicate NonOverlapping(bookings: seq<Booking>)
  {
    forall i, j :: 0 <= i < j < |bookings| ==> !Overlaps(bookings[i], SlotOf(bookings[j]))
  }

  /** Non-overlap is not an invariant of admission: with [9:00, 10:00) booked,
      the scan admits [8:00, 12:00) for the same room and date, and the ledger
      that results holds two overlapping bookings. */
  lemma AdmissionDoesNotKeepNonOverlap()
    ensures var booked := [Booking(1, "Alice", 1, "2024-01-01", 540, 600)];
            var wide := Slot(1, "2024-01-01", 480, 720);
            NonOverlapping(booked) && !HasConflict(booked, wide) &&
            !NonOverlapping(booked + [Booking(2, "Bob", 1, "2024-01-01", 480, 720)])
  {
    var booked := [Booking(1, "Alice", 1, "2024-01-01", 540, 600)];
    var both := booked + [Booking(2, "Bob", 1, "2024-01-01", 480, 720)];
    assert Overlaps(both[0], SlotOf(both[1]));
  }
}
