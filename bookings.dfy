/** The `bookings` table and the handlers that change it
    (backendExpress/controllers/bookings.js): an insert guarded by a clash
    check, a merge-patch update re-checked for clashes with its own row
    excluded, and a delete. Each handler runs as one atomic step; a rollback
    leaves the table as it was. */
module Bookings {
  import opened JsCore
  import opened Express
  import Rows

  type Id = nat

  /** A row of `bookings`. Times are instants, in milliseconds since the epoch. */
  datatype Booking = Booking(id: Id, userId: Id, roomId: Id, start: int, end: int)

  // ---------------------------------------------------------------------------
  // The clash predicate
  // ---------------------------------------------------------------------------

  /** The overlap test of the clash query: `$start < end_time AND $end > start_time`.
      Both comparisons are strict, so intervals that only touch do not overlap.
      Nothing requires `start < end`. */
  predicate Overlaps(start: int, end: int, otherStart: int, otherEnd: int)
  {
    start < otherEnd && end > otherStart
  }

  /** Instant `t` lies in the half-open interval `[start, end)`. */
  predicate Covers(start: int, end: int, t: int)
  {
    start <= t < end
  }

  /** For intervals with `start < end`, the test is exactly "the half-open
      intervals share an instant". */
  lemma OverlapsIffSharedInstant(s1: int, e1: int, s2: int, e2: int)
    requires s1 < e1 && s2 < e2
    ensures Overlaps(s1, e1, s2, e2) <==> exists t :: Covers(s1, e1, t) && Covers(s2, e2, t)
  {
    if Overlaps(s1, e1, s2, e2) {
      var t := if s1 < s2 then s2 else s1;
      assert Covers(s1, e1, t) && Covers(s2, e2, t);
    }
  }

  /** Back-to-back intervals never overlap, in either order. */
  lemma TouchingNeverOverlaps(s1: int, m: int, e2: int)
    ensures !Overlaps(s1, m, m, e2) && !Overlaps(m, e2, s1, m)
  {
  }

  /** The test is symmetric: `a` overlaps `b` exactly when `b` overlaps `a`. */
  lemma OverlapsSymmetric(s1: int, e1: int, s2: int, e2: int)
    ensures Overlaps(s1, e1, s2, e2) <==> Overlaps(s2, e2, s1, e1)
  {
  }

  /** A row the clash query selects: same room, overlapping, and (for an
      update) not the row being updated. */
  predicate Selected(b: Booking, room: Id, start: int, end: int, exclude: Option<Id>)
  {
    b.roomId == room && Overlaps(start, end, b.start, b.end) && (exclude.None? || b.id != exclude.value)
  }

  /** `clashCheck.rowCount > 0`: some row is selected by the clash query. */
  function HasClash(rows: seq<Booking>, room: Id, start: int, end: int, exclude: Option<Id>): (r: bool)
    ensures r <==> exists i :: 0 <= i < |rows| && Selected(rows[i], room, start, end, exclude)
  {
    if rows == [] then false
    else
      var rest := HasClash(rows[1..], room, start, end, exclude);
      assert forall i :: 1 <= i < |rows| ==> rows[i] == rows[1..][i - 1];
      Selected(rows[0], room, start, end, exclude) || rest
  }

  /** The invariant the handlers keep: no two rows for one room overlap. */
  ghost predicate NoOverlap(rows: seq<Booking>)
  {
    forall i, j :: 0 <= i < |rows| && 0 <= j < |rows| && i != j && rows[i].roomId == rows[j].roomId ==>
      !Overlaps(rows[i].start, rows[i].end, rows[j].start, rows[j].end)
  }

  /** Inserting a row the clash check found no clash for keeps the invariant. */
  lemma InsertKeepsNoOverlap(rows: seq<Booking>, b: Booking)
    requires NoOverlap(rows)
    requires !HasClash(rows, b.roomId, b.start, b.end, None)
    ensures NoOverlap(rows + [b])
  {
    var after := rows + [b];
    forall i, j | 0 <= i < |after| && 0 <= j < |after| && i != j && after[i].roomId == after[j].roomId
      ensures !Overlaps(after[i].start, after[i].end, after[j].start, after[j].end)
    {
      if i == |rows| {
        assert !Selected(rows[j], b.roomId, b.start, b.end, None);
      } else if j == |rows| {
        assert !Selected(rows[i], b.roomId, b.start, b.end, None);
      }
    }
  }

  /** Overwriting row `k` with a row of the same id that has no clash with any
      other row keeps the invariant. */
  lemma ReplaceKeepsNoOverlap(rows: seq<Booking>, k: nat, b: Booking)
    requires NoOverlap(rows) && Rows.UniqueKeys(rows, BookingId)
    requires k < |rows| && b.id == rows[k].id
    requires !HasClash(rows, b.roomId, b.start, b.end, Some(b.id))
    ensures NoOverlap(rows[k := b])
  {
    var after := rows[k := b];
    forall i, j | 0 <= i < |after| && 0 <= j < |after| && i != j && after[i].roomId == after[j].roomId
      ensures !Overlaps(after[i].start, after[i].end, after[j].start, after[j].end)
    {
      if i == k {
        assert !Selected(rows[j], b.roomId, b.start, b.end, Some(b.id));
      } else if j == k {
        assert !Selected(rows[i], b.roomId, b.start, b.end, Some(b.id));
      }
    }
  }

  /** Once a booking is in, any request for the same room that overlaps it
      clashes: of two overlapping requests for one room, the second is refused. */
  lemma ClashAfterInsert(rows: seq<Booking>, b: Booking, start: int, end: int)
    requires Overlaps(start, end, b.start, b.end)
    ensures HasClash(rows + [b], b.roomId, start, end, None)
  {
    assert Selected((rows + [b])[|rows|], b.roomId, start, end, None);
  }

  // ---------------------------------------------------------------------------
  // Lookup and delete
  // ---------------------------------------------------------------------------

  /** A booking's primary key, the `key` of the generic table operations. */
  function BookingId(b: Booking): nat
  {
    b.id
  }

  /** The invariant, stated head first, for the induction below. */
  lemma NoOverlapCons(a: Booking, rest: seq<Booking>)
    ensures NoOverlap([a] + rest) <==>
              NoOverlap(rest) &&
              forall b :: b in rest && b.roomId == a.roomId ==> !Overlaps(a.start, a.end, b.start, b.end)
  {
    var all := [a] + rest;
    assert all[0] == a;
    assert forall i :: 1 <= i < |all| ==> all[i] == rest[i - 1];
    if NoOverlap(all) {
      forall b | b in rest && b.roomId == a.roomId
        ensures !Overlaps(a.start, a.end, b.start, b.end)
      {
        var k :| 0 <= k < |rest| && rest[k] == b;
        assert all[k + 1] == b;
      }
      forall i, j | 0 <= i < |rest| && 0 <= j < |rest| && i != j && rest[i].roomId == rest[j].roomId
        ensures !Overlaps(rest[i].start, rest[i].end, rest[j].start, rest[j].end)
      {
        assert all[i + 1] == rest[i] && all[j + 1] == rest[j];
      }
    }
    if NoOverlap(rest) && forall b :: b in rest && b.roomId == a.roomId ==> !Overlaps(a.start, a.end, b.start, b.end) {
      forall i, j | 0 <= i < |all| && 0 <= j < |all| && i != j && all[i].roomId == all[j].roomId
        ensures !Overlaps(all[i].start, all[i].end, all[j].start, all[j].end)
      {
        if i == 0 {
          assert all[j] in rest;
        } else if j == 0 {
          assert all[i] in rest;
        } else {
          assert all[i] == rest[i - 1] && all[j] == rest[j - 1];
        }
      }
    }
  }

  /** Deleting rows never creates an overlap. */
  lemma {:induction false} WithoutKeepsNoOverlap(rows: seq<Booking>, id: Id)
    requires NoOverlap(rows)
    ensures NoOverlap(Rows.Without(rows, BookingId, id))
  {
    if rows != [] {
      var a, rest := rows[0], rows[1..];
      assert rows == [a] + rest;
      NoOverlapCons(a, rest);
      WithoutKeepsNoOverlap(rest, id);
      if a.id != id {
        NoOverlapCons(a, Rows.Without(rest, BookingId, id));
      }
    }
  }

  // ---------------------------------------------------------------------------
  // The update's merge
  // ---------------------------------------------------------------------------

  /** One field of the PATCH body: absent or null, present but falsy (`""`, `0`,
      `false`), or a value of the column's type. */
  datatype Patch<T> = Missing | Falsy | Given(value: T)

  datatype BookingPatch = BookingPatch(userId: Patch<Id>, roomId: Patch<Id>, start: Patch<int>, end: Patch<int>)

  const EmptyPatch: BookingPatch := BookingPatch(Missing, Missing, Missing, Missing)

  /** `field || current`, the choice the clash check makes: a falsy field
      counts as absent. */
  function OrCurrent<T>(field: Patch<T>, current: T): (r: T)
    ensures field.Given? ==> r == field.value
    ensures !field.Given? ==> r == current
  {
    if field.Given? then field.value else current
  }

  /** `COALESCE(field ?? null, current)` followed by the column's uuid or
      timestamptz cast, the choice the UPDATE makes: a falsy field is passed to
      the cast, which rejects it (None). */
  function CoalesceCast<T>(field: Patch<T>, current: T): (r: Option<T>)
    ensures field.Missing? ==> r == Some(current)
    ensures field.Falsy? ==> r.None?
    ensures field.Given? ==> r == Some(field.value)
  {
    match field
    case Missing => Some(current)
    case Falsy => None
    case Given(v) => Some(v)
  }

  /** The room and interval the update's clash check runs on. */
  datatype Target = Target(roomId: Id, start: int, end: int)

  function ClashTarget(current: Booking, p: BookingPatch): Target
  {
    Target(OrCurrent(p.roomId, current.roomId), OrCurrent(p.start, current.start), OrCurrent(p.end, current.end))
  }

  predicate HasFalsyField(p: BookingPatch)
  {
    p.userId.Falsy? || p.roomId.Falsy? || p.start.Falsy? || p.end.Falsy?
  }

  /** The row the UPDATE writes over `current`, or None when a cast fails. */
  function Merge(current: Booking, p: BookingPatch): (r: Option<Booking>)
    ensures r.None? <==> HasFalsyField(p)
    ensures r.Some? ==> r.value.id == current.id
  {
    var u := CoalesceCast(p.userId, current.userId);
    var rm := CoalesceCast(p.roomId, current.roomId);
    var s := CoalesceCast(p.start, current.start);
    var e := CoalesceCast(p.end, current.end);
    if u.Some? && rm.Some? && s.Some? && e.Some? then
      Some(Booking(current.id, u.value, rm.value, s.value, e.value))
    else None
  }

  /** Each column of a successful merge takes the supplied value when one was
      given and keeps the current one otherwise. */
  lemma MergeFieldwise(current: Booking, p: BookingPatch)
    requires !HasFalsyField(p)
    ensures Merge(current, p) == Some(Booking(current.id,
      if p.userId.Given? then p.userId.value else current.userId,
      if p.roomId.Given? then p.roomId.value else current.roomId,
      if p.start.Given? then p.start.value else current.start,
      if p.end.Given? then p.end.value else current.end))
  {
  }

  /** Whenever the UPDATE succeeds, the row it writes has exactly the room and
      interval the clash check examined: the `||` of the check and the `??` of
      the UPDATE only disagree on falsy fields, and those make the UPDATE fail. */
  lemma MergeAgreesWithClashTarget(current: Booking, p: BookingPatch)
    requires Merge(current, p).Some?
    ensures var b := Merge(current, p).value;
            Target(b.roomId, b.start, b.end) == ClashTarget(current, p)
  {
  }

  /** An empty patch writes the row back unchanged. */
  lemma MergeEmptyPatch(current: Booking)
    ensures Merge(current, EmptyPatch) == Some(current)
  {
  }

  // ---------------------------------------------------------------------------
  // Read projections: only their ORDER BY is modelled
  // ---------------------------------------------------------------------------

  /** `a` may come before `b` under ORDER BY start_time (ASC, or DESC). */
  predicate InOrder(a: Booking, b: Booking, descending: bool)
  {
    if descending then a.start >= b.start else a.start <= b.start
  }

  ghost predicate Sorted(s: seq<Booking>, descending: bool)
  {
    forall i, j :: 0 <= i < j < |s| ==> InOrder(s[i], s[j], descending)
  }

  function InsertSorted(b: Booking, s: seq<Booking>, descending: bool): (r: seq<Booking>)
    requires Sorted(s, descending)
    ensures Sorted(r, descending)
    ensures multiset(r) == multiset(s) + multiset{b}
  {
    if s == [] || InOrder(b, s[0], descending) then
      SortedCons(b, s, descending);
      [b] + s
    else
      var rest := s[1..];
      var tail := InsertSorted(b, rest, descending);
      assert s == [s[0]] + rest;
      forall x | x in tail
        ensures InOrder(s[0], x, descending)
      {
        assert x in multiset(tail);
        if x != b {
          assert x in multiset(rest);
          var k :| 0 <= k < |rest| && rest[k] == x;
          assert s[k + 1] == x;
        }
      }
      SortedCons(s[0], tail, descending);
      [s[0]] + tail
  }

  lemma SortedCons(x: Booking, t: seq<Booking>, descending: bool)
    requires Sorted(t, descending)
    requires forall y :: y in t ==> InOrder(x, y, descending)
    ensures Sorted([x] + t, descending)
  {
    var all := [x] + t;
    forall i, j | 0 <= i < j < |all|
      ensures InOrder(all[i], all[j], descending)
    {
      if i == 0 {
        assert all[j] == t[j - 1];
      } else {
        assert all[i] == t[i - 1] && all[j] == t[j - 1];
      }
    }
  }

  /** The rows in ORDER BY start_time order: sorted, and a permutation of the input. */
  function SortByStart(s: seq<Booking>, descending: bool): (r: seq<Booking>)
    ensures Sorted(r, descending)
    ensures multiset(r) == multiset(s)
  {
    if s == [] then []
    else
      assert s == [s[0]] + s[1..];
      InsertSorted(s[0], SortByStart(s[1..], descending), descending)
  }

  /** The rows of one room (`WHERE room_id = $1`), in table order. */
  function OfRoom(rows: seq<Booking>, roomId: Id): seq<Booking>
  {
    Filter(rows, (b: Booking) => b.roomId == roomId)
  }

  /** The rows of one user (`WHERE user_id = $1`), in table order. */
  function OfUser(rows: seq<Booking>, userId: Id): seq<Booking>
  {
    Filter(rows, (b: Booking) => b.userId == userId)
  }

  // ---------------------------------------------------------------------------
  // The table and its handlers
  // ---------------------------------------------------------------------------

  class BookingTable {
    var rows: seq<Booking>
    /** The id the database generates for the next insert. */
    var nextId: nat

    /** Ids are unique and below the next generated one, and no two bookings
        of one room overlap. */
    ghost predicate Valid()
      reads this
    {
      Rows.UniqueKeys(rows, BookingId) && Rows.KeysBelow(rows, BookingId, nextId) && NoOverlap(rows)
    }

    constructor ()
      ensures Valid() && rows == []
    {
      rows := [];
      nextId := 0;
    }

    /** `addBooking`: the clash check, then the insert or the rollback. */
    method AddBooking(userId: Id, roomId: Id, start: int, end: int) returns (replies: seq<Reply>)
      requires Valid()
      modifies this
      ensures Valid()
      ensures HasClash(old(rows), roomId, start, end, None) ==>
                rows == old(rows) && replies == [Reply(409, "Slot already taken")]
      ensures !HasClash(old(rows), roomId, start, end, None) ==>
                rows == old(rows) + [Booking(old(nextId), userId, roomId, start, end)] &&
                replies == [Ok("booking added")]
    {
      if HasClash(rows, roomId, start, end, None) {
        replies := [Reply(409, "Slot already taken")];
        return;
      }
      var b := Booking(nextId, userId, roomId, start, end);
      InsertKeepsNoOverlap(rows, b);
      rows := rows + [b];
      nextId := nextId + 1;
      replies := [Ok("booking added")];
    }

    /** `updateBookingById`: read the row, run the clash check on the room and
        interval merged with `||`, then write the row merged with `??`/COALESCE. */
    method UpdateBooking(id: Id, patch: BookingPatch) returns (replies: seq<Reply>)
      requires Valid()
      modifies this
      ensures Valid() && nextId == old(nextId)
      ensures Rows.Find(old(rows), BookingId, id).None? ==>
                rows == old(rows) && replies == [Reply(404, "not found")]
      ensures Rows.Find(old(rows), BookingId, id).Some? ==>
                var k := Rows.Find(old(rows), BookingId, id).value;
                var t := ClashTarget(old(rows)[k], patch);
                if HasClash(old(rows), t.roomId, t.start, t.end, Some(id)) then
                  rows == old(rows) && replies == [Reply(409, "Clash detected")]
                else if HasFalsyField(patch) then
                  rows == old(rows) && replies == [Reply(500, InvalidInputSyntax)]
                else
                  rows == old(rows)[k := Merge(old(rows)[k], patch).value] && replies == [Ok("updated")]
    {
      var found := Rows.Find(rows, BookingId, id);
      if found.None? {
        replies := [Reply(404, "not found")];
        return;
      }
      var k := found.value;
      var current := rows[k];
      var t := ClashTarget(current, patch);
      if HasClash(rows, t.roomId, t.start, t.end, Some(id)) {
        replies := [Reply(409, "Clash detected")];
        return;
      }
      var merged := Merge(current, patch);
      if merged.None? {
        replies := [Reply(500, InvalidInputSyntax)];
        return;
      }
      var next := merged.value;
      MergeAgreesWithClashTarget(current, patch);
      ReplaceKeepsNoOverlap(rows, k, next);
      rows := rows[k := next];
      replies := [Ok("updated")];
    }

    /** `deleteBookingById`. When no row matched, the handler sends "booking not
        found" and, having no `return`, goes on to send the success reply too. */
    method DeleteBooking(id: Id) returns (replies: seq<Reply>)
      requires Valid()
      modifies this
      ensures Valid() && nextId == old(nextId)
      ensures rows == Rows.Without(old(rows), BookingId, id)
      ensures Rows.Find(old(rows), BookingId, id).None? ==>
                replies == [Reply(400, "booking not found"), Ok("booking deleted")]
      ensures Rows.Find(old(rows), BookingId, id).Some? ==> replies == [Ok("booking deleted")]
    {
      var before := rows;
      rows := Rows.Without(rows, BookingId, id);
      Rows.WithoutShrinksIffFound(before, BookingId, id);
      WithoutKeepsNoOverlap(before, id);
      Rows.WithoutKeepsUniqueKeys(before, BookingId, id);
      Rows.WithoutKeepsKeysBelow(before, BookingId, BookingId, id, nextId);
      if |rows| == |before| {
        replies := [Reply(400, "booking not found"), Ok("booking deleted")];
      } else {
        replies := [Ok("booking deleted")];
      }
    }

    /** `getRoomBookingsByRoomId`, ordered by start time ascending. */
    function RoomBookings(roomId: Id): (r: seq<Booking>)
      reads this
      ensures Sorted(r, false)
      ensures multiset(r) == multiset(OfRoom(rows, roomId))
    {
      SortByStart(OfRoom(rows, roomId), false)
    }

    /** `getUserBookingsWithRoomsAndEquipmentsByUserId`, ordered by start time
        descending. */
    function UserBookings(userId: Id): (r: seq<Booking>)
      reads this
      ensures Sorted(r, true)
      ensures multiset(r) == multiset(OfUser(rows, userId))
    {
      SortByStart(OfUser(rows, userId), true)
    }
  }
}
