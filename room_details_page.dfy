/** The room page (frontendApp/src/components/RoomDetailsPage.jsx): the grid
    of half-hour slots between 08:00 and 18:00 with the ones the room's
    bookings overlap marked as booked, and the booking form with its checks
    before the PUT request. The date picker's `Date.UTC(y, m - 1, d)` is the
    parameter `dayUtcMs`; the request itself is an oracle outcome. */
module RoomDetailsPage {
  import opened JsCore
  import opened TimeOfDay
  import Bookings
  import SharedFetch

  /** The bookable day, in minutes after midnight: 08:00 to 18:00. */
  const DayStart: int := 8 * 60
  const DayEnd: int := 18 * 60

  /** The longest booking the form accepts, in minutes. */
  const MaxDuration: int := 120

  // ---------------------------------------------------------------------------
  // The slot grid
  // ---------------------------------------------------------------------------

  /** `{ start, end }`, in minutes after midnight. */
  datatype Slot = Slot(start: int, end: int)

  /** The slots from `start` on, every 30 minutes, while they start before 18:00. */
  function SlotsFrom(start: int): seq<Slot>
    decreases DayEnd - start
  {
    if start >= DayEnd then [] else [Slot(start, start + 30)] + SlotsFrom(start + 30)
  }

  /** `buildSlots`: the loop `for (start = 8 * 60; start < 18 * 60; start += 30)`. */
  method BuildSlots() returns (slots: seq<Slot>)
    ensures slots == SlotsFrom(DayStart)
  {
    slots := [];
    var start := DayStart;
    while start < DayEnd
      invariant slots + SlotsFrom(start) == SlotsFrom(DayStart)
      decreases DayEnd - start
    {
      slots := slots + [Slot(start, start + 30)];
      start := start + 30;
    }
  }

  /** The index of the slot holding minute `t`. */
  function SlotIndex(t: int): int
  {
    (t - DayStart) / 30
  }

  lemma {:induction false} SlotsShape(start: int)
    requires DayStart <= start <= DayEnd && (start - DayStart) % 30 == 0
    ensures var r := SlotsFrom(start);
            |r| == (DayEnd - start) / 30 &&
            forall i :: 0 <= i < |r| ==> r[i] == Slot(start + 30 * i, start + 30 * i + 30)
    decreases DayEnd - start
  {
    if start < DayEnd {
      SlotsShape(start + 30);
      var r := SlotsFrom(start);
      assert forall i :: 1 <= i < |r| ==> r[i] == SlotsFrom(start + 30)[i - 1];
    }
  }

  /** The grid is twenty back-to-back half hours from 08:00 to 18:00: every
      minute of the bookable day lies in exactly one slot. */
  lemma SlotsTileTheDay(first: int)
    requires first == DayStart
    ensures var r := SlotsFrom(first);
            |r| == 20 && r[0].start == DayStart && r[19].end == DayEnd &&
            (forall i :: 0 <= i < |r| ==> r[i].end - r[i].start == 30) &&
            (forall i :: 0 <= i < |r| - 1 ==> r[i].end == r[i + 1].start) &&
            (forall t :: DayStart <= t < DayEnd ==>
               0 <= SlotIndex(t) < |r| && Bookings.Covers(r[SlotIndex(t)].start, r[SlotIndex(t)].end, t)) &&
            (forall i, t :: 0 <= i < |r| && Bookings.Covers(r[i].start, r[i].end, t) ==> i == SlotIndex(t))
  {
    SlotsShape(first);
  }

  // ---------------------------------------------------------------------------
  // Which slots are booked
  // ---------------------------------------------------------------------------

  /** A booking of the room's list as the page sees it: `Date.parse` of its
      start and end times, None where the text does not parse (NaN). */
  datatype Listed = Listed(start: Option<int>, end: Option<int>)

  /** `bStart < slotEndUtc && bEnd > slotStartUtc`; every comparison with NaN
      is false. */
  predicate OverlapsSlot(b: Listed, lo: int, hi: int)
  {
    b.start.Some? && b.end.Some? && Bookings.Overlaps(lo, hi, b.start.value, b.end.value)
  }

  /** `bookings.some(...)`. */
  function AnyOverlaps(bookings: seq<Listed>, lo: int, hi: int): (r: bool)
    ensures r <==> exists i :: 0 <= i < |bookings| && OverlapsSlot(bookings[i], lo, hi)
  {
    if bookings == [] then false
    else
      var rest := AnyOverlaps(bookings[1..], lo, hi);
      assert forall i :: 1 <= i < |bookings| ==> bookings[i] == bookings[1..][i - 1];
      OverlapsSlot(bookings[0], lo, hi) || rest
  }

  /** `isSlotBooked`: some listed booking overlaps the slot's UTC interval on
      the selected date. */
  function IsSlotBooked(dayUtcMs: int, slotStart: int, slotEnd: int, bookings: seq<Listed>): bool
  {
    AnyOverlaps(bookings, SgToUtcMs(dayUtcMs, slotStart), SgToUtcMs(dayUtcMs, slotEnd))
  }

  /** A row of the server's list as the page parses it back. */
  function Parsed(b: Bookings.Booking): Listed
  {
    Listed(Some(b.start), Some(b.end))
  }

  function ParsedAll(s: seq<Bookings.Booking>): seq<Listed>
  {
    seq(|s|, i requires 0 <= i < |s| => Parsed(s[i]))
  }

  /** When the page shows the room's bookings as the server lists them (any
      order of the room's rows), a slot is marked booked exactly when the
      server's clash check would refuse a booking of that slot. */
  lemma SlotBookedIffServerClash(rows: seq<Bookings.Booking>, room: Bookings.Id, listed: seq<Bookings.Booking>,
                                 dayUtcMs: int, slotStart: int, slotEnd: int)
    requires multiset(listed) == multiset(Bookings.OfRoom(rows, room))
    ensures IsSlotBooked(dayUtcMs, slotStart, slotEnd, ParsedAll(listed)) <==>
            Bookings.HasClash(rows, room, SgToUtcMs(dayUtcMs, slotStart), SgToUtcMs(dayUtcMs, slotEnd), None)
  {
    var lo, hi := SgToUtcMs(dayUtcMs, slotStart), SgToUtcMs(dayUtcMs, slotEnd);
    var shown := ParsedAll(listed);
    if IsSlotBooked(dayUtcMs, slotStart, slotEnd, shown) {
      var i :| 0 <= i < |shown| && OverlapsSlot(shown[i], lo, hi);
      var b := listed[i];
      assert b in multiset(Bookings.OfRoom(rows, room));
      assert b in rows;
      var j :| 0 <= j < |rows| && rows[j] == b;
      assert Bookings.Selected(rows[j], room, lo, hi, None);
    }
    if Bookings.HasClash(rows, room, lo, hi, None) {
      var j :| 0 <= j < |rows| && Bookings.Selected(rows[j], room, lo, hi, None);
      var b := rows[j];
      assert b in Bookings.OfRoom(rows, room);
      assert b in multiset(listed);
      var i :| 0 <= i < |listed| && listed[i] == b;
      assert OverlapsSlot(shown[i], lo, hi);
    }
  }

  /** A booking whose times do not parse never marks a slot. */
  lemma UnparsedNeverBooks(dayUtcMs: int, slotStart: int, slotEnd: int, b: Listed)
    requires b.start.None? || b.end.None?
    ensures !IsSlotBooked(dayUtcMs, slotStart, slotEnd, [b])
  {
  }

  // ---------------------------------------------------------------------------
  // The booking form
  // ---------------------------------------------------------------------------

  /** The body of the PUT /bookings request: the user and room ids as the page
      holds them and the two instants it renders as ISO strings. */
  datatype BookingRequest = BookingRequest(userId: Json, roomId: string, startUtc: int, endUtc: int)

  /** The choices of the duration select. */
  predicate DurationChoice(d: int)
  {
    d == 30 || d == 60 || d == 90 || d == 120
  }

  class BookingForm {
    var startMinutes: int
    var duration: int
    /** The text under the form (`bookingStatus`). */
    var status: string
    /** The booking requests the form has sent, oldest first. */
    var sent: seq<BookingRequest>

    /** The duration is at least the shortest choice of its select, and
        every request the form sent spans between half an hour and two hours. */
    ghost predicate Valid()
      reads this
    {
      duration >= 30 &&
      forall i :: 0 <= i < |sent| ==> 30 * 60000 <= sent[i].endUtc - sent[i].startUtc <= MaxDuration * 60000
    }

    constructor ()
      ensures Valid()
      ensures startMinutes == DayStart && duration == 30 && status == "" && sent == []
    {
      startMinutes := DayStart;
      duration := 30;
      status := "";
      sent := [];
    }

    /** `setStartMinutes(Number(e.target.value))`. */
    method ChooseStart(m: int)
      requires Valid()
      modifies this
      ensures Valid()
      ensures startMinutes == m && duration == old(duration) && status == old(status) && sent == old(sent)
    {
      startMinutes := m;
    }

    /** `setDuration(Number(e.target.value))`, from the select's choices. */
    method ChooseDuration(d: int)
      requires Valid() && DurationChoice(d)
      modifies this
      ensures Valid()
      ensures duration == d && startMinutes == old(startMinutes) && status == old(status) && sent == old(sent)
    {
      duration := d;
    }

    /** `submitBooking`. The checks run in order and the first that fails sets
        the status and sends nothing; otherwise one request for
        `[start, start + duration)` on the selected date is sent and its
        outcome sets the status. */
    method SubmitBooking(userId: Option<Json>, roomId: string, dayUtcMs: int, outcome: SharedFetch.FetchResult)
      requires Valid()
      modifies this
      ensures Valid()
      ensures startMinutes == old(startMinutes) && duration == old(duration)
      ensures var start, end := startMinutes, startMinutes + duration;
              if !Truthy(userId) then
                status == "Missing user id" && sent == old(sent)
              else if start < DayStart || start >= DayEnd then
                status == "Start time must be between 08:00 and 18:00" && sent == old(sent)
              else if end > DayEnd then
                status == "End time must be 18:00 or earlier" && sent == old(sent)
              else if duration > MaxDuration then
                status == "Booking duration must be 2 hours or less" && sent == old(sent)
              else
                sent == old(sent) + [BookingRequest(userId.value, roomId, SgToUtcMs(dayUtcMs, start), SgToUtcMs(dayUtcMs, end))] &&
                status == (if outcome.Failure? then JsString(Or(Some(outcome.msg), Str("Booking failed"))) else "Booking added")
      ensures |sent| == |old(sent)| + 1 ==>
                var r := sent[|sent| - 1];
                SgToUtcMs(dayUtcMs, DayStart) <= r.startUtc < r.endUtc <= SgToUtcMs(dayUtcMs, DayEnd) &&
                r.endUtc - r.startUtc == duration * 60000
    {
      status := "";
      if !Truthy(userId) {
        status := "Missing user id";
        return;
      }
      var endMinutes := startMinutes + duration;
      if startMinutes < DayStart || startMinutes >= DayEnd {
        status := "Start time must be between 08:00 and 18:00";
        return;
      }
      if endMinutes > DayEnd {
        status := "End time must be 18:00 or earlier";
        return;
      }
      if duration > MaxDuration {
        status := "Booking duration must be 2 hours or less";
        return;
      }
      var startUtc := SgToUtcMs(dayUtcMs, startMinutes);
      var endUtc := SgToUtcMs(dayUtcMs, endMinutes);
      SgToUtcMsSpan(dayUtcMs, startMinutes, endMinutes);
      SgToUtcMsSpan(dayUtcMs, DayStart, startMinutes);
      SgToUtcMsSpan(dayUtcMs, endMinutes, DayEnd);
      sent := sent + [BookingRequest(userId.value, roomId, startUtc, endUtc)];
      if outcome.Failure? {
        status := JsString(Or(Some(outcome.msg), Str("Booking failed")));
        return;
      }
      status := "Booking added";
    }
  }
}
