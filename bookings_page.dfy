/** The signed-in user's bookings page
    (frontendApp/src/components/BookingsPage.jsx): the split of the list
    into upcoming and past bookings, and the edit dialog that re-times a
    booking with a PATCH request. The Intl formatting of a booking's start
    and end in Singapore time, the date picker and the request are oracle
    inputs. */
module BookingsPage {
  import opened JsCore
  import opened TimeOfDay
  import SharedFetch

  /** The latest end time the dialog accepts and the longest booking, in
      minutes. */
  const DayEnd: int := 18 * 60
  const MaxDuration: int := 120

  // ---------------------------------------------------------------------------
  // Upcoming and past bookings
  // ---------------------------------------------------------------------------

  /** A booking of the list with `Date.parse(b.start_time)`; None where the
      text does not parse (NaN). */
  datatype Row = Row(bookingId: Json, start: Option<int>)

  /** The test of `upcomingBookings`: an unparseable start counts as upcoming. */
  predicate IsUpcoming(b: Row, nowMs: int)
  {
    b.start.None? || b.start.value >= nowMs
  }

  /** The test of `pastBookings`: only a parseable start before now. */
  predicate IsPast(b: Row, nowMs: int)
  {
    b.start.Some? && b.start.value < nowMs
  }

  function Upcoming(rows: seq<Row>, nowMs: int): seq<Row>
  {
    Filter(rows, (b: Row) => IsUpcoming(b, nowMs))
  }

  function Past(rows: seq<Row>, nowMs: int): seq<Row>
  {
    Filter(rows, (b: Row) => IsPast(b, nowMs))
  }

  /** The two lists split the bookings: each booking is shown in exactly one
      of them, and one whose start does not parse is shown as upcoming. */
  lemma UpcomingAndPastSplit(rows: seq<Row>, nowMs: int)
    ensures multiset(Upcoming(rows, nowMs)) + multiset(Past(rows, nowMs)) == multiset(rows)
    ensures forall i :: 0 <= i < |rows| && rows[i].start.None? ==>
              rows[i] in Upcoming(rows, nowMs) && rows[i] !in Past(rows, nowMs)
  {
    FilterSplits(rows, (b: Row) => IsUpcoming(b, nowMs), (b: Row) => IsPast(b, nowMs));
  }

  /** Both lists keep the server's order: the lists of two consecutive parts
      of the bookings are the parts' lists one after the other. */
  lemma SplitKeepsOrder(a: seq<Row>, b: seq<Row>, nowMs: int)
    ensures Upcoming(a + b, nowMs) == Upcoming(a, nowMs) + Upcoming(b, nowMs)
    ensures Past(a + b, nowMs) == Past(a, nowMs) + Past(b, nowMs)
  {
    FilterAppend(a, b, (r: Row) => IsUpcoming(r, nowMs));
    FilterAppend(a, b, (r: Row) => IsPast(r, nowMs));
  }

  // ---------------------------------------------------------------------------
  // The edit dialog
  // ---------------------------------------------------------------------------

  /** `Math.min(120, Math.max(30, endMins - startMins))`. */
  function ClampDuration(span: int): (r: int)
    ensures 30 <= r <= MaxDuration
    ensures 30 <= span <= MaxDuration ==> r == span
    ensures span < 30 ==> r == 30
    ensures span > MaxDuration ==> r == MaxDuration
  {
    if span > MaxDuration then MaxDuration else if span < 30 then 30 else span
  }

  /** The body of PATCH /bookings/:id: only the two instants. */
  datatype PatchRequest = PatchRequest(bookingId: Json, startUtc: int, endUtc: int)

  /** The choices of the duration select. */
  predicate DurationChoice(d: int)
  {
    d == 30 || d == 60 || d == 90 || d == 120
  }

  class EditDialog {
    /** The booking being edited (`editing`); None when the dialog is closed. */
    var editing: Option<Json>
    /** `Date.UTC` of the date in the dialog's date picker. */
    var dayUtcMs: int
    var editStart: int
    var editDuration: int
    var status: string
    var isError: bool
    /** The updates the dialog has sent, oldest first. */
    var sent: seq<PatchRequest>

    /** The start is a time of day and the duration at least half an hour,
        and every update sent moves a booking to an interval of half an hour
        to two hours. */
    ghost predicate Valid()
      reads this
    {
      editStart >= 0 && editDuration >= 30 &&
      forall i :: 0 <= i < |sent| ==> 30 * 60000 <= sent[i].endUtc - sent[i].startUtc <= MaxDuration * 60000
    }

    constructor ()
      ensures Valid()
      ensures editing == None && status == "" && !isError && sent == []
      ensures editStart == 8 * 60 && editDuration == 30
    {
      editing := None;
      dayUtcMs := 0;
      editStart := 8 * 60;
      editDuration := 30;
      status := "";
      isError := false;
      sent := [];
    }

    /** `openEdit`: the date and the times of the booking in Singapore time
        (`startMins` and `endMins`, minutes after midnight) fill the dialog,
        with the duration clamped to half an hour .. two hours. */
    method OpenEdit(bookingId: Json, day: int, startMins: int, endMins: int)
      requires Valid()
      requires 0 <= startMins < 24 * 60 && 0 <= endMins < 24 * 60
      modifies this
      ensures Valid() && sent == old(sent)
      ensures editing == Some(bookingId) && status == "" && !isError && dayUtcMs == day
      ensures editStart == startMins && editDuration == ClampDuration(endMins - startMins)
    {
      editing := Some(bookingId);
      status := "";
      isError := false;
      dayUtcMs := day;
      editStart := startMins;
      editDuration := ClampDuration(endMins - startMins);
    }

    /** `setEditStart(Number(e.target.value))`, from the select's times. */
    method ChooseStart(m: int)
      requires Valid() && m >= 0
      modifies this
      ensures Valid()
      ensures editStart == m && editDuration == old(editDuration) && dayUtcMs == old(dayUtcMs)
      ensures editing == old(editing) && status == old(status) && isError == old(isError) && sent == old(sent)
    {
      editStart := m;
    }

    /** `setEditDuration(Number(e.target.value))`, from the select's choices. */
    method ChooseDuration(d: int)
      requires Valid() && DurationChoice(d)
      modifies this
      ensures Valid()
      ensures editDuration == d && editStart == old(editStart) && dayUtcMs == old(dayUtcMs)
      ensures editing == old(editing) && status == old(status) && isError == old(isError) && sent == old(sent)
    {
      editDuration := d;
    }

    /** `onEditDialogClose`. */
    method Close()
      requires Valid()
      modifies this
      ensures Valid()
      ensures editing == None && status == "" && !isError
      ensures editStart == old(editStart) && editDuration == old(editDuration) && dayUtcMs == old(dayUtcMs)
      ensures sent == old(sent)
    {
      editing := None;
      status := "";
      isError := false;
    }

    /** `saveEdit`: nothing without an open dialog; an end after 18:00 and a
        duration over two hours are refused in that order; otherwise the new
        interval is sent, a failure is shown as an error and a success closes
        the dialog. The start time itself is not checked. */
    method SaveEdit(outcome: SharedFetch.FetchResult)
      requires Valid()
      modifies this
      ensures Valid()
      ensures editStart == old(editStart) && editDuration == old(editDuration) && dayUtcMs == old(dayUtcMs)
      ensures var end := editStart + editDuration;
              if old(editing).None? then
                editing == old(editing) && status == old(status) && isError == old(isError) && sent == old(sent)
              else if end > DayEnd then
                editing == old(editing) && isError && status == "End time must be 18:00 or earlier" && sent == old(sent)
              else if editDuration > MaxDuration then
                editing == old(editing) && isError && status == "Booking duration must be 2 hours or less" &&
                sent == old(sent)
              else
                sent == old(sent) +
                  [PatchRequest(old(editing).value, SgToUtcMs(dayUtcMs, editStart), SgToUtcMs(dayUtcMs, end))] &&
                if outcome.Failure? then
                  editing == old(editing) && isError &&
                  status == JsString(Or(Some(outcome.msg), Str("Update failed")))
                else
                  editing == None && status == "" && !isError
    {
      if editing.None? {
        return;
      }
      var end := editStart + editDuration;
      if end > DayEnd {
        isError := true;
        status := "End time must be 18:00 or earlier";
        return;
      }
      if editDuration > MaxDuration {
        isError := true;
        status := "Booking duration must be 2 hours or less";
        return;
      }
      var startUtc := SgToUtcMs(dayUtcMs, editStart);
      var endUtc := SgToUtcMs(dayUtcMs, end);
      SgToUtcMsSpan(dayUtcMs, editStart, end);
      sent := sent + [PatchRequest(editing.value, startUtc, endUtc)];
      if outcome.Failure? {
        isError := true;
        status := JsString(Or(Some(outcome.msg), Str("Update failed")));
        return;
      }
      editing := None;
      status := "";
      isError := false;
    }
  }
}
