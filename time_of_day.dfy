/** Clock arithmetic shared by the booking pages
    (frontendApp/src/components/RoomDetailsPage.jsx and BookingsPage.jsx
    each carry their own copy): minutes after midnight rendered as "HH:MM",
    the Singapore wall-clock time converted to a UTC instant, and the
    half-hourly lists of times offered in the selects. */
module TimeOfDay {
  import opened JsCore

  /** JavaScript's `a % b` for a positive `b`: the remainder truncates toward
      zero, so it takes the sign of `a`. */
  function JsRem(a: int, b: int): (r: int)
    requires b > 0
    ensures -b < r < b
    ensures a >= 0 ==> r == a % b
    ensures a <= 0 ==> r <= 0
  {
    if a >= 0 then a % b else -((-a) % b)
  }

  /** `String(n).padStart(2, "0")`. */
  function Pad2(n: int): (s: string)
    ensures |s| >= 2
  {
    var t := IntToString(n);
    if |t| >= 2 then t else "0" + t
  }

  /** Below 100, `pad2` gives exactly two decimal digits that read back as `n`. */
  lemma Pad2RoundTrip(n: int)
    requires 0 <= n < 100
    ensures |Pad2(n)| == 2 && IsDigit(Pad2(n)[0]) && IsDigit(Pad2(n)[1])
    ensures DigitsValue(Pad2(n)) == n
  {
    var t := NatToString(n);
    NatToStringRoundTrip(n);
    if n >= 10 {
      assert t[..|t| - 1] == NatToString(n / 10);
    } else {
      var s := "0" + t;
      assert s[..1] == "0";
      assert DigitsValue(s[..1]) == 0 by {
        assert s[..1][..0] == [];
      }
    }
  }

  /** `minutesToLabel`: `pad2(Math.floor(mins / 60)) + ":" + pad2(mins % 60)`. */
  function MinutesToLabel(mins: int): (r: string)
    ensures |r| >= 5
  {
    Pad2(mins / 60) + ":" + Pad2(JsRem(mins, 60))
  }

  /** Within a day the label is "HH:MM" in the 24-hour clock, and reading its
      two fields back gives the hour and the minute it was made from. */
  lemma LabelRoundTrip(mins: int)
    requires 0 <= mins < 24 * 60
    ensures var l := MinutesToLabel(mins);
            |l| == 5 && l[2] == ':' &&
            IsDigit(l[0]) && IsDigit(l[1]) && IsDigit(l[3]) && IsDigit(l[4]) &&
            DigitsValue(l[..2]) == mins / 60 && DigitsValue(l[3..]) == mins % 60 &&
            DigitsValue(l[..2]) < 24 && DigitsValue(l[3..]) < 60
  {
    var l := MinutesToLabel(mins);
    Pad2RoundTrip(mins / 60);
    Pad2RoundTrip(mins % 60);
    assert l[..2] == Pad2(mins / 60);
    assert l[3..] == Pad2(mins % 60);
  }

  /** Two different times of the same day never share a label. */
  lemma LabelInjective(a: int, b: int)
    requires 0 <= a < 24 * 60 && 0 <= b < 24 * 60
    requires MinutesToLabel(a) == MinutesToLabel(b)
    ensures a == b
  {
    LabelRoundTrip(a);
    LabelRoundTrip(b);
  }

  /** `sgDateTimeToUtcMs`: `Date.UTC(y, m - 1, d, hours - 8, minutes)` with the
      hours from `Math.floor(mins / 60)` and the minutes from `mins % 60`.
      `dayUtcMs` is `Date.UTC(y, m - 1, d)` for the selected date; the
      offset of eight hours is Singapore's, which has no daylight saving. */
  function SgToUtcMs(dayUtcMs: int, mins: int): int
  {
    dayUtcMs + (mins / 60 - 8) * 3600000 + JsRem(mins, 60) * 60000
  }

  /** For a time at or after midnight the conversion is the wall-clock
      minutes in milliseconds, shifted back by eight hours; in particular it
      is strictly increasing. */
  lemma SgToUtcMsLinear(dayUtcMs: int, mins: int)
    requires mins >= 0
    ensures SgToUtcMs(dayUtcMs, mins) == dayUtcMs + mins * 60000 - 8 * 3600000
  {
    var h, m := mins / 60, mins % 60;
    assert mins == h * 60 + m;
    calc {
      (h - 8) * 3600000 + m * 60000;
      60000 * (h * 60 + m) - 8 * 3600000;
    }
  }

  /** Later wall-clock times map to later instants, and `d` minutes apart on
      the clock are `d * 60000` milliseconds apart. */
  lemma SgToUtcMsSpan(dayUtcMs: int, a: int, b: int)
    requires 0 <= a && 0 <= b
    ensures SgToUtcMs(dayUtcMs, b) - SgToUtcMs(dayUtcMs, a) == (b - a) * 60000
    ensures a < b <==> SgToUtcMs(dayUtcMs, a) < SgToUtcMs(dayUtcMs, b)
  {
    SgToUtcMsLinear(dayUtcMs, a);
    SgToUtcMsLinear(dayUtcMs, b);
  }

  /** An entry of a time select, `{ value: m, label: minutesToLabel(m) }`;
      the label is always derived from the value. */
  datatype TimeOption = TimeOption(value: int)
  {
    function Label(): string
    {
      MinutesToLabel(value)
    }
  }

  /** The options from `m` on, every 30 minutes, while the time is at most `last`. */
  function OptionsFrom(m: int, last: int): seq<TimeOption>
    decreases last - m
  {
    if m > last then [] else [TimeOption(m)] + OptionsFrom(m + 30, last)
  }

  /** The loop `for (let m = 8 * 60; m <= last; m += 30) opts.push(...)`. */
  method HalfHourOptions(last: int) returns (opts: seq<TimeOption>)
    ensures opts == OptionsFrom(8 * 60, last)
  {
    opts := [];
    var m := 8 * 60;
    while m <= last
      invariant opts + OptionsFrom(m, last) == OptionsFrom(8 * 60, last)
      decreases last - m
    {
      opts := opts + [TimeOption(m)];
      m := m + 30;
    }
  }

  /** The options are every half hour from `m` up to `last`, in order. */
  lemma {:induction false} OptionsShape(m: int, last: int)
    ensures var r := OptionsFrom(m, last);
            |r| == (if m > last then 0 else (last - m) / 30 + 1) &&
            forall i :: 0 <= i < |r| ==> r[i] == TimeOption(m + 30 * i)
    decreases last - m
  {
    if m <= last {
      OptionsShape(m + 30, last);
      var r := OptionsFrom(m, last);
      assert forall i :: 1 <= i < |r| ==> r[i] == OptionsFrom(m + 30, last)[i - 1];
    }
  }

  /** Keeping the options at or before `cut` is listing the options up to `cut`. */
  lemma {:induction false} OptionsCutoff(m: int, last: int, cut: int)
    requires cut <= last
    ensures Filter(OptionsFrom(m, last), (o: TimeOption) => o.value <= cut) == OptionsFrom(m, cut)
    decreases last - m
  {
    var r := OptionsFrom(m, last);
    if m <= last {
      assert r[1..] == OptionsFrom(m + 30, last);
      OptionsCutoff(m + 30, last, cut);
    }
  }

  /** The start times offered when booking a room: 08:00 to 17:30, twenty
      options. */
  lemma StartOptions(first: int, last: int)
    requires first == 8 * 60 && last == 17 * 60 + 30
    ensures var r := OptionsFrom(first, last);
            |r| == 20 && r[0].value == first && r[19].value == last
  {
    OptionsShape(first, last);
  }

  /** The times of the bookings page, 08:00 to 18:00 (twenty-one options);
      its start select keeps those up to 17:30, which are exactly the start
      times offered when booking a room. */
  lemma EditOptions(first: int, last: int, cut: int)
    requires first == 8 * 60 && last == 18 * 60 && cut == 17 * 60 + 30
    ensures var r := OptionsFrom(first, last);
            |r| == 21 && r[0].value == first && r[20].value == last
    ensures Filter(OptionsFrom(first, last), (o: TimeOption) => o.value <= cut) == OptionsFrom(first, cut)
  {
    OptionsShape(first, last);
    OptionsCutoff(first, last, cut);
  }
}
