/** The date helpers: a JS `Date` seen through its local-time getters, as a
    record of integer components. */
module DateTime {
  import opened Text

  /** `getMonth()`: 0-based. */
  type Month = m: int | 0 <= m < 12

  /** `getDate()`. */
  type DayOfMonth = d: int | 1 <= d <= 31 witness 1

  type Hour = h: int | 0 <= h < 24

  /** Minutes or seconds. */
  type Sixty = m: int | 0 <= m < 60

  type Millis = ms: int | 0 <= ms < 1000

  datatype Date = Date(
    year: int,
    month: Month,
    day: DayOfMonth,
    hours: Hour,
    minutes: Sixty,
    seconds: Sixty,
    ms: Millis)

  /** `startOfDay(d)`: a copy with the time of day set to midnight. */
  function StartOfDay(d: Date): Date {
    d.(hours := 0, minutes := 0, seconds := 0, ms := 0)
  }

  /** `sameDay(a, b)`: same year, month and day of the month. */
  predicate SameDay(a: Date, b: Date) {
    a.year == b.year && a.month == b.month && a.day == b.day
  }

  /** The hour a 12-hour clock shows: 12 for midnight and noon. */
  function Hour12(h: Hour): nat {
    if h % 12 == 0 then 12 else h % 12
  }

  function Meridiem(h: Hour): string {
    if h >= 12 then "PM" else "AM"
  }

  /** `formatHM(date, use24h)`. */
  function FormatHM(d: Date, use24h: bool): string {
    var m := PadStart2(NatToString(d.minutes));
    if use24h then PadStart2(NatToString(d.hours)) + ":" + m
    else NatToString(Hour12(d.hours)) + ":" + m + " " + Meridiem(d.hours)
  }

  /** `yyyyMmDd(date)`: the year as `String` gives it, then the 1-based month
      and the day, each padded to two digits, joined by "-". */
  function YyyyMmDd(d: Date): string {
    IntToString(d.year) + "-" + PadStart2(NatToString(d.month + 1)) + "-" + PadStart2(NatToString(d.day))
  }

  // ----- startOfDay and sameDay -----

  /** `startOfDay` keeps the calendar day and zeroes the time of day; doing
      it twice is doing it once, and the result is on the same day. */
  lemma StartOfDayProperties(d: Date)
    ensures StartOfDay(d).year == d.year && StartOfDay(d).month == d.month && StartOfDay(d).day == d.day
    ensures StartOfDay(d).hours == 0 && StartOfDay(d).minutes == 0
    ensures StartOfDay(d).seconds == 0 && StartOfDay(d).ms == 0
    ensures StartOfDay(StartOfDay(d)) == StartOfDay(d)
    ensures SameDay(StartOfDay(d), d)
  {
  }

  /** `sameDay` is an equivalence. */
  lemma SameDayEquivalence(a: Date, b: Date, c: Date)
    ensures SameDay(a, a)
    ensures SameDay(a, b) ==> SameDay(b, a)
    ensures SameDay(a, b) && SameDay(b, c) ==> SameDay(a, c)
  {
  }

  /** Two dates are on the same day exactly when their midnights coincide,
      which is how the screens compare days. */
  lemma SameDayIffSameStart(a: Date, b: Date)
    ensures SameDay(a, b) <==> StartOfDay(a) == StartOfDay(b)
  {
  }

  // ----- formatHM -----

  /** The 12-hour hour is in 1..12 and, with the meridiem, gives back the
      hour: 0 shows as 12 AM and 12 as 12 PM. */
  lemma Hour12Recovers(h: Hour)
    ensures 1 <= Hour12(h) <= 12
    ensures Meridiem(h) == "PM" <==> h >= 12
    ensures Hour12(h) % 12 + (if Meridiem(h) == "PM" then 12 else 0) == h
    ensures h == 0 ==> Hour12(h) == 12 && Meridiem(h) == "AM"
    ensures h == 12 ==> Hour12(h) == 12 && Meridiem(h) == "PM"
  {
  }

  /** In 24-hour mode the text is "HH:MM": five characters, two digits that
      read back as the hour, a colon, two digits that read back as the
      minutes. */
  lemma Format24Shape(d: Date)
    ensures FormatHM(d, true) == TwoDigits(d.hours) + ":" + TwoDigits(d.minutes)
    ensures |FormatHM(d, true)| == 5 && FormatHM(d, true)[2] == ':'
    ensures AllDigits(FormatHM(d, true)[..2]) && AllDigits(FormatHM(d, true)[3..])
    ensures DecimalValue(FormatHM(d, true)[..2]) == d.hours
    ensures DecimalValue(FormatHM(d, true)[3..]) == d.minutes
  {
    Pad2OfSmall(d.hours);
    Pad2OfSmall(d.minutes);
    var r := FormatHM(d, true);
    assert r[..2] == TwoDigits(d.hours);
    assert r[3..] == TwoDigits(d.minutes);
  }

  /** The 24-hour text determines the time of day and is determined by it. */
  lemma Format24Injective(a: Date, b: Date)
    ensures FormatHM(a, true) == FormatHM(b, true) <==> a.hours == b.hours && a.minutes == b.minutes
  {
    Format24Shape(a);
    Format24Shape(b);
  }

  /** The 12-hour hour's text is one or two digits that read back as it. */
  lemma Hour12Text(h: Hour)
    ensures 1 <= |NatToString(Hour12(h))| <= 2
    ensures DecimalValue(NatToString(Hour12(h))) == Hour12(h)
  {
    var hh := Hour12(h);
    DecimalRoundTrip(hh);
    if hh >= 10 {
      assert NatToString(hh / 10) == [DigitChar(hh / 10)];
    }
  }

  /** Where the parts of "h:mm ap" sit, whatever the length of `h`. */
  lemma ClockParts(h: string, m: string, ap: string)
    requires |m| == 2 && |ap| == 2
    ensures var r := h + ([':'] + m + [' '] + ap);
      var k := |h|;
      |r| == k + 6 && r[..k] == h && r[k] == ':' && r[k + 1..k + 3] == m
      && r[k + 3] == ' ' && r[k + 4..] == ap
  {
    var tail := [':'] + m + [' '] + ap;
    var r := h + tail;
    var k := |h|;
    assert tail[1..3] == m && tail[4..] == ap;
    assert r[k..] == tail;
    assert r[k + 1..k + 3] == tail[1..3];
    assert r[k + 4..] == tail[4..];
  }

  /** In 12-hour mode the text is the unpadded 12-hour hour, a colon, the
      same two minute digits as in 24-hour mode, a space and the meridiem;
      `k` is the length of the hour part. */
  lemma Format12Shape(d: Date)
    ensures var r := FormatHM(d, false);
      var k := |r| - 6;
      1 <= k <= 2
      && r[..k] == NatToString(Hour12(d.hours))
      && DecimalValue(r[..k]) == Hour12(d.hours)
      && r[k] == ':'
      && r[k + 1..k + 3] == TwoDigits(d.minutes)
      && r[k + 1..k + 3] == FormatHM(d, true)[3..]
      && r[k + 3] == ' '
      && r[k + 4..] == Meridiem(d.hours)
  {
    Pad2OfSmall(d.minutes);
    Format24Shape(d);
    Hour12Text(d.hours);
    var h := NatToString(Hour12(d.hours));
    var m := TwoDigits(d.minutes);
    var ap := Meridiem(d.hours);
    assert FormatHM(d, false) == h + ([':'] + m + [' '] + ap);
    ClockParts(h, m, ap);
  }

  // ----- yyyyMmDd -----

  /** The key is the year's text, "-", two digits that read back as the
      1-based month, "-", two digits that read back as the day. */
  lemma YmdShape(d: Date)
    ensures var r := YyyyMmDd(d);
      |r| >= 7
      && r[..|r| - 6] == IntToString(d.year)
      && r[|r| - 6] == '-' && r[|r| - 3] == '-'
      && r[|r| - 5..|r| - 3] == TwoDigits(d.month + 1)
      && r[|r| - 2..] == TwoDigits(d.day)
      && DecimalValue(r[|r| - 5..|r| - 3]) == d.month + 1
      && DecimalValue(r[|r| - 2..]) == d.day
  {
    Pad2OfSmall(d.month + 1);
    Pad2OfSmall(d.day);
    var y := IntToString(d.year);
    var r := YyyyMmDd(d);
    assert r == y + "-" + TwoDigits(d.month + 1) + "-" + TwoDigits(d.day);
    assert r[..|r| - 6] == y;
    assert r[|r| - 5..|r| - 3] == TwoDigits(d.month + 1);
    assert r[|r| - 2..] == TwoDigits(d.day);
  }

  /** The part of the key after the year: "-MM-DD". */
  function DayTail(d: Date): string {
    "-" + PadStart2(NatToString(d.month + 1)) + "-" + PadStart2(NatToString(d.day))
  }

  lemma YmdSplit(d: Date)
    ensures YyyyMmDd(d) == IntToString(d.year) + DayTail(d)
    ensures DayTail(d) == "-" + TwoDigits(d.month + 1) + "-" + TwoDigits(d.day)
    ensures |DayTail(d)| == 6
  {
    Pad2OfSmall(d.month + 1);
    Pad2OfSmall(d.day);
  }

  /** "-MM-DD" determines the month and the day. */
  lemma DayTailDetermines(a: Date, b: Date)
    requires DayTail(a) == DayTail(b)
    ensures a.month == b.month && a.day == b.day
  {
    YmdSplit(a);
    YmdSplit(b);
    var t := DayTail(a);
    assert t[1..3] == TwoDigits(a.month + 1) == TwoDigits(b.month + 1);
    assert t[4..] == TwoDigits(a.day) == TwoDigits(b.day);
    Pad2OfSmall(a.month + 1);
    Pad2OfSmall(b.month + 1);
    Pad2OfSmall(a.day);
    Pad2OfSmall(b.day);
  }

  /** Two dates have the same key exactly when they are on the same day. */
  lemma YmdKeyIffSameDay(a: Date, b: Date)
    ensures YyyyMmDd(a) == YyyyMmDd(b) <==> SameDay(a, b)
  {
    if YyyyMmDd(a) == YyyyMmDd(b) {
      YmdKeyDeterminesDay(a, b);
    }
  }

  /** The key reads back as the year, month and day it was made from. */
  lemma YmdKeyDeterminesDay(a: Date, b: Date)
    requires YyyyMmDd(a) == YyyyMmDd(b)
    ensures SameDay(a, b)
  {
    YmdSplit(a);
    YmdSplit(b);
    var r := YyyyMmDd(a);
    var n := |r|;
    var ya, yb := IntToString(a.year), IntToString(b.year);
    assert |ya| == n - 6 == |yb|;
    assert r[..n - 6] == ya && r[..n - 6] == yb;
    assert r[n - 6..] == DayTail(a) && r[n - 6..] == DayTail(b);
    IntToStringInjective(a.year, b.year);
    DayTailDetermines(a, b);
  }
}
