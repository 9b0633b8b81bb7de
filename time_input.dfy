/** The "HH:MM" input normalisers of the settings screens. Three screens
    strip every non-digit and split off the last two digits as minutes; the
    oldest one matches the text against `^(\d{1,2}):?(\d{2})$`. Both clamp
    the hour to 0..23 and the minute to 0..59 and pad each to two digits;
    input they cannot read leaves the current value in place. */
module TimeInput {
  import opened Wrappers
  import opened Text

  function Min(a: int, b: int): int {
    if a <= b then a else b
  }

  function Max(a: int, b: int): int {
    if a >= b then a else b
  }

  /** `${String(hh).padStart(2, "0")}:${String(mm).padStart(2, "0")}`. */
  function FormatClock(hh: nat, mm: nat): string {
    PadStart2(NatToString(hh)) + ":" + PadStart2(NatToString(mm))
  }

  /** A well-formed 24-hour "HH:MM" text. */
  predicate IsClock(r: string) {
    |r| == 5 && r[2] == ':' && AllDigits(r[..2]) && AllDigits(r[3..])
    && DecimalValue(r[..2]) <= 23 && DecimalValue(r[3..]) <= 59
  }

  function ClockHour(r: string): nat
    requires IsClock(r)
  {
    DecimalValue(r[..2])
  }

  function ClockMinute(r: string): nat
    requires IsClock(r)
  {
    DecimalValue(r[3..])
  }

  /** Formatting an hour and a minute in range gives a clock text that reads
      back as them. */
  lemma FormatClockReadsBack(hh: nat, mm: nat)
    requires hh <= 23 && mm <= 59
    ensures IsClock(FormatClock(hh, mm))
    ensures ClockHour(FormatClock(hh, mm)) == hh && ClockMinute(FormatClock(hh, mm)) == mm
  {
    Pad2OfSmall(hh);
    Pad2OfSmall(mm);
    var r := FormatClock(hh, mm);
    assert r[..2] == TwoDigits(hh) && r[3..] == TwoDigits(mm);
  }

  /** Every clock text is the formatting of its own hour and minute. */
  lemma ClockIsFormatted(r: string)
    requires IsClock(r)
    ensures FormatClock(ClockHour(r), ClockMinute(r)) == r
  {
    TwoDigitsOfValue(r[..2]);
    TwoDigitsOfValue(r[3..]);
    Pad2OfSmall(ClockHour(r));
    Pad2OfSmall(ClockMinute(r));
    assert r == r[..2] + ":" + r[3..];
  }

  // ----- digit stripping (later screens) -----

  /** `normalizeHHMM(current, incoming)`, and `TimeField.normalize` with the
      field's value as `current`. */
  function NormalizeDigits(current: string, incoming: string): string {
    var s := Digits(incoming);
    if |s| < 3 then current
    else
      FormatClock(
        Max(0, Min(23, DecimalValue(s[..|s| - 2]))),
        Max(0, Min(59, DecimalValue(s[|s| - 2..]))))
  }

  /** Fewer than three digits keep the current value; otherwise the result
      is a clock whose hour is the value of all digits but the last two,
      capped at 23, and whose minute is the value of the last two, capped at
      59. */
  lemma NormalizeDigitsResult(current: string, incoming: string)
    ensures var s := Digits(incoming);
      |s| < 3 ==> NormalizeDigits(current, incoming) == current
    ensures var s := Digits(incoming);
      var r := NormalizeDigits(current, incoming);
      |s| >= 3 ==>
        IsClock(r)
        && ClockHour(r) == Min(23, DecimalValue(s[..|s| - 2]))
        && ClockMinute(r) == Min(59, DecimalValue(s[|s| - 2..]))
  {
    var s := Digits(incoming);
    if |s| >= 3 {
      FormatClockReadsBack(Min(23, DecimalValue(s[..|s| - 2])), Min(59, DecimalValue(s[|s| - 2..])));
    }
  }

  /** Only the digits of the input matter. */
  lemma NormalizeDigitsIgnoresOthers(current: string, incoming: string)
    ensures NormalizeDigits(current, incoming) == NormalizeDigits(current, Digits(incoming))
  {
    DigitsOfDigits(Digits(incoming));
  }

  lemma {:induction false} DigitsOfNone(s: string)
    requires forall i :: 0 <= i < |s| ==> !IsDigit(s[i])
    ensures Digits(s) == []
  {
    if s != [] {
      DigitsOfNone(s[1..]);
    }
  }

  /** The screens trim the text before normalising it; trimming removes no
      digit, so it makes no difference. */
  lemma TrimKeepsDigits(s: string)
    ensures Digits(Trim(s)) == Digits(s)
  {
    TrimIsInfix(s);
    var a := LeadingWhitespace(s);
    var b := a + |Trim(s)|;
    assert s == s[..a] + Trim(s) + s[b..];
    DigitsOfNone(s[..a]);
    DigitsOfNone(s[b..]);
    DigitsAppend(s[..a] + Trim(s), s[b..]);
    DigitsAppend(s[..a], Trim(s));
  }

  /** An already valid clock text is left as it is. */
  lemma NormalizeDigitsFixesClock(current: string, r: string)
    requires IsClock(r)
    ensures NormalizeDigits(current, r) == r
  {
    var h, m := r[..2], r[3..];
    assert r == h + [':'] + m;
    DigitsAppend(h + [':'], m);
    DigitsAppend(h, [':']);
    DigitsOfDigits(h);
    DigitsOfDigits(m);
    var s := Digits(r);
    assert s == h + m;
    assert s[..|s| - 2] == h && s[|s| - 2..] == m;
    ClockIsFormatted(r);
  }

  /** The screens' example values: "9" and "30" read as 9 and 30, and
      9:30 is written "09:30". */
  lemma NineThirty()
    ensures DecimalValue("9") == 9 && DecimalValue("30") == 30
    ensures FormatClock(9, 30) == "09:30"
  {
    assert "9"[..0] == [];
    assert "30"[..1] == "3" && "3"[..0] == [];
    Pad2OfSmall(9);
    Pad2OfSmall(30);
  }

  /** Trimming the input before normalising it makes no difference. */
  lemma NormalizeDigitsOfTrim(current: string, text: string)
    ensures NormalizeDigits(current, Trim(text)) == NormalizeDigits(current, text)
  {
    TrimKeepsDigits(text);
  }

  /** "930" becomes "09:30". */
  lemma NormalizeDigitsExample(current: string)
    ensures NormalizeDigits(current, "930") == "09:30"
  {
    var s := "930";
    DigitsOfDigits(s);
    assert s[..1] == "9" && s[1..] == "30";
    NineThirty();
  }

  // ----- pattern matching (oldest screen) -----

  /** `s.match(/^(\d{1,2}):?(\d{2})$/)`: the hour and minute groups, or None
      when the text does not match. */
  function MatchHHMM(s: string): (m: Option<(string, string)>)
    ensures m.Some? ==> AllDigits(m.value.0) && 1 <= |m.value.0| <= 2
    ensures m.Some? ==> AllDigits(m.value.1) && |m.value.1| == 2
  {
    if |s| == 3 && AllDigits(s) then Some((s[..1], s[1..]))
    else if |s| == 4 && AllDigits(s) then Some((s[..2], s[2..]))
    else if |s| == 4 && IsDigit(s[0]) && s[1] == ':' && AllDigits(s[2..]) then Some((s[..1], s[2..]))
    else if |s| == 5 && AllDigits(s[..2]) && s[2] == ':' && AllDigits(s[3..]) then Some((s[..2], s[3..]))
    else None
  }

  /** The pattern's language, written as its parts: one or two digits, an
      optional colon, two digits. */
  predicate PatternParts(h: string, sep: string, m: string) {
    1 <= |h| <= 2 && AllDigits(h) && (sep == "" || sep == ":") && |m| == 2 && AllDigits(m)
  }

  /** A match splits the text into the pattern's parts. */
  lemma MatchSound(s: string)
    requires MatchHHMM(s).Some?
    ensures var (h, m) := MatchHHMM(s).value;
      PatternParts(h, "", m) && (s == h + m || s == h + ":" + m)
  {
    var (h, m) := MatchHHMM(s).value;
    if |s| == 5 || (|s| == 4 && !AllDigits(s)) {
      assert s == h + ":" + m;
    } else {
      assert s == h + m;
    }
  }

  /** Every text made of the pattern's parts matches, with those parts as
      the groups. */
  lemma MatchComplete(h: string, sep: string, m: string)
    requires PatternParts(h, sep, m)
    ensures MatchHHMM(h + sep + m) == Some((h, m))
  {
    var s := h + sep + m;
    if sep == ":" {
      assert !IsDigit(s[|h|]);
      assert !AllDigits(s);
      if |h| == 1 {
        assert s[..1] == h && s[2..] == m;
      } else {
        assert s[..2] == h && s[3..] == m;
      }
    } else {
      assert s == h + m;
      if |h| == 1 {
        assert s[..1] == h && s[1..] == m;
      } else {
        assert s[..2] == h && s[2..] == m;
      }
    }
  }

  /** The oldest screen's `TimeField.normalize`. */
  function NormalizePattern(current: string, s: string): string {
    match MatchHHMM(s)
    case None => current
    case Some((h, m)) =>
      FormatClock(Max(0, Min(23, DecimalValue(h))), Max(0, Min(59, DecimalValue(m))))
  }

  /** Text that does not match keeps the current value; a match gives a
      clock whose hour and minute are the groups' values, capped. */
  lemma NormalizePatternResult(current: string, s: string)
    ensures MatchHHMM(s).None? ==> NormalizePattern(current, s) == current
    ensures MatchHHMM(s).Some? ==>
      var (h, m) := MatchHHMM(s).value;
      var r := NormalizePattern(current, s);
      IsClock(r) && ClockHour(r) == Min(23, DecimalValue(h)) && ClockMinute(r) == Min(59, DecimalValue(m))
  {
    if MatchHHMM(s).Some? {
      var (h, m) := MatchHHMM(s).value;
      FormatClockReadsBack(Min(23, DecimalValue(h)), Min(59, DecimalValue(m)));
    }
  }

  /** On every text the pattern accepts, the two normalisers agree. */
  lemma PatternAgreesWithDigits(current: string, s: string)
    requires MatchHHMM(s).Some?
    ensures NormalizePattern(current, s) == NormalizeDigits(current, s)
  {
    var (h, m) := MatchHHMM(s).value;
    MatchSound(s);
    DigitsOfDigits(h);
    DigitsOfDigits(m);
    if s == h + m {
      DigitsAppend(h, m);
    } else {
      assert s == (h + ":") + m;
      DigitsAppend(h + ":", m);
      DigitsAppend(h, ":");
    }
    var d := Digits(s);
    assert d == h + m;
    assert d[..|d| - 2] == h && d[|d| - 2..] == m;
  }

  /** "9:30" and "930" both become "09:30"; "12345", which the digit
      stripping reads as 23:45, is not a match and keeps the current
      value. */
  lemma NormalizePatternExamples(current: string)
    ensures NormalizePattern(current, "9:30") == "09:30"
    ensures NormalizePattern(current, "930") == "09:30"
    ensures NormalizePattern(current, "12345") == current
  {
    MatchComplete("9", ":", "30");
    MatchComplete("9", "", "30");
    assert "9" + ":" + "30" == "9:30" && "9" + "" + "30" == "930";
    NineThirty();
  }
}
