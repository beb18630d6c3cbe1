/**
 * The timestamp of a sync branch name, written with the date pattern `yyyyMdd-hhmmss`
 * (Sources/RepoToolsCore/Git.swift:45-50). A pattern field of n letters prints its number in
 * decimal with at least n digits, padding with zeros on the left; `hh` prints the hour on a
 * 12-hour clock (01 to 12).
 */
module DateFormat {
  import opened Sequences

  /** A wall-clock reading in the formatter's calendar and time zone; `hour` is 0-23. */
  datatype LocalTime = LocalTime(year: nat, month: nat, day: nat, hour: nat, minute: nat, second: nat) {
    predicate Valid() {
      1 <= month <= 12 && 1 <= day <= 31 && hour < 24 && minute < 60 && second < 60
    }
  }

  function DigitChar(d: nat): (c: char)
    requires d < 10
  {
    ('0' as int + d) as char
  }

  predicate IsDigit(c: char) {
    '0' <= c <= '9'
  }

  predicate AllDigits(s: string) {
    forall i :: 0 <= i < |s| ==> IsDigit(s[i])
  }

  /** The number a string of decimal digits denotes. */
  function DecimalValue(s: string): nat
    requires AllDigits(s)
  {
    if s == [] then 0 else 10 * DecimalValue(s[..|s| - 1]) + (s[|s| - 1] as int - '0' as int)
  }

  /** `n` in decimal with at least `width` digits: the rendering of a `width`-letter pattern field. */
  function Padded(n: nat, width: nat): string
    decreases n + width
  {
    if n < 10 && width <= 1 then [DigitChar(n)]
    else Padded(n / 10, if width == 0 then 0 else width - 1) + [DigitChar(n % 10)]
  }

  /** Reading the digits of a padded field back gives the number that was printed. */
  lemma {:induction false} PaddedRoundTrip(n: nat, width: nat)
    ensures AllDigits(Padded(n, width)) && DecimalValue(Padded(n, width)) == n
    decreases n + width
  {
    if n < 10 && width <= 1 {
    } else {
      var w := if width == 0 then 0 else width - 1;
      PaddedRoundTrip(n / 10, w);
      var s := Padded(n, width);
      assert s[..|s| - 1] == Padded(n / 10, w);
    }
  }

  /** A number below 10^width is printed with exactly `width` digits. */
  lemma {:induction false} PaddedWidth(n: nat, width: nat)
    requires 1 <= width && n < Pow10(width)
    ensures |Padded(n, width)| == width
    decreases width
  {
    if width > 1 {
      PaddedWidth(n / 10, width - 1);
    }
  }

  function Pow10(k: nat): nat {
    if k == 0 then 1 else 10 * Pow10(k - 1)
  }

  /** The `hh` field: hours 0 and 12 print as 12, others modulo 12. */
  function Hour12(hour: nat): (h: nat)
    ensures 1 <= h <= 12
    ensures h % 12 == hour % 12
  {
    if hour % 12 == 0 then 12 else hour % 12
  }

  /** The text of `yyyyMdd-hhmmss` for `t`. */
  function Timestamp(t: LocalTime): string {
    Padded(t.year, 4) + Padded(t.month, 1) + Padded(t.day, 2) + "-"
      + Padded(Hour12(t.hour), 2) + Padded(t.minute, 2) + Padded(t.second, 2)
  }

  /**
   * For years of at most four digits the timestamp determines the reading it was printed from,
   * except for the half of the day: `hh` keeps only the hour modulo 12.
   */
  lemma TimestampDeterminesReading(t1: LocalTime, t2: LocalTime)
    requires t1.Valid() && t2.Valid() && t1.year < 10000 && t2.year < 10000
    requires Timestamp(t1) == Timestamp(t2)
    ensures t1.year == t2.year && t1.month == t2.month && t1.day == t2.day
    ensures t1.hour % 12 == t2.hour % 12
    ensures t1.minute == t2.minute && t1.second == t2.second
  {
    var y1, m1, d1 := Padded(t1.year, 4), Padded(t1.month, 1), Padded(t1.day, 2);
    var h1, i1, s1 := Padded(Hour12(t1.hour), 2), Padded(t1.minute, 2), Padded(t1.second, 2);
    var y2, m2, d2 := Padded(t2.year, 4), Padded(t2.month, 1), Padded(t2.day, 2);
    var h2, i2, s2 := Padded(Hour12(t2.hour), 2), Padded(t2.minute, 2), Padded(t2.second, 2);
    PaddedWidth(t1.day, 2); PaddedWidth(t2.day, 2);
    PaddedWidth(Hour12(t1.hour), 2); PaddedWidth(Hour12(t2.hour), 2);
    PaddedWidth(t1.minute, 2); PaddedWidth(t2.minute, 2);
    PaddedWidth(t1.second, 2); PaddedWidth(t2.second, 2);
    PaddedWidth(t1.year, 4); PaddedWidth(t2.year, 4);
    SplitAtEnd(y1 + m1 + d1 + "-" + h1 + i1, s1, y2 + m2 + d2 + "-" + h2 + i2, s2);
    SplitAtEnd(y1 + m1 + d1 + "-" + h1, i1, y2 + m2 + d2 + "-" + h2, i2);
    SplitAtEnd(y1 + m1 + d1 + "-", h1, y2 + m2 + d2 + "-", h2);
    SplitAtEnd(y1 + m1 + d1, "-", y2 + m2 + d2, "-");
    SplitAtEnd(y1 + m1, d1, y2 + m2, d2);
    assert |m1| == |m2|;
    SplitAtEnd(y1, m1, y2, m2);
    PaddedRoundTrip(t1.year, 4); PaddedRoundTrip(t2.year, 4);
    PaddedRoundTrip(t1.month, 1); PaddedRoundTrip(t2.month, 1);
    PaddedRoundTrip(t1.day, 2); PaddedRoundTrip(t2.day, 2);
    PaddedRoundTrip(Hour12(t1.hour), 2); PaddedRoundTrip(Hour12(t2.hour), 2);
    PaddedRoundTrip(t1.minute, 2); PaddedRoundTrip(t2.minute, 2);
    PaddedRoundTrip(t1.second, 2); PaddedRoundTrip(t2.second, 2);
  }

  /**
   * The layout of a timestamp for a valid reading with a year of at most four digits: 14 or 15
   * characters as the month takes one or two digits, a `-` seven from the end, and the two
   * characters after it reading back as the hour on the 12-hour clock.
   */
  lemma TimestampShape(t: LocalTime)
    requires t.Valid() && t.year < 10000
    ensures var ts := Timestamp(t);
      && |ts| == (if t.month < 10 then 14 else 15)
      && ts[|ts| - 7] == '-'
      && AllDigits(ts[|ts| - 6..|ts| - 4]) && DecimalValue(ts[|ts| - 6..|ts| - 4]) == Hour12(t.hour)
  {
    var y, m, d := Padded(t.year, 4), Padded(t.month, 1), Padded(t.day, 2);
    var h, i, s := Padded(Hour12(t.hour), 2), Padded(t.minute, 2), Padded(t.second, 2);
    PaddedWidth(t.year, 4); PaddedWidth(t.day, 2); PaddedWidth(Hour12(t.hour), 2);
    PaddedWidth(t.minute, 2); PaddedWidth(t.second, 2);
    if t.month < 10 {
      PaddedWidth(t.month, 1);
    } else {
      assert t.month / 10 == 1;
      assert Padded(t.month / 10, 0) == [DigitChar(1)];
      assert m == Padded(t.month / 10, 0) + [DigitChar(t.month % 10)];
      assert |m| == 2;
    }
    PaddedRoundTrip(Hour12(t.hour), 2);
    var ts := Timestamp(t);
    var front := y + m + d + "-";
    assert ts == front + h + i + s;
    assert ts[|front| - 1] == '-';
    assert |front| == 7 + |m|;
    assert (front + h + i + s)[..|front| + 2] == front + h;
    assert ts[|front|..|front| + 2] == h;
  }

  /** Readings twelve hours apart print the same timestamp. */
  lemma TimestampTwelveHoursApart(t: LocalTime)
    requires t.Valid() && t.hour < 12
    ensures Timestamp(t) == Timestamp(t.(hour := t.hour + 12))
  {
  }

  /** The reading 2023-01-06 13:32:02 prints as `2023106-013202`. */
  lemma TimestampExample()
    ensures Timestamp(LocalTime(2023, 1, 6, 13, 32, 2)) == "2023106-013202"
  {
  }
}
