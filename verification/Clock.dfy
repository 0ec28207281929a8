/**
 UTC timestamps as the store keeps them: `datetime` values written with
 `isoformat()` and compared by SQLite as text.
 */
module Clock {

  datatype Fields = Fields(year: int, month: int, day: int,
                           hour: int, minute: int, second: int, micro: int)

  predicate IsLeap(y: int) {
    y % 4 == 0 && (y % 100 != 0 || y % 400 == 0)
  }

  function DaysInMonth(y: int, m: int): int {
    if m == 2 then (if IsLeap(y) then 29 else 28)
    else if m == 4 || m == 6 || m == 9 || m == 11 then 30
    else 31
  }

  predicate ValidFields(f: Fields) {
    && 1 <= f.year <= 9999
    && 1 <= f.month <= 12
    && 1 <= f.day <= DaysInMonth(f.year, f.month)
    && 0 <= f.hour < 24 && 0 <= f.minute < 60 && 0 <= f.second < 60
    && 0 <= f.micro < 1000000
  }

  /** Every Python `datetime` in UTC: years 1 to 9999, microsecond resolution. */
  type DateTime = f: Fields | ValidFields(f) witness Fields(1, 1, 1, 0, 0, 0, 0)

  // ---------- chronological order: microseconds since 0001-01-01 ----------

  function DaysBeforeYear(y: int): int {
    (y - 1) * 365 + (y - 1) / 4 - (y - 1) / 100 + (y - 1) / 400
  }

  function DaysBeforeMonth(y: int, m: int): int
    decreases m
  {
    if m <= 1 then 0 else DaysBeforeMonth(y, m - 1) + DaysInMonth(y, m - 1)
  }

  function DayNumber(t: DateTime): int {
    DaysBeforeYear(t.year) + DaysBeforeMonth(t.year, t.month) + t.day
  }

  function SecondOfDay(t: DateTime): int {
    (t.hour * 60 + t.minute) * 60 + t.second
  }

  function Instant(t: DateTime): int {
    (DayNumber(t) * 86400 + SecondOfDay(t)) * 1000000 + t.micro
  }

  predicate Before(a: DateTime, b: DateTime) {
    Instant(a) < Instant(b)
  }

  /** `until` is `now + timedelta(seconds=seconds)`. */
  predicate IsAfter(now: DateTime, seconds: int, until: DateTime) {
    Instant(until) == Instant(now) + seconds * 1000000
  }

  lemma {:induction false} MonthsAreOrdered(y: int, m: int, n: int)
    requires 1 <= m < n <= 12
    ensures DaysBeforeMonth(y, m) + DaysInMonth(y, m) <= DaysBeforeMonth(y, n)
  {
    if m + 1 < n { MonthsAreOrdered(y, m, n - 1); }
  }

  lemma WholeYear(y: int)
    ensures DaysBeforeMonth(y, 12) + 31 == 365 + (if IsLeap(y) then 1 else 0)
  {
    assert DaysBeforeMonth(y, 3) == 31 + DaysInMonth(y, 2);
    assert DaysBeforeMonth(y, 5) == DaysBeforeMonth(y, 3) + 61;
    assert DaysBeforeMonth(y, 7) == DaysBeforeMonth(y, 5) + 61;
    assert DaysBeforeMonth(y, 9) == DaysBeforeMonth(y, 7) + 62;
    assert DaysBeforeMonth(y, 11) == DaysBeforeMonth(y, 9) + 61;
  }

  lemma DaysInYear(y: int, m: int)
    requires 1 <= m <= 12
    ensures DaysBeforeMonth(y, m) + DaysInMonth(y, m) <= 365 + (if IsLeap(y) then 1 else 0)
  {
    WholeYear(y);
    if m < 12 { MonthsAreOrdered(y, m, 12); }
  }

  lemma YearLength(y: int)
    ensures DaysBeforeYear(y + 1) == DaysBeforeYear(y) + 365 + (if IsLeap(y) then 1 else 0)
  {
    assert y / 4 - (y - 1) / 4 == (if y % 4 == 0 then 1 else 0);
    assert y / 100 - (y - 1) / 100 == (if y % 100 == 0 then 1 else 0);
    assert y / 400 - (y - 1) / 400 == (if y % 400 == 0 then 1 else 0);
  }

  lemma {:induction false} YearsAreOrdered(y: int, z: int)
    requires 1 <= y < z
    ensures DaysBeforeYear(y) + 365 + (if IsLeap(y) then 1 else 0) <= DaysBeforeYear(z)
    decreases z
  {
    if y + 1 == z {
      YearLength(y);
    } else {
      YearsAreOrdered(y, z - 1);
      YearLength(z - 1);
    }
  }

  predicate DateLess(a: DateTime, b: DateTime) {
    a.year < b.year
    || (a.year == b.year && (a.month < b.month || (a.month == b.month && a.day < b.day)))
  }

  predicate SameDate(a: DateTime, b: DateTime) {
    a.year == b.year && a.month == b.month && a.day == b.day
  }

  lemma DateOrder(a: DateTime, b: DateTime)
    requires DateLess(a, b)
    ensures DayNumber(a) < DayNumber(b)
  {
    if a.year < b.year {
      DaysInYear(a.year, a.month);
      YearsAreOrdered(a.year, b.year);
      MonthStart(b.year, b.month);
    } else if a.month < b.month {
      MonthsAreOrdered(a.year, a.month, b.month);
    }
  }

  lemma {:induction false} MonthStart(y: int, m: int)
    requires m >= 1
    ensures DaysBeforeMonth(y, m) >= 0
    decreases m
  {
    if m > 1 { MonthStart(y, m - 1); }
  }

  predicate ClockLess(a: DateTime, b: DateTime) {
    a.hour < b.hour
    || (a.hour == b.hour
        && (a.minute < b.minute
            || (a.minute == b.minute
                && (a.second < b.second || (a.second == b.second && a.micro < b.micro)))))
  }

  predicate FieldsLess(a: DateTime, b: DateTime) {
    DateLess(a, b) || (SameDate(a, b) && ClockLess(a, b))
  }

  lemma EarlierFieldsAreEarlier(a: DateTime, b: DateTime)
    requires FieldsLess(a, b)
    ensures Before(a, b)
  {
    if DateLess(a, b) {
      DateOrder(a, b);
      assert DayNumber(a) * 86400 + SecondOfDay(a) < DayNumber(b) * 86400 + SecondOfDay(b);
    }
  }

  /** Comparing the calendar fields in order is comparing instants. */
  lemma FieldOrderIsTimeOrder(a: DateTime, b: DateTime)
    ensures FieldsLess(a, b) <==> Before(a, b)
  {
    if FieldsLess(a, b) {
      EarlierFieldsAreEarlier(a, b);
    } else if FieldsLess(b, a) {
      EarlierFieldsAreEarlier(b, a);
    } else {
      assert a == b;
    }
  }

  // ---------- no instant is missing ----------

  const LATEST: DateTime := Fields(9999, 12, 31, 23, 59, 59, 999999)

  lemma NextDay(t: DateTime) returns (u: DateTime)
    requires t.year < 9999 || t.month < 12 || t.day < 31
    ensures DayNumber(u) == DayNumber(t) + 1 && SecondOfDay(u) == 0 && u.micro == 0
  {
    if t.day < DaysInMonth(t.year, t.month) {
      u := Fields(t.year, t.month, t.day + 1, 0, 0, 0, 0);
    } else if t.month < 12 {
      u := Fields(t.year, t.month + 1, 1, 0, 0, 0, 0);
    } else {
      WholeYear(t.year);
      YearLength(t.year);
      u := Fields(t.year + 1, 1, 1, 0, 0, 0, 0);
    }
  }

  lemma NextInstant(t: DateTime) returns (u: DateTime)
    requires t != LATEST
    ensures Instant(u) == Instant(t) + 1
  {
    if t.micro < 999999 { u := t.(micro := t.micro + 1); }
    else if t.second < 59 { u := t.(second := t.second + 1, micro := 0); }
    else if t.minute < 59 { u := t.(minute := t.minute + 1, second := 0, micro := 0); }
    else if t.hour < 23 { u := t.(hour := t.hour + 1, minute := 0, second := 0, micro := 0); }
    else { u := NextDay(t); }
  }

  /**
   The calendar has no gap: every microsecond up to the last one of the year 9999 is some
   `datetime`. With `FieldOrderIsTimeOrder` no other assignment of instants to dates is possible
   from a given first one.
   */
  lemma {:induction false} NoInstantIsMissing(t: DateTime, later: nat) returns (u: DateTime)
    requires Instant(t) + later <= Instant(LATEST)
    ensures Instant(u) == Instant(t) + later
    decreases later
  {
    if later == 0 {
      u := t;
    } else {
      u := NoInstantIsMissing(t, later - 1);
      u := NextInstant(u);
    }
  }

  // ---------- isoformat() text and its byte-wise order ----------

  /** `n` in exactly `width` decimal digits. */
  function Digits(n: nat, width: nat): (s: string)
    ensures |s| == width
  {
    if width == 0 then "" else Digits(n / 10, width - 1) + [('0' as int + n % 10) as char]
  }

  /** The fraction is written only when it is not zero. */
  function Fraction(micro: nat): string {
    if micro == 0 then "+00:00" else "." + Digits(micro, 6) + "+00:00"
  }

  function Iso(t: DateTime): string {
    Digits(t.year, 4) + ("-" + (Digits(t.month, 2) + ("-" + (Digits(t.day, 2) + ("T" +
    (Digits(t.hour, 2) + (":" + (Digits(t.minute, 2) + (":" + (Digits(t.second, 2) +
    Fraction(t.micro)))))))))))
  }

  /** SQLite's BINARY collation. */
  predicate TextLess(a: string, b: string) {
    b != "" && (a == "" || a[0] < b[0] || (a[0] == b[0] && TextLess(a[1..], b[1..])))
  }

  /** The comparison the store's queries perform on two stored timestamps. */
  predicate TextBefore(a: DateTime, b: DateTime) {
    TextLess(Iso(a), Iso(b))
  }

  /** Equal-length heads decide first; the tails decide only between equal heads. */
  lemma {:induction false} HeadsDecide(a: string, x: string, b: string, y: string)
    requires |a| == |b|
    ensures TextLess(a + x, b + y) <==> TextLess(a, b) || (a == b && TextLess(x, y))
  {
    if a == "" {
      assert a + x == x && b + y == y;
    } else {
      assert (a + x)[1..] == a[1..] + x;
      assert (b + y)[1..] == b[1..] + y;
      HeadsDecide(a[1..], x, b[1..], y);
      assert a == b <==> a[0] == b[0] && a[1..] == b[1..] by {
        assert a == [a[0]] + a[1..] && b == [b[0]] + b[1..];
      }
    }
  }

  function Pow10(k: nat): nat {
    if k == 0 then 1 else 10 * Pow10(k - 1)
  }

  lemma {:induction false} DigitOrder(m: nat, n: nat, width: nat)
    requires m < Pow10(width) && n < Pow10(width)
    ensures TextLess(Digits(m, width), Digits(n, width)) <==> m < n
    ensures Digits(m, width) == Digits(n, width) <==> m == n
  {
    if width > 0 {
      DigitOrder(m / 10, n / 10, width - 1);
      var x, y := [('0' as int + m % 10) as char], [('0' as int + n % 10) as char];
      HeadsDecide(Digits(m / 10, width - 1), x, Digits(n / 10, width - 1), y);
      assert Digits(m, width)[..width - 1] == Digits(m / 10, width - 1);
      assert Digits(n, width)[..width - 1] == Digits(n / 10, width - 1);
      assert Digits(m, width)[width - 1] == x[0] && Digits(n, width)[width - 1] == y[0];
      assert TextLess(x, y) <==> m % 10 < n % 10;
    }
  }

  /** One fixed-width field followed by the rest of the text. */
  lemma FieldDecides(m: nat, x: string, n: nat, y: string, width: nat)
    requires m < Pow10(width) && n < Pow10(width)
    ensures TextLess(Digits(m, width) + x, Digits(n, width) + y) <==> m < n || (m == n && TextLess(x, y))
  {
    HeadsDecide(Digits(m, width), x, Digits(n, width), y);
    DigitOrder(m, n, width);
  }

  lemma SeparatorIsSkipped(c: char, x: string, y: string)
    ensures TextLess([c] + x, [c] + y) <==> TextLess(x, y)
  {
    HeadsDecide([c], x, [c], y);
    assert !TextLess([c], [c]);
  }

  /** '+' sorts before '.', so a missing fraction still sorts as zero microseconds. */
  lemma FractionOrder(m: nat, n: nat)
    requires m < 1000000 && n < 1000000
    ensures TextLess(Fraction(m), Fraction(n)) <==> m < n
  {
    assert Pow10(6) == 1000000 by {
      assert Pow10(3) == 1000;
      assert Pow10(6) == 1000 * Pow10(3);
    }
    if m == 0 || n == 0 {
      if m == n {
        NotLessThanItself("+00:00");
      }
    } else {
      assert Fraction(m) == ['.'] + (Digits(m, 6) + "+00:00");
      assert Fraction(n) == ['.'] + (Digits(n, 6) + "+00:00");
      SeparatorIsSkipped('.', Digits(m, 6) + "+00:00", Digits(n, 6) + "+00:00");
      FieldDecides(m, "+00:00", n, "+00:00", 6);
      NotLessThanItself("+00:00");
    }
  }

  lemma {:induction false} NotLessThanItself(s: string)
    ensures !TextLess(s, s)
  {
    if s != "" { NotLessThanItself(s[1..]); }
  }

  lemma TimeTextOrder(a: DateTime, b: DateTime)
    ensures TextLess(TimeText(a), TimeText(b)) <==> ClockLess(a, b)
  {
    FieldDecides(a.hour, ":" + MinuteText(a), b.hour, ":" + MinuteText(b), 2);
    SeparatorIsSkipped(':', MinuteText(a), MinuteText(b));
    FieldDecides(a.minute, ":" + SecondText(a), b.minute, ":" + SecondText(b), 2);
    SeparatorIsSkipped(':', SecondText(a), SecondText(b));
    FieldDecides(a.second, Fraction(a.micro), b.second, Fraction(b.micro), 2);
    FractionOrder(a.micro, b.micro);
  }

  function SecondText(t: DateTime): string { Digits(t.second, 2) + Fraction(t.micro) }

  function MinuteText(t: DateTime): string { Digits(t.minute, 2) + (":" + SecondText(t)) }

  function TimeText(t: DateTime): string { Digits(t.hour, 2) + (":" + MinuteText(t)) }

  function DayText(t: DateTime): string { Digits(t.day, 2) + ("T" + TimeText(t)) }

  function MonthText(t: DateTime): string { Digits(t.month, 2) + ("-" + DayText(t)) }

  lemma IsoTextOrder(a: DateTime, b: DateTime)
    ensures TextLess(Iso(a), Iso(b)) <==> FieldsLess(a, b)
  {
    assert Pow10(4) == 100 * Pow10(2);
    FieldDecides(a.year, "-" + MonthText(a), b.year, "-" + MonthText(b), 4);
    SeparatorIsSkipped('-', MonthText(a), MonthText(b));
    FieldDecides(a.month, "-" + DayText(a), b.month, "-" + DayText(b), 2);
    SeparatorIsSkipped('-', DayText(a), DayText(b));
    FieldDecides(a.day, "T" + TimeText(a), b.day, "T" + TimeText(b), 2);
    SeparatorIsSkipped('T', TimeText(a), TimeText(b));
    TimeTextOrder(a, b);
  }

  /** Comparing stored `isoformat` text is comparing instants, with or without a fraction. */
  lemma TextOrderIsTimeOrder(a: DateTime, b: DateTime)
    ensures TextBefore(a, b) <==> Before(a, b)
  {
    IsoTextOrder(a, b);
    FieldOrderIsTimeOrder(a, b);
  }

  /** `isoformat` loses nothing: distinct instants have distinct texts. */
  lemma IsoIsInjective(a: DateTime, b: DateTime)
    ensures Iso(a) == Iso(b) <==> a == b
  {
    if Iso(a) == Iso(b) {
      NotLessThanItself(Iso(a));
      IsoTextOrder(a, b);
      IsoTextOrder(b, a);
    }
  }
}
