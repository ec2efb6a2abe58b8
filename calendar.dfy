/** Calendar dates, timestamps and the two-digit keys the dashboard groups by.

    A record's timestamp is a calendar date plus the second of that day, all
    in one time zone. Timestamps are ordered by `Ordinal`, a linear encoding
    that agrees with the lexicographic order of (year, month, day, second). */
module Calendar {

  type Month = m: int | 1 <= m <= 12 witness 1
  type Day = d: int | 1 <= d <= 31 witness 1
  type Second = s: int | 0 <= s < 86400

  datatype Date = Date(year: int, month: Month, day: Day)
  datatype Stamp = Stamp(date: Date, second: Second)

  predicate IsLeapYear(year: int) {
    year % 4 == 0 && (year % 100 != 0 || year % 400 == 0)
  }

  function DaysInMonth(year: int, month: Month): int {
    if month == 2 then (if IsLeapYear(year) then 29 else 28)
    else if month == 4 || month == 6 || month == 9 || month == 11 then 30
    else 31
  }

  /** A date that exists in the Gregorian calendar (no 30 February). */
  predicate ValidDate(d: Date) {
    d.day <= DaysInMonth(d.year, d.month)
  }

  /** Position of a date on a line that keeps 31 slots per month. */
  function DayNumber(d: Date): int {
    (d.year * 12 + d.month - 1) * 31 + d.day - 1
  }

  /** Position of a timestamp, in seconds; the store orders and compares `data` by it. */
  function Ordinal(t: Stamp): int {
    DayNumber(t.date) * 86400 + t.second
  }

  function Midnight(d: Date): Stamp {
    Stamp(d, 0)
  }

  /** The lexicographic order on (year, month, day, second). */
  predicate Earlier(a: Stamp, b: Stamp) {
    || a.date.year < b.date.year
    || (a.date.year == b.date.year && a.date.month < b.date.month)
    || (a.date.year == b.date.year && a.date.month == b.date.month && a.date.day < b.date.day)
    || (a.date == b.date && a.second < b.second)
  }

  lemma OrdinalIsChronological(a: Stamp, b: Stamp)
    ensures Ordinal(a) < Ordinal(b) <==> Earlier(a, b)
    ensures Ordinal(a) == Ordinal(b) <==> a == b
  {
  }

  /** The calendar day after `d`, as `setDate(getDate() + 1)` rolls it over:
      into the next month after the month's last day, into January after
      December. */
  function NextDay(d: Date): (r: Date)
    ensures ValidDate(r)
    ensures DayNumber(d) < DayNumber(r)
    ensures forall x :: ValidDate(x) && DayNumber(d) < DayNumber(x) ==> DayNumber(r) <= DayNumber(x)
  {
    if d.day < DaysInMonth(d.year, d.month) then Date(d.year, d.month, d.day + 1)
    else if d.month < 12 then Date(d.year, d.month + 1, 1)
    else Date(d.year + 1, 1, 1)
  }

  /** The half-open window [d 00:00, next day 00:00). */
  predicate WithinDay(t: Stamp, d: Date) {
    Ordinal(Midnight(d)) <= Ordinal(t) < Ordinal(Midnight(NextDay(d)))
  }

  /** A timestamp of a real date lies in the one-day window of `d` exactly
      when it falls on `d`. */
  lemma WithinDayIsSameDate(t: Stamp, d: Date)
    requires ValidDate(t.date)
    ensures WithinDay(t, d) <==> t.date == d
  {
    var n := NextDay(d);
    if WithinDay(t, d) {
      OrdinalBounds(t, d);
      OrdinalBounds(t, n);
      assert DayNumber(d) <= DayNumber(t.date) < DayNumber(n);
      DayNumberInjective(t.date, d);
    }
  }

  /** A timestamp lies at or after midnight of `d` exactly when its date is not before `d`. */
  lemma OrdinalBounds(t: Stamp, d: Date)
    ensures Ordinal(Midnight(d)) <= Ordinal(t) <==> DayNumber(d) <= DayNumber(t.date)
  {
    var a := DayNumber(d);
    var b := DayNumber(t.date);
    if a <= b {
      assert a * 86400 <= b * 86400;
    } else {
      assert (a - b) * 86400 >= 86400;
    }
  }

  lemma DayNumberInjective(x: Date, y: Date)
    requires DayNumber(x) == DayNumber(y)
    ensures x == y
  {
    assert x.day == y.day;
    assert x.year * 12 + x.month == y.year * 12 + y.month;
  }

  // Two-digit keys: dayjs's "MM" and "DD" formats and String(n).padStart(2, "0").

  function Digit(n: int): char
    requires 0 <= n < 10
  {
    (48 + n) as char
  }

  function TwoDigits(n: int): (s: string)
    requires 0 <= n < 100
    ensures |s| == 2 && '0' <= s[0] <= '9' && '0' <= s[1] <= '9'
  {
    [Digit(n / 10), Digit(n % 10)]
  }

  /** `Number(s)` for a string of decimal digits. */
  function DecimalValue(s: string): int {
    if s == [] then 0 else 10 * DecimalValue(s[..|s| - 1]) + (s[|s| - 1] as int - 48)
  }

  predicate IsTwoDigitKey(s: string) {
    |s| == 2 && '0' <= s[0] <= '9' && '0' <= s[1] <= '9'
  }

  lemma DecimalValueOfTwoDigitKey(s: string)
    requires IsTwoDigitKey(s)
    ensures DecimalValue(s) == 10 * (s[0] as int - 48) + (s[1] as int - 48)
  {
    var head := s[..1];
    assert s[..|s| - 1] == head;
    assert head[..|head| - 1] == [];
    assert DecimalValue(head) == 10 * DecimalValue([]) + (s[0] as int - 48);
  }

  /** Reading a two-digit key back gives the number it was written from. */
  lemma {:induction false} DecimalValueOfTwoDigits(n: int)
    requires 0 <= n < 100
    ensures DecimalValue(TwoDigits(n)) == n
  {
    DecimalValueOfTwoDigitKey(TwoDigits(n));
  }

  /** Distinct two-digit keys have distinct numeric values. */
  lemma {:induction false} DecimalValueInjective(a: string, b: string)
    requires IsTwoDigitKey(a) && IsTwoDigitKey(b)
    ensures DecimalValue(a) == DecimalValue(b) ==> a == b
  {
    DecimalValueOfTwoDigitKey(a);
    DecimalValueOfTwoDigitKey(b);
    if DecimalValue(a) == DecimalValue(b) {
      assert a[0] == b[0];
      assert a[1] == b[1];
      assert a == [a[0], a[1]] && b == [b[0], b[1]];
    }
  }

  lemma TwoDigitsInjective(a: int, b: int)
    requires 0 <= a < 100 && 0 <= b < 100
    ensures TwoDigits(a) == TwoDigits(b) <==> a == b
  {
    DecimalValueOfTwoDigits(a);
    DecimalValueOfTwoDigits(b);
  }

  /** dayjs(data).format("MM"): two digits that read back as the month. */
  function MonthKey(d: Date): (r: string)
    ensures IsTwoDigitKey(r) && DecimalValue(r) == d.month
  {
    DecimalValueOfTwoDigits(d.month);
    TwoDigits(d.month)
  }

  /** dayjs(data).format("DD"): two digits that read back as the day. */
  function DayKey(d: Date): (r: string)
    ensures IsTwoDigitKey(r) && DecimalValue(r) == d.day
  {
    DecimalValueOfTwoDigits(d.day);
    TwoDigits(d.day)
  }
}
