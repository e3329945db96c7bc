/**
 * Instants, and the text the approvals table stores them as.
 *
 * Rows keep `datetime.isoformat()` of a UTC instant and the expiry sweep compares those texts, although they
 * are not all of one length: the fraction has six digits, or is left out when it is zero. This module proves
 * that comparing the texts is comparing the instants.
 */
module Timestamps {

  const SECOND: int := 1_000_000            // microseconds
  const MINUTE: int := 60 * SECOND
  const HOUR: int := 60 * MINUTE
  const DAY: int := 24 * HOUR
  const DAYS: int := 3_652_059              // 0001-01-01 to 9999-12-31

  /** Microseconds since 0001-01-01T00:00:00+00:00, within the range of `datetime`. */
  type Time = t: int | 0 <= t < DAYS * DAY

  // ---- the calendar ----------------------------------------------------------

  datatype Date = Date(year: nat, month: nat, day: nat)

  predicate Leap(year: nat) { year % 4 == 0 && (year % 100 != 0 || year % 400 == 0) }

  function MonthLength(year: nat, month: nat): nat {
    if month == 2 then if Leap(year) then 29 else 28
    else if month in {4, 6, 9, 11} then 30
    else 31
  }

  predicate ValidDate(d: Date) {
    1 <= d.year && 1 <= d.month <= 12 && 1 <= d.day <= MonthLength(d.year, d.month)
  }

  function NextDay(d: Date): (next: Date)
    requires ValidDate(d)
    ensures ValidDate(next)
  {
    if d.day < MonthLength(d.year, d.month) then Date(d.year, d.month, d.day + 1)
    else if d.month < 12 then Date(d.year, d.month + 1, 1)
    else Date(d.year + 1, 1, 1)
  }

  function DateOf(day: nat): (d: Date)
    ensures ValidDate(d)
  {
    if day == 0 then Date(1, 1, 1) else NextDay(DateOf(day - 1))
  }

  predicate DateBefore(a: Date, b: Date) {
    a.year < b.year || (a.year == b.year && (a.month < b.month || (a.month == b.month && a.day < b.day)))
  }

  lemma {:induction false} DatesAscend(m: nat, n: nat)
    requires m < n
    ensures DateBefore(DateOf(m), DateOf(n))
    decreases n
  {
    if m < n - 1 { DatesAscend(m, n - 1); }
  }

  /** Days before the first of January of a year, and of a month within its year. */
  function BeforeYear(year: nat): int
    requires year >= 1
  {
    (year - 1) * 365 + (year - 1) / 4 - (year - 1) / 100 + (year - 1) / 400
  }

  function BeforeMonth(year: nat, month: nat): int {
    if month <= 1 then 0 else BeforeMonth(year, month - 1) + MonthLength(year, month - 1)
  }

  lemma MonthsAddUp(year: nat)
    ensures BeforeMonth(year, 12) == MonthLength(year, 2) + 306
  {
    assert BeforeMonth(year, 2) == 31;
    assert BeforeMonth(year, 3) == 31 + MonthLength(year, 2);
    assert BeforeMonth(year, 5) == BeforeMonth(year, 3) + 61;
    assert BeforeMonth(year, 7) == BeforeMonth(year, 5) + 61;
    assert BeforeMonth(year, 9) == BeforeMonth(year, 7) + 62;
    assert BeforeMonth(year, 11) == BeforeMonth(year, 9) + 61;
  }

  lemma YearLength(year: nat)
    requires year >= 1
    ensures BeforeYear(year + 1) == BeforeYear(year) + (if Leap(year) then 366 else 365)
  {
    NextQuotient(year, 4);
    NextQuotient(year, 100);
    NextQuotient(year, 400);
    if year % 400 == 0 { PartDivides(year, 100, 4); }
    if year % 100 == 0 { PartDivides(year, 4, 25); }
  }

  lemma PartDivides(n: nat, k: nat, m: nat)
    requires k >= 1 && m >= 1 && n % (k * m) == 0
    ensures n % k == 0
  {
    var q := n / (k * m);
    assert n == k * m * q == k * (m * q);
    DivMod(n, k, m * q, 0);
  }

  lemma NextQuotient(n: nat, k: nat)
    requires n >= 1 && k >= 1
    ensures n / k == (n - 1) / k + (if n % k == 0 then 1 else 0)
  {
    var q, r := (n - 1) / k, (n - 1) % k;
    assert n == k * q + (r + 1);
    if r + 1 == k {
      assert n == k * (q + 1);
      DivMod(n, k, q + 1, 0);
    } else {
      DivMod(n, k, q, r + 1);
    }
  }

  lemma DivMod(n: nat, k: nat, q: nat, r: nat)
    requires r < k && n == k * q + r
    ensures n / k == q && n % k == r
  {
    var d := n / k - q;
    assert k * d == r - n % k;
    assert d >= 1 ==> k * d >= k;
    assert d <= -1 ==> k * (-d) >= k;
  }

  lemma {:induction false} YearsAscend(a: nat, b: nat)
    requires 1 <= a <= b
    ensures BeforeYear(a) <= BeforeYear(b)
    decreases b - a
  {
    if a < b { YearLength(a); YearsAscend(a + 1, b); }
  }

  /** The proleptic Gregorian ordinal. */
  function Ordinal(d: Date): int
    requires d.year >= 1
  {
    BeforeYear(d.year) + BeforeMonth(d.year, d.month) + d.day
  }

  lemma NextDayCounts(d: Date)
    requires ValidDate(d)
    ensures Ordinal(NextDay(d)) == Ordinal(d) + 1
  {
    if d.day == MonthLength(d.year, d.month) && d.month == 12 {
      YearLength(d.year);
      MonthsAddUp(d.year);
    }
  }

  lemma {:induction false} OrdinalCounts(day: nat)
    ensures Ordinal(DateOf(day)) == day + 1
  {
    if day > 0 {
      OrdinalCounts(day - 1);
      NextDayCounts(DateOf(day - 1));
    }
  }

  lemma FourDigitYears(day: nat)
    requires day < DAYS
    ensures 1 <= DateOf(day).year <= 9999
  {
    var d := DateOf(day);
    OrdinalCounts(day);
    BeforeMonthPositive(d.year, d.month);
    if d.year >= 10000 { YearsAscend(10000, d.year); }
  }

  lemma {:induction false} BeforeMonthPositive(year: nat, month: nat)
    ensures BeforeMonth(year, month) >= 0
  {
    if month > 1 { BeforeMonthPositive(year, month - 1); }
  }

  // ---- the text ------------------------------------------------------------------

  function Power10(width: nat): (p: nat)
    ensures p > 0
  {
    if width == 0 then 1 else 10 * Power10(width - 1)
  }

  /** The last `width` decimal digits of a number. */
  function Pad(n: nat, width: nat): (s: string)
    ensures |s| == width
  {
    if width == 0 then "" else Pad(n / 10, width - 1) + [('0' as int + n % 10) as char]
  }

  function DateText(day: nat): string {
    var d := DateOf(day);
    Pad(d.year, 4) + ("-" + (Pad(d.month, 2) + ("-" + Pad(d.day, 2))))
  }

  /** The fraction, left out when zero, and the offset. */
  function TailText(micro: nat): string {
    (if micro == 0 then "" else "." + Pad(micro, 6)) + "+00:00"
  }

  function SecondText(rest: nat): string { Pad(rest / SECOND, 2) + TailText(rest % SECOND) }

  function MinuteText(rest: nat): string { Pad(rest / MINUTE, 2) + (":" + SecondText(rest % MINUTE)) }

  function ClockText(rest: nat): string { Pad(rest / HOUR, 2) + (":" + MinuteText(rest % HOUR)) }

  /** `datetime.isoformat()` of a UTC instant. */
  function Iso(t: Time): string { DateText(t / DAY) + ("T" + ClockText(t % DAY)) }

  /** SQLite's comparison of two texts, `a <= b`. */
  predicate TextLe(a: string, b: string) {
    a == "" || (b != "" && (a[0] < b[0] || (a[0] == b[0] && TextLe(a[1..], b[1..]))))
  }

  // ---- text order is time order ----------------------------------------------------

  lemma {:induction false} CommonPrefix(prefix: string, x: string, y: string)
    ensures TextLe(prefix + x, prefix + y) <==> TextLe(x, y)
  {
    if prefix == "" {
      assert prefix + x == x && prefix + y == y;
    } else {
      CommonPrefix(prefix[1..], x, y);
      assert (prefix + x)[1..] == prefix[1..] + x && (prefix + y)[1..] == prefix[1..] + y;
    }
  }

  /** Numbers written with the same number of digits compare as numbers, whatever follows them. */
  lemma {:induction false} PadOrder(m: nat, n: nat, width: nat, x: string, y: string)
    requires m < Power10(width) && n < Power10(width)
    ensures TextLe(Pad(m, width) + x, Pad(n, width) + y) <==> m < n || (m == n && TextLe(x, y))
    decreases width
  {
    if width == 0 {
      assert Pad(m, 0) + x == x && Pad(n, 0) + y == y;
    } else {
      var dm, dn := [('0' as int + m % 10) as char], [('0' as int + n % 10) as char];
      assert Pad(m, width) + x == Pad(m / 10, width - 1) + (dm + x);
      assert Pad(n, width) + y == Pad(n / 10, width - 1) + (dn + y);
      PadOrder(m / 10, n / 10, width - 1, dm + x, dn + y);
      assert (dm + x)[1..] == x && (dn + y)[1..] == y;
    }
  }

  /** As above, with a fixed separator before what follows. */
  lemma FieldOrder(m: nat, n: nat, width: nat, sep: string, x: string, y: string)
    requires m < Power10(width) && n < Power10(width)
    ensures TextLe(Pad(m, width) + (sep + x), Pad(n, width) + (sep + y)) <==> m < n || (m == n && TextLe(x, y))
  {
    PadOrder(m, n, width, sep + x, sep + y);
    CommonPrefix(sep, x, y);
  }

  lemma Powers()
    ensures Power10(2) == 100 && Power10(4) == 10_000 && Power10(6) == 1_000_000
  {
    assert Power10(4) == 100 * Power10(2);
    assert Power10(6) == 100 * Power10(4);
  }

  lemma DateOrder(m: nat, n: nat, x: string, y: string)
    requires m < DAYS && n < DAYS
    ensures TextLe(DateText(m) + x, DateText(n) + y) <==> m < n || (m == n && TextLe(x, y))
  {
    var a, b := DateOf(m), DateOf(n);
    Powers();
    FourDigitYears(m);
    FourDigitYears(n);
    var dayA, dayB := Pad(a.day, 2) + x, Pad(b.day, 2) + y;
    var monthA, monthB := Pad(a.month, 2) + ("-" + dayA), Pad(b.month, 2) + ("-" + dayB);
    assert DateText(m) + x == Pad(a.year, 4) + ("-" + monthA);
    assert DateText(n) + y == Pad(b.year, 4) + ("-" + monthB);
    PadOrder(a.day, b.day, 2, x, y);
    FieldOrder(a.month, b.month, 2, "-", dayA, dayB);
    FieldOrder(a.year, b.year, 4, "-", monthA, monthB);
    if m < n { DatesAscend(m, n); }
    if n < m { DatesAscend(n, m); }
  }

  lemma FractionOrder(m: nat, n: nat)
    requires 0 < m < SECOND && 0 < n < SECOND
    ensures TextLe(TailText(m), TailText(n)) <==> m <= n
  {
    Powers();
    var x, y := Pad(m, 6) + "+00:00", Pad(n, 6) + "+00:00";
    assert TailText(m) == "." + x && TailText(n) == "." + y;
    CommonPrefix(".", x, y);
    PadOrder(m, n, 6, "+00:00", "+00:00");
    SameText("+00:00");
  }

  lemma {:induction false} SameText(s: string)
    ensures TextLe(s, s)
  {
    if s != "" { SameText(s[1..]); }
  }

  /** A missing fraction sorts as zero, because '+' precedes '.'. */
  lemma TailOrder(m: nat, n: nat)
    requires m < SECOND && n < SECOND
    ensures TextLe(TailText(m), TailText(n)) <==> m <= n
  {
    if m > 0 && n > 0 {
      FractionOrder(m, n);
    } else {
      SameText("+00:00");
      assert "" + "+00:00" == "+00:00";
      assert TailText(m)[0] == (if m == 0 then '+' else '.');
      assert TailText(n)[0] == (if n == 0 then '+' else '.');
    }
  }

  /** Comparing numbers is comparing quotients, then remainders. */
  lemma DivideOrder(m: nat, n: nat, unit: nat)
    requires unit > 0
    ensures m <= n <==> m / unit < n / unit || (m / unit == n / unit && m % unit <= n % unit)
  {
    var qm, qn := m / unit, n / unit;
    assert m == unit * qm + m % unit && n == unit * qn + n % unit;
    if qm < qn { assert unit * qn >= unit * (qm + 1); }
    if qn < qm { assert unit * qm >= unit * (qn + 1); }
  }

  lemma SecondOrder(m: nat, n: nat)
    requires m < MINUTE && n < MINUTE
    ensures TextLe(SecondText(m), SecondText(n)) <==> m <= n
  {
    Powers();
    TailOrder(m % SECOND, n % SECOND);
    PadOrder(m / SECOND, n / SECOND, 2, TailText(m % SECOND), TailText(n % SECOND));
    DivideOrder(m, n, SECOND);
  }

  lemma MinuteOrder(m: nat, n: nat)
    requires m < HOUR && n < HOUR
    ensures TextLe(MinuteText(m), MinuteText(n)) <==> m <= n
  {
    Powers();
    SecondOrder(m % MINUTE, n % MINUTE);
    FieldOrder(m / MINUTE, n / MINUTE, 2, ":", SecondText(m % MINUTE), SecondText(n % MINUTE));
    DivideOrder(m, n, MINUTE);
  }

  lemma ClockOrder(m: nat, n: nat)
    requires m < DAY && n < DAY
    ensures TextLe(ClockText(m), ClockText(n)) <==> m <= n
  {
    Powers();
    MinuteOrder(m % HOUR, n % HOUR);
    FieldOrder(m / HOUR, n / HOUR, 2, ":", MinuteText(m % HOUR), MinuteText(n % HOUR));
    DivideOrder(m, n, HOUR);
  }

  /** Comparing stored timestamps as text is comparing them as instants. */
  lemma TextOrderIsTimeOrder(a: Time, b: Time)
    ensures TextLe(Iso(a), Iso(b)) <==> a <= b
  {
    DateOrder(a / DAY, b / DAY, "T" + ClockText(a % DAY), "T" + ClockText(b % DAY));
    CommonPrefix("T", ClockText(a % DAY), ClockText(b % DAY));
    ClockOrder(a % DAY, b % DAY);
    DivideOrder(a, b, DAY);
  }
}
