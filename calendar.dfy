/**
 * Proleptic Gregorian dates as Python's `datetime` handles them (years 1 to
 * 9999), the day-before step that `now - timedelta(days=i)` iterates, and
 * the two textual forms the handlers key documents with.
 */
module Calendar {
  import opened Wrappers

  datatype Date = Date(year: int, month: int, day: int)

  const MinYear: int := 1
  const MaxYear: int := 9999
  const FirstDate: Date := Date(MinYear, 1, 1)
  const LastDate: Date := Date(MaxYear, 12, 31)

  predicate IsLeap(y: int) {
    y % 4 == 0 && (y % 100 != 0 || y % 400 == 0)
  }

  function DaysInMonth(y: int, m: int): int
    requires 1 <= m <= 12
  {
    if m == 2 then (if IsLeap(y) then 29 else 28)
    else if m == 4 || m == 6 || m == 9 || m == 11 then 30
    else 31
  }

  function DaysInYear(y: int): int {
    if IsLeap(y) then 366 else 365
  }

  /** A date `datetime` can represent. */
  predicate Valid(d: Date) {
    MinYear <= d.year <= MaxYear && 1 <= d.month <= 12 && 1 <= d.day <= DaysInMonth(d.year, d.month)
  }

  /** Calendar order. */
  predicate Before(a: Date, b: Date) {
    a.year < b.year || (a.year == b.year && (a.month < b.month || (a.month == b.month && a.day < b.day)))
  }

  /** The day before `d`; None before the first representable day (Python raises OverflowError). */
  function Prev(d: Date): (r: Option<Date>)
    requires Valid(d)
    ensures r.None? <==> d == FirstDate
    ensures r.Some? ==> Valid(r.value) && Before(r.value, d)
  {
    if d.day > 1 then Some(Date(d.year, d.month, d.day - 1))
    else if d.month > 1 then Some(Date(d.year, d.month - 1, DaysInMonth(d.year, d.month - 1)))
    else if d.year > MinYear then Some(Date(d.year - 1, 12, 31))
    else None
  }

  /** The day after `d`; None after the last representable day. */
  function Next(d: Date): (r: Option<Date>)
    requires Valid(d)
    ensures r.None? <==> d == LastDate
    ensures r.Some? ==> Valid(r.value) && Before(d, r.value)
  {
    if d.day < DaysInMonth(d.year, d.month) then Some(Date(d.year, d.month, d.day + 1))
    else if d.month < 12 then Some(Date(d.year, d.month + 1, 1))
    else if d.year < MaxYear then Some(Date(d.year + 1, 1, 1))
    else None
  }

  /** `Next` undoes `Prev`. */
  lemma NextOfPrev(d: Date)
    requires Valid(d) && d != FirstDate
    ensures Next(Prev(d).value) == Some(d)
  {
  }

  /** `Prev` undoes `Next`. */
  lemma PrevOfNext(d: Date)
    requires Valid(d) && d != LastDate
    ensures Prev(Next(d).value) == Some(d)
  {
  }

  /** No valid date lies strictly between `Prev(d)` and `d`. */
  lemma PrevIsImmediate(d: Date, e: Date)
    requires Valid(d) && Valid(e) && d != FirstDate
    requires Before(Prev(d).value, e)
    ensures !Before(e, d)
  {
  }

  // ----- Day numbers (Python's date.toordinal) -----

  function DaysBeforeYear(y: int): nat
    requires y >= MinYear
    decreases y
  {
    if y == MinYear then 0 else DaysBeforeYear(y - 1) + DaysInYear(y - 1)
  }

  function DaysBeforeMonth(y: int, m: int): nat
    requires 1 <= m <= 12
    decreases m
  {
    if m == 1 then 0 else DaysBeforeMonth(y, m - 1) + DaysInMonth(y, m - 1)
  }

  /** Day number of `d`, 0001-01-01 being day 1. */
  function Ordinal(d: Date): int
    requires Valid(d)
  {
    DaysBeforeYear(d.year) + DaysBeforeMonth(d.year, d.month) + d.day
  }

  lemma {:induction false} DaysBeforeLaterYear(y: int)
    requires y > MinYear
    ensures DaysBeforeYear(y) >= 365
    decreases y
  {
    if y - 1 > MinYear {
      DaysBeforeLaterYear(y - 1);
    }
  }

  /** Day 1 is 0001-01-01 and every other date has a larger day number. */
  lemma OrdinalPositive(d: Date)
    requires Valid(d)
    ensures Ordinal(d) >= 1
    ensures Ordinal(d) == 1 <==> d == FirstDate
    ensures Ordinal(d) <= 6 <==> d.year == MinYear && d.month == 1 && d.day <= 6
  {
    if d.year > MinYear {
      DaysBeforeLaterYear(d.year);
    }
  }

  /** The day before has the day number one less. */
  lemma {:induction false} PrevOrdinal(d: Date)
    requires Valid(d) && d != FirstDate
    ensures Ordinal(Prev(d).value) == Ordinal(d) - 1
  {
    if d.day == 1 && d.month == 1 {
      DecemberStart(d.year - 1);
    }
  }

  /** December starts 31 days before the end of the year. */
  lemma DecemberStart(y: int)
    ensures DaysBeforeMonth(y, 12) + 31 == DaysInYear(y)
  {
    var feb := DaysInMonth(y, 2);
    assert DaysBeforeMonth(y, 3) == 31 + feb;
    assert DaysBeforeMonth(y, 6) == 31 + feb + 31 + 30 + 31;
    assert DaysBeforeMonth(y, 9) == 31 + feb + 31 + 30 + 31 + 30 + 31 + 31;
  }

  /** `d - timedelta(days=n)`: `n` steps back, None once the range is left. */
  function DaysBack(d: Date, n: nat): (r: Option<Date>)
    requires Valid(d)
    ensures r.Some? ==> Valid(r.value)
  {
    if n == 0 then Some(d)
    else match DaysBack(d, n - 1)
      case None => None
      case Some(e) => Prev(e)
  }

  /** The day before exists exactly when `e` is not day 1. */
  lemma PrevExists(e: Date)
    requires Valid(e)
    ensures Prev(e).Some? <==> Ordinal(e) > 1
  {
    OrdinalPositive(e);
  }

  /** Going `n` days back succeeds exactly when `d` is past day `n`, and lands on day `Ordinal(d) - n`. */
  lemma {:induction false} DaysBackOrdinal(d: Date, n: nat)
    requires Valid(d)
    ensures DaysBack(d, n).Some? <==> n < Ordinal(d)
    ensures DaysBack(d, n).Some? ==> Ordinal(DaysBack(d, n).value) == Ordinal(d) - n
  {
    OrdinalPositive(d);
    if n > 0 {
      DaysBackOrdinal(d, n - 1);
      var prior := DaysBack(d, n - 1);
      if prior.Some? {
        var e := prior.value;
        PrevExists(e);
        if Ordinal(e) > 1 {
          PrevOrdinal(e);
        }
      }
    }
  }

  // ----- Decimal text -----

  function DigitChar(n: int): char
    requires 0 <= n < 10
  {
    (48 + n) as char
  }

  predicate IsDigit(c: char) {
    '0' <= c <= '9'
  }

  predicate AllDigits(s: string) {
    forall i :: 0 <= i < |s| ==> IsDigit(s[i])
  }

  /** The number a string of decimal digits denotes; leading zeros add nothing. */
  function DigitsValue(s: string): nat
    requires AllDigits(s)
  {
    if s == [] then 0 else DigitsValue(s[..|s| - 1]) * 10 + (s[|s| - 1] as int - 48)
  }

  /** `str(n)`: decimal digits, no leading zero. */
  function NatToString(n: nat): (s: string)
    ensures |s| >= 1 && AllDigits(s)
    ensures |s| > 1 ==> s[0] != '0'
    ensures n < 10 ==> |s| == 1
    ensures n < 100 ==> |s| <= 2
    ensures n < 1000 ==> |s| <= 3
    ensures n < 10000 ==> |s| <= 4
  {
    if n < 10 then [DigitChar(n)] else NatToString(n / 10) + [DigitChar(n % 10)]
  }

  function Zeros(k: nat): (z: string)
    ensures |z| == k && AllDigits(z)
  {
    seq(k, _ => '0')
  }

  /** `s.zfill(width)` for a string of digits: left-padded with '0' to `width`. */
  function ZFill(s: string, width: nat): (r: string)
    requires AllDigits(s)
    ensures AllDigits(r)
    ensures |r| == if |s| >= width then |s| else width
  {
    if |s| >= width then s else Zeros(width - |s|) + s
  }

  lemma {:induction false} NatToStringValue(n: nat)
    ensures DigitsValue(NatToString(n)) == n
  {
    if n >= 10 {
      NatToStringValue(n / 10);
      var s := NatToString(n);
      assert s[..|s| - 1] == NatToString(n / 10);
    }
  }

  lemma {:induction false} ZerosValue(k: nat, s: string)
    requires AllDigits(s)
    ensures DigitsValue(Zeros(k) + s) == DigitsValue(s)
    decreases |s| + k
  {
    var t := Zeros(k) + s;
    if s == [] {
      assert t == Zeros(k);
      if k > 0 {
        assert t[..|t| - 1] == Zeros(k - 1) + [];
        ZerosValue(k - 1, []);
      }
    } else {
      assert t[..|t| - 1] == Zeros(k) + s[..|s| - 1];
      ZerosValue(k, s[..|s| - 1]);
    }
  }

  /** Padding a number's digits keeps its value. */
  lemma ZFillValue(n: nat, width: nat)
    ensures DigitsValue(ZFill(NatToString(n), width)) == n
  {
    NatToStringValue(n);
    var s := NatToString(n);
    if |s| < width {
      ZerosValue(width - |s|, s);
    }
  }

  // ----- Date text -----

  /** The three path segments of a day's meal log: `str(year)`, `str(month).zfill(2)`, `str(day).zfill(2)`. */
  function DatePath(d: Date): (p: seq<string>)
    requires Valid(d)
    ensures |p| == 3 && |p[1]| == 2 && |p[2]| == 2
    ensures forall i :: 0 <= i < 3 ==> p[i] != [] && AllDigits(p[i])
  {
    [NatToString(d.year), ZFill(NatToString(d.month), 2), ZFill(NatToString(d.day), 2)]
  }

  /** `d.strftime("%Y-%m-%d")`, the full-date form of section 5.6 of RFC 3339. */
  function DateKey(d: Date): (k: string)
    requires Valid(d)
    ensures |k| == 10 && k[4] == '-' && k[7] == '-'
  {
    ZFill(NatToString(d.year), 4) + "-" + ZFill(NatToString(d.month), 2) + "-" + ZFill(NatToString(d.day), 2)
  }

  function ParseNumber(s: string): Option<nat> {
    if s != [] && AllDigits(s) then Some(DigitsValue(s)) else None
  }

  /** Reads a date back from its three path segments. */
  function DateOfPath(p: seq<string>): Option<Date> {
    if |p| == 3 && ParseNumber(p[0]).Some? && ParseNumber(p[1]).Some? && ParseNumber(p[2]).Some? then
      Some(Date(ParseNumber(p[0]).value, ParseNumber(p[1]).value, ParseNumber(p[2]).value))
    else None
  }

  /** Reads a date back from its `YYYY-MM-DD` key. */
  function DateOfKey(k: string): Option<Date> {
    if |k| == 10 && k[4] == '-' && k[7] == '-' && AllDigits(k[..4]) && AllDigits(k[5..7]) && AllDigits(k[8..]) then
      Some(Date(DigitsValue(k[..4]), DigitsValue(k[5..7]), DigitsValue(k[8..])))
    else None
  }

  /**
   * A day's path: an unpadded year with no leading zero, then a two-digit
   * month and a two-digit day; the date can be read back from it.
   */
  lemma DatePathRoundTrip(d: Date)
    requires Valid(d)
    ensures |DatePath(d)| == 3
    ensures DatePath(d)[0] == NatToString(d.year) && DatePath(d)[0][0] != '0'
    ensures |DatePath(d)[1]| == 2 && |DatePath(d)[2]| == 2
    ensures DateOfPath(DatePath(d)) == Some(d)
  {
    NatToStringValue(d.year);
    ZFillValue(d.month, 2);
    ZFillValue(d.day, 2);
  }

  /** Distinct days have distinct paths. */
  lemma DatePathInjective(d: Date, e: Date)
    requires Valid(d) && Valid(e) && DatePath(d) == DatePath(e)
    ensures d == e
  {
    DatePathRoundTrip(d);
    DatePathRoundTrip(e);
  }

  /** A day's key is ten characters `YYYY-MM-DD` and the date can be read back from it. */
  lemma DateKeyRoundTrip(d: Date)
    requires Valid(d)
    ensures |DateKey(d)| == 10
    ensures DateKey(d)[4] == '-' && DateKey(d)[7] == '-'
    ensures forall i :: 0 <= i < 10 && i != 4 && i != 7 ==> IsDigit(DateKey(d)[i])
    ensures DateOfKey(DateKey(d)) == Some(d)
  {
    var y, m, dd := ZFill(NatToString(d.year), 4), ZFill(NatToString(d.month), 2), ZFill(NatToString(d.day), 2);
    assert |y| == 4 && |m| == 2 && |dd| == 2;
    var k := DateKey(d);
    assert k == y + "-" + m + "-" + dd;
    assert k[..4] == y && k[5..7] == m && k[8..] == dd;
    forall i | 0 <= i < 10 && i != 4 && i != 7
      ensures IsDigit(k[i])
    {
      if i < 4 {
        assert k[i] == y[i];
      } else if i < 7 {
        assert k[i] == m[i - 5];
      } else {
        assert k[i] == dd[i - 8];
      }
    }
    ZFillValue(d.year, 4);
    ZFillValue(d.month, 2);
    ZFillValue(d.day, 2);
  }
}
