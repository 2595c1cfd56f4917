/** Calendar dates as the inventory stores them (`YYYY-MM-DD` full-dates,
    section 5.6 of RFC 3339) and the expiry rules built on them: the day
    difference `diasEntre`, "expired" (`estaVencido`) and "expiring within
    60 days" (`proximoAVencer`). "Today" is a parameter instead of a clock
    read. */
module Dates {
  import Js

  /** A full-date: year, month (1-12) and day of month. */
  datatype Date = Date(year: int, month: int, day: int)

  /** Gregorian leap years. */
  predicate IsLeapYear(y: int) {
    y % 4 == 0 && (y % 100 != 0 || y % 400 == 0)
  }

  function DaysInMonth(y: int, m: int): int
    requires 1 <= m <= 12
  {
    if m == 2 then (if IsLeapYear(y) then 29 else 28)
    else if m == 4 || m == 6 || m == 9 || m == 11 then 30
    else 31
  }

  function DaysInYear(y: int): int {
    if IsLeapYear(y) then 366 else 365
  }

  /** The dates a four-digit `date-fullyear` can write. */
  predicate IsFullDate(d: Date) {
    0 <= d.year <= 9999 && 1 <= d.month <= 12 && 1 <= d.day <= DaysInMonth(d.year, d.month)
  }

  type FullDate = d: Date | IsFullDate(d) witness Date(1970, 1, 1)

  /** Days in the years before `y`, counted from 0000-01-01. */
  function DaysBeforeYear(y: nat): nat {
    if y == 0 then 0 else DaysBeforeYear(y - 1) + DaysInYear(y - 1)
  }

  /** Days of year `y` before the first of month `m`; month 13 stands for
      the end of the year. */
  function DaysBeforeMonth(y: int, m: int): nat
    requires 1 <= m <= 13
  {
    [0, 31, 59, 90, 120, 151, 181, 212, 243, 273, 304, 334, 365][m - 1] +
    (if m > 2 && IsLeapYear(y) then 1 else 0)
  }

  /** The day a full-date names, as a count of days since 0000-01-01
      (proleptic Gregorian calendar). */
  function DayNumber(d: FullDate): nat {
    DaysBeforeYear(d.year) + DaysBeforeMonth(d.year, d.month) + d.day - 1
  }

  /** The order in which two dates are chronological: by year, then month,
      then day. It is also the order in which their `YYYY-MM-DD` texts
      compare, since every field has a fixed width. */
  predicate Before(a: Date, b: Date) {
    a.year < b.year || (a.year == b.year && (a.month < b.month || (a.month == b.month && a.day < b.day)))
  }

  lemma DaysBeforeMonthStep(y: int, m: int)
    requires 1 <= m <= 12
    ensures DaysBeforeMonth(y, m) + DaysInMonth(y, m) == DaysBeforeMonth(y, m + 1)
  {
  }

  lemma {:induction false} DaysBeforeMonthGrows(y: int, m1: int, m2: int)
    requires 1 <= m1 <= m2 <= 13
    ensures DaysBeforeMonth(y, m1) <= DaysBeforeMonth(y, m2)
    decreases m2 - m1
  {
    if m1 < m2 {
      DaysBeforeMonthStep(y, m1);
      DaysBeforeMonthGrows(y, m1 + 1, m2);
    }
  }

  lemma {:induction false} DaysBeforeYearGrows(y1: nat, y2: nat)
    requires y1 < y2
    ensures DaysBeforeYear(y1) + DaysInYear(y1) <= DaysBeforeYear(y2)
    decreases y2 - y1
  {
    if y1 + 1 < y2 {
      DaysBeforeYearGrows(y1, y2 - 1);
    }
  }

  /** A date lies before another exactly when its day number is smaller:
      the calendar order and the day count agree. */
  lemma DayNumberOrder(a: FullDate, b: FullDate)
    ensures DayNumber(a) < DayNumber(b) <==> Before(a, b)
  {
    if Before(a, b) {
      DayNumberBefore(a, b);
    } else if Before(b, a) {
      DayNumberBefore(b, a);
    } else {
      assert a == b;
    }
  }

  lemma DayNumberBefore(a: FullDate, b: FullDate)
    requires Before(a, b)
    ensures DayNumber(a) < DayNumber(b)
  {
    DaysBeforeMonthStep(a.year, a.month);
    if a.year < b.year {
      DaysBeforeMonthGrows(a.year, a.month + 1, 13);
      DaysBeforeYearGrows(a.year, b.year);
    } else if a.month < b.month {
      DaysBeforeMonthGrows(a.year, a.month + 1, b.month);
    }
  }

  /** Milliseconds in a day, the divisor `diasEntre` uses. */
  const MsPerDay: int := 1000 * 60 * 60 * 24

  /** `new Date(d)` for a full-date: midnight UTC of that day, in
      milliseconds from 0000-01-01 (the epoch cancels in every difference). */
  function Millis(d: FullDate): int {
    DayNumber(d) * MsPerDay
  }

  /** `new Date(a) < new Date(b)` on full-dates is the calendar order, and
      two dates give the same instant only when they are the same date. */
  lemma MillisOrder(a: FullDate, b: FullDate)
    ensures Millis(a) < Millis(b) <==> Before(a, b)
    ensures Millis(a) == Millis(b) <==> a == b
  {
    DayNumberOrder(a, b);
    DayNumberOrder(b, a);
  }

  /** The calendar order is a strict total order. */
  lemma BeforeIsStrictTotal(a: Date, b: Date, c: Date)
    ensures !Before(a, a)
    ensures Before(a, b) && Before(b, c) ==> Before(a, c)
    ensures a == b || Before(a, b) || Before(b, a)
  {
  }

  /** `diasEntre(a, b)`: `Math.ceil((new Date(b) - new Date(a)) / ms-per-day)`.
      For full-dates the quotient is exact, so the result is the number of
      days from `a` to `b`. */
  function DiasEntre(a: FullDate, b: FullDate): (r: int)
    ensures r == DayNumber(b) - DayNumber(a)
  {
    Js.CeilDiv(Millis(b) - Millis(a), MsPerDay)
  }

  /** How far ahead an expiry date still counts as near. */
  const NearExpiryDays: int := 60

  /** `estaVencido(fecha)`: the expiry date lies strictly before today. */
  function EstaVencido(fecha: FullDate, today: FullDate): (r: bool)
    ensures r <==> Before(fecha, today)
    ensures r <==> DiasEntre(today, fecha) < 0
  {
    DayNumberOrder(fecha, today);
    Millis(fecha) < Millis(today)
  }

  /** `proximoAVencer(fecha)`: not expired, and at most 60 days away. */
  function ProximoAVencer(fecha: FullDate, today: FullDate): (r: bool)
    ensures r <==> 0 <= DayNumber(fecha) - DayNumber(today) <= NearExpiryDays
    ensures r ==> !EstaVencido(fecha, today)
  {
    !EstaVencido(fecha, today) && DiasEntre(today, fecha) <= NearExpiryDays
  }

  /** A date is never both expired and near expiry. */
  lemma ExpiredAndNearDisjoint(fecha: FullDate, today: FullDate)
    ensures !(EstaVencido(fecha, today) && ProximoAVencer(fecha, today))
  {
  }

  /** The boundaries of the near-expiry window: today is near and not
      expired, a date 60 days out is near, a date 61 days out is not. */
  lemma NearExpiryBoundaries(today: FullDate, f60: FullDate, f61: FullDate)
    requires DayNumber(f60) == DayNumber(today) + 60
    requires DayNumber(f61) == DayNumber(today) + 61
    ensures ProximoAVencer(today, today) && !EstaVencido(today, today)
    ensures ProximoAVencer(f60, today)
    ensures !ProximoAVencer(f61, today) && !EstaVencido(f61, today)
  {
  }

  /** The day difference from a date to itself is zero. */
  lemma DiasEntreSelf(a: FullDate)
    ensures DiasEntre(a, a) == 0
  {
  }

  /** Swapping the arguments negates the day difference. */
  lemma DiasEntreAntisymmetric(a: FullDate, b: FullDate)
    ensures DiasEntre(a, b) == -DiasEntre(b, a)
  {
  }

  /** The day difference is positive exactly when the second date is the
      later one, zero exactly when the dates are equal. */
  lemma DiasEntreSign(a: FullDate, b: FullDate)
    ensures DiasEntre(a, b) > 0 <==> Before(a, b)
    ensures DiasEntre(a, b) == 0 <==> a == b
  {
    DayNumberOrder(a, b);
    DayNumberOrder(b, a);
  }

  /** Moving both dates by the same number of days keeps their difference. */
  lemma DiasEntreShift(a: FullDate, b: FullDate, a': FullDate, b': FullDate, k: int)
    requires DayNumber(a') == DayNumber(a) + k && DayNumber(b') == DayNumber(b) + k
    ensures DiasEntre(a', b') == DiasEntre(a, b)
  {
  }
}
