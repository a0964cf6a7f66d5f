/**
  * Calendar dates as Python's `datetime.date` holds them (proleptic Gregorian,
  * years 1 to 9999), day and month arithmetic as `timedelta` and
  * `dateutil.relativedelta` perform it, and the ISO text `YYYY-MM-DD` that the
  * ledger stores and that `strptime(s, "%Y-%m-%d")` reads back.
  */
module Dates {
  import opened Wrappers
  import opened Text

  datatype Ymd = Ymd(year: int, month: int, day: int)

  predicate IsLeapYear(y: int)
  {
    y % 4 == 0 && (y % 100 != 0 || y % 400 == 0)
  }

  function DaysInMonth(y: int, m: int): (n: int)
    requires 1 <= m <= 12
    ensures 28 <= n <= 31
  {
    if m == 2 then (if IsLeapYear(y) then 29 else 28)
    else if m == 4 || m == 6 || m == 9 || m == 11 then 30
    else 31
  }

  /** A valid day of the proleptic Gregorian calendar, in any year. */
  predicate IsCalendarDay(d: Ymd)
  {
    1 <= d.month <= 12 && 1 <= d.day <= DaysInMonth(d.year, d.month)
  }

  /** A calendar day Python's `date` can represent. */
  predicate IsDate(d: Ymd)
  {
    IsCalendarDay(d) && 1 <= d.year <= 9999
  }

  type Date = d: Ymd | IsDate(d) witness Ymd(1970, 1, 1)

  /** Strict chronological order. */
  predicate Before(a: Ymd, b: Ymd)
  {
    a.year < b.year || (a.year == b.year && (a.month < b.month || (a.month == b.month && a.day < b.day)))
  }

  predicate OnOrBefore(a: Ymd, b: Ymd)
  {
    !Before(b, a)
  }

  lemma BeforeTransitive(a: Ymd, b: Ymd, c: Ymd)
    requires Before(a, b) && Before(b, c)
    ensures Before(a, c)
  {
  }

  // ----- Days -----

  function NextDay(d: Ymd): (r: Ymd)
    requires IsCalendarDay(d)
    ensures IsCalendarDay(r) && Before(d, r)
  {
    if d.day < DaysInMonth(d.year, d.month) then Ymd(d.year, d.month, d.day + 1)
    else if d.month < 12 then Ymd(d.year, d.month + 1, 1)
    else Ymd(d.year + 1, 1, 1)
  }

  function PrevDay(d: Ymd): (r: Ymd)
    requires IsCalendarDay(d)
    ensures IsCalendarDay(r) && Before(r, d)
  {
    if d.day > 1 then Ymd(d.year, d.month, d.day - 1)
    else if d.month > 1 then Ymd(d.year, d.month - 1, DaysInMonth(d.year, d.month - 1))
    else Ymd(d.year - 1, 12, 31)
  }

  lemma {:induction false} NextPrevDay(d: Ymd)
    requires IsCalendarDay(d)
    ensures NextDay(PrevDay(d)) == d && PrevDay(NextDay(d)) == d
  {
  }

  /** `d - timedelta(days=n)`, without Python's range check. */
  function DaysBefore(d: Ymd, n: nat): (r: Ymd)
    requires IsCalendarDay(d)
    ensures IsCalendarDay(r) && r.year <= d.year
  {
    if n == 0 then d else PrevDay(DaysBefore(d, n - 1))
  }

  /** `d + timedelta(days=n)`, without Python's range check. */
  function DaysAfter(d: Ymd, n: nat): (r: Ymd)
    requires IsCalendarDay(d)
    ensures IsCalendarDay(r) && r.year >= d.year
  {
    if n == 0 then d else NextDay(DaysAfter(d, n - 1))
  }

  /** `d + timedelta(days=n)` for a signed `n`. */
  function AddDays(d: Ymd, n: int): (r: Ymd)
    requires IsCalendarDay(d)
    ensures IsCalendarDay(r)
  {
    if n >= 0 then DaysAfter(d, n) else DaysBefore(d, -n)
  }

  /** Going further back gives a strictly earlier day, and its year lies between. */
  lemma {:induction false} DaysBeforeMonotone(d: Ymd, m: nat, n: nat)
    requires IsCalendarDay(d) && m < n
    ensures Before(DaysBefore(d, n), DaysBefore(d, m))
    ensures DaysBefore(d, n).year <= DaysBefore(d, m).year
    decreases n
  {
    if m < n - 1 {
      DaysBeforeMonotone(d, m, n - 1);
      BeforeTransitive(DaysBefore(d, n), DaysBefore(d, n - 1), DaysBefore(d, m));
    }
  }

  /** Every day between `d` and a representable day `n` days back is representable too. */
  lemma DaysBeforeInRange(d: Date, m: nat, n: nat)
    requires m <= n && IsDate(DaysBefore(d, n))
    ensures IsDate(DaysBefore(d, m))
  {
    if m < n {
      DaysBeforeMonotone(d, m, n);
    }
  }

  // ----- Months and years (dateutil.relativedelta) -----

  function Min(a: int, b: int): int
  {
    if a <= b then a else b
  }

  /** Months since the start of year 0: consecutive calendar months get consecutive indices. */
  function MonthIndex(d: Ymd): int
  {
    12 * d.year + d.month - 1
  }

  /** `d + relativedelta(months=n)`: the day is clamped to the end of the target month. */
  function AddMonths(d: Ymd, n: nat): (r: Ymd)
    requires IsCalendarDay(d)
    ensures IsCalendarDay(r)
  {
    var total := d.month - 1 + n;
    var y := d.year + total / 12;
    var m := total % 12 + 1;
    Ymd(y, m, Min(d.day, DaysInMonth(y, m)))
  }

  /** `d + relativedelta(years=n)`: same month, day clamped (29 February becomes 28 February). */
  function AddYears(d: Ymd, n: nat): (r: Ymd)
    requires IsCalendarDay(d)
    ensures IsCalendarDay(r)
  {
    Ymd(d.year + n, d.month, Min(d.day, DaysInMonth(d.year + n, d.month)))
  }

  /** Adding `n` months lands exactly `n` calendar months later, on the same day or the last day of that month. */
  lemma AddMonthsSpec(d: Ymd, n: nat)
    requires IsCalendarDay(d)
    ensures MonthIndex(AddMonths(d, n)) == MonthIndex(d) + n
    ensures var r := AddMonths(d, n); r.day == Min(d.day, DaysInMonth(r.year, r.month))
  {
  }

  /** One year is twelve months. */
  lemma AddYearsIsTwelveMonths(d: Ymd, n: nat)
    requires IsCalendarDay(d)
    ensures AddYears(d, n) == AddMonths(d, 12 * n)
  {
    var total := d.month - 1 + 12 * n;
    assert total / 12 == n && total % 12 == d.month - 1;
  }

  /** A later month index means a strictly later date, whatever the days. */
  lemma MonthIndexOrder(a: Ymd, b: Ymd)
    requires 1 <= a.month <= 12 && 1 <= b.month <= 12
    requires MonthIndex(a) < MonthIndex(b)
    ensures Before(a, b)
  {
  }

  lemma AddMonthsLater(d: Ymd, n: nat)
    requires IsCalendarDay(d) && n >= 1
    ensures Before(d, AddMonths(d, n))
  {
    AddMonthsSpec(d, n);
    MonthIndexOrder(d, AddMonths(d, n));
  }

  lemma AddYearsLater(d: Ymd, n: nat)
    requires IsCalendarDay(d) && n >= 1
    ensures Before(d, AddYears(d, n))
  {
  }

  // ----- ISO text -----

  /** `date.isoformat()`: `YYYY-MM-DD`. */
  function IsoFormat(d: Date): string
  {
    Digits(d.year, 4) + "-" + Digits(d.month, 2) + "-" + Digits(d.day, 2)
  }

  /** `datetime.strptime(s, "%Y-%m-%d").date()` on the canonical form; `None` where Python raises `ValueError`. */
  function ParseIso(s: string): Option<Date>
  {
    if |s| == 10 && s[4] == '-' && s[7] == '-'
       && AllDigits(s[..4]) && AllDigits(s[5..7]) && AllDigits(s[8..])
    then
      var d := Ymd(DecimalValue(s[..4]), DecimalValue(s[5..7]), DecimalValue(s[8..]));
      if IsDate(d) then Some(d) else None
    else None
  }

  lemma IsoFormatShape(d: Date)
    ensures var s := IsoFormat(d);
      |s| == 10 && s[4] == '-' && s[7] == '-'
      && s[..4] == Digits(d.year, 4) && s[5..7] == Digits(d.month, 2) && s[8..] == Digits(d.day, 2)
  {
    DigitsShape(d.year, 4);
    DigitsShape(d.month, 2);
    DigitsShape(d.day, 2);
  }

  /** Reading back what `isoformat` wrote gives the same date. */
  lemma {:induction false} ParseIsoFormat(d: Date)
    ensures ParseIso(IsoFormat(d)) == Some(d)
  {
    IsoFormatShape(d);
    DigitsShape(d.year, 4);
    DigitsShape(d.month, 2);
    DigitsShape(d.day, 2);
  }

  /** Conversely, every text the parser accepts is the ISO form of the date it reads. */
  lemma {:induction false} FormatParsedIso(s: string)
    requires ParseIso(s).Some?
    ensures IsoFormat(ParseIso(s).value) == s
  {
    var d := ParseIso(s).value;
    DigitsOfValue(s[..4]);
    DigitsOfValue(s[5..7]);
    DigitsOfValue(s[8..]);
    IsoFormatShape(d);
    var t := IsoFormat(d);
    assert forall i | 0 <= i < 10 :: t[i] == s[i] by {
      forall i | 0 <= i < 10 ensures t[i] == s[i] {
        if i < 4 { assert t[i] == t[..4][i] && s[i] == s[..4][i]; }
        else if 5 <= i < 7 { assert t[i] == t[5..7][i - 5] && s[i] == s[5..7][i - 5]; }
        else if 8 <= i { assert t[i] == t[8..][i - 8] && s[i] == s[8..][i - 8]; }
      }
    }
  }

  lemma IsoFormatInjective(a: Date, b: Date)
    requires IsoFormat(a) == IsoFormat(b)
    ensures a == b
  {
    ParseIsoFormat(a);
    ParseIsoFormat(b);
  }

  /** ISO text compares as text exactly as the dates compare in time. */
  lemma {:induction false} IsoOrder(a: Date, b: Date)
    ensures StrLe(IsoFormat(a), IsoFormat(b)) <==> OnOrBefore(a, b)
    ensures StrLt(IsoFormat(a), IsoFormat(b)) <==> Before(a, b)
  {
    var ya, ma, da := Digits(a.year, 4), Digits(a.month, 2), Digits(a.day, 2);
    var yb, mb, db := Digits(b.year, 4), Digits(b.month, 2), Digits(b.day, 2);
    DigitsShape(a.year, 4); DigitsShape(b.year, 4);
    DigitsShape(a.month, 2); DigitsShape(b.month, 2);
    DigitsShape(a.day, 2); DigitsShape(b.day, 2);
    DigitsOrder(a.year, b.year, 4);
    DigitsOrder(a.month, b.month, 2);
    DigitsOrder(a.day, b.day, 2);
    assert ya == yb <==> a.year == b.year;
    assert ma == mb <==> a.month == b.month;
    assert da == db <==> a.day == b.day;
    StrLeFields(ya, ma, da, yb, mb, db);
    if IsoFormat(a) == IsoFormat(b) {
      IsoFormatInjective(a, b);
    }
  }
}
