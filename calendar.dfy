/** Calendar dates with the overflow rules of JavaScript's `Date`
    constructor, the window `getUpcomingMovieParams` computes, and the ISO
    `yyyy-mm-dd` text the window is sent as. */
module Calendar {
  import opened Wrappers
  import opened Decimal

  /** A proleptic Gregorian calendar date; `month` is 1-based (January is 1). */
  datatype Date = Date(year: int, month: int, day: int)

  predicate IsLeapYear(y: int)
  {
    (y % 4 == 0 && y % 100 != 0) || y % 400 == 0
  }

  function DaysInMonth(y: int, m: int): (n: int)
    requires 1 <= m <= 12
    ensures 28 <= n <= 31
  {
    if m == 2 then (if IsLeapYear(y) then 29 else 28)
    else if m == 4 || m == 6 || m == 9 || m == 11 then 30
    else 31
  }

  predicate ValidDate(d: Date)
  {
    1 <= d.month <= 12 && 1 <= d.day <= DaysInMonth(d.year, d.month)
  }

  /** Strict chronological order. */
  predicate Before(a: Date, b: Date)
  {
    a.year < b.year
    || (a.year == b.year && a.month < b.month)
    || (a.year == b.year && a.month == b.month && a.day < b.day)
  }

  /** The first day of the month after month `m` of year `y`. */
  function FirstOfNextMonth(y: int, m: int): (d: Date)
    requires 1 <= m <= 12
  {
    if m == 12 then Date(y + 1, 1, 1) else Date(y, m + 1, 1)
  }

  /** The calendar day after `d`. */
  function Succ(d: Date): (r: Date)
    requires ValidDate(d)
    ensures ValidDate(r) && Before(d, r)
  {
    if d.day < DaysInMonth(d.year, d.month) then Date(d.year, d.month, d.day + 1)
    else FirstOfNextMonth(d.year, d.month)
  }

  /** The date `k` days after `d`, one day at a time: the reference
      meaning of a `Date` whose day field lies outside its month. */
  function AddDays(d: Date, k: nat): (r: Date)
    requires ValidDate(d)
    ensures ValidDate(r)
    decreases k
  {
    if k == 0 then d else AddDays(Succ(d), k - 1)
  }

  /** What `new Date(y, m - 1, day)` denotes for a 1-based month, a
      positive day and a year the constructor takes as given: a day past
      the end of the month carries into the following months. */
  function Normalise(y: int, m: int, day: int): (r: Date)
    requires 1 <= m <= 12 && 1 <= day
    ensures ValidDate(r)
    decreases day
  {
    if day <= DaysInMonth(y, m) then Date(y, m, day)
    else
      var next := FirstOfNextMonth(y, m);
      Normalise(next.year, next.month, day - DaysInMonth(y, m))
  }

  /** The year the `Date` constructor works in: it reads a year argument
      from 0 to 99 as 1900 to 1999, before any month overflow. */
  function ConstructorYear(y: int): (cy: int)
    ensures y <= cy
  {
    if 0 <= y <= 99 then 1900 + y else y
  }

  /** `new Date(year, month + 1, day)` for today's date (`month` 0-based
      there): the same day of month in the following month of the
      constructor's year, December rolling into January. */
  function NextMonthSameDay(today: Date): (r: Date)
    requires ValidDate(today)
    ensures ValidDate(r) && Before(today, r)
  {
    var target := FirstOfNextMonth(ConstructorYear(today.year), today.month);
    var r := Normalise(target.year, target.month, today.day);
    NextMonthBounds(today);
    r
  }

  /** The upper bound lies either in the target month (when the day fits)
      or at most three days into the month after it. */
  lemma NextMonthBounds(today: Date)
    requires ValidDate(today)
    ensures var target := FirstOfNextMonth(ConstructorYear(today.year), today.month);
            var dim := DaysInMonth(target.year, target.month);
            var r := Normalise(target.year, target.month, today.day);
            && (today.day <= dim ==> r == Date(target.year, target.month, today.day))
            && (today.day > dim ==> target.month < 12
                                    && r == Date(target.year, target.month + 1, today.day - dim)
                                    && r.day <= 3)
            && Before(today, r)
  {
    var target := FirstOfNextMonth(ConstructorYear(today.year), today.month);
    var dim := DaysInMonth(target.year, target.month);
    if today.day > dim {
      assert target.month != 12;
      var after := FirstOfNextMonth(target.year, target.month);
      assert today.day - dim <= DaysInMonth(after.year, after.month);
    }
  }

  lemma {:induction false} AddDaysWithinMonth(y: int, m: int, k: int, j: nat)
    requires 1 <= m <= 12 && 1 <= k && k + j <= DaysInMonth(y, m)
    ensures AddDays(Date(y, m, k), j) == Date(y, m, k + j)
    decreases j
  {
    if j > 0 {
      assert Succ(Date(y, m, k)) == Date(y, m, k + 1);
      AddDaysWithinMonth(y, m, k + 1, j - 1);
    }
  }

  lemma {:induction false} AddDaysSplit(d: Date, a: nat, b: nat)
    requires ValidDate(d)
    ensures AddDays(d, a + b) == AddDays(AddDays(d, a), b)
    decreases a
  {
    if a > 0 {
      AddDaysSplit(Succ(d), a - 1, b);
    }
  }

  /** The day-overflow rule agrees with counting days forward from the
      first of the month: `Normalise(y, m, day)` is `day - 1` days after
      the first of month `m`. */
  lemma {:induction false} NormaliseIsAddDays(y: int, m: int, day: int)
    requires 1 <= m <= 12 && 1 <= day
    ensures Normalise(y, m, day) == AddDays(Date(y, m, 1), day - 1)
    decreases day
  {
    var dim := DaysInMonth(y, m);
    if day <= dim {
      AddDaysWithinMonth(y, m, 1, day - 1);
    } else {
      var next := FirstOfNextMonth(y, m);
      NormaliseIsAddDays(next.year, next.month, day - dim);
      AddDaysWithinMonth(y, m, 1, dim - 1);
      assert AddDays(Date(y, m, dim), 1) == next;
      AddDaysSplit(Date(y, m, 1), dim - 1, 1);
      AddDaysSplit(Date(y, m, 1), dim, day - dim - 1);
    }
  }

  /** The upcoming upper bound is today's day-of-month counted forward from
      the first of next month, exactly as `Date` normalises it. */
  lemma NextMonthIsDayCount(today: Date)
    requires ValidDate(today)
    ensures var target := FirstOfNextMonth(ConstructorYear(today.year), today.month);
            NextMonthSameDay(today) == AddDays(target, today.day - 1)
  {
    var target := FirstOfNextMonth(ConstructorYear(today.year), today.month);
    NormaliseIsAddDays(target.year, target.month, today.day);
  }

  /** December rolls into January of the following year on the same day. */
  lemma DecemberRollsOver(today: Date)
    requires ValidDate(today) && today.month == 12
    ensures NextMonthSameDay(today) == Date(ConstructorYear(today.year) + 1, 1, today.day)
  {
    NextMonthBounds(today);
  }

  /** The edge case of the month-end: 31 January 2024 (a leap year) becomes 2 March 2024. */
  lemma LeapJanuaryEnd()
    ensures NextMonthSameDay(Date(2024, 1, 31)) == Date(2024, 3, 2)
  {
    NextMonthBounds(Date(2024, 1, 31));
  }

  /** And in a common year, 31 January 2023 becomes 3 March 2023. */
  lemma CommonJanuaryEnd()
    ensures NextMonthSameDay(Date(2023, 1, 31)) == Date(2023, 3, 3)
  {
    NextMonthBounds(Date(2023, 1, 31));
  }

  /** A two-digit year is read in the twentieth century: 10 March of year 50
      gives 10 April 1950. */
  lemma TwoDigitYearJumpsCentury()
    ensures NextMonthSameDay(Date(50, 3, 10)) == Date(1950, 4, 10)
  {
    NextMonthBounds(Date(50, 3, 10));
  }

  /** The year as `toISOString` writes it: four digits for years 0 to
      9999, otherwise a sign and at least six digits. */
  function YearText(y: int): (s: string)
  {
    if 0 <= y <= 9999 then ZeroPad(y, 4)
    else if y < 0 then "-" + ZeroPad(-y, 6)
    else "+" + ZeroPad(y, 6)
  }

  /** The date part of `toISOString()`, that is `toISOString().split('T')[0]`. */
  function IsoDate(d: Date): (s: string)
    requires ValidDate(d)
  {
    YearText(d.year) + "-" + ZeroPad(d.month, 2) + "-" + ZeroPad(d.day, 2)
  }

  /** Reads a `yyyy-mm-dd` text. */
  function ParseIsoDate(s: string): (r: Option<Date>)
  {
    if |s| == 10 && s[4] == '-' && s[7] == '-'
       && AllDigits(s[..4]) && AllDigits(s[5..7]) && AllDigits(s[8..])
    then Some(Date(Value(s[..4]), Value(s[5..7]), Value(s[8..])))
    else None
  }

  /** Where the three parts of a `yyyy-mm-dd` text sit. */
  lemma IsoLayout(ys: string, ms: string, ds: string)
    requires |ys| == 4 && |ms| == 2 && |ds| == 2
    ensures var s := ys + "-" + ms + "-" + ds;
            && |s| == 10 && s[4] == '-' && s[7] == '-'
            && s[..4] == ys && s[5..7] == ms && s[8..] == ds
  {
  }

  /** For four-digit years the ISO text is ten characters and reads back as the date. */
  lemma IsoDateRoundTrip(d: Date)
    requires ValidDate(d) && 0 <= d.year <= 9999
    ensures |IsoDate(d)| == 10
    ensures ParseIsoDate(IsoDate(d)) == Some(d)
  {
    var ys, ms, ds := ZeroPad(d.year, 4), ZeroPad(d.month, 2), ZeroPad(d.day, 2);
    assert Pow10(4) == 10000 && Pow10(2) == 100;
    ZeroPadLength(d.year, 4);
    ZeroPadLength(d.month, 2);
    ZeroPadLength(d.day, 2);
    IsoLayout(ys, ms, ds);
    ZeroPadValue(d.year, 4);
    ZeroPadValue(d.month, 2);
    ZeroPadValue(d.day, 2);
  }
}
