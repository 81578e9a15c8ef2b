/** Civil dates to day counts and back (perplab/data/bulk_layout.py:207-253,
    perplab/data/schemas.py:448-477), against the Gregorian calendar of ISO 8601. */
module Calendar {
  import opened Wrappers
  import opened Numerals

  const MS_PER_DAY := 86400000

  // -------------------------------------------------------------- the calendar itself

  predicate Leap(y: int)
  {
    y % 4 == 0 && (y % 100 != 0 || y % 400 == 0)
  }

  function YearLength(y: int): nat
  {
    if Leap(y) then 366 else 365
  }

  function MonthLength(y: int, m: int): nat
  {
    if m == 2 then if Leap(y) then 29 else 28
    else if m == 4 || m == 6 || m == 9 || m == 11 then 30
    else 31
  }

  datatype Date = Date(year: int, month: int, day: int)

  predicate ValidDate(d: Date)
  {
    1 <= d.month <= 12 && 1 <= d.day <= MonthLength(d.year, d.month)
  }

  function DaysBeforeYear(y: nat): nat
  {
    if y == 0 then 0 else DaysBeforeYear(y - 1) + YearLength(y - 1)
  }

  function DaysBeforeMonth(y: int, m: int): nat
    requires 1 <= m <= 12
    decreases m
  {
    if m == 1 then 0 else DaysBeforeMonth(y, m - 1) + MonthLength(y, m - 1)
  }

  /** Days from 1970-01-01, counted year by year and month by month. */
  function DayCount(d: Date): int
    requires d.year >= 0 && 1 <= d.month <= 12
  {
    DaysBeforeYear(d.year) + DaysBeforeMonth(d.year, d.month) + d.day - 1 - DaysBeforeYear(1970)
  }

  /** The day after. */
  function Next(d: Date): Date
    requires ValidDate(d)
  {
    if d.day < MonthLength(d.year, d.month) then d.(day := d.day + 1)
    else if d.month < 12 then Date(d.year, d.month + 1, 1)
    else Date(d.year + 1, 1, 1)
  }

  // ------------------------------------------------------------------- the formulas

  /** Days from civil. Division floors, as in the source. */
  function DaysFromCivil(d: Date): int
  {
    var y := d.year - (if d.month <= 2 then 1 else 0);
    var era := (if y >= 0 then y else y - 399) / 400;
    var yoe := y - era * 400;
    var doy := (153 * (d.month + (if d.month > 2 then -3 else 9)) + 2) / 5 + d.day - 1;
    var doe := DaysOfYears(yoe) + doy;
    era * 146097 + doe - 719468
  }

  function DaysOfYears(yoe: int): int
  {
    365 * yoe + yoe / 4 - yoe / 100
  }

  function YearOfDay(doe: int): int
  {
    (doe - doe / 1460 + doe / 36524 - doe / 146096) / 365
  }

  /** The date of a day of the year that starts in March. */
  function DateOf(era: int, yoe: int, doy: int): Date
  {
    var mp := (5 * doy + 2) / 153;
    var m := if mp < 10 then mp + 3 else mp - 9;
    Date(yoe + era * 400 + (if m <= 2 then 1 else 0), m, doy - (153 * mp + 2) / 5 + 1)
  }

  /** Civil from days, once the era is known. */
  function CivilOfEra(era: int, doe: int): Date
  {
    DateOf(era, YearOfDay(doe), doe - DaysOfYears(YearOfDay(doe)))
  }

  /** Civil from days. */
  function CivilFromDays(days: int): Date
  {
    var z := days + 719468;
    var era := (if z >= 0 then z else z - 146096) / 146097;
    CivilOfEra(era, z - era * 146097)
  }

  // --------------------------------------------------- the formula counts the days

  lemma {:induction false} YearsInClosedForm(y: nat)
    ensures DaysBeforeYear(y) == 365 * y + (y + 3) / 4 - (y + 99) / 100 + (y + 399) / 400
  {
    if y > 0 {
      YearsInClosedForm(y - 1);
      LeapYearsStep(y - 1);
    }
  }

  lemma LeapYearsStep(y: nat)
    ensures (y + 4) / 4 - (y + 100) / 100 + (y + 400) / 400
         == (y + 3) / 4 - (y + 99) / 100 + (y + 399) / 400 + (if Leap(y) then 1 else 0)
  {
    Fours(y);
    Hundreds(y);
    FourHundreds(y);
  }

  lemma Fours(y: nat)
    ensures (y + 4) / 4 == (y + 3) / 4 + (if y % 4 == 0 then 1 else 0)
  {
  }

  lemma Hundreds(y: nat)
    ensures (y + 100) / 100 == (y + 99) / 100 + (if y % 100 == 0 then 1 else 0)
    ensures y % 100 == 0 ==> y % 4 == 0
  {
    var q, r := y / 100, y % 100;
    HundredsOf(q, r);
    assert y == 100 * q + r;
  }

  lemma HundredsOf(q: int, r: int)
    requires 0 <= r < 100
    ensures (100 * q + r + 100) / 100 == q + 1
    ensures (100 * q + r + 99) / 100 == q + (if r == 0 then 0 else 1)
    ensures (100 * q) % 4 == 0
  {
    assert 100 * q == 4 * (25 * q);
  }

  lemma FourHundreds(y: nat)
    ensures (y + 400) / 400 == (y + 399) / 400 + (if y % 400 == 0 then 1 else 0)
    ensures y % 400 == 0 ==> y % 100 == 0
  {
    var q, r := y / 400, y % 400;
    FourHundredsOf(q, r);
    assert y == 400 * q + r;
  }

  lemma FourHundredsOf(q: int, r: int)
    requires 0 <= r < 400
    ensures (400 * q + r + 400) / 400 == q + 1
    ensures (400 * q + r + 399) / 400 == q + (if r == 0 then 0 else 1)
    ensures (400 * q) % 100 == 0
  {
    assert 400 * q == 100 * (4 * q);
  }

  lemma EpochIsWhereItShouldBe()
    ensures DaysBeforeYear(1970) == 719528
  {
    YearsInClosedForm(1970);
  }

  /** Days of the year before a month, whose March-based form is the source's fifths. */
  lemma MonthsInClosedForm(y: int, m: int)
    requires 1 <= m <= 12
    ensures m <= 2 ==> DaysBeforeMonth(y, m) == (153 * (m + 9) + 2) / 5 - 306
    ensures m > 2 ==> DaysBeforeMonth(y, m) == (153 * (m - 3) + 2) / 5 + 59 + (if Leap(y) then 1 else 0)
  {
    if m > 1 { MonthsInClosedForm(y, m - 1); }
  }

  /** The year a date belongs to when years start in March. */
  function MarchYear(d: Date): int
  {
    d.year - (if d.month <= 2 then 1 else 0)
  }

  /** Its month, counted from March. */
  function MarchMonth(d: Date): int
  {
    if d.month > 2 then d.month - 3 else d.month + 9
  }

  function MarchDay(mp: int, day: int): int
  {
    (153 * mp + 2) / 5 + day - 1
  }

  /** Days from 0000-03-01 to the first of March of year `y`, as the source counts them. */
  function DaysBeforeMarch(y: int): int
  {
    var era := (if y >= 0 then y else y - 399) / 400;
    var yoe := y - era * 400;
    era * 146097 + DaysOfYears(yoe)
  }

  lemma FormulaByMarch(d: Date)
    requires 1 <= d.month <= 12
    ensures DaysFromCivil(d) == DaysBeforeMarch(MarchYear(d)) + MarchDay(MarchMonth(d), d.day) - 719468
  {
  }

  lemma EraSplit(era: int, yoe: int)
    requires 0 <= yoe < 400
    ensures var y := 400 * era + yoe;
            && (y + 4) / 4 == 100 * era + 1 + yoe / 4
            && (y + 100) / 100 == 4 * era + 1 + yoe / 100
            && (y + 400) / 400 == era + 1
  {
  }

  /** For every March year from -1 on, the eras count the days of the calendar. */
  lemma MarchYearsAreCounted(y: int)
    requires y >= -1
    ensures DaysBeforeMarch(y) == DaysBeforeYear(y + 1) - 366
  {
    YearsInClosedForm(y + 1);
    if y >= 0 { EraSplit(y / 400, y % 400); }
  }

  lemma MonthsByMarch(d: Date)
    requires 1 <= d.month <= 12
    ensures d.month <= 2 ==> DaysBeforeMonth(d.year, d.month) + d.day - 1 == MarchDay(MarchMonth(d), d.day) - 306
    ensures d.month > 2 ==>
              DaysBeforeMonth(d.year, d.month) + d.day - 1 == MarchDay(MarchMonth(d), d.day) + YearLength(d.year) - 306
  {
    MonthsInClosedForm(d.year, d.month);
  }

  /** For every year from 0 on, the formula is the day count of the calendar, also for a day
      beyond the month's end. */
  lemma FormulaCountsTheDays(d: Date)
    requires d.year >= 0 && 1 <= d.month <= 12
    ensures DaysFromCivil(d) == DayCount(d)
  {
    EpochIsWhereItShouldBe();
    FormulaByMarch(d);
    MarchYearsAreCounted(MarchYear(d));
    MonthsByMarch(d);
  }

  /** One era back from a March year below 0, unless it is the last of its era. */
  lemma EraFloor(y: int)
    ensures var e, r := y / 400, y % 400;
            (y - 399) / 400 == if r == 399 then e else e - 1
  {
  }

  lemma WholeEraOfYears(yoe: int)
    requires 0 <= yoe < 400
    ensures DaysOfYears(yoe + 400) == DaysOfYears(yoe) + 146096
  {
  }

  /** The days the formula is short by in a March year. */
  function Slip(y: int): int
  {
    if y < 0 && y % 400 != 399 then 1 else 0
  }

  lemma DaysBeforeAnyMarch(y: int)
    ensures DaysBeforeMarch(y)
         == 146097 * (y / 400) + DaysOfYears(y % 400) - Slip(y)
  {
    EraFloor(y);
    WholeEraOfYears(y % 400);
  }

  lemma EraShift(y: int, k: int)
    ensures (y + 400 * k) / 400 == y / 400 + k && (y + 400 * k) % 400 == y % 400
  {
  }

  lemma CountByMarch(d: Date, y: int, mp: int)
    requires d.year >= 0 && 1 <= d.month <= 12 && y == MarchYear(d) && mp == MarchMonth(d)
    ensures DayCount(d) == DaysBeforeMarch(y) + MarchDay(mp, d.day) - 719468
  {
    FormulaCountsTheDays(d);
    FormulaByMarch(d);
  }

  lemma SameMarch(d: Date, later: Date, years: int)
    requires later.year == d.year + years && later.month == d.month
    ensures MarchYear(later) == MarchYear(d) + years && MarchMonth(later) == MarchMonth(d)
  {
  }

  lemma LaterCount(d: Date, later: Date, k: nat)
    requires 1 <= d.month <= 12 && d.year + 400 * k >= 0
    requires later.year == d.year + 400 * k && later.month == d.month && later.day == d.day
    ensures DayCount(later) == DaysBeforeMarch(MarchYear(d) + 400 * k) + MarchDay(MarchMonth(d), d.day) - 719468
  {
    SameMarch(d, later, 400 * k);
    CountByMarch(later, MarchYear(d) + 400 * k, MarchMonth(d));
  }

  lemma EndOfEra(x: int)
    requires x == -1
    ensures x % 400 == 399
  {
  }

  lemma MarchYearsRepeat(y: int, k: int)
    requires y + 400 * k >= -1
    ensures DaysBeforeMarch(y) == DaysBeforeMarch(y + 400 * k) - 146097 * k - Slip(y)
  {
    DaysBeforeAnyMarch(y);
    DaysBeforeAnyMarch(y + 400 * k);
    EraShift(y, k);
    if y + 400 * k < 0 { EndOfEra(y + 400 * k); }
  }

  /** The Gregorian calendar repeats every 400 years, 146097 days. Against that, the formula
      is a day short for every date of a March year below 0 but the last of each era, and
      exact for every other date. */
  lemma FormulaFailsBeforeYearZero(d: Date, k: nat)
    requires 1 <= d.month <= 12 && d.year + 400 * k >= 0
    ensures DaysFromCivil(d)
         == DayCount(Date(d.year + 400 * k, d.month, d.day)) - 146097 * k - Slip(MarchYear(d))
  {
    LaterCount(d, Date(d.year + 400 * k, d.month, d.day), k);
    MarchYearsRepeat(MarchYear(d), k);
    FormulaByMarch(d);
  }

  lemma NextMonthIsCounted(y: nat, m: int)
    requires 1 <= m <= 11
    ensures DaysBeforeMonth(y, m + 1) == DaysBeforeMonth(y, m) + MonthLength(y, m)
  {
  }

  lemma NextYearIsCounted(y: nat)
    ensures DaysBeforeYear(y + 1) == DaysBeforeYear(y) + DaysBeforeMonth(y, 12) + 31
  {
    WholeYear(y);
  }

  lemma NextIsCounted(d: Date)
    requires d.year >= 0 && ValidDate(d)
    ensures ValidDate(Next(d)) && DayCount(Next(d)) == DayCount(d) + 1
  {
    if d.day < MonthLength(d.year, d.month) {
      assert Next(d) == d.(day := d.day + 1);
    } else if d.month < 12 {
      NextMonthIsCounted(d.year, d.month);
      assert Next(d) == Date(d.year, d.month + 1, 1);
    } else {
      LastDayIsCounted(d.year);
    }
  }

  lemma LastDayIsCounted(y: nat)
    ensures Next(Date(y, 12, 31)) == Date(y + 1, 1, 1)
    ensures DayCount(Date(y + 1, 1, 1)) == DayCount(Date(y, 12, 31)) + 1
  {
    NextYearIsCounted(y);
    assert DaysBeforeMonth(y + 1, 1) == 0;
  }

  /** Consecutive dates are one day apart. */
  lemma NextIsOneDayLater(d: Date)
    requires d.year >= 0 && ValidDate(d)
    ensures ValidDate(Next(d)) && DaysFromCivil(Next(d)) == DaysFromCivil(d) + 1
  {
    NextIsCounted(d);
    FormulaCountsTheDays(d);
    FormulaCountsTheDays(Next(d));
  }

  lemma WholeYear(y: nat)
    ensures DaysBeforeMonth(y, 12) + 31 == YearLength(y)
  {
    MonthsInClosedForm(y, 12);
  }

  // ------------------------------------------------------------- and back to the date

  lemma DaysOfSplitYears(c: int, p: int, s: int)
    requires 0 <= p <= 24 && 0 <= s <= 3
    ensures DaysOfYears(100 * c + 4 * p + s) == 36524 * c + 1461 * p + 365 * s
  {
    var yoe := 100 * c + 4 * p + s;
    assert yoe / 4 == 25 * c + p && yoe / 100 == c;
  }

  /** What the source divides by 365 is the day of the era without its leap days. */
  lemma LeapDaysComeOff(c: int, p: int, s: int, doy: int, doe: int)
    requires 0 <= c <= 3 && 0 <= p <= 24 && 0 <= s <= 3 && 0 <= doy <= 365
    requires doy == 365 ==> s == 3 && (p == 24 ==> c == 3)
    requires doe == 36524 * c + 1461 * p + 365 * s + doy
    ensures var yoe := 100 * c + 4 * p + s;
            0 <= doe <= 146096 && 365 * yoe <= doe - doe / 1460 + doe / 36524 - doe / 146096 <= 365 * yoe + 364
  {
    var q := 25 * c + p;
    FourYears(q, q - c + 365 * s + doy);
    Centuries(c, 1461 * p + 365 * s + doy);
    WholeEra(doe);
    assert doe == 1460 * q + (q - c + 365 * s + doy);
  }

  /** The year of the era is recovered from the day of the era. */
  lemma YearOfEra(c: int, p: int, s: int, doy: int)
    requires 0 <= c <= 3 && 0 <= p <= 24 && 0 <= s <= 3 && 0 <= doy <= 365
    requires doy == 365 ==> s == 3 && (p == 24 ==> c == 3)
    ensures var yoe := 100 * c + 4 * p + s;
            var doe := DaysOfYears(yoe) + doy;
            0 <= doe <= 146096 && YearOfDay(doe) == yoe
  {
    var yoe := 100 * c + 4 * p + s;
    var doe := DaysOfYears(yoe) + doy;
    DaysOfSplitYears(c, p, s);
    LeapDaysComeOff(c, p, s, doy, doe);
    WholeYears(yoe, doe - doe / 1460 + doe / 36524 - doe / 146096);
  }

  lemma WholeYears(yoe: int, days: int)
    requires 365 * yoe <= days <= 365 * yoe + 364
    ensures days / 365 == yoe
  {
  }

  lemma FourYears(q: int, t: int)
    requires q >= 0 && 0 <= t < 2920
    ensures (1460 * q + t) / 1460 == q + (if t >= 1460 then 1 else 0)
  {
  }

  lemma Centuries(c: int, u: int)
    requires c >= 0 && 0 <= u <= 36524
    ensures (36524 * c + u) / 36524 == c + (if u == 36524 then 1 else 0)
  {
  }

  lemma WholeEra(doe: int)
    requires 0 <= doe <= 146096
    ensures doe / 146096 == if doe == 146096 then 1 else 0
  {
  }

  /** Month and day are recovered from the day of the year that starts in March. */
  lemma MonthOfYear(mp: int, day: int)
    requires 0 <= mp <= 11 && 1 <= day <= 31 && (day == 31 ==> mp !in {1, 3, 6, 8, 11}) && (mp == 11 ==> day <= 29)
    ensures 0 <= MarchDay(mp, day) <= 365 && (5 * MarchDay(mp, day) + 2) / 153 == mp
    ensures MarchDay(mp, day) == 365 <==> mp == 11 && day == 29
  {
  }

  /** The date of a day of a month counted from March. */
  function FromMarch(year: int, mp: int, day: int): Date
  {
    Date(year + (if mp >= 10 then 1 else 0), if mp < 10 then mp + 3 else mp - 9, day)
  }

  lemma DateIsRecovered(era: int, yoe: int, mp: int, day: int)
    requires 0 <= mp <= 11 && (5 * MarchDay(mp, day) + 2) / 153 == mp
    ensures DateOf(era, yoe, MarchDay(mp, day)) == FromMarch(400 * era + yoe, mp, day)
  {
  }

  lemma EraOfDay(era: int, doe: int)
    requires era >= 0 && 0 <= doe <= 146096
    ensures (era * 146097 + doe) / 146097 == era
  {
  }

  lemma SplitYear(yoe: int)
    requires 0 <= yoe < 400
    ensures var c, p, s := yoe / 100, yoe % 100 / 4, yoe % 4;
            0 <= c <= 3 && 0 <= p <= 24 && 0 <= s <= 3 && yoe == 100 * c + 4 * p + s
  {
  }

  lemma LeapFebruary(era: int, yoe: int)
    requires 0 <= yoe < 400 && Leap(400 * era + yoe + 1)
    ensures yoe % 4 == 3 && (yoe % 100 / 4 == 24 ==> yoe / 100 == 3)
  {
    LeapRepeats(era, yoe + 1);
    EndOfCentury(yoe);
  }

  lemma LeapRepeats(era: int, n: int)
    ensures (400 * era + n) % 4 == n % 4
    ensures (400 * era + n) % 100 == n % 100
    ensures (400 * era + n) % 400 == n % 400
  {
    Remainder4(100 * era, n);
    Remainder100(4 * era, n);
    Remainder400(era, n);
  }

  lemma Remainder4(q: int, n: int)
    ensures (4 * q + n) % 4 == n % 4
  {
    assert n == 4 * (n / 4) + n % 4;
  }

  lemma Remainder100(q: int, n: int)
    ensures (100 * q + n) % 100 == n % 100
  {
    assert n == 100 * (n / 100) + n % 100;
  }

  lemma Remainder400(q: int, n: int)
    ensures (400 * q + n) % 400 == n % 400
  {
    assert n == 400 * (n / 400) + n % 400;
  }

  lemma EndOfCentury(yoe: int)
    requires 0 <= yoe < 400 && (yoe + 1) % 4 == 0 && ((yoe + 1) % 100 != 0 || (yoe + 1) % 400 == 0)
    ensures yoe % 4 == 3 && (yoe % 100 / 4 == 24 ==> yoe / 100 == 3)
  {
  }

  /** The day of the era and the date are each other's images. */
  lemma CivilOfEraInverts(era: int, yoe: int, mp: int, day: int, doe: int)
    requires 0 <= yoe < 400 && 0 <= mp <= 11 && 1 <= day <= 31 && (day == 31 ==> mp !in {1, 3, 6, 8, 11})
    requires mp == 11 ==> day <= 28 || (day == 29 && Leap(400 * era + yoe + 1))
    requires doe == DaysOfYears(yoe) + MarchDay(mp, day)
    ensures 0 <= doe <= 146096 && CivilOfEra(era, doe) == FromMarch(400 * era + yoe, mp, day)
  {
    MonthOfYear(mp, day);
    EraYearIsRecovered(era, yoe, MarchDay(mp, day), doe);
    DateIsRecovered(era, yoe, mp, day);
  }

  lemma EraYearIsRecovered(era: int, yoe: int, doy: int, doe: int)
    requires 0 <= yoe < 400 && 0 <= doy <= 365 && (doy == 365 ==> Leap(400 * era + yoe + 1))
    requires doe == DaysOfYears(yoe) + doy
    ensures 0 <= doe <= 146096 && YearOfDay(doe) == yoe && CivilOfEra(era, doe) == DateOf(era, yoe, doy)
  {
    SplitYear(yoe);
    if doy == 365 { LeapFebruary(era, yoe); }
    YearOfEra(yoe / 100, yoe % 100 / 4, yoe % 4, doy);
  }

  lemma MarchDates(d: Date)
    requires ValidDate(d) && MarchYear(d) >= 0
    ensures var mp := MarchMonth(d);
            && 0 <= mp <= 11 && 1 <= d.day <= 31 && (d.day == 31 ==> mp !in {1, 3, 6, 8, 11})
            && (mp == 11 ==> d.day <= 28 || (d.day == 29 && Leap(MarchYear(d) + 1)))
            && d == FromMarch(MarchYear(d), mp, d.day)
  {
  }

  lemma EraIsFound(era: int, doe: int)
    requires era >= 0 && 0 <= doe <= 146096
    ensures CivilFromDays(era * 146097 + doe - 719468) == CivilOfEra(era, doe)
  {
    EraOfDay(era, doe);
  }

  lemma DaysByEra(d: Date, era: int, yoe: int)
    requires 1 <= d.month <= 12 && 0 <= yoe < 400 && era >= 0 && MarchYear(d) == 400 * era + yoe
    ensures DaysFromCivil(d) == era * 146097 + (DaysOfYears(yoe) + MarchDay(MarchMonth(d), d.day)) - 719468
  {
    assert (400 * era + yoe) / 400 == era;
  }

  lemma EraImage(d: Date, era: int, yoe: int, doe: int)
    requires ValidDate(d) && era >= 0 && 0 <= yoe < 400 && MarchYear(d) == 400 * era + yoe
    requires doe == DaysOfYears(yoe) + MarchDay(MarchMonth(d), d.day)
    ensures 0 <= doe <= 146096 && CivilOfEra(era, doe) == d
  {
    var mp := MarchMonth(d);
    MarchDates(d);
    CivilOfEraInverts(era, yoe, mp, d.day, doe);
    assert FromMarch(400 * era + yoe, mp, d.day) == d;
  }

  lemma CivilInvertsDaysIn(d: Date, era: int, yoe: int, doe: int)
    requires ValidDate(d) && era >= 0 && 0 <= yoe < 400 && MarchYear(d) == 400 * era + yoe
    requires doe == DaysOfYears(yoe) + MarchDay(MarchMonth(d), d.day)
    ensures CivilFromDays(era * 146097 + doe - 719468) == d
  {
    EraImage(d, era, yoe, doe);
    EraIsFound(era, doe);
  }

  /** From 0000-03-01 on, the date comes back. */
  lemma CivilInvertsDays(d: Date)
    requires ValidDate(d) && MarchYear(d) >= 0
    ensures CivilFromDays(DaysFromCivil(d)) == d
  {
    var era, yoe := MarchYear(d) / 400, MarchYear(d) % 400;
    DaysByEra(d, era, yoe);
    CivilInvertsDaysIn(d, era, yoe, DaysOfYears(yoe) + MarchDay(MarchMonth(d), d.day));
  }

  lemma EarlyEra(z: int)
    requires -60 <= z <= -1
    ensures (z - 146096) / 146097 == if z == -1 then -1 else -2
  {
  }

  lemma EarlyDays(z: int)
    requires -60 <= z <= -2
    ensures CivilOfEra(-2, z + 292194) == if z >= -30 then Date(0, 2, z + 31) else Date(0, 1, z + 62)
  {
    var doe := z + 292194;
    assert doe / 1460 == 200 && doe / 36524 - doe / 146096 == 6;
    assert YearOfDay(doe) == 799 && DaysOfYears(799) == 291827;
  }

  lemma LastFebruary()
    ensures CivilOfEra(-1, 146096) == Date(0, 2, 29)
  {
    CivilOfEraInverts(-1, 399, 11, 29, 146096);
  }

  lemma EarlyCivil(z: int)
    requires -60 <= z <= -1
    ensures CivilFromDays(z - 719468)
         == if z == -1 then Date(0, 2, 29) else if z >= -30 then Date(0, 2, z + 31) else Date(0, 1, z + 62)
  {
    EarlyEra(z);
    if z == -1 { LastFebruary(); } else { EarlyDays(z); }
  }

  lemma EarlyDayCount(d: Date)
    requires d.year == 0 && 1 <= d.month <= 2
    ensures DaysFromCivil(d) == d.day - (if d.month == 1 then 61 else 30) - 719468
  {
    FormulaByMarch(d);
  }

  /** In the two months before 0000-03-01 it comes back only on the last day. */
  lemma CivilSlipsBeforeTheFirstMarch(d: Date)
    requires ValidDate(d) && d.year == 0 && d.month <= 2
    ensures CivilFromDays(DaysFromCivil(d)) == if d == Date(0, 2, 29) then d else Next(d)
  {
    EarlyDayCount(d);
    EarlyCivil(d.day - (if d.month == 1 then 61 else 30));
  }

  /** The dates a civil day count survives the round trip on, from year 0 on. */
  predicate Dated(d: Date)
  {
    ValidDate(d) && d.year >= 0 && (d.year == 0 && d.month <= 2 ==> d == Date(0, 2, 29))
  }

  lemma ImpossibleDatesCountAsLater(d: Date, later: Date)
    requires d.year >= 0 && 1 <= d.month <= 12 && 1 <= d.day <= 31 && !ValidDate(d)
    requires later == Date(d.year, d.month + 1, d.day - MonthLength(d.year, d.month))
    ensures ValidDate(later) && DaysFromCivil(d) == DaysFromCivil(later)
  {
    FormulaCountsTheDays(d);
    FormulaCountsTheDays(later);
    NextMonthIsCounted(d.year, d.month);
  }

  /** A day beyond the end of its month counts as a day of the next. */
  lemma ImpossibleDatesSlip(d: Date)
    requires d.year >= 0 && 1 <= d.month <= 12 && 1 <= d.day <= 31 && !ValidDate(d)
    ensures CivilFromDays(DaysFromCivil(d)) == Date(d.year, d.month + 1, d.day - MonthLength(d.year, d.month))
  {
    var later := Date(d.year, d.month + 1, d.day - MonthLength(d.year, d.month));
    ImpossibleDatesCountAsLater(d, later);
    CivilInvertsDays(later);
  }

  lemma DatesRoundTrip(d: Date)
    requires d.year >= 0 && ValidDate(d)
    ensures CivilFromDays(DaysFromCivil(d)) == d <==> Dated(d)
  {
    if MarchYear(d) >= 0 { CivilInvertsDays(d); } else { CivilSlipsBeforeTheFirstMarch(d); }
  }

  /** The round trip catches every impossible date: it succeeds exactly on the dates of the
      calendar, 0000-01-01 to 0000-02-28 excepted. */
  lemma RoundTripExactlyOnDates(d: Date)
    requires d.year >= 0 && 1 <= d.month <= 12 && 1 <= d.day <= 31
    ensures CivilFromDays(DaysFromCivil(d)) == d <==> Dated(d)
  {
    if ValidDate(d) { DatesRoundTrip(d); } else { ImpossibleDatesSlip(d); }
  }

  // ------------------------------------------------------------------------- the text

  /** A stripped timestamp text, `YYYY-MM-DD HH:MM:SS`. */
  predicate WellFormed(s: string)
  {
    && |s| == 19
    && s[4] == '-' && s[7] == '-' && s[10] == ' ' && s[13] == ':' && s[16] == ':'
    && AllDigits(s[0..4]) && AllDigits(s[5..7]) && AllDigits(s[8..10])
    && AllDigits(s[11..13]) && AllDigits(s[14..16]) && AllDigits(s[17..19])
  }

  function DateText(s: string): Date
    requires WellFormed(s)
  {
    Date(Number(s[0..4]), Number(s[5..7]), Number(s[8..10]))
  }

  function ClockMs(hour: int, minute: int, second: int): int
  {
    (hour * 3600 + minute * 60 + second) * 1000
  }

  datatype DateError = Misshapen | ImpossibleDate | ImpossibleTime

  /** `0`-padded text of a date, as a partition is named. */
  function DateName(d: Date): string
  {
    if 0 <= d.year < 10000 && 0 <= d.month < 100 && 0 <= d.day < 100 then
      Digits(d.year, 4) + "-" + Digits(d.month, 2) + "-" + Digits(d.day, 2)
    else "out of range"
  }

  function MsOf(days: int, clock: int): int
  {
    days * MS_PER_DAY + clock
  }

  function DayOf(ms: int): int
  {
    ms / MS_PER_DAY
  }

  /** `partition_key`. */
  function PartitionKey(ms: int): string
  {
    DateName(CivilFromDays(DayOf(ms)))
  }

  /** The checks on the fields, the count, and the round trip against the date's own text. */
  function FieldsToMs(name: string, d: Date, hour: nat, minute: nat, second: nat): Outcome<int, DateError>
  {
    if !(1 <= d.month <= 12) || !(1 <= d.day <= 31) then Raised(ImpossibleDate)
    else if hour > 23 || minute > 59 || second > 59 then Raised(ImpossibleTime)
    else
      var ms := MsOf(DaysFromCivil(d), ClockMs(hour, minute, second));
      if PartitionKey(ms) != name then Raised(ImpossibleDate) else Ok(ms)
  }

  /** `datetime_str_to_ms`, on a stripped text. */
  function DatetimeToMs(s: string): Outcome<int, DateError>
  {
    if !WellFormed(s) then Raised(Misshapen)
    else FieldsToMs(s[..10], DateText(s), Number(s[11..13]), Number(s[14..16]), Number(s[17..19]))
  }

  /** A clock time within the day. */
  predicate ValidClock(s: string)
    requires WellFormed(s)
  {
    Number(s[11..13]) <= 23 && Number(s[14..16]) <= 59 && Number(s[17..19]) <= 59
  }

  lemma ClockStaysInTheDay(hour: int, minute: int, second: int)
    requires 0 <= hour <= 23 && 0 <= minute <= 59 && 0 <= second <= 59
    ensures 0 <= ClockMs(hour, minute, second) < MS_PER_DAY
  {
  }

  lemma StampIsInItsDay(days: int, clock: int)
    requires 0 <= clock < MS_PER_DAY
    ensures DayOf(MsOf(days, clock)) == days
  {
  }

  lemma StampIsInItsPartition(days: int, clock: int)
    requires 0 <= clock < MS_PER_DAY
    ensures PartitionKey(MsOf(days, clock)) == DateName(CivilFromDays(days))
  {
    StampIsInItsDay(days, clock);
  }

  lemma NamesAreDates(d: Date, s: string)
    requires WellFormed(s) && 1 <= DateText(s).month <= 12 && 1 <= DateText(s).day <= 31
    requires DateName(d) == s[..10]
    ensures d == DateText(s)
  {
    var year, month, day := s[0..4], s[5..7], s[8..10];
    assert s[..10][0] == s[0];
    if 0 <= d.year < 10000 && 0 <= d.month < 100 && 0 <= d.day < 100 {
      var name := DateName(d);
      assert name[0..4] == Digits(d.year, 4) && name[5..7] == Digits(d.month, 2) && name[8..10] == Digits(d.day, 2);
      assert s[..10][0..4] == year && s[..10][5..7] == month && s[..10][8..10] == day;
      Powers();
      NumberOfDigits(d.year, 4);
      NumberOfDigits(d.month, 2);
      NumberOfDigits(d.day, 2);
    }
  }

  lemma Powers()
    ensures Power10(2) == 100 && Power10(4) == 10000
  {
    assert Power10(1) == 10 && Power10(3) == 1000;
  }

  lemma DateParts(s: string)
    requires WellFormed(s)
    ensures s[..10] == s[0..4] + "-" + s[5..7] + "-" + s[8..10]
  {
  }

  lemma TextNamesItsDate(s: string)
    requires WellFormed(s)
    ensures DateName(DateText(s)) == s[..10]
  {
    var year, month, day := s[0..4], s[5..7], s[8..10];
    Powers();
    NumberIsBounded(year);
    NumberIsBounded(month);
    NumberIsBounded(day);
    DigitsOfNumber(year);
    DigitsOfNumber(month);
    DigitsOfNumber(day);
    DateParts(s);
  }

  /** Comparing names is comparing dates. */
  lemma NameCheck(s: string, d: Date)
    requires WellFormed(s) && 1 <= DateText(s).month <= 12 && 1 <= DateText(s).day <= 31
    ensures DateName(d) == s[..10] <==> d == DateText(s)
  {
    if d == DateText(s) { TextNamesItsDate(s); }
    if DateName(d) == s[..10] { NamesAreDates(d, s); }
  }

  lemma FieldsInRange(name: string, d: Date, hour: nat, minute: nat, second: nat)
    requires 1 <= d.month <= 12 && 1 <= d.day <= 31 && hour <= 23 && minute <= 59 && second <= 59
    ensures FieldsToMs(name, d, hour, minute, second)
         == if DateName(CivilFromDays(DaysFromCivil(d))) == name
            then Ok(MsOf(DaysFromCivil(d), ClockMs(hour, minute, second))) else Raised(ImpossibleDate)
  {
    ClockStaysInTheDay(hour, minute, second);
    StampIsInItsPartition(DaysFromCivil(d), ClockMs(hour, minute, second));
  }

  lemma FieldsAcceptedExactlyWhenReal(name: string, d: Date, hour: nat, minute: nat, second: nat)
    requires d.year >= 0
    requires 1 <= d.month <= 12 && 1 <= d.day <= 31 ==>
               var e := CivilFromDays(DaysFromCivil(d)); DateName(e) == name <==> e == d
    ensures var r := FieldsToMs(name, d, hour, minute, second);
            && (r.Ok? <==> Dated(d) && hour <= 23 && minute <= 59 && second <= 59)
            && (r.Ok? ==> r.value == MsOf(DayCount(d), ClockMs(hour, minute, second)))
  {
    if 1 <= d.month <= 12 && 1 <= d.day <= 31 && hour <= 23 && minute <= 59 && second <= 59 {
      FieldsInRange(name, d, hour, minute, second);
      RoundTripExactlyOnDates(d);
      FormulaCountsTheDays(d);
    }
  }

  /** A text is accepted exactly when it has the shape, names a date of the calendar not
      before 0000-02-29, and a time of the day; and then the result is the calendar's own
      count of days, in milliseconds, plus the clock. */
  lemma AcceptedExactlyWhenReal(s: string)
    ensures DatetimeToMs(s).Ok? <==> WellFormed(s) && Dated(DateText(s)) && ValidClock(s)
    ensures DatetimeToMs(s).Ok? ==>
              DatetimeToMs(s).value == DayCount(DateText(s)) * 86400000 + Number(s[11..13]) * 3600000
                                       + Number(s[14..16]) * 60000 + Number(s[17..19]) * 1000
  {
    if WellFormed(s) {
      var d := DateText(s);
      if 1 <= d.month <= 12 && 1 <= d.day <= 31 { NameCheck(s, CivilFromDays(DaysFromCivil(d))); }
      FieldsAcceptedExactlyWhenReal(s[..10], d, Number(s[11..13]), Number(s[14..16]), Number(s[17..19]));
    }
  }

  lemma CountsTellDatesApart(d: Date, e: Date)
    requires Dated(d) && Dated(e) && DayCount(d) == DayCount(e)
    ensures d == e
  {
    RoundTripExactlyOnDates(d);
    RoundTripExactlyOnDates(e);
    FormulaCountsTheDays(d);
    FormulaCountsTheDays(e);
  }

  lemma ClocksTellTimesApart(h: int, m: int, s: int, h': int, m': int, s': int)
    requires 0 <= m <= 59 && 0 <= s <= 59 && 0 <= m' <= 59 && 0 <= s' <= 59
    requires ClockMs(h, m, s) == ClockMs(h', m', s')
    ensures h == h' && m == m' && s == s'
  {
  }

  lemma SplitMs(days: int, clock: int, days': int, clock': int)
    requires 0 <= clock < MS_PER_DAY && 0 <= clock' < MS_PER_DAY
    requires MsOf(days, clock) == MsOf(days', clock')
    ensures days == days' && clock == clock'
  {
  }

  lemma SameDigits(a: string, b: string)
    requires AllDigits(a) && AllDigits(b) && |a| == |b| && Number(a) == Number(b)
    ensures a == b
  {
    DigitsOfNumber(a);
    DigitsOfNumber(b);
  }

  /** Distinct accepted timestamps never collide. */
  lemma TimestampsNeverCollide(s: string, t: string)
    requires DatetimeToMs(s).Ok? && DatetimeToMs(t).Ok? && DatetimeToMs(s).value == DatetimeToMs(t).value
    ensures s == t
  {
    AcceptedExactlyWhenReal(s);
    AcceptedExactlyWhenReal(t);
    var h, m, c := Number(s[11..13]), Number(s[14..16]), Number(s[17..19]);
    var h', m', c' := Number(t[11..13]), Number(t[14..16]), Number(t[17..19]);
    ClockStaysInTheDay(h, m, c);
    ClockStaysInTheDay(h', m', c');
    SplitMs(DayCount(DateText(s)), ClockMs(h, m, c), DayCount(DateText(t)), ClockMs(h', m', c'));
    CountsTellDatesApart(DateText(s), DateText(t));
    ClocksTellTimesApart(h, m, c, h', m', c');
    SameText(s, t);
  }

  lemma SameText(s: string, t: string)
    requires WellFormed(s) && WellFormed(t) && DateText(s) == DateText(t)
    requires Number(s[11..13]) == Number(t[11..13]) && Number(s[14..16]) == Number(t[14..16])
    requires Number(s[17..19]) == Number(t[17..19])
    ensures s == t
  {
    SameDigits(s[0..4], t[0..4]);
    SameDigits(s[5..7], t[5..7]);
    SameDigits(s[8..10], t[8..10]);
    SameDigits(s[11..13], t[11..13]);
    SameDigits(s[14..16], t[14..16]);
    SameDigits(s[17..19], t[17..19]);
    Parts(s);
    Parts(t);
  }

  lemma Parts(s: string)
    requires WellFormed(s)
    ensures s == s[0..4] + "-" + s[5..7] + "-" + s[8..10] + " " + s[11..13] + ":" + s[14..16] + ":" + s[17..19]
  {
  }

  // ------------------------------------------------------------ digits beyond ASCII

  /** The decimal digits of every script with their values; ASCII has its own ten. */
  ghost predicate IsDigitTable(values: map<char, nat>)
  {
    && (forall c :: c in values ==> values[c] < 10)
    && (forall c: char {:trigger c in values} :: (c as int) < 128 ==> (c in values <==> IsDigit(c)))
    && (forall c :: IsDigit(c) && c in values ==> values[c] == DigitValue(c))
  }

  /** The text with every digit written in ASCII. */
  function InAscii(s: string, values: map<char, nat>): (t: string)
    requires forall c :: c in values ==> values[c] < 10
    ensures |t| == |s|
  {
    seq(|s|, i requires 0 <= i < |s| => if s[i] in values then DigitChar(values[s[i]]) else s[i])
  }

  /** `datetime_str_to_ms`: the digits of any script are read, but the date is compared with
      its ASCII text. */
  function ReadMs(s: string, values: map<char, nat>): Outcome<int, DateError>
    requires forall c :: c in values ==> values[c] < 10
  {
    var t := InAscii(s, values);
    if !WellFormed(t) then Raised(Misshapen)
    else FieldsToMs(s[..10], DateText(t), Number(t[11..13]), Number(t[14..16]), Number(t[17..19]))
  }

  predicate IsAscii(s: string)
  {
    forall i :: 0 <= i < |s| ==> (s[i] as int) < 128
  }

  lemma AsciiReadsAsItself(s: string, values: map<char, nat>)
    requires IsDigitTable(values) && IsAscii(s)
    ensures InAscii(s, values) == s
  {
    forall i | 0 <= i < |s| && s[i] in values
      ensures DigitChar(values[s[i]]) == s[i]
    {
      DigitOfValue(s[i]);
    }
  }

  lemma PartitionKeysAreAscii(ms: int)
    ensures IsAscii(PartitionKey(ms))
  {
    var d := CivilFromDays(DayOf(ms));
    if 0 <= d.year < 10000 && 0 <= d.month < 100 && 0 <= d.day < 100 {
      DigitsAreAscii(Digits(d.year, 4));
      DigitsAreAscii(Digits(d.month, 2));
      DigitsAreAscii(Digits(d.day, 2));
    }
  }

  lemma DigitsAreAscii(s: string)
    requires AllDigits(s)
    ensures IsAscii(s)
  {
  }

  /** A text is accepted exactly when its date is written in ASCII and its ASCII reading is
      accepted, and it then means the same time. */
  lemma AcceptedExactlyWhenTheDateIsAscii(s: string, values: map<char, nat>)
    requires IsDigitTable(values)
    ensures var t := InAscii(s, values);
            && (ReadMs(s, values).Ok? <==> DatetimeToMs(t).Ok? && s[..10] == t[..10])
            && (ReadMs(s, values).Ok? ==> ReadMs(s, values) == DatetimeToMs(t))
  {
    var t := InAscii(s, values);
    if ReadMs(s, values).Ok? {
      PartitionKeysAreAscii(ReadMs(s, values).value);
      AsciiReadsAsItself(s[..10], values);
      assert InAscii(s[..10], values) == t[..10];
    }
  }

  /** Two accepted texts mean the same time exactly when they read alike: they differ, if at
      all, in the script of their clock digits. */
  lemma TimestampsCollideExactlyWhenReadAlike(s: string, t: string, values: map<char, nat>)
    requires IsDigitTable(values) && ReadMs(s, values).Ok? && ReadMs(t, values).Ok?
    ensures ReadMs(s, values) == ReadMs(t, values) <==> InAscii(s, values) == InAscii(t, values)
    ensures ReadMs(s, values) == ReadMs(t, values) ==> s[..10] == t[..10] && (IsAscii(s) && IsAscii(t) ==> s == t)
  {
    AcceptedExactlyWhenTheDateIsAscii(s, values);
    AcceptedExactlyWhenTheDateIsAscii(t, values);
    if ReadMs(s, values) == ReadMs(t, values) { TimestampsNeverCollide(InAscii(s, values), InAscii(t, values)); }
    if IsAscii(s) { AsciiReadsAsItself(s, values); }
    if IsAscii(t) { AsciiReadsAsItself(t, values); }
  }
}
