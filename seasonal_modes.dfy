/**
 * Ramadan and Ten Blessed Days detection: a Gregorian date converted to an
 * Islamic date by the integer arithmetic of the "Kuwaiti" routine, the two
 * season predicates, the mode chosen from them and the labels and progress
 * figures shown for a season day. The date is a parameter in place of
 * `new Date()`.
 */
module SeasonalModes {
  import opened Wrappers
  import JsNumbers
  import Text

  /** The `getFullYear()`, `getMonth() + 1` and `getDate()` readings of a date. */
  datatype GregorianDate = GregorianDate(year: int, month: int, day: int)

  datatype IslamicDate = IslamicDate(year: int, month: int, day: int)

  /** The day count `N` the routine starts from; `Math.floor(30.6001 * (month + 1))` in exact integers. */
  function DayCount(date: GregorianDate): int
  {
    date.day + JsNumbers.FloorDiv(306001 * (date.month + 1), 10000) - 15 + 365 * (date.year - 1)
    + JsNumbers.FloorDiv(date.year - 1, 4) - JsNumbers.FloorDiv(date.year - 1, 100)
    + JsNumbers.FloorDiv(date.year - 1, 400) - 24440588
  }

  /** The rest of `gregorianToIslamic` from the day count, with JavaScript's truncating `%`. */
  function FromDayCount(n0: int): IslamicDate
  {
    var q := JsNumbers.FloorDiv(n0, 10631);
    var n1 := JsNumbers.TruncMod(n0, 10631);
    var r0 := JsNumbers.FloorDiv(n1, 325);
    var r := if r0 > 3 then 3 else r0;
    var n2 := JsNumbers.TruncMod(n1, 325);
    var s0 := JsNumbers.FloorDiv(n2, 30);
    var s := if s0 > 11 then 11 else s0;
    var d := JsNumbers.TruncMod(n2, 30) + 1;
    IslamicDate(q * 30 + r * 5 + s + 1, s + 1, d)
  }

  /** `gregorianToIslamic`. */
  function GregorianToIslamic(date: GregorianDate): IslamicDate
  {
    FromDayCount(DayCount(date))
  }

  /** The remainder left for the month digit, as the routine computes it. */
  function MonthRemainder(n0: int): int
  {
    JsNumbers.TruncMod(JsNumbers.TruncMod(n0, 10631), 325)
  }

  /**
   * The month is at most 11 whatever the day count: the remainder by 325 is
   * below 325, so the month digit never reaches the clamp at 11 and month 12
   * never occurs. The day is the remainder by 30 plus one, and a non-negative
   * count gives a month and a day from 1; a negative count gives a month and
   * a day of at most 1.
   */
  lemma FromDayCountBounds(n0: int)
    ensures var date := FromDayCount(n0);
      && date.month <= 11 && date.day <= 30
      && date.day == JsNumbers.TruncMod(MonthRemainder(n0), 30) + 1
      && date.month == JsNumbers.FloorDiv(MonthRemainder(n0), 30) + 1
      && (n0 >= 0 ==> 1 <= date.month && 1 <= date.day)
      && (n0 < 0 ==> date.month <= 1 && date.day <= 1)
  {
  }

  /** For every year up to 60000 the count is negative, the subtracted constant being far larger than the days elapsed. */
  lemma DayCountNegative(date: GregorianDate)
    requires 1 <= date.month <= 12 && 1 <= date.day <= 31 && date.year <= 60000
    ensures DayCount(date) < 0
  {
  }

  /** `isRamadanPeriod`. */
  predicate IsRamadanPeriod(today: GregorianDate)
  {
    GregorianToIslamic(today).month == 9
  }

  /** `isTenBlessedDays`. */
  predicate IsTenBlessedDays(today: GregorianDate)
  {
    var islamic := GregorianToIslamic(today);
    islamic.month == 12 && islamic.day <= 10
  }

  /** The two seasons exclude each other, and the Ten Blessed Days are never detected. */
  lemma SeasonsExclusive(today: GregorianDate)
    ensures !(IsRamadanPeriod(today) && IsTenBlessedDays(today))
    ensures !IsTenBlessedDays(today)
  {
    FromDayCountBounds(DayCount(today));
  }

  /** Nor is Ramadan, for any calendar date up to the year 60000. */
  lemma RamadanNeverDetected(today: GregorianDate)
    requires 1 <= today.month <= 12 && 1 <= today.day <= 31 && today.year <= 60000
    ensures !IsRamadanPeriod(today)
  {
    DayCountNegative(today);
    FromDayCountBounds(DayCount(today));
  }

  /** During Ramadan the Islamic day lies in 1..30. */
  lemma RamadanDayRange(today: GregorianDate)
    requires IsRamadanPeriod(today)
    ensures 1 <= GregorianToIslamic(today).day <= 30
  {
    FromDayCountBounds(DayCount(today));
    assert MonthRemainder(DayCount(today)) >= 0;
  }

  /** `getDaysRemainingInRamadan`. */
  function DaysRemainingInRamadan(today: GregorianDate): (r: int)
    ensures !IsRamadanPeriod(today) ==> r == 0
    ensures IsRamadanPeriod(today) ==> r == 30 - GregorianToIslamic(today).day && 0 <= r <= 29
  {
    var islamic := GregorianToIslamic(today);
    if islamic.month != 9 then 0
    else
      RamadanDayRange(today);
      30 - islamic.day
  }

  /** `getDaysRemainingInTenDays`. */
  function DaysRemainingInTenDays(today: GregorianDate): (r: int)
    ensures IsTenBlessedDays(today) ==> r == 11 - GregorianToIslamic(today).day
    ensures !IsTenBlessedDays(today) ==> r == 0
  {
    var islamic := GregorianToIslamic(today);
    if islamic.month != 12 then 0
    else if islamic.day > 10 then 0
    else 10 - islamic.day + 1
  }

  /** `getDayInRamadan`. */
  function DayInRamadan(today: GregorianDate): (r: Option<int>)
    ensures r.Some? <==> IsRamadanPeriod(today)
    ensures r.Some? ==> r.value == GregorianToIslamic(today).day && 1 <= r.value <= 30
  {
    var islamic := GregorianToIslamic(today);
    if islamic.month == 9 then
      RamadanDayRange(today);
      Some(islamic.day)
    else None
  }

  /** `getDayInTenDays`. */
  function DayInTenDays(today: GregorianDate): (r: Option<int>)
    ensures r.Some? <==> IsTenBlessedDays(today)
    ensures r.Some? ==> r.value == GregorianToIslamic(today).day && r.value <= 10
  {
    var islamic := GregorianToIslamic(today);
    if islamic.month == 12 && islamic.day <= 10 then Some(islamic.day) else None
  }

  datatype SeasonalMode = Ramadan | TenDays | Normal

  /** `getCurrentSeasonalMode`: Ramadan first, then the Ten Days, otherwise normal. */
  function GetCurrentSeasonalMode(today: GregorianDate): (mode: SeasonalMode)
    ensures mode == Ramadan <==> IsRamadanPeriod(today)
    ensures mode == TenDays <==> !IsRamadanPeriod(today) && IsTenBlessedDays(today)
    ensures mode == Normal <==> !IsRamadanPeriod(today) && !IsTenBlessedDays(today)
  {
    if IsRamadanPeriod(today) then Ramadan
    else if IsTenBlessedDays(today) then TenDays
    else Normal
  }

  /**
   * What a caller sees of the Ten Days: as they are never detected, the mode
   * is never theirs, no day in them is reported and none remain.
   */
  lemma TenDaysFiguresAbsent(today: GregorianDate)
    ensures GetCurrentSeasonalMode(today) != TenDays
    ensures DayInTenDays(today).None? && DaysRemainingInTenDays(today) == 0
  {
  }

  /** For every calendar date up to the year 60000 the current mode is the normal one. */
  lemma ModeOfCalendarDates(today: GregorianDate)
    requires 1 <= today.month <= 12 && 1 <= today.day <= 31 && today.year <= 60000
    ensures GetCurrentSeasonalMode(today) == Normal
  {
  }

  datatype ModeInfo = ModeInfo(mode: SeasonalMode, isActive: bool, name: string, hijriMonth: string,
                               dayInSeason: Option<int>, daysRemaining: Option<int>, totalDays: int, year: int)

  const RAMADAN_NAME := "رمضان المبارك"
  const TEN_DAYS_NAME := "العشر ذي الحجة المباركة"
  const NORMAL_NAME := "الأيام العادية"

  /** `getSeasonalModeInfo`. */
  function GetSeasonalModeInfo(today: GregorianDate): (info: ModeInfo)
    ensures info.mode == GetCurrentSeasonalMode(today)
    ensures info.isActive <==> info.mode != Normal
    ensures info.year == GregorianToIslamic(today).year
    ensures info.mode == Ramadan ==>
      (info.totalDays == 30 && info.dayInSeason == DayInRamadan(today) && info.dayInSeason.Some?
       && info.daysRemaining == Some(DaysRemainingInRamadan(today)))
    ensures info.mode == TenDays ==>
      (info.totalDays == 10 && info.dayInSeason == DayInTenDays(today) && info.dayInSeason.Some?
       && info.daysRemaining == Some(DaysRemainingInTenDays(today)))
    ensures info.mode == Normal ==>
      (info.totalDays == 0 && info.dayInSeason.None? && info.daysRemaining.None?
       && info.hijriMonth == Text.IntToString(GregorianToIslamic(today).month))
  {
    var mode := GetCurrentSeasonalMode(today);
    var islamic := GregorianToIslamic(today);
    match mode
    case Ramadan =>
      ModeInfo(Ramadan, true, RAMADAN_NAME, "9", DayInRamadan(today), Some(DaysRemainingInRamadan(today)), 30, islamic.year)
    case TenDays =>
      ModeInfo(TenDays, true, TEN_DAYS_NAME, "12", DayInTenDays(today), Some(DaysRemainingInTenDays(today)), 10, islamic.year)
    case Normal =>
      ModeInfo(Normal, false, NORMAL_NAME, Text.IntToString(islamic.month), None, None, 0, islamic.year)
  }

  // ---------------------------------------------------------------- labels

  const FROM_RAMADAN := " من رمضان"
  const FIRST_DAY_LABEL := "اليوم الأول من رمضان"
  const QADR_LABEL := "ليلة القدر المحتملة"
  const ODD_NIGHTS := "الليالي الفردية"
  const DAY_WORD := "اليوم "

  /** `getRamadanDayLabel`. */
  function GetRamadanDayLabel(day: int): string
  {
    if day == 1 then FIRST_DAY_LABEL
    else if 2 <= day <= 9 then "اليوم الثاني والعشرون" + (if day == 2 then "" else "...") + FROM_RAMADAN
    else if day == 27 then QADR_LABEL
    else if day >= 21 then (if day == 21 then ODD_NIGHTS else DAY_WORD + Text.IntToString(day)) + FROM_RAMADAN
    else DAY_WORD + Text.IntToString(day) + FROM_RAMADAN
  }

  /** A day outside 1..9, 21 and 27 is named by its own number. */
  predicate NumberedRamadanDay(day: int)
  {
    !(1 <= day <= 9) && day != 21 && day != 27
  }

  /**
   * Only day 27 is labelled as the likely Night of Decree, every other label
   * ends with "of Ramadan", and two numbered days share a label only when
   * they are the same day.
   */
  lemma RamadanDayLabels(a: int, b: int)
    ensures GetRamadanDayLabel(a) == QADR_LABEL <==> a == 27
    ensures a != 27 ==> var l := GetRamadanDayLabel(a);
      |l| >= |FROM_RAMADAN| && l[|l| - |FROM_RAMADAN|..] == FROM_RAMADAN
    ensures NumberedRamadanDay(a) ==> GetRamadanDayLabel(a) == DAY_WORD + Text.IntToString(a) + FROM_RAMADAN
    ensures NumberedRamadanDay(a) && NumberedRamadanDay(b) && GetRamadanDayLabel(a) == GetRamadanDayLabel(b) ==> a == b
  {
    var l := GetRamadanDayLabel(a);
    if a != 27 {
      assert l[|l| - 1] == 'ن' != QADR_LABEL[|QADR_LABEL| - 1];
    }
    if NumberedRamadanDay(a) && NumberedRamadanDay(b) && GetRamadanDayLabel(a) == GetRamadanDayLabel(b) {
      Text.FramedEqual(DAY_WORD, Text.IntToString(a), Text.IntToString(b), FROM_RAMADAN);
      Text.IntToStringInjective(a, b);
    }
  }

  const TEN_DAYS_LABELS := [
    "اليوم الأول من العشر",
    "اليوم الثاني من العشر",
    "اليوم الثالث من العشر",
    "اليوم الرابع من العشر",
    "اليوم الخامس من العشر",
    "اليوم السادس من العشر",
    "اليوم السابع من العشر",
    "اليوم الثامن من العشر",
    "اليوم التاسع من العشر",
    "اليوم العاشر من العشر - يوم العيد"
  ]

  /** `getTenDaysDayLabel`: the list entry for days 1..10 (all non-empty), otherwise the numbered day. */
  function GetTenDaysDayLabel(day: int): string
  {
    if 1 <= day <= |TEN_DAYS_LABELS| then TEN_DAYS_LABELS[day - 1] else DAY_WORD + Text.IntToString(day)
  }

  /** Outside the ten days the label is the numbered day, and it names one day only. */
  lemma TenDaysLabels(a: int, b: int)
    ensures 1 <= a <= 10 ==> GetTenDaysDayLabel(a) == TEN_DAYS_LABELS[a - 1]
    ensures !(1 <= a <= 10) ==> GetTenDaysDayLabel(a) == DAY_WORD + Text.IntToString(a)
    ensures !(1 <= a <= 10) && !(1 <= b <= 10) && GetTenDaysDayLabel(a) == GetTenDaysDayLabel(b) ==> a == b
  {
    if !(1 <= a <= 10) && !(1 <= b <= 10) && GetTenDaysDayLabel(a) == GetTenDaysDayLabel(b) {
      Text.FramedEqual(DAY_WORD, Text.IntToString(a), Text.IntToString(b), "");
      Text.IntToStringInjective(a, b);
    }
  }

  // ---------------------------------------------------------------- progress

  /** `getRamadanProgress`: 0 when there is no (or a zero) day in Ramadan, else the rounded percentage of 30. */
  function GetRamadanProgress(today: GregorianDate): (r: int)
    ensures !IsRamadanPeriod(today) ==> r == 0
    ensures IsRamadanPeriod(today) ==> r == JsNumbers.Round(DayInRamadan(today).value as real / 30.0 * 100.0) && 3 <= r <= 100
  {
    var dayInRamadan := DayInRamadan(today);
    if dayInRamadan.None? || dayInRamadan.value == 0 then 0
    else
      ProgressBounds(dayInRamadan.value, 30);
      JsNumbers.Round(dayInRamadan.value as real / 30.0 * 100.0)
  }

  /** `getTenDaysProgress`: 0 outside the Ten Days, else the rounded percentage of 10. */
  function GetTenDaysProgress(today: GregorianDate): (r: int)
    ensures !IsTenBlessedDays(today) ==> r == 0
  {
    var dayInTenDays := DayInTenDays(today);
    if dayInTenDays.None? || dayInTenDays.value == 0 then 0
    else JsNumbers.Round(dayInTenDays.value as real / 10.0 * 100.0)
  }

  /** As the Ten Days are never detected, their progress is always 0. */
  lemma TenDaysProgressZero(today: GregorianDate)
    ensures GetTenDaysProgress(today) == 0
  {
    SeasonsExclusive(today);
  }

  /** A day among `total` as a rounded percentage lies in 1..100 (3 and up when the total is 30). */
  lemma ProgressBounds(day: int, total: int)
    requires 1 <= day <= total && total == 30
    ensures 3 <= JsNumbers.Round(day as real / total as real * 100.0) <= 100
  {
    assert day as real / total as real * 100.0 == (100 * day) as real / total as real;
    JsNumbers.RoundedQuotientBounds(100 * day, total, 3, 100);
  }
}
