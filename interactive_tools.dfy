/**
 * The calendar helpers of the interactive tools: Gregorian to Hijri and back
 * by integer arithmetic, the Hijri date's display string, the whole days
 * between two instants and the next Islamic event of the year. Dates are
 * parameters in place of `new Date()`.
 */
module InteractiveTools {
  import opened Wrappers
  import JsNumbers
  import Text
  import Seqs

  /** The `getFullYear()`, `getMonth() + 1` and `getDate()` readings of a date. */
  datatype GregorianDate = GregorianDate(year: int, month: int, day: int)

  datatype HijriDate = HijriDate(year: int, month: int, day: int)

  // ---------------------------------------------------------------- Gregorian to Hijri

  /** The day number `JD` as the routine computes it. */
  function DayNumber(date: GregorianDate): int
  {
    var a := JsNumbers.FloorDiv(14 - date.month, 12);
    var b := date.year + 4800 - a;
    date.day + JsNumbers.FloorDiv(306001 * (date.month + 1 - 12 * a), 10000)
    + JsNumbers.FloorDiv(3 * (JsNumbers.FloorDiv(b + 100, 100) - JsNumbers.FloorDiv(b + 100, 400)), 4) - 32045
  }

  /** The rest of `gregorianToHijri` from the day number, with JavaScript's truncating `%`. */
  function FromDayNumber(n1: int): HijriDate
  {
    var q1 := JsNumbers.FloorDiv(30 * (n1 - 1948440) + 10646, 10645);
    var q2 := JsNumbers.FloorDiv(10645 * (q1 - 1), 30) + 1;
    var n2 := n1 - q2 + 1;
    var q3 := JsNumbers.FloorDiv(11 * q1 + 3, 30);
    HijriDate(q3 + 1, q3 + 1, JsNumbers.TruncMod(n2 + q3, 354) + 1)
  }

  /** `gregorianToHijri` (its unused `J` left out). */
  function GregorianToHijri(date: GregorianDate): HijriDate
  {
    FromDayNumber(DayNumber(date))
  }

  /** The year and the month are the same number, and the day is at most 354. */
  lemma HijriYearIsMonth(date: GregorianDate)
    ensures GregorianToHijri(date).year == GregorianToHijri(date).month
    ensures GregorianToHijri(date).day <= 354
  {
  }

  /**
   * The day number leaves out the 365 days of each year, so it stays far
   * below the epoch 1948440 for every year up to 10^8, and the month comes
   * out at most 0.
   */
  lemma HijriMonthNotPositive(date: GregorianDate)
    requires 1 <= date.month <= 12 && 1 <= date.day <= 31 && date.year <= 100000000
    ensures GregorianToHijri(date).month <= 0
  {
    var a := JsNumbers.FloorDiv(14 - date.month, 12);
    assert 0 <= a <= 1;
    var n1 := DayNumber(date);
    assert n1 < 1948086;
    var q1 := JsNumbers.FloorDiv(30 * (n1 - 1948440) + 10646, 10645);
    assert q1 < 0;
  }

  // ---------------------------------------------------------------- Hijri to Gregorian

  datatype RawDate = RawDate(year: int, monthIndex: int, day: int)

  /** The arguments `hijriToGregorian` passes to `new Date(year, month - 1, day)`. */
  function HijriToGregorian(hijriYear: int, hijriMonth: int, hijriDay: int): RawDate
  {
    var n := hijriDay + 30 * (hijriMonth - 1) + JsNumbers.FloorDiv(11 * hijriYear + 3, 30) + 1948440 - 385;
    var a := JsNumbers.FloorDiv(n + 32044, 146097);
    var b := n + 32044 - 146097 * a;
    var c := JsNumbers.FloorDiv(4 * b + 3, 1461);
    var d := b - JsNumbers.FloorDiv(1461 * c, 4);
    var e := JsNumbers.FloorDiv(5 * d + 2, 153);
    var day := d - JsNumbers.FloorDiv(153 * e + 2, 5) + 1;
    var month := e + 3 - 12 * JsNumbers.FloorDiv(e + 3, 12);
    var year := 100 * a + c - 4800 + JsNumbers.FloorDiv(e + 3, 12);
    RawDate(year, month - 1, day)
  }

  /** The same day number read back by the textbook rule, which counts December as month 12. */
  function StandardFromDayNumber(n: int): RawDate
  {
    var a := JsNumbers.FloorDiv(n + 32044, 146097);
    var b := n + 32044 - 146097 * a;
    var c := JsNumbers.FloorDiv(4 * b + 3, 1461);
    var d := b - JsNumbers.FloorDiv(1461 * c, 4);
    var e := JsNumbers.FloorDiv(5 * d + 2, 153);
    var day := d - JsNumbers.FloorDiv(153 * e + 2, 5) + 1;
    var month := e + 3 - 12 * JsNumbers.FloorDiv(e, 10);
    var year := 100 * a + c - 4800 + JsNumbers.FloorDiv(e, 10);
    RawDate(year, month - 1, day)
  }

  /** How `new Date(year, monthIndex, day)` carries a month index outside 0..11 into the year. */
  function NormalizeMonth(date: RawDate): RawDate
  {
    RawDate(date.year + JsNumbers.FloorDiv(date.monthIndex, 12), date.monthIndex % 12, date.day)
  }

  /** The Hijri date's day number, as `hijriToGregorian` forms it. */
  function HijriDayNumber(hijriYear: int, hijriMonth: int, hijriDay: int): int
  {
    hijriDay + 30 * (hijriMonth - 1) + JsNumbers.FloorDiv(11 * hijriYear + 3, 30) + 1948440 - 385
  }

  /**
   * The raw month is 0..11 with day 1..31. Month 0 comes with a year one too
   * high, and `Date` carries month index -1 back to December of the year
   * before; after that carry the result is the textbook conversion of the
   * same day number.
   */
  lemma HijriToGregorianStandard(hijriYear: int, hijriMonth: int, hijriDay: int)
    ensures var raw := HijriToGregorian(hijriYear, hijriMonth, hijriDay);
      && -1 <= raw.monthIndex <= 10 && 1 <= raw.day <= 31
      && NormalizeMonth(raw) == NormalizeMonth(StandardFromDayNumber(HijriDayNumber(hijriYear, hijriMonth, hijriDay)))
  {
    var n := HijriDayNumber(hijriYear, hijriMonth, hijriDay);
    var a := JsNumbers.FloorDiv(n + 32044, 146097);
    var b := n + 32044 - 146097 * a;
    assert 0 <= b < 146097;
    var c := JsNumbers.FloorDiv(4 * b + 3, 1461);
    assert 0 <= c <= 399;
    var d := b - JsNumbers.FloorDiv(1461 * c, 4);
    assert 0 <= d <= 365;
    var e := JsNumbers.FloorDiv(5 * d + 2, 153);
    assert 0 <= e <= 11;
  }

  // ---------------------------------------------------------------- display

  const MONTH_NAMES := [
    "محرم", "صفر", "ربيع الأول", "ربيع الثاني", "جمادى الأولى", "جمادى الثانية",
    "رجب", "شعبان", "رمضان", "شوال", "ذو القعدة", "ذو الحجة"]

  /** `monthNames[hijriMonth - 1]` in a template: "undefined" outside 1..12. */
  function MonthName(hijriMonth: int): string
  {
    if 1 <= hijriMonth <= 12 then MONTH_NAMES[hijriMonth - 1] else "undefined"
  }

  /** `formatHijriDate`. */
  function FormatHijriDate(hijriYear: int, hijriMonth: int, hijriDay: int): string
  {
    Text.IntToString(hijriDay) + " " + MonthName(hijriMonth) + " " + Text.IntToString(hijriYear) + " " + "هـ"
  }

  /** The day, the month's name and the year can be read back from the display string. */
  lemma FormatHijriDateReadable(y1: int, m1: int, d1: int, y2: int, m2: int, d2: int)
    requires FormatHijriDate(y1, m1, d1) == FormatHijriDate(y2, m2, d2)
    ensures d1 == d2 && y1 == y2 && MonthName(m1) == MonthName(m2)
  {
    var p1 := Text.IntToString(d1) + " " + MonthName(m1);
    var p2 := Text.IntToString(d2) + " " + MonthName(m2);
    Text.IntToStringNoBlank(d1);
    Text.IntToStringNoBlank(d2);
    Text.IntToStringNoBlank(y1);
    Text.IntToStringNoBlank(y2);
    Text.BlankFreeTail(p1 + " " + Text.IntToString(y1), "هـ", p2 + " " + Text.IntToString(y2), "هـ");
    Text.BlankFreeTail(p1, Text.IntToString(y1), p2, Text.IntToString(y2));
    Text.BlankFreeHead(Text.IntToString(d1), MonthName(m1), Text.IntToString(d2), MonthName(m2));
    Text.IntToStringInjective(d1, d2);
    Text.IntToStringInjective(y1, y2);
  }

  // ---------------------------------------------------------------- days between

  const ONE_DAY := 24 * 60 * 60 * 1000

  function Abs(x: int): int { if x < 0 then -x else x }

  /** `daysBetween` on the two instants' epoch milliseconds. */
  function DaysBetween(time1: int, time2: int): (r: int)
  {
    JsNumbers.Round(Abs(time1 - time2) as real / ONE_DAY as real)
  }

  /** The count is symmetric, never negative, 0 for the same instant and exact on whole days. */
  lemma DaysBetweenProps(time1: int, time2: int, k: int)
    ensures DaysBetween(time1, time2) == DaysBetween(time2, time1)
    ensures DaysBetween(time1, time2) >= 0
    ensures DaysBetween(time1, time1) == 0
    ensures DaysBetween(time1, time1 + k * ONE_DAY) == Abs(k)
  {
    assert Abs(time1 - time2) == Abs(time2 - time1);
    JsNumbers.RoundedQuotientBounds(Abs(time1 - time2), ONE_DAY, 0, Abs(time1 - time2));
    assert Abs(time1 - (time1 + k * ONE_DAY)) == ONE_DAY * Abs(k);
    JsNumbers.RoundedQuotientBounds(ONE_DAY * Abs(k), ONE_DAY, Abs(k), Abs(k));
  }

  // ---------------------------------------------------------------- events

  datatype EventColor = Red | Green | Blue | Yellow | Purple | Amber
  datatype EventType = Holiday | Observance | Historical | Personal

  datatype IslamicEvent = IslamicEvent(hijriMonth: int, hijriDay: int, name: string, nameArabic: string,
                                       description: string, significance: string, color: EventColor, kind: EventType)

  const ISLAMIC_CALENDAR_EVENTS: seq<IslamicEvent> := [
    IslamicEvent(1, 1, "Islamic New Year", "رأس السنة الهجرية",
      "Marks the beginning of a new Islamic year, commemorating the Hijrah of Prophet Muhammad.",
      "Beginning of the Hijri calendar, a time for reflection and renewal.", Blue, Holiday),
    IslamicEvent(1, 10, "Day of Ashura", "يوم عاشوراء",
      "Day of fasting, commemorating Allah's mercy upon the Prophet Musa.",
      "Strongly recommended day of fasting with great rewards.", Purple, Observance),
    IslamicEvent(3, 12, "Mawlid al-Nabi", "مولد النبي",
      "Celebration of Prophet Muhammad's birth, though traditional Sunni scholars commemorate it quietly.",
      "Day to remember the Prophet's exemplary life and teachings.", Green, Holiday),
    IslamicEvent(7, 27, "Laylat al-Isra wa al-Miraj", "ليلة الإسراء والمعراج",
      "Night of the Prophet's journey to Jerusalem and ascension to heaven.",
      "Commemorates the miraculous night journey and the establishment of the five daily prayers.", Blue, Observance),
    IslamicEvent(9, 1, "Ramadan Begins", "بداية شهر رمضان",
      "First day of the blessed month of fasting and spiritual growth.",
      "Month of fasting, Quran recitation, and increased worship.", Amber, Holiday),
    IslamicEvent(9, 27, "Laylat al-Qadr", "ليلة القدر",
      "Night of Power - the night when the Quran was first revealed.",
      "Worship this night is better than 1000 months. Sought in the last 10 nights of Ramadan.", Red, Observance),
    IslamicEvent(10, 1, "Eid al-Fitr", "عيد الفطر",
      "Festival marking the end of Ramadan fasting.",
      "Day of celebration, gratitude, charity, and community gathering.", Green, Holiday),
    IslamicEvent(12, 10, "Eid al-Adha", "عيد الأضحى",
      "Festival of sacrifice commemorating Prophet Ibrahim's obedience.",
      "Pilgrimage culmination, animal sacrifice, and thanksgiving to Allah.", Red, Holiday)
  ]

  /** The filter of `getNextIslamicEvent`: a later month, or the same month on or after the day. */
  predicate Upcoming(event: IslamicEvent, current: HijriDate)
  {
    event.hijriMonth > current.month || (event.hijriMonth == current.month && event.hijriDay >= current.day)
  }

  /** The first upcoming event, else the first event; `None` (undefined) only for an empty list. */
  function NextEvent(events: seq<IslamicEvent>, current: HijriDate): Option<IslamicEvent>
  {
    var upcomingEvents := Seqs.Filter((e: IslamicEvent) => Upcoming(e, current), events);
    if |upcomingEvents| > 0 then Some(upcomingEvents[0])
    else if events != [] then Some(events[0])
    else None
  }

  /** `getNextIslamicEvent` for the day `today`. */
  function GetNextIslamicEvent(today: GregorianDate): Option<IslamicEvent>
  {
    NextEvent(ISLAMIC_CALENDAR_EVENTS, GregorianToHijri(today))
  }

  /**
   * The chosen event is the first upcoming one, or the first of the list
   * when none is upcoming; with a non-empty list there is always one.
   */
  lemma NextEventFirst(events: seq<IslamicEvent>, current: HijriDate, i: nat)
    ensures events != [] <==> NextEvent(events, current).Some?
    ensures i < |events| && Upcoming(events[i], current) && (forall j :: 0 <= j < i ==> !Upcoming(events[j], current))
      ==> NextEvent(events, current) == Some(events[i])
    ensures (forall j :: 0 <= j < |events| ==> !Upcoming(events[j], current)) && events != []
      ==> NextEvent(events, current) == Some(events[0])
  {
    var p := (e: IslamicEvent) => Upcoming(e, current);
    if i < |events| && Upcoming(events[i], current) && (forall j :: 0 <= j < i ==> !Upcoming(events[j], current)) {
      Seqs.FilterFirst(p, events, i);
    }
    if forall j :: 0 <= j < |events| ==> !Upcoming(events[j], current) {
      Seqs.FilterNone(p, events);
    }
  }

  /** Before month 1, the first event of a list that starts in month 1 or later is upcoming. */
  lemma NextEventBeforeFirstMonth(events: seq<IslamicEvent>, current: HijriDate)
    requires current.month <= 0 && events != [] && events[0].hijriMonth >= 1
    ensures NextEvent(events, current) == Some(events[0])
  {
    NextEventFirst(events, current, 0);
  }

  /** For any calendar date up to the year 10^8 the month is not positive, so every event is upcoming and the New Year is chosen. */
  lemma NextEventIsNewYear(today: GregorianDate)
    requires 1 <= today.month <= 12 && 1 <= today.day <= 31 && today.year <= 100000000
    ensures GetNextIslamicEvent(today) == Some(ISLAMIC_CALENDAR_EVENTS[0])
  {
    HijriMonthNotPositive(today);
    NextEventBeforeFirstMonth(ISLAMIC_CALENDAR_EVENTS, GregorianToHijri(today));
  }
}
