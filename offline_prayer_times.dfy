/**
 * The offline prayer-times service. The astronomy of the `adhan` library is
 * the function `astronomy`, given to the service when it is made: for a
 * calculation method, a local midnight and a location it gives the day's
 * seven times (epoch milliseconds) or nothing when the library throws.
 * Days are `DAY_MS` apart.
 */
module OfflinePrayerTimes {
  import opened Wrappers
  import Text
  import JsNumbers
  import AdhanUtils

  const DAY_MS := AdhanUtils.DAY_MS

  datatype CalculationMethod = MuslimWorldLeague | NorthAmerica | Egyptian | UmmAlQura | Karachi | Tehran

  datatype Location = Location(latitude: real, longitude: real, name: string, timezone: string)

  datatype DayTimes = DayTimes(fajr: int, sunrise: int, dhuhr: int, asr: int, sunset: int,
                               maghrib: int, isha: int, date: string)

  datatype NamedTime = NamedTime(name: string, time: int)

  /** The seven times of a day in the order `getNextPrayer` goes through them. */
  function Sequence(t: DayTimes): (r: seq<NamedTime>)
    ensures |r| == 7
    ensures r[0] == NamedTime("Fajr", t.fajr) && r[6] == NamedTime("Isha", t.isha)
  {
    [NamedTime("Fajr", t.fajr), NamedTime("Sunrise", t.sunrise), NamedTime("Dhuhr", t.dhuhr),
     NamedTime("Asr", t.asr), NamedTime("Sunset", t.sunset), NamedTime("Maghrib", t.maghrib),
     NamedTime("Isha", t.isha)]
  }

  /** The index, from `i` on, of the first entry strictly after `reference`. */
  function FirstAfter(s: seq<NamedTime>, reference: int, i: nat): (r: Option<nat>)
    requires i <= |s|
    ensures r.Some? ==> i <= r.value < |s| && s[r.value].time > reference
    ensures r.Some? ==> forall j :: i <= j < r.value ==> s[j].time <= reference
    ensures r.None? ==> forall j :: i <= j < |s| ==> s[j].time <= reference
    decreases |s| - i
  {
    if i == |s| then None
    else if s[i].time > reference then Some(i)
    else FirstAfter(s, reference, i + 1)
  }

  /** The non-missing days, in order: what pushing only the truthy results keeps. */
  function Present(days: seq<Option<DayTimes>>): (r: seq<DayTimes>)
    ensures |r| <= |days|
    ensures forall t :: t in r <==> Some(t) in days
  {
    if days == [] then []
    else (if days[0].Some? then [days[0].value] else []) + Present(days[1..])
  }

  lemma {:induction false} PresentAppend(days: seq<Option<DayTimes>>, d: Option<DayTimes>)
    ensures Present(days + [d]) == Present(days) + (if d.Some? then [d.value] else [])
    decreases |days|
  {
    if days == [] {
      assert [] + [d] == [d];
    } else {
      assert (days + [d])[1..] == days[1..] + [d];
      PresentAppend(days[1..], d);
    }
  }

  /** `setCalculationMethod`: a name outside the table gives the Muslim World League method. */
  function MethodNamed(name: string): (m: CalculationMethod)
    ensures name == "isna" <==> m == NorthAmerica
    ensures name !in {"isna", "egyptian", "makkah", "karachi", "tehran"} <==> m == MuslimWorldLeague
  {
    if name == "isna" then NorthAmerica
    else if name == "egyptian" then Egyptian
    else if name == "makkah" then UmmAlQura
    else if name == "karachi" then Karachi
    else if name == "tehran" then Tehran
    else MuslimWorldLeague
  }

  /** `formatTimeArabic` from a date's hours and minutes: "HH:MM" with both zero-padded. */
  function FormatTimeArabic(hours: nat, minutes: nat): (r: string)
    requires hours < 24 && minutes < 60
    ensures |r| == 5 && r[2] == ':'
    ensures Text.IsDigits(r[..2]) && Text.IsDigits(r[3..])
  {
    Text.PadStart2(Text.NatToString(hours)) + ":" + Text.PadStart2(Text.NatToString(minutes))
  }

  /** What `formatTimeArabic` writes is read back by the "HH:MM" parser as the same minute of day. */
  lemma FormatTimeArabicRoundTrip(hours: nat, minutes: nat)
    requires hours < 24 && minutes < 60
    ensures AdhanUtils.MinuteOfDay(FormatTimeArabic(hours, minutes)) == Some(hours * 60 + minutes)
  {
    AdhanUtils.MinuteOfDayOfClock(hours, minutes);
  }

  datatype TimeUntil = TimeUntil(prayer: string, time: int, minutesRemaining: int)

  class OfflinePrayerTimesService {
    const astronomy: (CalculationMethod, int, Location) -> Option<DayTimes>
    var calculationMethod: CalculationMethod

    constructor (astronomy: (CalculationMethod, int, Location) -> Option<DayTimes>)
      ensures this.astronomy == astronomy && calculationMethod == MuslimWorldLeague
    {
      this.astronomy := astronomy;
      calculationMethod := MuslimWorldLeague;
    }

    /** `calculatePrayerTimes` for the day starting at `date`. */
    function CalculatePrayerTimes(date: int, location: Location): Option<DayTimes>
      reads this
    {
      astronomy(calculationMethod, date, location)
    }

    method SetCalculationMethod(name: string)
      modifies this`calculationMethod
      ensures calculationMethod == MethodNamed(name)
    {
      calculationMethod := MethodNamed(name);
    }

    /** The answer of `getNextPrayer` for a reference time within the day starting at `today`. */
    function NextPrayer(location: Location, today: int, reference: int): Option<NamedTime>
      reads this
    {
      match CalculatePrayerTimes(today, location)
      case None => None
      case Some(t) =>
        match FirstAfter(Sequence(t), reference, 0)
        case Some(k) => Some(Sequence(t)[k])
        case None =>
          match CalculatePrayerTimes(today + DAY_MS, location)
          case None => None
          case Some(u) => Some(NamedTime("Fajr", u.fajr))
      }

    /**
     * The next prayer is the first of today's seven times strictly after the
     * reference, Sunrise and Sunset included; otherwise tomorrow's Fajr; and
     * nothing when either day cannot be calculated.
     */
    lemma NextPrayerRule(location: Location, today: int, reference: int)
      ensures var r := NextPrayer(location, today, reference);
        && (CalculatePrayerTimes(today, location).None? ==> r.None?)
        && (CalculatePrayerTimes(today, location).Some? ==>
              var s := Sequence(CalculatePrayerTimes(today, location).value);
              || (exists k :: 0 <= k < 7 && r == Some(s[k]) && s[k].time > reference
                    && forall j :: 0 <= j < k ==> s[j].time <= reference)
              || (&& (forall j :: 0 <= j < 7 ==> s[j].time <= reference)
                  && r == (if CalculatePrayerTimes(today + DAY_MS, location).Some?
                           then Some(NamedTime("Fajr", CalculatePrayerTimes(today + DAY_MS, location).value.fajr))
                           else None)))
    {
      var c := CalculatePrayerTimes(today, location);
      if c.Some? {
        var f := FirstAfter(Sequence(c.value), reference, 0);
        if f.Some? {
          assert 0 <= f.value < 7;
        }
      }
    }

    /** `getNextPrayer`: the loop over today's times with its early return. */
    method GetNextPrayer(location: Location, today: int, reference: int) returns (r: Option<NamedTime>)
      ensures r == NextPrayer(location, today, reference)
    {
      var prayerTime := CalculatePrayerTimes(today, location);
      if prayerTime.None? {
        return None;
      }
      var prayers := Sequence(prayerTime.value);
      for i := 0 to |prayers|
        invariant FirstAfter(prayers, reference, 0) == FirstAfter(prayers, reference, i)
      {
        if prayers[i].time > reference {
          return Some(prayers[i]);
        }
      }
      var tomorrowPrayers := CalculatePrayerTimes(today + DAY_MS, location);
      if tomorrowPrayers.Some? {
        return Some(NamedTime("Fajr", tomorrowPrayers.value.fajr));
      }
      return None;
    }

    /**
     * `getTimeUntilNextPrayer`: the next prayer after the first clock
     * reading, with the whole minutes from the second reading to it.
     */
    method GetTimeUntilNextPrayer(location: Location, today: int, reference: int, now: int) returns (r: Option<TimeUntil>)
      ensures r.Some? <==> NextPrayer(location, today, reference).Some?
      ensures r.Some? ==> var n := NextPrayer(location, today, reference).value;
        && r.value.prayer == n.name && r.value.time == n.time
        && 60000 * r.value.minutesRemaining <= n.time - now < 60000 * r.value.minutesRemaining + 60000
    {
      var next := GetNextPrayer(location, today, reference);
      if next.None? {
        return None;
      }
      var minutesRemaining := JsNumbers.FloorDiv(next.value.time - now, 60000);
      return Some(TimeUntil(next.value.name, next.value.time, minutesRemaining));
    }

    /** The seven days `getWeekPrayerTimes` asks the library for, from the day starting at `today`. */
    function WeekDays(location: Location, today: int): (days: seq<Option<DayTimes>>)
      reads this
      ensures |days| == 7
      ensures forall i :: 0 <= i < 7 ==> days[i] == CalculatePrayerTimes(today + i * DAY_MS, location)
    {
      seq(7, i requires 0 <= i < 7 reads this => CalculatePrayerTimes(today + i * DAY_MS, location))
    }

    /** `getWeekPrayerTimes`: the days that could be calculated, at most seven, in day order. */
    method GetWeekPrayerTimes(location: Location, today: int) returns (times: seq<DayTimes>)
      ensures times == Present(WeekDays(location, today))
      ensures |times| <= 7
    {
      ghost var days := WeekDays(location, today);
      times := [];
      for i := 0 to 7
        invariant times == Present(days[..i])
      {
        var prayerTime := CalculatePrayerTimes(today + i * DAY_MS, location);
        PresentAppend(days[..i], prayerTime);
        assert days[..i + 1] == days[..i] + [prayerTime];
        if prayerTime.Some? {
          times := times + [prayerTime.value];
        }
      }
      assert days[..7] == days;
    }
  }
}
