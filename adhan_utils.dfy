/**
 * The pure helpers of the adhan utilities: reading an "HH:MM" string, the
 * time left until a prayer, the displayed time, and the saved timetable in
 * `localStorage`. The clock is passed in as the start of the current day and
 * the current time, in epoch milliseconds.
 */
module AdhanUtils {
  import opened Wrappers
  import Text
  import Json
  import Browser
  import JsNumbers

  const DAY_MS: int := 86400000
  const MINUTE_MS: int := 60000

  /**
   * `const [hours, minutes] = s.split(':').map(Number)` followed by
   * `hours * 60 + minutes`; `None` is the `NaN` a non-number or a missing
   * minutes part gives.
   */
  function MinuteOfDay(s: string): Option<nat>
  {
    ClockValue(Text.SplitOn(s, ':'))
  }

  /** `hours * 60 + minutes` from the first two pieces of the split. */
  function ClockValue(parts: seq<string>): Option<nat>
  {
    if |parts| < 2 then None
    else
      var h := Text.ToNumber(parts[0]);
      var m := Text.ToNumber(parts[1]);
      if h.Some? && m.Some? then Some(h.value * 60 + m.value) else None
  }

  lemma {:induction false} SplitNoColon(b: string)
    requires ':' !in b
    ensures Text.SplitOn(b, ':') == [b]
    decreases |b|
  {
    if b != [] {
      SplitNoColon(b[1..]);
      assert [b[0]] + b[1..] == b;
    }
  }

  lemma {:induction false} SplitAtColon(a: string, b: string)
    requires ':' !in a && ':' !in b
    ensures Text.SplitOn(a + ":" + b, ':') == [a, b]
    decreases |a|
  {
    if a == [] {
      assert (a + ":" + b)[1..] == b;
      SplitNoColon(b);
    } else {
      assert (a + ":" + b)[1..] == a[1..] + ":" + b;
      SplitAtColon(a[1..], b);
      assert [a[0]] + a[1..] == a;
    }
  }

  lemma ClockParts(a: string, b: string, h: nat, m: nat)
    requires ':' !in a && ':' !in b && Text.ToNumber(a) == Some(h) && Text.ToNumber(b) == Some(m)
    ensures MinuteOfDay(a + ":" + b) == Some(h * 60 + m)
  {
    SplitAtColon(a, b);
    assert ClockValue([a, b]) == Some(h * 60 + m);
  }

  /** A clock written as two zero-padded numbers around a colon reads back as its minute of day. */
  lemma MinuteOfDayOfClock(h: nat, m: nat)
    ensures MinuteOfDay(Text.PadStart2(Text.NatToString(h)) + ":" + Text.PadStart2(Text.NatToString(m))) == Some(h * 60 + m)
  {
    var a := Text.PadStart2(Text.NatToString(h));
    var b := Text.PadStart2(Text.NatToString(m));
    Text.NumberOfPadded(h);
    Text.NumberOfPadded(m);
    PaddedDigits(Text.NatToString(h));
    PaddedDigits(Text.NatToString(m));
    ClockParts(a, b, h, m);
  }

  lemma PaddedDigits(s: string)
    requires Text.IsDigits(s)
    ensures ':' !in Text.PadStart2(s)
  {
    var p := Text.PadStart2(s);
    forall i | 0 <= i < |p| ensures p[i] != ':' {
      if |s| < 2 && i >= 2 - |s| {
        assert p[i] == s[i - (2 - |s|)];
      }
    }
  }

  /**
   * The milliseconds from now to today's HH:MM:00, a day later when that is
   * strictly earlier than now. `None` is the `NaN` of an unreadable time.
   */
  function DelayUntil(timeStr: string, dayStart: int, nowMs: int): (d: Option<int>)
    requires dayStart <= nowMs < dayStart + DAY_MS
    ensures d.Some? <==> MinuteOfDay(timeStr).Some?
    ensures d.Some? ==> d.value >= 0
    ensures d.Some? ==> (d.value == 0 <==> dayStart + MinuteOfDay(timeStr).value * MINUTE_MS == nowMs)
    ensures d.Some? ==> var target := dayStart + MinuteOfDay(timeStr).value * MINUTE_MS;
      d.value == (if target < nowMs then target + DAY_MS else target) - nowMs
  {
    match MinuteOfDay(timeStr)
    case None => None
    case Some(mins) =>
      var target := dayStart + mins * MINUTE_MS;
      Some((if target < nowMs then target + DAY_MS else target) - nowMs)
  }

  datatype TimeLeft = TimeLeft(hours: int, minutes: int, seconds: int)

  /**
   * `calculateTimeUntilPrayer`: the delay split into hours, minutes and
   * seconds, never negative; `None` when the time is unreadable and every
   * field is `NaN`.
   */
  function CalculateTimeUntilPrayer(timeStr: string, dayStart: int, nowMs: int): (r: Option<TimeLeft>)
    requires dayStart <= nowMs < dayStart + DAY_MS
    ensures r.Some? <==> MinuteOfDay(timeStr).Some?
    ensures r.Some? ==>
      && 0 <= r.value.minutes < 60 && 0 <= r.value.seconds < 60 && r.value.hours >= 0
      && r.value.hours * 3600 + r.value.minutes * 60 + r.value.seconds
         == JsNumbers.FloorDiv(DelayUntil(timeStr, dayStart, nowMs).value, 1000)
  {
    match DelayUntil(timeStr, dayStart, nowMs)
    case None => None
    case Some(diff) =>
      var totalSeconds := JsNumbers.FloorDiv(diff, 1000);
      var h := JsNumbers.FloorDiv(totalSeconds, 3600);
      var m := JsNumbers.FloorDiv(JsNumbers.TruncMod(totalSeconds, 3600), 60);
      var s := JsNumbers.TruncMod(totalSeconds, 60);
      Some(TimeLeft(h, m, s))
  }

  /** At the prayer's own minute the time left is zero, where the delay to it is never negative. */
  lemma TimeUntilNowIsZero(timeStr: string, dayStart: int)
    requires MinuteOfDay(timeStr).Some? && MinuteOfDay(timeStr).value < 24 * 60
    ensures CalculateTimeUntilPrayer(timeStr, dayStart, dayStart + MinuteOfDay(timeStr).value * MINUTE_MS)
            == Some(TimeLeft(0, 0, 0))
  {
  }

  /** `formatPrayerTime`: a placeholder for the empty string, the text itself otherwise. */
  function FormatPrayerTime(timeStr: string): (r: string)
    ensures r != ""
    ensures timeStr != "" ==> r == timeStr
  {
    if timeStr == "" then "--:--" else timeStr
  }

  lemma FormatPrayerTimeIdempotent(timeStr: string)
    ensures FormatPrayerTime(FormatPrayerTime(timeStr)) == FormatPrayerTime(timeStr)
  {
  }

  const PRAYER_TIMES_KEY := "prayer_times_data"

  /** The object `savePrayerTimes` stringifies. */
  function SavedRecord(times: map<string, string>, city: string, now: int): Json.Value
  {
    Json.Obj(map["times" := TimesObject(times), "city" := Json.Str(city),
                 "timestamp" := Json.Num(now), "version" := Json.Num(1)])
  }

  function TimesObject(times: map<string, string>): Json.Value
  {
    Json.Obj(map k | k in times :: Json.Str(times[k]))
  }

  /** What `loadPrayerTimes` returns: the stored `times` and `city` values as they were parsed. */
  datatype Loaded = Loaded(times: Json.Value, city: Json.Value)

  /**
   * `loadPrayerTimes`: nothing for a missing or empty item, text that is not
   * JSON, `null` (reading a field of it throws), or a record whose `times` is
   * not a truthy object or whose `city` is falsy.
   */
  function LoadPrayerTimes(storage: Browser.LocalStorage): (r: Option<Loaded>)
    reads storage
    ensures r.Some? ==> PRAYER_TIMES_KEY in storage.items && storage.items[PRAYER_TIMES_KEY].Encoded?
    ensures r.Some? ==> Json.Truthy(r.value.times) && Json.IsObjectType(r.value.times) && Json.Truthy(r.value.city)
    ensures r.Some? ==> var v := storage.items[PRAYER_TIMES_KEY].value;
      Json.Get(v, "times") == Json.Found(r.value.times) && Json.Get(v, "city") == Json.Found(r.value.city)
  {
    var data := storage.GetItem(PRAYER_TIMES_KEY);
    if data.None? || !Json.StoredTruthy(data.value) then None
    else match Json.Parse(data.value)
      case None => None
      case Some(parsed) =>
        var times := Json.Get(parsed, "times");
        var city := Json.Get(parsed, "city");
        if times.TypeError? then None
        else if Json.AccessTruthy(times) && Json.AccessTruthy(city) && Json.IsObjectType(times.v) then
          Some(Loaded(times.v, city.v))
        else None
  }

  /**
   * `savePrayerTimes` at clock reading `now`: the record is stored, and
   * loading gives back the times and city exactly when the city is non-empty.
   */
  method SavePrayerTimes(storage: Browser.LocalStorage, times: map<string, string>, city: string, now: int)
    modifies storage
    ensures storage.items == old(storage.items)[PRAYER_TIMES_KEY := Json.Encoded(SavedRecord(times, city, now))]
    ensures LoadPrayerTimes(storage) == if city != "" then Some(Loaded(TimesObject(times), Json.Str(city))) else None
  {
    storage.SetItem(PRAYER_TIMES_KEY, Json.Encoded(SavedRecord(times, city, now)));
  }
}
