/**
 * The handler logic of the prayer-times screen: choosing the next prayer,
 * the text of the wait until it, and the per-prayer table of notification
 * timers, which clears a prayer's old timer before it sets a new one. The
 * clock is passed in as the start of the current day and the current time,
 * both in epoch milliseconds; timers firing are explicit events.
 */
module PrayerTimes {
  import opened Wrappers
  import Text
  import Json
  import Browser
  import JsNumbers
  import AdhanUtils

  const DAY_MS := AdhanUtils.DAY_MS
  const MINUTE_MS := AdhanUtils.MINUTE_MS

  /** The five daily prayers in the order the next prayer is looked for. */
  const PRAYER_ORDER: seq<string> := ["Fajr", "Dhuhr", "Asr", "Maghrib", "Isha"]

  /** A row of `prayerConfigs`: the Arabic label `name` and the timings key, held in the field called `arabic`. */
  datatype PrayerConfig = PrayerConfig(name: string, arabic: string)

  const PRAYER_CONFIGS: seq<PrayerConfig> := [
    PrayerConfig("الفجر", "Fajr"), PrayerConfig("الظهر", "Dhuhr"), PrayerConfig("العصر", "Asr"),
    PrayerConfig("المغرب", "Maghrib"), PrayerConfig("العشاء", "Isha")]

  function FindConfig(configs: seq<PrayerConfig>, key: string): (r: Option<PrayerConfig>)
    ensures r.Some? ==> r.value in configs && r.value.arabic == key
    ensures r.Some? ==> exists i :: 0 <= i < |configs| && configs[i] == r.value && forall j :: 0 <= j < i ==> configs[j].arabic != key
    ensures r.None? <==> forall c :: c in configs ==> c.arabic != key
  {
    if configs == [] then None
    else if configs[0].arabic == key then Some(configs[0])
    else FindConfig(configs[1..], key)
  }

  /** `getPrayerConfig`: the row with that key, else the row of Fajr. */
  function GetPrayerConfig(key: string): (c: PrayerConfig)
    ensures c in PRAYER_CONFIGS
    ensures key in PRAYER_ORDER ==> c.arabic == key
    ensures key !in PRAYER_ORDER ==> c == PRAYER_CONFIGS[0]
  {
    assert forall k :: k in PRAYER_ORDER <==> exists c :: c in PRAYER_CONFIGS && c.arabic == k by {
      assert forall i :: 0 <= i < 5 ==> PRAYER_CONFIGS[i].arabic == PRAYER_ORDER[i];
    }
    FindConfig(PRAYER_CONFIGS, key).GetOr(PRAYER_CONFIGS[0])
  }

  /** `setDefaultTimes`. */
  function DefaultTimes(): (t: map<string, string>)
    ensures forall p :: p in PRAYER_ORDER <==> p in t
  {
    map["Fajr" := "05:00", "Dhuhr" := "12:00", "Asr" := "15:30", "Maghrib" := "18:00", "Isha" := "19:30"]
  }

  /** A prayer's minute of day as the loop reads it; a missing or empty entry is skipped, written `None` like `NaN`. */
  function PrayerMinute(times: map<string, string>, prayer: string): Option<nat>
  {
    if prayer in times && times[prayer] != "" then AdhanUtils.MinuteOfDay(times[prayer]) else None
  }

  /** The minutes of the five prayers, in `PRAYER_ORDER`. */
  function Readings(times: map<string, string>): (ms: seq<Option<nat>>)
    ensures |ms| == |PRAYER_ORDER|
    ensures forall i :: 0 <= i < |PRAYER_ORDER| ==> ms[i] == PrayerMinute(times, PRAYER_ORDER[i])
  {
    seq(|PRAYER_ORDER|, i requires 0 <= i < |PRAYER_ORDER| => PrayerMinute(times, PRAYER_ORDER[i]))
  }

  /** A reading strictly after `now`: where the loop of `updateNextPrayer` stops. */
  predicate After(m: Option<nat>, now: int)
  {
    m.Some? && m.value > now
  }

  /** The index, from `i` on, of the first reading strictly after `now`. */
  function FirstAfter(ms: seq<Option<nat>>, now: int, i: nat): (r: Option<nat>)
    requires i <= |ms|
    ensures r.Some? ==> i <= r.value < |ms| && After(ms[r.value], now)
    ensures r.Some? ==> forall j :: i <= j < r.value ==> !After(ms[j], now)
    ensures r.None? ==> forall j :: i <= j < |ms| ==> !After(ms[j], now)
    decreases |ms| - i
  {
    if i == |ms| then None
    else if After(ms[i], now) then Some(i)
    else FirstAfter(ms, now, i + 1)
  }

  /** The next prayer, its wait in minutes (`None` for `NaN`) and the time string its timer is set from. */
  datatype Choice = Choice(prayer: string, wait: Option<int>, timeStr: string)

  /** Fajr's minute of day as the fallback branch reads it: 05:00 when it is missing. */
  function FajrMinute(times: map<string, string>): Option<nat>
  {
    if "Fajr" in times then AdhanUtils.MinuteOfDay(times["Fajr"]) else Some(300)
  }

  function NextChoice(times: map<string, string>, now: int): (c: Choice)
  {
    var ms := Readings(times);
    match FirstAfter(ms, now, 0)
    case Some(k) =>
      Choice(PRAYER_ORDER[k], Some(ms[k].value - now), times[PRAYER_ORDER[k]])
    case None =>
      var fajr := FajrMinute(times);
      Choice("Fajr", if fajr.Some? then Some(24 * 60 - now + fajr.value) else None,
             if "Fajr" in times && times["Fajr"] != "" then times["Fajr"] else "05:00")
  }

  /**
   * The choice is the first prayer of the order whose time is strictly after
   * now, skipping missing or unreadable entries, with the wait to it; when
   * there is none it is tomorrow's Fajr, reached after the rest of today plus
   * Fajr's minute, 05:00 for a missing Fajr.
   */
  lemma NextChoiceRule(times: map<string, string>, now: int)
    requires 0 <= now < 24 * 60
    ensures var c := NextChoice(times, now); var ms := Readings(times);
      || (exists k :: 0 <= k < |PRAYER_ORDER| && c.prayer == PRAYER_ORDER[k]
            && After(ms[k], now) && (forall j :: 0 <= j < k ==> !After(ms[j], now))
            && c.wait == Some(ms[k].value - now) && c.wait.value > 0 && c.timeStr == times[c.prayer])
      || (&& (forall j :: 0 <= j < |PRAYER_ORDER| ==> !After(ms[j], now))
          && c.prayer == "Fajr" && (c.wait.Some? <==> FajrMinute(times).Some?)
          && (c.wait.Some? ==> c.wait.value == 24 * 60 - now + FajrMinute(times).value && c.wait.value > 0))
  {
    var ms := Readings(times);
    var f := FirstAfter(ms, now, 0);
    if f.Some? {
      var k := f.value;
      assert PRAYER_ORDER[k] in times by {
        assert ms[k] == PrayerMinute(times, PRAYER_ORDER[k]);
      }
    }
  }

  /** `${h} س ${m} د` with `h = Math.floor(diff / 60)` and `m = diff % 60`. */
  function WaitText(wait: Option<int>): string
  {
    if wait.None? then "NaN س NaN د"
    else Text.IntToString(JsNumbers.FloorDiv(wait.value, 60)) + " س "
         + Text.IntToString(JsNumbers.TruncMod(wait.value, 60)) + " د"
  }

  /** The hours and minutes shown recompose the wait, minutes below 60. */
  lemma WaitSplit(diff: nat)
    ensures var h := JsNumbers.FloorDiv(diff, 60); var m := JsNumbers.TruncMod(diff, 60);
      h * 60 + m == diff && 0 <= m < 60 && h >= 0
  {
  }

  /**
   * The loop of `updateNextPrayer`: the first prayer of the order after
   * `now`, stopping at the first hit, and Fajr tomorrow when none is left.
   */
  method ChooseNext(times: map<string, string>, now: int) returns (c: Choice)
    ensures c == NextChoice(times, now)
  {
    ghost var ms := Readings(times);
    var found := false;
    var i, k := 0, 0;
    while i < |PRAYER_ORDER| && !found
      invariant 0 <= i <= |PRAYER_ORDER|
      invariant !found ==> FirstAfter(ms, now, 0) == FirstAfter(ms, now, i)
      invariant found ==> FirstAfter(ms, now, 0) == Some(k)
      decreases |PRAYER_ORDER| - i
    {
      var prayer := PRAYER_ORDER[i];
      if prayer in times && times[prayer] != "" {
        var prayerTime := AdhanUtils.MinuteOfDay(times[prayer]);
        assert prayerTime == ms[i];
        if prayerTime.Some? && prayerTime.value > now {
          k := i;
          found := true;
        }
      } else {
        assert ms[i].None?;
      }
      i := i + 1;
    }
    if found {
      var prayer := PRAYER_ORDER[k];
      assert ms[k] == PrayerMinute(times, prayer);
      c := Choice(prayer, Some(AdhanUtils.MinuteOfDay(times[prayer]).value - now), times[prayer]);
    } else {
      var fajr := FajrMinute(times);
      c := Choice("Fajr", if fajr.Some? then Some(24 * 60 - now + fajr.value) else None,
                  if "Fajr" in times && times["Fajr"] != "" then times["Fajr"] else "05:00");
    }
  }

  /** A live notification timer; `playAdhan` is what its closure saw of the two switches when it was made. */
  datatype Timer = Timer(prayer: string, dueAt: int, timeStr: string, playAdhan: bool)

  /** Every live timer is the one the table holds for its prayer. */
  ghost predicate TimersTracked(timeouts: map<string, nat>, live: map<nat, Timer>)
  {
    forall id :: id in live ==> live[id].prayer in timeouts && timeouts[live[id].prayer] == id
  }

  /** So no prayer ever has two live timers. */
  lemma AtMostOneTimer(timeouts: map<string, nat>, live: map<nat, Timer>, a: nat, b: nat)
    requires TimersTracked(timeouts, live)
    requires a in live && b in live && live[a].prayer == live[b].prayer
    ensures a == b
  {
  }

  /** The stored form of a boolean setting: `null` gives the default, otherwise the text must be "true". */
  function BoolSetting(saved: Option<Json.Stored>, default: bool): (b: bool)
    ensures saved.None? ==> b == default
    ensures saved.Some? ==> (b <==> saved.value == Json.Encoded(Json.Bool(true)))
  {
    if saved.None? then default else saved.value == Json.Encoded(Json.Bool(true))
  }

  const NOTIFICATIONS_KEY := "adhan_notifications_enabled"
  const ADHAN_KEY := "adhan_enabled_v2"

  class PrayerTimesController {
    const storage: Browser.LocalStorage
    var times: map<string, string>
    var nextPrayer: string
    var timeUntilNext: string
    var voiceEnabled: bool
    var notificationsEnabled: bool
    var adhanEnabled: bool
    /** `notificationTimeouts`: the last timer id set for each prayer. */
    var notificationTimeouts: map<string, nat>
    /** Timers set and neither cleared nor fired. */
    var liveTimers: map<nat, Timer>
    var nextTimerId: nat

    ghost predicate Valid()
      reads this
    {
      && TimersTracked(notificationTimeouts, liveTimers)
      && (forall id :: id in liveTimers ==> id < nextTimerId)
    }

    /** Mounting the screen: both switches come from storage, voice is on, no times yet. */
    constructor (storage: Browser.LocalStorage)
      ensures Valid() && this.storage == storage
      ensures notificationsEnabled == BoolSetting(storage.GetItem(NOTIFICATIONS_KEY), true)
      ensures adhanEnabled == BoolSetting(storage.GetItem(ADHAN_KEY), false)
      ensures voiceEnabled && times == map[] && nextPrayer == "" && timeUntilNext == ""
      ensures notificationTimeouts == map[] && liveTimers == map[]
    {
      this.storage := storage;
      notificationsEnabled := BoolSetting(storage.GetItem(NOTIFICATIONS_KEY), true);
      adhanEnabled := BoolSetting(storage.GetItem(ADHAN_KEY), false);
      voiceEnabled := true;
      times := map[];
      nextPrayer := "";
      timeUntilNext := "";
      notificationTimeouts := map[];
      liveTimers := map[];
      nextTimerId := 0;
    }

    /** Toggling notifications, persisted as its `toString`; a fresh mount reads it back. */
    method SetNotificationsEnabled(enabled: bool)
      modifies this`notificationsEnabled, storage
      ensures notificationsEnabled == enabled
      ensures storage.items == old(storage.items)[NOTIFICATIONS_KEY := Json.Encoded(Json.Bool(enabled))]
      ensures BoolSetting(storage.GetItem(NOTIFICATIONS_KEY), true) == enabled
    {
      notificationsEnabled := enabled;
      storage.SetItem(NOTIFICATIONS_KEY, Json.Encoded(Json.Bool(enabled)));
    }

    /** Toggling the adhan sound, persisted as its `toString`; a fresh mount reads it back. */
    method SetAdhanEnabled(enabled: bool)
      modifies this`adhanEnabled, storage
      ensures adhanEnabled == enabled
      ensures storage.items == old(storage.items)[ADHAN_KEY := Json.Encoded(Json.Bool(enabled))]
      ensures BoolSetting(storage.GetItem(ADHAN_KEY), false) == enabled
    {
      adhanEnabled := enabled;
      storage.SetItem(ADHAN_KEY, Json.Encoded(Json.Bool(enabled)));
    }

    method SetDefaultTimes()
      modifies this`times
      ensures times == DefaultTimes()
    {
      times := DefaultTimes();
    }

    /** The timer table after `setupAdhanNotification(prayer, timeStr)` at the given clock. */
    twostate predicate SetUp(prayer: string, timeStr: string, dayStart: int, nowMs: int)
      requires dayStart <= nowMs < dayStart + DAY_MS
      reads this
    {
      var cleared := if prayer in old(notificationTimeouts) then old(liveTimers) - {old(notificationTimeouts)[prayer]}
                     else old(liveTimers);
      var delay := AdhanUtils.DelayUntil(timeStr, dayStart, nowMs);
      if delay.Some? && delay.value > 0 && old(notificationsEnabled) then
        && nextTimerId == old(nextTimerId) + 1
        && notificationTimeouts == old(notificationTimeouts)[prayer := old(nextTimerId)]
        && liveTimers == cleared[old(nextTimerId) := Timer(prayer, nowMs + delay.value, timeStr,
                                                           old(voiceEnabled) && old(adhanEnabled))]
      else
        && nextTimerId == old(nextTimerId)
        && notificationTimeouts == old(notificationTimeouts)
        && liveTimers == cleared
    }

    /**
     * `setupAdhanNotification`: clears the prayer's previous timer, then sets
     * one for the delay when it is positive and notifications are on.
     */
    method SetupAdhanNotification(prayer: string, timeStr: string, dayStart: int, nowMs: int)
      requires Valid() && dayStart <= nowMs < dayStart + DAY_MS
      modifies this`notificationTimeouts, this`liveTimers, this`nextTimerId
      ensures Valid()
      ensures SetUp(prayer, timeStr, dayStart, nowMs)
    {
      if prayer in notificationTimeouts {
        liveTimers := liveTimers - {notificationTimeouts[prayer]};
      }
      var delay := AdhanUtils.DelayUntil(timeStr, dayStart, nowMs);
      if delay.Some? && delay.value > 0 && notificationsEnabled {
        var id := nextTimerId;
        liveTimers := liveTimers[id := Timer(prayer, nowMs + delay.value, timeStr, voiceEnabled && adhanEnabled)];
        notificationTimeouts := notificationTimeouts[prayer := id];
        nextTimerId := nextTimerId + 1;
      }
    }

    /**
     * `updateNextPrayer` at the given clock: the next prayer, the wait text,
     * and the timer for the chosen prayer.
     */
    method UpdateNextPrayer(dayStart: int, nowMs: int)
      requires Valid() && dayStart <= nowMs < dayStart + DAY_MS
      modifies this`nextPrayer, this`timeUntilNext, this`notificationTimeouts, this`liveTimers, this`nextTimerId
      ensures Valid()
      ensures var c := NextChoice(old(times), (nowMs - dayStart) / MINUTE_MS);
        && nextPrayer == c.prayer && timeUntilNext == WaitText(c.wait)
        && SetUp(c.prayer, c.timeStr, dayStart, nowMs)
    {
      var c := ChooseNext(times, (nowMs - dayStart) / MINUTE_MS);
      nextPrayer := c.prayer;
      timeUntilNext := WaitText(c.wait);
      SetupAdhanNotification(c.prayer, c.timeStr, dayStart, nowMs);
    }

    /**
     * Timer `id` firing: it leaves the live set; the adhan plays only if both
     * switches were on when it was set, and the notification, titled with the
     * prayer's Arabic label, is always shown.
     */
    method TimerFired(id: nat) returns (playAdhan: bool, title: string, timeStr: string)
      requires Valid() && id in liveTimers
      modifies this`liveTimers
      ensures Valid()
      ensures liveTimers == old(liveTimers) - {id}
      ensures playAdhan == old(liveTimers)[id].playAdhan && timeStr == old(liveTimers)[id].timeStr
      ensures title == GetPrayerConfig(old(liveTimers)[id].prayer).name
      ensures exists c :: c in PRAYER_CONFIGS && c.name == title
    {
      var t := liveTimers[id];
      liveTimers := liveTimers - {id};
      playAdhan := t.playAdhan;
      title := GetPrayerConfig(t.prayer).name;
      timeStr := t.timeStr;
    }
  }
}
