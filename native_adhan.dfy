/**
 * The web-side bridge to the native alarm scheduler. It keeps the
 * `scheduledalarms` registry (a JavaScript `Map`, so its keys keep insertion
 * order), falls back to browser timers off the native app, and persists the
 * adhan switch in `localStorage`. Calls into the native bridge are logged as
 * outstanding requests whose success or failure callbacks are explicit
 * events, as are browser timers firing.
 */
module NativeAdhan {
  import opened Wrappers
  import Seqs
  import Json
  import Browser
  import JavaString

  /** `window.NativeAdhan`: undefined, `null`, or an object offering some of the two bridge methods. */
  datatype NativeObject = Undefined | Null | Bridge(hasSchedule: bool, hasCancel: bool)

  datatype Window = Window(cordovaDefined: bool, nativeAdhan: NativeObject)

  /** `isNativeApp`: either global is defined (a `null` bridge counts as defined). */
  function IsNativeApp(w: Window): (b: bool)
    ensures !b <==> !w.cordovaDefined && w.nativeAdhan.Undefined?
  {
    w.cordovaDefined || !w.nativeAdhan.Undefined?
  }

  datatype BridgeCall =
    | ScheduleCall(prayerName: string, timeInMillis: int, audioAsset: string, enableSound: bool)
    | CancelCall(prayerName: string)

  /** A pending `setTimeout` of the web fallback, due at `dueAt`. */
  datatype WebTimer = WebTimer(prayerName: string, dueAt: int)

  /** A local notification; an `id` of `None` is the `NaN` an empty name produces. */
  datatype LocalNotification = LocalNotification(id: Option<int>, title: string, body: string)

  const ADHAN_ENABLED_KEY := "adhan_enabled"

  /** `getAvailableAdhanAudio`: the four bundled files, the Android service's default among them. */
  function AvailableAdhanAudio(): (r: seq<string>)
    ensures |r| == 4 && r[0] == "adhan_default.mp3"
  {
    ["adhan_default.mp3", "adhan_makkah.mp3", "adhan_madinah.mp3", "adhan_traditional.mp3"]
  }

  class NativeAdhanService {
    const window: Window
    const storage: Browser.LocalStorage
    var adhanEnabled: bool
    /** The `scheduledalarms` registry: prayer name to trigger time. */
    var scheduledalarms: map<string, int>
    /** The registry's keys in insertion order, as a `Map` iterates them. */
    var keyOrder: seq<string>
    /** Web-fallback timers not yet fired; none is ever cleared. */
    var webTimers: seq<WebTimer>
    /** Bridge calls whose callback has not yet run. */
    var outstanding: seq<BridgeCall>

    ghost predicate Valid()
      reads this
    {
      && (forall k :: k in keyOrder <==> k in scheduledalarms)
      && Seqs.NoDuplicates(keyOrder)
    }

    constructor (window: Window, storage: Browser.LocalStorage)
      ensures Valid() && this.window == window && this.storage == storage
      ensures !adhanEnabled && scheduledalarms == map[] && keyOrder == [] && webTimers == [] && outstanding == []
    {
      this.window := window;
      this.storage := storage;
      adhanEnabled := false;
      scheduledalarms := map[];
      keyOrder := [];
      webTimers := [];
      outstanding := [];
    }

    /** `scheduledalarms.set(name, time)`: a new key goes last, an existing one keeps its place. */
    method RegistrySet(name: string, time: int)
      requires Valid()
      modifies this`scheduledalarms, this`keyOrder
      ensures Valid()
      ensures scheduledalarms == old(scheduledalarms)[name := time]
      ensures keyOrder == if name in old(keyOrder) then old(keyOrder) else old(keyOrder) + [name]
    {
      if name !in keyOrder {
        keyOrder := keyOrder + [name];
      }
      scheduledalarms := scheduledalarms[name := time];
    }

    /** `scheduledalarms.delete(name)`: a missing key is no error. */
    method RegistryDelete(name: string)
      requires Valid()
      modifies this`scheduledalarms, this`keyOrder
      ensures Valid()
      ensures scheduledalarms == old(scheduledalarms) - {name}
      ensures keyOrder == Seqs.Without(old(keyOrder), name)
    {
      Seqs.WithoutNoDuplicates(keyOrder, name);
      keyOrder := Seqs.Without(keyOrder, name);
      scheduledalarms := scheduledalarms - {name};
    }

    /**
     * `scheduleWebFallback` at clock reading `now`: a future time sets a
     * timer and records the prayer, a new name going last in the registry's
     * insertion order; a past or present time changes nothing.
     */
    method ScheduleWebFallback(prayerName: string, timeInMillis: int, now: int) returns (ok: bool)
      requires Valid()
      modifies this`scheduledalarms, this`keyOrder, this`webTimers
      ensures Valid()
      ensures ok <==> timeInMillis > now
      ensures ok ==>
                && scheduledalarms == old(scheduledalarms)[prayerName := timeInMillis]
                && keyOrder == (if prayerName in old(keyOrder) then old(keyOrder) else old(keyOrder) + [prayerName])
                && webTimers == old(webTimers) + [WebTimer(prayerName, timeInMillis)]
      ensures !ok ==>
                && scheduledalarms == old(scheduledalarms) && keyOrder == old(keyOrder)
                && webTimers == old(webTimers)
    {
      var timeout := timeInMillis - now;
      if timeout > 0 {
        webTimers := webTimers + [WebTimer(prayerName, now + timeout)];
        RegistrySet(prayerName, timeInMillis);
        return true;
      }
      return false;
    }

    /**
     * `scheduleAdhanAlarm`. Off the native app it is the web fallback. With a
     * bridge offering the method it sends the request and reports true, the
     * registry being updated only by the success callback; if the call throws
     * it falls back to the web. Otherwise it reports false and changes nothing.
     */
    method ScheduleAdhanAlarm(prayerName: string, timeInMillis: int, audioAsset: string,
                              enableSound: bool, now: int, bridgeThrows: bool) returns (ok: bool)
      requires Valid()
      modifies this`scheduledalarms, this`keyOrder, this`webTimers, this`outstanding
      ensures Valid()
      ensures !IsNativeApp(window) || (window.nativeAdhan.Bridge? && window.nativeAdhan.hasSchedule && bridgeThrows) ==>
                && (ok <==> timeInMillis > now)
                && outstanding == old(outstanding)
                && scheduledalarms == (if ok then old(scheduledalarms)[prayerName := timeInMillis] else old(scheduledalarms))
                && keyOrder == (if ok && prayerName !in old(keyOrder) then old(keyOrder) + [prayerName] else old(keyOrder))
                && webTimers == (if ok then old(webTimers) + [WebTimer(prayerName, timeInMillis)] else old(webTimers))
      ensures IsNativeApp(window) && window.nativeAdhan.Bridge? && window.nativeAdhan.hasSchedule && !bridgeThrows ==>
                && ok
                && outstanding == old(outstanding) + [ScheduleCall(prayerName, timeInMillis, audioAsset, enableSound)]
                && scheduledalarms == old(scheduledalarms) && keyOrder == old(keyOrder) && webTimers == old(webTimers)
      ensures IsNativeApp(window) && !(window.nativeAdhan.Bridge? && window.nativeAdhan.hasSchedule) ==>
                && !ok && outstanding == old(outstanding)
                && scheduledalarms == old(scheduledalarms) && keyOrder == old(keyOrder) && webTimers == old(webTimers)
    {
      if !IsNativeApp(window) {
        ok := ScheduleWebFallback(prayerName, timeInMillis, now);
        return;
      }
      if window.nativeAdhan.Bridge? && window.nativeAdhan.hasSchedule {
        if bridgeThrows {
          ok := ScheduleWebFallback(prayerName, timeInMillis, now);
          return;
        }
        outstanding := outstanding + [ScheduleCall(prayerName, timeInMillis, audioAsset, enableSound)];
        return true;
      }
      return false;
    }

    /**
     * `cancelAdhanAlarm`. Off the native app the entry is deleted and the
     * answer is true even if it was absent. With a bridge offering the method
     * the request is sent and the answer is true, the entry being deleted by
     * the success callback; a throwing call or a missing method gives false.
     */
    method CancelAdhanAlarm(prayerName: string, bridgeThrows: bool) returns (ok: bool)
      requires Valid()
      modifies this`scheduledalarms, this`keyOrder, this`outstanding
      ensures Valid()
      ensures !IsNativeApp(window) ==>
                && ok && scheduledalarms == old(scheduledalarms) - {prayerName}
                && keyOrder == Seqs.Without(old(keyOrder), prayerName) && outstanding == old(outstanding)
      ensures IsNativeApp(window) ==>
                && scheduledalarms == old(scheduledalarms) && keyOrder == old(keyOrder)
                && (ok <==> window.nativeAdhan.Bridge? && window.nativeAdhan.hasCancel && !bridgeThrows)
                && outstanding == (if ok then old(outstanding) + [CancelCall(prayerName)] else old(outstanding))
    {
      if !IsNativeApp(window) {
        RegistryDelete(prayerName);
        return true;
      }
      if window.nativeAdhan.Bridge? && window.nativeAdhan.hasCancel && !bridgeThrows {
        outstanding := outstanding + [CancelCall(prayerName)];
        return true;
      }
      return false;
    }

    /**
     * `cancelAllAlarms`: one cancel per key, in insertion order. Off the
     * native app this empties the registry; on it, the registry is untouched
     * and one cancel request per key is outstanding when the bridge takes it.
     */
    method CancelAllAlarms(bridgeThrows: bool)
      requires Valid()
      modifies this`scheduledalarms, this`keyOrder, this`outstanding
      ensures Valid()
      ensures !IsNativeApp(window) ==> scheduledalarms == map[] && keyOrder == [] && outstanding == old(outstanding)
      ensures IsNativeApp(window) ==> scheduledalarms == old(scheduledalarms) && keyOrder == old(keyOrder)
      ensures IsNativeApp(window) && window.nativeAdhan.Bridge? && window.nativeAdhan.hasCancel && !bridgeThrows ==>
                outstanding == old(outstanding) + seq(|old(keyOrder)|, i requires 0 <= i < |old(keyOrder)| => CancelCall(old(keyOrder)[i]))
      ensures IsNativeApp(window) && !(window.nativeAdhan.Bridge? && window.nativeAdhan.hasCancel && !bridgeThrows) ==>
                outstanding == old(outstanding)
    {
      var keys := keyOrder;
      ghost var calls := seq(|keys|, i requires 0 <= i < |keys| => CancelCall(keys[i]));
      var sends := IsNativeApp(window) && window.nativeAdhan.Bridge? && window.nativeAdhan.hasCancel && !bridgeThrows;
      for i := 0 to |keys|
        invariant Valid()
        invariant !IsNativeApp(window) ==> keyOrder == keys[i..] && outstanding == old(outstanding)
        invariant IsNativeApp(window) ==> scheduledalarms == old(scheduledalarms) && keyOrder == keys
        invariant sends ==> outstanding == old(outstanding) + calls[..i]
        invariant IsNativeApp(window) && !sends ==> outstanding == old(outstanding)
      {
        if !IsNativeApp(window) {
          Seqs.WithoutFirst(keys[i..]);
          assert keys[i..][1..] == keys[i + 1..];
        }
        var _ := CancelAdhanAlarm(keys[i], bridgeThrows);
        assert calls[..i + 1] == calls[..i] + [CancelCall(keys[i])];
      }
      assert calls[..|keys|] == calls;
      if !IsNativeApp(window) {
        assert forall k :: k !in scheduledalarms;
      }
    }

    /** The bridge answering the `k`-th outstanding call with success: the callback updates the registry. */
    method BridgeSucceeded(k: nat)
      requires Valid() && k < |outstanding|
      modifies this`scheduledalarms, this`keyOrder, this`outstanding
      ensures Valid()
      ensures outstanding == old(outstanding[..k] + outstanding[k + 1..])
      ensures old(outstanding[k]).ScheduleCall? ==>
        && scheduledalarms == old(scheduledalarms)[old(outstanding[k]).prayerName := old(outstanding[k]).timeInMillis]
        && keyOrder == (if old(outstanding[k]).prayerName in old(keyOrder) then old(keyOrder)
                        else old(keyOrder) + [old(outstanding[k]).prayerName])
      ensures old(outstanding[k]).CancelCall? ==>
        && scheduledalarms == old(scheduledalarms) - {old(outstanding[k]).prayerName}
        && keyOrder == Seqs.Without(old(keyOrder), old(outstanding[k]).prayerName)
    {
      var call := outstanding[k];
      outstanding := outstanding[..k] + outstanding[k + 1..];
      match call
      case ScheduleCall(name, time, _, _) => RegistrySet(name, time);
      case CancelCall(name) => RegistryDelete(name);
    }

    /** The bridge answering the `k`-th outstanding call with an error: it is only logged. */
    method BridgeFailed(k: nat)
      requires Valid() && k < |outstanding|
      modifies this`outstanding
      ensures Valid()
      ensures outstanding == old(outstanding[..k] + outstanding[k + 1..])
    {
      outstanding := outstanding[..k] + outstanding[k + 1..];
    }

    /**
     * The `k`-th web timer firing: `triggerAdhanNotification` posts
     * "أذان <name>" with the first UTF-16 code unit of the name as its id,
     * whether or not the prayer was since rescheduled or cancelled.
     */
    method WebTimerFired(k: nat) returns (n: LocalNotification)
      requires k < |webTimers|
      modifies this`webTimers
      ensures webTimers == old(webTimers[..k] + webTimers[k + 1..])
      ensures n.title == "أذان " + old(webTimers[k]).prayerName && n.body == "حان وقت الصلاة"
      ensures n.id.None? <==> old(webTimers[k]).prayerName == ""
    {
      var name := webTimers[k].prayerName;
      webTimers := webTimers[..k] + webTimers[k + 1..];
      var id := if name == "" then None else Some(JavaString.CodeUnits(name[0])[0]);
      n := LocalNotification(id, "أذان " + name, "حان وقت الصلاة");
    }

    /** `setAdhanEnabled`: the field and the stored JSON both take the new value. */
    method SetAdhanEnabled(enabled: bool)
      modifies this`adhanEnabled, storage
      ensures adhanEnabled == enabled
      ensures storage.items == old(storage.items)[ADHAN_ENABLED_KEY := Json.Encoded(Json.Bool(enabled))]
      ensures IsAdhanEnabled() == Some(Json.Bool(enabled))
    {
      adhanEnabled := enabled;
      storage.SetItem(ADHAN_ENABLED_KEY, Json.Encoded(Json.Bool(enabled)));
    }

    /**
     * `isAdhanEnabled`: the parsed stored value when the stored text is
     * non-empty, else the field. `None` is the `SyntaxError` that stored
     * text which is not JSON raises.
     */
    function IsAdhanEnabled(): (r: Option<Json.Value>)
      reads this, storage
      ensures ADHAN_ENABLED_KEY !in storage.items ==> r == Some(Json.Bool(adhanEnabled))
      ensures ADHAN_ENABLED_KEY in storage.items && storage.items[ADHAN_ENABLED_KEY].Encoded? ==>
                r == Some(storage.items[ADHAN_ENABLED_KEY].value)
      ensures ADHAN_ENABLED_KEY in storage.items && storage.items[ADHAN_ENABLED_KEY] == Json.Raw("") ==>
                r == Some(Json.Bool(adhanEnabled))
      ensures (ADHAN_ENABLED_KEY in storage.items && storage.items[ADHAN_ENABLED_KEY].Raw?
               && storage.items[ADHAN_ENABLED_KEY].text != "") ==> r.None?
    {
      var stored := storage.GetItem(ADHAN_ENABLED_KEY);
      if stored.Some? && Json.StoredTruthy(stored.value) then Json.Parse(stored.value)
      else Some(Json.Bool(adhanEnabled))
    }
  }
}
