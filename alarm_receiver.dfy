/**
 * The Android broadcast receiver that schedules, cancels and receives the
 * adhan alarms. The system's alarm service is modelled as the table of
 * pending alarms for this receiver's broadcast, keyed by request code.
 */
module AlarmReceiver {
  import opened Wrappers
  import JavaString

  const ACTION_ALARM := "com.noorhuda.islamic.ALARM_ACTION"
  const PRAYER_NAME := "prayerName"
  const AUDIO_ASSET := "audioAsset"
  const ENABLE_SOUND := "enableSound"

  /** An intent extra: a string (possibly `null`) or a boolean. */
  datatype Extra = StringExtra(s: Option<string>) | BoolExtra(b: bool)

  datatype Intent = Intent(action: Option<string>, extras: map<string, Extra>)

  /** `intent.getStringExtra(key)`: `null` when absent or not a string. */
  function GetStringExtra(intent: Intent, key: string): Option<string>
  {
    if key in intent.extras && intent.extras[key].StringExtra? then intent.extras[key].s else None
  }

  /** `intent.getBooleanExtra(key, default)`. */
  function GetBooleanExtra(intent: Intent, key: string, default: bool): bool
  {
    if key in intent.extras && intent.extras[key].BoolExtra? then intent.extras[key].b else default
  }

  /** The intent `scheduleAlarm` builds before wrapping it in a pending intent. */
  function AlarmIntent(prayerName: string, audioAsset: Option<string>, enableSound: bool): Intent
  {
    Intent(Some(ACTION_ALARM),
           map[PRAYER_NAME := StringExtra(Some(prayerName)),
               AUDIO_ASSET := StringExtra(audioAsset),
               ENABLE_SOUND := BoolExtra(enableSound)])
  }

  /** The intent `onReceive` starts the playback service with: three extras and no action. */
  function ServiceIntent(prayerName: Option<string>, audioAsset: Option<string>, enableSound: bool): Intent
  {
    Intent(None,
           map[PRAYER_NAME := StringExtra(prayerName),
               AUDIO_ASSET := StringExtra(audioAsset),
               ENABLE_SOUND := BoolExtra(enableSound)])
  }

  /**
   * `onReceive`: an intent with another action starts nothing; an alarm intent
   * starts the service with its name and asset unchanged and the sound flag
   * defaulting to true.
   */
  function OnReceive(intent: Intent): (start: Option<Intent>)
    ensures start.None? <==> intent.action != Some(ACTION_ALARM)
    ensures start.Some? ==>
              && GetStringExtra(start.value, PRAYER_NAME) == GetStringExtra(intent, PRAYER_NAME)
              && GetStringExtra(start.value, AUDIO_ASSET) == GetStringExtra(intent, AUDIO_ASSET)
              && GetBooleanExtra(start.value, ENABLE_SOUND, false) == GetBooleanExtra(intent, ENABLE_SOUND, true)
              && GetBooleanExtra(start.value, ENABLE_SOUND, true) == GetBooleanExtra(intent, ENABLE_SOUND, true)
  {
    if intent.action == Some(ACTION_ALARM) then
      Some(ServiceIntent(GetStringExtra(intent, PRAYER_NAME),
                         GetStringExtra(intent, AUDIO_ASSET),
                         GetBooleanExtra(intent, ENABLE_SOUND, true)))
    else None
  }

  /** What `scheduleAlarm` packs into the intent is exactly what `onReceive` hands to the service. */
  lemma ScheduledIntentForwarded(prayerName: string, audioAsset: Option<string>, enableSound: bool)
    ensures OnReceive(AlarmIntent(prayerName, audioAsset, enableSound))
      == Some(ServiceIntent(Some(prayerName), audioAsset, enableSound))
  {
    var i := AlarmIntent(prayerName, audioAsset, enableSound);
    assert i.extras[PRAYER_NAME] == StringExtra(Some(prayerName));
    assert i.extras[AUDIO_ASSET] == StringExtra(audioAsset);
    assert i.extras[ENABLE_SOUND] == BoolExtra(enableSound);
  }

  /** The request code both `scheduleAlarm` and `cancelAlarm` derive from the prayer name. */
  function RequestCode(prayerName: string): int
  {
    JavaString.HashCode(prayerName)
  }

  /** `setAndAllowWhileIdle` or, after a `SecurityException`, the inexact `set`. */
  datatype Mode = AllowWhileIdle | Inexact

  datatype Alarm = Alarm(triggerAtMillis: int, mode: Mode, intent: Intent)

  /**
   * The system's pending alarms for this receiver. A pending intent is
   * identified by its request code (the action and component are fixed), and
   * `FLAG_UPDATE_CURRENT` with the same code reuses it, so one code holds at
   * most one alarm.
   */
  class AlarmTable {
    /** Whether `getSystemService(ALARM_SERVICE)` returns a manager. */
    const managerAvailable: bool
    /** Whether the system lets this app call `setAndAllowWhileIdle` without a `SecurityException`. */
    var exactPermitted: bool
    var pending: map<int, Alarm>

    ghost predicate Valid()
      reads this
    {
      !managerAvailable ==> pending == map[]
    }

    constructor (managerAvailable: bool, exactPermitted: bool)
      ensures Valid() && pending == map[]
      ensures this.managerAvailable == managerAvailable && this.exactPermitted == exactPermitted
    {
      this.managerAvailable := managerAvailable;
      this.exactPermitted := exactPermitted;
      pending := map[];
    }

    /**
     * `scheduleAlarm`: the slot of the name's request code now holds this
     * alarm, whatever it held before; every other slot is unchanged. The call
     * never fails: a refused `setAndAllowWhileIdle` falls back to `set`.
     */
    method ScheduleAlarm(prayerName: string, audioAsset: Option<string>, triggerAtMillis: int, enableSound: bool)
      requires Valid()
      modifies this`pending
      ensures Valid()
      ensures managerAvailable ==>
        pending == old(pending)[RequestCode(prayerName) :=
          Alarm(triggerAtMillis, if exactPermitted then AllowWhileIdle else Inexact,
                AlarmIntent(prayerName, audioAsset, enableSound))]
      ensures !managerAvailable ==> pending == old(pending)
    {
      var intent := AlarmIntent(prayerName, audioAsset, enableSound);
      var requestCode := RequestCode(prayerName);
      if managerAvailable {
        if exactPermitted {
          pending := pending[requestCode := Alarm(triggerAtMillis, AllowWhileIdle, intent)];
        } else {
          // the SecurityException is caught and the same alarm is set inexactly
          pending := pending[requestCode := Alarm(triggerAtMillis, Inexact, intent)];
        }
      }
    }

    /**
     * `cancelAlarm`: the slot of the name's request code is emptied (nothing
     * happens if it was empty); a different name with the same hash code loses
     * its alarm too.
     */
    method CancelAlarm(prayerName: string)
      requires Valid()
      modifies this`pending
      ensures Valid()
      ensures pending == if managerAvailable then old(pending) - {RequestCode(prayerName)} else old(pending)
    {
      var requestCode := RequestCode(prayerName);
      if managerAvailable {
        pending := pending - {requestCode};
      }
    }

    /** The system delivering the alarm in one slot: it leaves the table and its intent is broadcast. */
    method Fire(requestCode: int) returns (delivered: Intent)
      requires Valid() && requestCode in pending
      modifies this`pending
      ensures Valid()
      ensures delivered == old(pending)[requestCode].intent
      ensures pending == old(pending) - {requestCode}
    {
      delivered := pending[requestCode].intent;
      pending := pending - {requestCode};
    }
  }

  /** Cancelling one name cancels every name with the same hash code, such as "BB" after "Aa". */
  method CollidingCancel(table: AlarmTable, t: int)
    requires table.Valid() && table.managerAvailable
    modifies table
    ensures RequestCode("Aa") !in table.pending
  {
    table.ScheduleAlarm("Aa", None, t, true);
    JavaString.Collision();
    table.CancelAlarm("BB");
  }
}
