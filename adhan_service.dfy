/**
 * The Android foreground service that plays the adhan and shows the prayer
 * notification. The media player is a handle with a data source and a
 * playing flag; released handles are logged; the notification passed to
 * `startForeground` is kept. The class's static `isPlaying` flag lives in a
 * separate object shared by every instance of the service.
 */
module AdhanService {
  import opened Wrappers
  import AlarmReceiver

  const NOTIFICATION_ID := 1001
  const START_STICKY := 1
  const DEFAULT_ASSET := "adhan_default.mp3"
  const ASSET_DIR := "android_asset/"
  const TITLE_PREFIX := "أذان "
  const GENERIC_PRAYER := "الصلاة"
  const NOTIFICATION_TEXT := "حان وقت الصلاة"

  datatype Player = Player(id: nat, dataSource: string, playing: bool)

  datatype Notification = Notification(id: int, title: string, text: string)

  /** The notification `showAdhanNotification` builds for a (possibly `null`) prayer name. */
  function AdhanNotification(prayerName: Option<string>): (n: Notification)
    ensures n.id == NOTIFICATION_ID && n.text == NOTIFICATION_TEXT
    ensures prayerName.Some? ==> n.title == TITLE_PREFIX + prayerName.value
    ensures prayerName.None? ==> n.title == "أذان الصلاة"
  {
    Notification(NOTIFICATION_ID, TITLE_PREFIX + prayerName.GetOr(GENERIC_PRAYER), NOTIFICATION_TEXT)
  }

  /** `AdhanService.isPlaying`, a static field. */
  class Statics {
    var isPlaying: bool

    constructor ()
      ensures !isPlaying
    {
      isPlaying := false;
    }
  }

  /** `isAdhanPlaying()`. */
  function IsAdhanPlaying(statics: Statics): bool
    reads statics
  {
    statics.isPlaying
  }

  class Service {
    const statics: Statics
    var mediaPlayer: Option<Player>
    /** The handles released so far, in order. */
    var released: seq<nat>
    /** How many handles have been created; the next one gets this number. */
    var playersCreated: nat
    /** The notification this service last passed to `startForeground`. */
    var foreground: Option<Notification>

    ghost predicate Valid()
      reads this
    {
      && (mediaPlayer.Some? ==> mediaPlayer.value.id < playersCreated && mediaPlayer.value.id !in released)
      && (forall i :: 0 <= i < |released| ==> released[i] < playersCreated)
    }

    constructor (statics: Statics)
      ensures Valid() && this.statics == statics
      ensures mediaPlayer == None && released == [] && playersCreated == 0 && foreground == None
    {
      this.statics := statics;
      mediaPlayer := None;
      released := [];
      playersCreated := 0;
      foreground := None;
    }

    /**
     * The effect of `playAdhan(asset)`: the old handle is stopped and released
     * only if it is playing (otherwise it is dropped unreleased), a new handle
     * on `android_asset/<asset>` replaces it, and `isPlaying` becomes true if
     * playback started and otherwise keeps its old value.
     */
    twostate predicate Played(asset: string, started: bool)
      reads this, statics
    {
      && released == (if old(mediaPlayer).Some? && old(mediaPlayer).value.playing
                      then old(released) + [old(mediaPlayer).value.id] else old(released))
      && mediaPlayer == Some(Player(old(playersCreated), ASSET_DIR + asset, started))
      && playersCreated == old(playersCreated) + 1
      && statics.isPlaying == (started || old(statics.isPlaying))
    }

    /** `playAdhan`; `started` says whether `setDataSource`, `prepare` and `start` all succeeded. */
    method PlayAdhan(asset: string, started: bool)
      requires Valid()
      modifies this, statics
      ensures Valid() && Played(asset, started) && foreground == old(foreground)
    {
      if mediaPlayer.Some? && mediaPlayer.value.playing {
        released := released + [mediaPlayer.value.id];
      }
      mediaPlayer := Some(Player(playersCreated, ASSET_DIR + asset, false));
      playersCreated := playersCreated + 1;
      if started {
        mediaPlayer := Some(mediaPlayer.value.(playing := true));
        statics.isPlaying := true;
      }
      // a failure anywhere after the new handle is created is caught and logged
    }

    /** `showAdhanNotification`: the service goes to the foreground with the adhan notification. */
    method ShowAdhanNotification(prayerName: Option<string>)
      modifies this`foreground
      ensures foreground == Some(AdhanNotification(prayerName))
    {
      foreground := Some(AdhanNotification(prayerName));
    }

    /**
     * `onStartCommand`: with no intent nothing happens; otherwise the adhan
     * plays when the sound flag (default true) is set, and the notification is
     * shown in either case. The service always asks to be restarted.
     */
    method OnStartCommand(intent: Option<AlarmReceiver.Intent>, started: bool) returns (r: int)
      requires Valid()
      modifies this, statics
      ensures Valid() && r == START_STICKY
      ensures intent.None? ==> unchanged(this) && unchanged(statics)
      ensures intent.Some? ==>
                foreground == Some(AdhanNotification(AlarmReceiver.GetStringExtra(intent.value, "prayerName")))
      ensures intent.Some? && AlarmReceiver.GetBooleanExtra(intent.value, "enableSound", true) ==>
                Played(AlarmReceiver.GetStringExtra(intent.value, "audioAsset").GetOr(DEFAULT_ASSET), started)
      ensures intent.Some? && !AlarmReceiver.GetBooleanExtra(intent.value, "enableSound", true) ==>
                && mediaPlayer == old(mediaPlayer) && released == old(released)
                && playersCreated == old(playersCreated) && statics.isPlaying == old(statics.isPlaying)
    {
      if intent.Some? {
        var prayerName := AlarmReceiver.GetStringExtra(intent.value, "prayerName");
        var audioAsset := AlarmReceiver.GetStringExtra(intent.value, "audioAsset");
        var enableSound := AlarmReceiver.GetBooleanExtra(intent.value, "enableSound", true);
        if enableSound {
          PlayAdhan(if audioAsset.Some? then audioAsset.value else DEFAULT_ASSET, started);
        }
        ShowAdhanNotification(prayerName);
      }
      r := START_STICKY;
    }

    /** The current handle reaching the end of the file: it stops playing, while `isPlaying` stays as it was. */
    method PlaybackCompleted()
      requires Valid() && mediaPlayer.Some?
      modifies this`mediaPlayer
      ensures Valid() && mediaPlayer == Some(old(mediaPlayer).value.(playing := false))
    {
      mediaPlayer := Some(mediaPlayer.value.(playing := false));
    }

    /** `onDestroy`: any handle is stopped if playing, released and dropped, and `isPlaying` is cleared. */
    method OnDestroy()
      requires Valid()
      modifies this`mediaPlayer, this`released, statics
      ensures Valid() && mediaPlayer == None && !statics.isPlaying
      ensures released == if old(mediaPlayer).Some? then old(released) + [old(mediaPlayer).value.id] else old(released)
    {
      if mediaPlayer.Some? {
        released := released + [mediaPlayer.value.id];
        mediaPlayer := None;
      }
      statics.isPlaying := false;
    }
  }

  /** A second `onDestroy` releases nothing more and leaves the same state. */
  method DestroyTwice(s: Service)
    requires s.Valid()
    modifies s, s.statics
    ensures s.Valid() && s.mediaPlayer == None && !IsAdhanPlaying(s.statics)
    ensures s.released == if old(s.mediaPlayer).Some? then old(s.released) + [old(s.mediaPlayer).value.id] else old(s.released)
  {
    s.OnDestroy();
    ghost var afterFirst := s.released;
    s.OnDestroy();
    assert s.released == afterFirst;
  }

  /**
   * After playback ends, a second alarm whose playback fails leaves the old
   * handle unreleased and `isAdhanPlaying()` still true.
   */
  method FailedReplayKeepsFlag(s: Service, asset: string)
    requires s.Valid() && s.mediaPlayer.None?
    modifies s, s.statics
    ensures IsAdhanPlaying(s.statics)
    ensures s.mediaPlayer.Some? && !s.mediaPlayer.value.playing
    ensures s.released == old(s.released) && s.playersCreated == old(s.playersCreated) + 2
  {
    s.PlayAdhan(asset, true);
    ghost var afterFirst := s.released;
    s.PlaybackCompleted();
    s.PlayAdhan(asset, false);
    assert s.released == afterFirst;
  }
}
