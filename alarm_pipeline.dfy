/**
 * The path of one adhan alarm through the Android side: `scheduleAlarm`
 * fills a slot, the system fires it, `onReceive` starts the service and
 * `onStartCommand` plays and notifies.
 */
module AlarmPipeline {
  import opened Wrappers
  import AlarmReceiver
  import AdhanService

  method ScheduleFireAndStart(table: AlarmReceiver.AlarmTable, service: AdhanService.Service,
                              prayerName: string, audioAsset: Option<string>, triggerAtMillis: int,
                              enableSound: bool, started: bool) returns (r: int)
    requires table.Valid() && table.managerAvailable && service.Valid()
    modifies table, service, service.statics
    ensures r == AdhanService.START_STICKY
    ensures AlarmReceiver.RequestCode(prayerName) !in table.pending
    ensures service.foreground == Some(AdhanService.AdhanNotification(Some(prayerName)))
    ensures enableSound ==>
              service.mediaPlayer == Some(AdhanService.Player(old(service.playersCreated),
                AdhanService.ASSET_DIR + audioAsset.GetOr(AdhanService.DEFAULT_ASSET), started))
    ensures !enableSound ==> service.mediaPlayer == old(service.mediaPlayer)
    ensures AdhanService.IsAdhanPlaying(service.statics) ==
              ((enableSound && started) || old(service.statics.isPlaying))
  {
    table.ScheduleAlarm(prayerName, audioAsset, triggerAtMillis, enableSound);
    var delivered := table.Fire(AlarmReceiver.RequestCode(prayerName));
    AlarmReceiver.ScheduledIntentForwarded(prayerName, audioAsset, enableSound);
    var start := AlarmReceiver.OnReceive(delivered);
    r := service.OnStartCommand(start, started);
  }
}
