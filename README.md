# Islamic-Beacon core, modelled in Dafny

This project models the deterministic core of the Islamic-Beacon app (an
Android/Capacitor app with a React front end) and proves properties of that
model. It covers:

- the native adhan pipeline: `AlarmReceiver` keeps the table of pending
  wake-ups keyed by the prayer name's Java hash code, and `AdhanService`
  plays the adhan and shows its notification;
- the JavaScript bookkeeping around it: the alarm registry of
  `nativeAdhanService`, next-prayer selection and per-prayer timers in
  `PrayerTimes`, the time-until helpers of `adhanService` and
  `offlinePrayerTimesService`, and the prayer times saved in local storage;
- the recitation checkers: Levenshtein distance, similarity, accuracy,
  error lists and statistics in `tasmeaService` and
  `tassemCorrectorService`, and the Quran search of `searchService`;
- the Quran page chunking of `quranPageService` and the calendar arithmetic
  of `seasonalModes` and `interactive-tools-data`;
- the filters and priority chains of `azkarService`, the assistant's
  knowledge base and the local answer chain of `geminiService`;
- the three WAV writers (16-bit PCM, RIFF WAVE with a 44-byte header);
- the track bookkeeping of the enhanced audio player;
- the state machines inside the Quiz, Tasbih, DailyWird, SmartChallenge and
  DailyMissionsAndWirds components.

Host APIs are modelled as state or as parameters:

- Android's `AlarmManager` is a map from request code to pending alarm;
  `MediaPlayer` is a handle with a playing flag and a log of releases.
- `localStorage` is a map from key to stored value. A stored value is
  either a JSON value or text that does not parse.
- Clocks, `Math.random()` and shuffles are parameters. A shuffle is any
  permutation of its input.
- The `adhan` library's astronomy is a function-typed parameter.
- Data tables defined in files outside the core are parameters.

JavaScript numbers are modelled as `int` or exact `real`, and
`Math.floor`, `Math.round`, truncating `%`, `padStart` and
`toString` are written out. Java's 32-bit `int` wrap-around is modelled
explicitly for `String.hashCode`.

Each source file has one module, in a file named after it. Shared helper
modules: `Wrappers` (Option), `Seqs` (filter, sum, distinctness,
removal), `Text` (JavaScript white space, `includes`, decimal strings,
ASCII lowercasing, splitting), `JsNumbers`, `Json`, `EditDistance`
(the Levenshtein specification and its matrix algorithm), `Shuffle` and
`Wav` (the RIFF WAVE layout and the `DataView` writes).

## Model

| member | source | states |
|---|---|---|
| AlarmReceiver.OnReceive | android/app/src/main/java/com/noorhuda/islamic/AlarmReceiver.java:21-39 | an intent whose action is not the alarm action starts nothing; an alarm intent starts the service with the prayer name and asset unchanged and the sound flag defaulting to true |
| AlarmReceiver.ScheduledIntentForwarded | android/app/src/main/java/com/noorhuda/islamic/AlarmReceiver.java:44-48 | the intent `scheduleAlarm` builds, on delivery, starts the service with exactly the name, asset and sound flag scheduled |
| AlarmReceiver.AlarmTable.ScheduleAlarm | android/app/src/main/java/com/noorhuda/islamic/AlarmReceiver.java:41-69 | the slot of `prayerName.hashCode()` holds the new time and intent whatever it held before, all other slots unchanged; a refused exact alarm falls back to an inexact one at the same time; with no alarm manager nothing changes |
| AlarmReceiver.AlarmTable.CancelAlarm | android/app/src/main/java/com/noorhuda/islamic/AlarmReceiver.java:71-90 | the slot of the name's request code is removed (a no-op when empty), all others kept; with no alarm manager nothing changes |
| AlarmReceiver.AlarmTable.Fire | android/app/src/main/java/com/noorhuda/islamic/AlarmReceiver.java:21-24 | a delivered alarm leaves the table and broadcasts the intent stored in its slot |
| AlarmReceiver.CollidingCancel | android/app/src/main/java/com/noorhuda/islamic/AlarmReceiver.java:50 | cancelling "BB" also cancels the alarm scheduled for "Aa", since both names hash to 2112 |
| JavaString.HashCode | android/app/src/main/java/com/noorhuda/islamic/AlarmReceiver.java:50 | Java's `String.hashCode` over UTF-16 code units, wrapped to 32 bits at every step; the result always lies in the int range |
| JavaString.HashIsWrappedPolynomial | android/app/src/main/java/com/noorhuda/islamic/AlarmReceiver.java:78 | wrapping after every step equals the unbounded 31-polynomial wrapped once |
| JavaString.Collision | android/app/src/main/java/com/noorhuda/islamic/AlarmReceiver.java:50 | two different names share a request code: "Aa" and "BB" both hash to 2112 |
| AdhanService.AdhanNotification | android/app/src/main/java/com/noorhuda/islamic/AdhanService.java:76-99 | the notification has id 1001 and the text "حان وقت الصلاة"; its title is "أذان " + the name, or "أذان الصلاة" for a null name |
| AdhanService.Service.PlayAdhan | android/app/src/main/java/com/noorhuda/islamic/AdhanService.java:45-74 | the previous handle is stopped and released only when it is playing; a new player is made for "android_asset/" + the asset; `isPlaying` becomes true only when start succeeds and failures never reset it |
| AdhanService.Service.ShowAdhanNotification | android/app/src/main/java/com/noorhuda/islamic/AdhanService.java:76-99 | the service goes to the foreground with the adhan notification for that name |
| AdhanService.Service.OnStartCommand | android/app/src/main/java/com/noorhuda/islamic/AdhanService.java:25-43 | a null intent changes nothing; otherwise the adhan plays only when the sound flag (default true) is set, with "adhan_default.mp3" for a missing asset, and the notification is shown either way; the result is always START_STICKY |
| AdhanService.Service.PlaybackCompleted | android/app/src/main/java/com/noorhuda/islamic/AdhanService.java:66-68 | the handle finishing playback stops playing while `isPlaying` keeps its value |
| AdhanService.Service.OnDestroy | android/app/src/main/java/com/noorhuda/islamic/AdhanService.java:117-129 | any handle is stopped if playing, released and dropped, and `isPlaying` becomes false |
| AdhanService.DestroyTwice | android/app/src/main/java/com/noorhuda/islamic/AdhanService.java:117-129 | a second `onDestroy` releases nothing more and leaves the same state |
| AdhanService.FailedReplayKeepsFlag | android/app/src/main/java/com/noorhuda/islamic/AdhanService.java:47-73 | after playback ends, a second alarm whose playback fails leaves the old handle unreleased and `isAdhanPlaying()` still true |
| AlarmPipeline.ScheduleFireAndStart | android/app/src/main/java/com/noorhuda/islamic/AlarmReceiver.java:21-69 | scheduling, firing and starting the service for a name empties its slot, shows the notification for that name, plays the scheduled asset when sound is enabled and returns START_STICKY |
| NativeAdhan.AvailableAdhanAudio | services/nativeAdhanService.ts:205-213 | four bundled file names, the first being the Android service's default asset |
| NativeAdhan.NativeAdhanService.constructor | services/nativeAdhanService.ts:16-17 | the adhan is off and the registry empty, with no timers or outstanding bridge calls |
| NativeAdhan.NativeAdhanService.RegistrySet | services/nativeAdhanService.ts:83 | `Map.set`: the key maps to the new time, and the key order keeps an existing key in place and appends a new one |
| NativeAdhan.NativeAdhanService.RegistryDelete | services/nativeAdhanService.ts:126 | `Map.delete`: the key leaves both the map and the key order, and deleting a missing key changes nothing |
| NativeAdhan.NativeAdhanService.ScheduleWebFallback | services/nativeAdhanService.ts:102-119 | succeeds exactly when the time is strictly in the future; then a timer is set and the registry records the time, a new name going last in its insertion order and an existing one keeping its place; otherwise nothing changes |
| NativeAdhan.NativeAdhanService.ScheduleAdhanAlarm | services/nativeAdhanService.ts:60-97 | off the native app, or when the bridge call throws, it behaves as the web fallback, registry order included; with a bridge offering the method it queues the request and answers true without touching the registry; otherwise it answers false and changes nothing |
| NativeAdhan.NativeAdhanService.CancelAdhanAlarm | services/nativeAdhanService.ts:124-151 | off the native app it deletes the entry and answers true; with a bridge it queues the cancel and answers true; a throwing call or a missing method answers false; the registry changes only off the native app |
| NativeAdhan.NativeAdhanService.CancelAllAlarms | services/nativeAdhanService.ts:173-177 | one cancel per registered key in insertion order; off the native app the registry ends empty, and on it one cancel request per key is queued |
| NativeAdhan.NativeAdhanService.BridgeSucceeded | services/nativeAdhanService.ts:81-84 | the success callback of a queued call: a schedule sets the registry entry, a new name going last in insertion order; a cancel deletes the entry and its name from that order |
| NativeAdhan.NativeAdhanService.BridgeFailed | services/nativeAdhanService.ts:85-87 | the error callback of a queued call changes nothing but the queue |
| NativeAdhan.NativeAdhanService.WebTimerFired | services/nativeAdhanService.ts:107-110 | a fired web timer posts "أذان " + the name with body "حان وقت الصلاة", with the first UTF-16 code unit of the name as id (none for an empty name), whether or not the alarm was cancelled since |
| NativeAdhan.NativeAdhanService.SetAdhanEnabled | services/nativeAdhanService.ts:246-249 | the field and the stored JSON both hold the new value, and `isAdhanEnabled` then reads it back |
| NativeAdhan.NativeAdhanService.IsAdhanEnabled | services/nativeAdhanService.ts:254-257 | a missing or empty item gives the field; stored JSON gives its parsed value; text that is not JSON gives the `SyntaxError` (None) |
| PrayerTimes.FindConfig | components/PrayerTimes.tsx:276 | `find` over the rows: the first row carrying that key, preceded by none that carries it; none exactly when no row carries it |
| PrayerTimes.GetPrayerConfig | components/PrayerTimes.tsx:275-277 | the row of that prayer key, and the Fajr row for any other key |
| PrayerTimes.DefaultTimes | components/PrayerTimes.tsx:178-186 | the default table has a time for exactly the five prayers |
| PrayerTimes.FirstAfter | components/PrayerTimes.tsx:195-214 | the first position from the start index whose reading is strictly after now, or none |
| PrayerTimes.NextChoiceRule | components/PrayerTimes.tsx:188-227 | the next prayer is the first in order whose time is strictly after now, skipping missing or unreadable times, with the wait to it; with none it is Fajr tomorrow, after the rest of the day plus Fajr's minute, and Fajr defaults to 05:00 |
| PrayerTimes.WaitSplit | components/PrayerTimes.tsx:204-207 | the hours and minutes shown recompose the wait, and the minutes are below 60 |
| PrayerTimes.ChooseNext | components/PrayerTimes.tsx:192-226 | the loop with its early `break` computes the same choice as the rule above |
| PrayerTimes.AtMostOneTimer | components/PrayerTimes.tsx:231-258 | at most one timer is live per prayer |
| PrayerTimes.PrayerTimesController.constructor | components/PrayerTimes.tsx:20-35 | the two switches come from storage, notifications defaulting to on and the adhan to off; voice is on and there are no times yet |
| PrayerTimes.PrayerTimesController.SetNotificationsEnabled | components/PrayerTimes.tsx:38-40 | the switch is stored as its `toString`, and a fresh mount reads back the same value |
| PrayerTimes.PrayerTimesController.SetAdhanEnabled | components/PrayerTimes.tsx:42-44 | the adhan switch is stored as its `toString`, and a fresh mount reads back the same value |
| PrayerTimes.PrayerTimesController.SetDefaultTimes | components/PrayerTimes.tsx:178-186 | the times become the default table |
| PrayerTimes.PrayerTimesController.SetupAdhanNotification | components/PrayerTimes.tsx:230-260 | the prayer's previous timer is cleared; a new one is set only when notifications are on and the delay is positive; the delay goes to the next HH:MM:00, a day later when that is already past |
| PrayerTimes.PrayerTimesController.UpdateNextPrayer | components/PrayerTimes.tsx:188-227 | the next prayer and its wait text are those of the choice rule, and that prayer's timer is set up |
| PrayerTimes.PrayerTimesController.TimerFired | components/PrayerTimes.tsx:248-256 | a fired timer leaves the live set; the adhan plays only when voice and the adhan were both on when it was set; the notification always shows, titled with the prayer's Arabic label |
| AdhanUtils.MinuteOfDayOfClock | utils/adhanService.ts:124 | a clock written as two zero-padded numbers around a colon reads back as its own minute of day |
| AdhanUtils.DelayUntil | utils/adhanService.ts:123-132 | defined exactly when the time is readable, and never negative; it is zero exactly at the prayer's minute; it reaches today's HH:MM:00, or tomorrow's when today's is strictly past |
| AdhanUtils.CalculateTimeUntilPrayer | utils/adhanService.ts:122-139 | an unreadable time gives NaN in every field; otherwise the hours, minutes and seconds are non-negative, minutes and seconds below 60, and they recompose the whole seconds of the delay |
| AdhanUtils.TimeUntilNowIsZero | utils/adhanService.ts:128-136 | at the prayer's own minute the time left is zero on every field |
| AdhanUtils.FormatPrayerTime | utils/adhanService.ts:144-147 | never empty: a placeholder for the empty string, the text itself otherwise |
| AdhanUtils.FormatPrayerTimeIdempotent | utils/adhanService.ts:144-147 | formatting a formatted time changes nothing |
| AdhanUtils.LoadPrayerTimes | utils/adhanService.ts:169-183 | a record comes back only from stored JSON whose `times` is a truthy object and whose `city` is truthy; a missing or empty item, non-JSON text and `null` give nothing |
| AdhanUtils.SavePrayerTimes | utils/adhanService.ts:152-164 | the stored record holds the times, the city, the timestamp and version 1; loading it back gives the same times and city exactly when the city is non-empty |
| OfflinePrayerTimes.Sequence | services/offlinePrayerTimesService.ts:128-136 | today's seven named times, from Fajr to Isha, in the order the loop goes through them |
| OfflinePrayerTimes.FirstAfter | services/offlinePrayerTimesService.ts:138-142 | the first position from the start index whose time is strictly after the reference, or none |
| OfflinePrayerTimes.Present | services/offlinePrayerTimesService.ts:81-84 | the days that could be calculated, keeping their order |
| OfflinePrayerTimes.PresentAppend | services/offlinePrayerTimesService.ts:82-84 | pushing a day's result appends it exactly when the result is present |
| OfflinePrayerTimes.MethodNamed | services/offlinePrayerTimesService.ts:236-247 | the method table, where "isna" is North America and any name outside the table is Muslim World League |
| OfflinePrayerTimes.FormatTimeArabic | services/offlinePrayerTimesService.ts:263-267 | "HH:MM" output: five characters, two digits on each side of the colon |
| OfflinePrayerTimes.FormatTimeArabicRoundTrip | services/offlinePrayerTimesService.ts:263-267 | what `formatTimeArabic` writes reads back as the same minute of day |
| OfflinePrayerTimes.OfflinePrayerTimesService.constructor | services/offlinePrayerTimesService.ts:26-27 | the service starts on the Muslim World League method |
| OfflinePrayerTimes.OfflinePrayerTimesService.SetCalculationMethod | services/offlinePrayerTimesService.ts:236-247 | the method becomes the table's entry for that name |
| OfflinePrayerTimes.OfflinePrayerTimesService.NextPrayerRule | services/offlinePrayerTimesService.ts:117-154 | the next prayer is the first of today's seven times strictly after the reference, Sunrise and Sunset included; otherwise it is tomorrow's Fajr; there is none when either day cannot be calculated |
| OfflinePrayerTimes.OfflinePrayerTimesService.GetNextPrayer | services/offlinePrayerTimesService.ts:117-154 | the loop with its early return computes the rule above |
| OfflinePrayerTimes.OfflinePrayerTimesService.GetTimeUntilNextPrayer | services/offlinePrayerTimesService.ts:159-175 | present exactly when there is a next prayer; it carries that prayer's name and time and the floored minutes to it from the second clock reading |
| OfflinePrayerTimes.OfflinePrayerTimesService.GetWeekPrayerTimes | services/offlinePrayerTimesService.ts:72-88 | the days of those seven that could be calculated, at most seven, in day order |
| EditDistance.Min3 | utils/tasmeaService.ts:144-148 | the least of three numbers: no larger than any of them, and equal to one of them |
| EditDistance.DistanceBounds | utils/tasmeaService.ts:130-153 | the Levenshtein distance is at most the longer length and at least the difference of the lengths |
| EditDistance.DistanceZero | utils/tasmeaService.ts:130-153 | the distance is zero exactly when the strings are equal |
| EditDistance.DistanceSymmetric | utils/tasmeaService.ts:130-153 | the distance does not depend on the order of its arguments |
| EditDistance.DropLastOfFirst | utils/tasmeaService.ts:145 | dropping the last character of the first string changes the distance by at most one |
| EditDistance.DropLastOfSecond | utils/tasmeaService.ts:146 | dropping the last character of the second string changes the distance by at most one |
| EditDistance.EqualLastCharacters | services/tassemCorrectorService.ts:130-131 | when the last characters agree, the distance is that of the shortened strings, which justifies copying the diagonal cell |
| EditDistance.Ratio | utils/tasmeaService.ts:70 | one minus the distance over the longer length lies in [0, 1]; it is 1 exactly for distance 0, and 0 when the distance is the whole length |
| EditDistance.SimilarityRange | utils/tasmeaService.ts:158-162 | similarity lies in [0, 1], is 1 exactly for equal strings, is 0 when exactly one string is empty, and is symmetric |
| EditDistance.CellStep | utils/tasmeaService.ts:141-150 | the table's recurrence holds on cells, including the equal-character case that copies the diagonal |
| EditDistance.CellEdges | utils/tasmeaService.ts:133-139 | the first column holds the row index and the first row holds the column index |
| EditDistance.CellCorner | utils/tasmeaService.ts:152 | the bottom-right cell is the edit distance of the whole strings |
| EditDistance.FillEdges | utils/tasmeaService.ts:133-139 | the two edge loops leave the first row and column complete |
| EditDistance.FillWithCost | utils/tasmeaService.ts:130-153 | the `levenshteinDistance` table, filled with a 0/1 substitution cost, returns the edit distance |
| EditDistance.FillCopyingDiagonal | services/tassemCorrectorService.ts:117-143 | the table that copies the diagonal on a match computes the same edit distance |
| Tasmea.Fold | utils/tasmeaService.ts:169-178 | removing the harakat and folding alef, yaa and taa marbuta never lengthens the text and leaves only plain characters |
| Tasmea.FoldPlain | utils/tasmeaService.ts:169-178 | folding text with no diacritics or foldable letters changes nothing |
| Tasmea.NormalizeTextNormal | utils/tasmeaService.ts:167-184 | normalised text is trimmed, single-spaced and plain |
| Tasmea.NormalizeTextIdempotent | utils/tasmeaService.ts:167-184 | normalising twice is the same as normalising once |
| Tasmea.PassJustified | utils/tasmeaService.ts:83-111 | every error of the word pass is backed by the word lists, and its position is a correct-word index |
| Tasmea.ExtraJustified | utils/tasmeaService.ts:114-122 | every error for a leftover user word is backed by the word lists |
| Tasmea.ErrorsJustified | utils/tasmeaService.ts:76-125 | every reported error is backed by the word lists: a missing word is a correct word at its own index past the user's words, an extra one is a user word past the correct ones, and a spelling error pairs the two words at the same index with similarity below 0.6 and lengths within 2 |
| Tasmea.CountAppend | utils/tasmeaService.ts:85-120 | the errors of a kind in two concatenated lists add up |
| Tasmea.PassCounts | utils/tasmeaService.ts:83-111 | the pass gives one 'missing' error per correct word past the user's words and no 'extra' error |
| Tasmea.ExtraCounts | utils/tasmeaService.ts:114-122 | the leftover loop gives one 'extra' error per user word past the correct ones and no 'missing' error |
| Tasmea.ErrorCounts | utils/tasmeaService.ts:76-125 | 'missing' errors count the correct words the user did not reach and 'extra' errors the user words left over, so at most one kind occurs |
| Tasmea.CalculateSimilarity | utils/tasmeaService.ts:62-71 | `calculateSimilarity` and `calculateAccuracy` both compute the edit-distance similarity, in [0, 1] and 1 exactly for equal strings |
| Tasmea.CompareWord | utils/tasmeaService.ts:84-110 | one step of the `forEach` yields exactly the errors the specification gives for that correct word |
| Tasmea.CompareWords | utils/tasmeaService.ts:82-124 | the pass with its moving user index, then the leftover loop, yields exactly the specified error list |
| Tasmea.IdentifyErrors | utils/tasmeaService.ts:76-125 | the texts are split on white space, empty words dropped, and the word lists compared |
| Tasmea.PercentRange | utils/tasmeaService.ts:53 | a similarity in [0, 1] rounds to a percentage in [0, 100], and 1 gives 100 |
| Tasmea.AccuracyRange | utils/tasmeaService.ts:39-56 | the accuracy percentage lies in [0, 100] and is 100 whenever the normalised texts agree |
| Tasmea.CheckAccuracy | utils/tasmeaService.ts:39-56 | both texts are normalised; the result is the rounded similarity percentage and the word errors of the normalised texts |
| Tasmea.CompleteSession | utils/tasmeaService.ts:196-207 | every other field is kept; the end time is set, the duration is the rounded elapsed seconds, and accuracy and errors are those of the session's texts |
| Tasmea.RoundedMeanBounds | utils/tasmeaService.ts:245-251 | the rounded mean of accuracies within [lo, hi] lies within [lo, hi], and it is 0 for no sessions |
| Tasmea.SessionsBySurah | utils/tasmeaService.ts:238-240 | exactly the sessions of that surah |
| Tasmea.AverageForSurahBounds | utils/tasmeaService.ts:245-251 | a surah's average lies within the accuracies of its own sessions, and is 0 when it has none |
| Tasmea.MaxOf | utils/tasmeaService.ts:299 | `Math.max(...)` of a non-empty list is one of its items and no item exceeds it |
| Tasmea.GetStatistics | utils/tasmeaService.ts:279-308 | all zero for no sessions; otherwise the count, the rounded mean accuracy, the best accuracy and the total seconds |
| Tassem.NormalizeBlank | services/tassemCorrectorService.ts:94-99 | a recording made only of white space normalises to nothing |
| Tassem.NormalizeNonEmpty | services/tassemCorrectorService.ts:94-99 | a text whose first character is a letter that is kept normalises to something |
| Tassem.SimilarityAgrees | services/tassemCorrectorService.ts:92-112 | the two early returns agree with the plain edit-distance similarity of the normalised texts; the score lies in [0, 1] and is 1 exactly when the normalised texts are equal |
| Tassem.CalculateSimilarity | services/tassemCorrectorService.ts:92-143 | the method with the diagonal-copying table computes that similarity |
| Tassem.ExpectedTextKnown | services/tassemCorrectorService.ts:69-87 | a text is known for exactly the three verses of al-Fatiha and the four of al-Ikhlas, and each normalises to something |
| Tassem.WordIssuesAbsent | services/tassemCorrectorService.ts:162-173 | one issue per word absent from the other list, in order, each naming that word |
| Tassem.WordIssuesNone | services/tassemCorrectorService.ts:162-173 | a loop gives no issue exactly when every word occurs in the other list |
| Tassem.DifferencesEmpty | services/tassemCorrectorService.ts:148-176 | no differences exactly when the lengths agree and both texts use the same set of words |
| Tassem.PushWordIssues | services/tassemCorrectorService.ts:162-166 | the loop appends exactly the specified word issues to the list so far |
| Tassem.WordIssuesStep | services/tassemCorrectorService.ts:163-165 | one more word adds its issue only when the other list lacks it |
| Tassem.FindDifferences | services/tassemCorrectorService.ts:148-176 | the length check, then the two word loops, give exactly the specified differences |
| Tassem.Tips | services/tassemCorrectorService.ts:195-205 | the three general tips come first, then at most the two hints the kinds of issue call for |
| Tassem.SuggestionRules | services/tassemCorrectorService.ts:181-208 | no issues gives only the praise; a blank recording with issues gives only the retry hint; otherwise the three tips lead |
| Tassem.GenerateSuggestions | services/tassemCorrectorService.ts:181-208 | the early returns and the pushes give exactly those suggestions |
| Tassem.PushTips | services/tassemCorrectorService.ts:195-205 | the pushes after the early returns give exactly the tips |
| Tassem.FeedbackBands | services/tassemCorrectorService.ts:213-225 | the message depends only on the score band; a higher score never falls in a lower band; the two ticked messages go exactly to scores of at least 85 |
| Tassem.CorrectTassem | services/tassemCorrectorService.ts:31-64 | an unknown verse gives the not-found result; otherwise the score is the rounded similarity percentage, correct means at least 85, and the one matched verse carries the differences, suggestions and feedback |
| Tassem.BlankRecording | services/tassemCorrectorService.ts:31-64 | a blank recording of a known verse scores 0, and an empty one gets only the retry hint |
| Tassem.LastItems | services/tassemCorrectorService.ts:236 | `slice(-n)`: the last n items, or all of them when there are fewer |
| Tassem.SuccessRateBounds | services/tassemCorrectorService.ts:258-273 | the correct sessions never outnumber the sessions, and the success rate is a percentage, 0 for no sessions |
| Tassem.AverageScoreBounds | services/tassemCorrectorService.ts:258-273 | the average score lies among the scores, and is 0 for no sessions; the recent list holds the last ten |
| Tassem.TassemHistory.constructor | services/tassemCorrectorService.ts:246-253 | the history starts as the stored list |
| Tassem.TassemHistory.SaveSession | services/tassemCorrectorService.ts:230-241 | push, then keep the last hundred: the new session is last, at most 100 are kept, and nothing is dropped below the limit |
| Tassem.TassemHistory.ClearHistory | services/tassemCorrectorService.ts:278-284 | the history becomes empty |
| Tassem.TassemHistory.GetStatistics | services/tassemCorrectorService.ts:258-273 | the totals, the correct count, the success rate and the average score of the history, with the bounds above |
| Search.StripMarks | utils/searchService.ts:156 | the result keeps only characters of the text and none of the marks U+064B to U+0652 |
| Search.NormalizeTextNormal | utils/searchService.ts:154-159 | normalised text is trimmed, single-spaced and free of marks |
| Search.SurahHitsExactly | utils/searchService.ts:42-67 | the surah results are exactly the results of the surahs whose normalised name contains the query, whose lower-cased English name contains the lower-cased query, or whose number prints as the query |
| Search.SearchSurahs | utils/searchService.ts:42-67 | the `forEach` gives exactly those results, in catalogue order |
| Search.FindSurah | utils/searchService.ts:80 | `find` by id: the first surah with that id, preceded by none that has it; none exactly when no surah has it |
| Search.AyahHitsExactly | utils/searchService.ts:72-93 | every verse result comes from a verse whose normalised text contains the query, and every such verse gives one, on page `ceil(index / 15)` |
| Search.PageOfIndex | utils/searchService.ts:87 | the verse at every index `i` is placed on page `ceil(i / 15)`, the one page `p` with `15(p-1) < i <= 15p` |
| Search.FirstPages | utils/searchService.ts:87 | as a consequence, the first verse is on page 0, the second to sixteenth on page 1 and the seventeenth on page 2 |
| Search.SearchAyahs | utils/searchService.ts:72-93 | the `forEach` gives exactly those verse results |
| Search.SurahsFirstKeeps | utils/searchService.ts:30-36 | the sort leaves surah results followed by verse results as they are (the sort is stable) |
| Search.SurahsFirstOrdered | utils/searchService.ts:30-36 | after the sort no verse result comes before a surah result |
| Search.SurahHitsKind | utils/searchService.ts:55-62 | the surah search gives only surah results |
| Search.AyahHitsKind | utils/searchService.ts:81-88 | the verse search gives only verse results |
| Search.SearchQuran | utils/searchService.ts:13-37 | the query is normalised; the surah results come first, then the verse results when verse data is given and non-empty |
| Search.SimilarityAgrees | utils/searchService.ts:114-120 | two empty strings give NaN (None); otherwise the result is the symmetric edit-distance similarity, whichever string is shorter |
| Search.CalculateSimilarity | utils/searchService.ts:114-148 | the method that fills the table computes that similarity |
| Search.FuzzySearchKeeps | utils/searchService.ts:99-108 | the items kept are those at or above the threshold, in order; an empty item is never kept for an empty query; a non-empty item equal to the query is kept when the threshold is at most 1 |
| Search.AddKeeps | utils/searchService.ts:171-174 | `Set.add` keeps the items distinct and adds exactly the new item |
| Search.SuggestionSetDistinct | utils/searchService.ts:166-176 | the suggestion set never holds a duplicate |
| Search.CollectSuggestions | utils/searchService.ts:169-176 | the `forEach` builds exactly that set, in insertion order |
| Search.GetSuggestions | utils/searchService.ts:164-179 | the first `limit` distinct names and numbered names of matching surahs: never more than `limit`, never a duplicate |
| QuranPages.StartPageStep | utils/quranPageService.ts:80-199 | consecutive surahs start on non-decreasing pages within 1..604 |
| QuranPages.StepUpTo38 | utils/quranPageService.ts:80-130 | the same for surahs 1 to 38 |
| QuranPages.StepUpTo76 | utils/quranPageService.ts:130-170 | the same for surahs 38 to 76 |
| QuranPages.StepUpTo114 | utils/quranPageService.ts:170-196 | the same for surahs 76 to 114 |
| QuranPages.StartPageOrder | utils/quranPageService.ts:80-199 | over surahs 1..114 the start-page table is non-decreasing and stays within pages 1..604 |
| QuranPages.UnknownSurahStartsOnPageOne | utils/quranPageService.ts:198 | a surah number outside the table starts on page 1 |
| QuranPages.PageAyahs | utils/quranPageService.ts:31-54 | every page holds between 1 and 15 verses |
| QuranPages.Pages | utils/quranPageService.ts:13-58 | there are `getTotalPagesForSurah` pages |
| QuranPages.FlattenPrefix | utils/quranPageService.ts:18-43 | the first m pages, put one after the other, are the first 15·m verses |
| QuranPages.PagesShape | utils/quranPageService.ts:13-58 | the pages put one after the other give back the verses; there are none exactly for no verses; their number is `ceil(n / 15)`; all but the last hold 15; they are numbered on from the start page, each naming its first and last verse |
| QuranPages.FlushExtends | utils/quranPageService.ts:31-42 | the buffer, flushed once it holds fifteen verses, is the next page |
| QuranPages.PageCountReached | utils/quranPageService.ts:260-262 | `ceil(n / 15)` is m at exactly 15·m verses and m + 1 just beyond |
| QuranPages.PagesSoFarPush | utils/quranPageService.ts:39 | pushing the next page keeps the pages built so far a prefix of the specification |
| QuranPages.PagesSoFarDone | utils/quranPageService.ts:44-57 | the pages built, once the last buffer is flushed, are all the pages |
| QuranPages.ConvertToPages | utils/quranPageService.ts:13-58 | `convertToPages` returns the specified pages, numbered on from the surah's start page |
| QuranPages.PaginateFrom | utils/quranPageService.ts:14-57 | the loop and the final flush give the specified pages from the given page number |
| QuranPages.FullPages | utils/quranPageService.ts:18-43 | after the loop the full pages are flushed, the page number has moved on by one per page, and the buffer holds the fewer than 15 verses left |
| QuranPages.PageCache.constructor | utils/quranPageService.ts:237-244 | an absent cache reads as the empty object |
| QuranPages.PageCache.CachePages | utils/quranPageService.ts:204-216 | the surah's entry is replaced with the pages, the time and the current version, other entries are kept, and the pages read back |
| QuranPages.PageCache.ClearCache | utils/quranPageService.ts:249-255 | the cache becomes empty |
| SeasonalModes.FromDayCountBounds | utils/seasonalModes.ts:23-36 | whatever the day count, the month is at most 11 and the day at most 30, so month 12 never occurs; a non-negative count gives month and day from 1, a negative one gives month and day of at most 1 |
| SeasonalModes.DayCountNegative | utils/seasonalModes.ts:22 | the subtracted constant 24440588 makes the day count negative for every calendar date up to the year 60000 |
| SeasonalModes.SeasonsExclusive | utils/seasonalModes.ts:43-57 | the two seasons exclude each other, and the Ten Blessed Days are never detected |
| SeasonalModes.RamadanNeverDetected | utils/seasonalModes.ts:17-47 | no calendar date up to the year 60000 is detected as Ramadan |
| SeasonalModes.RamadanDayRange | utils/seasonalModes.ts:30 | during Ramadan the Islamic day lies in 1..30 |
| SeasonalModes.DaysRemainingInRamadan | utils/seasonalModes.ts:62-72 | 0 outside Ramadan; inside it, 30 minus the day, in 0..29 |
| SeasonalModes.DayInRamadan | utils/seasonalModes.ts:102-111 | present exactly in Ramadan, and then it is the Islamic day, in 1..30 |
| SeasonalModes.TenDaysFiguresAbsent | utils/seasonalModes.ts:77-146 | as the Ten Days are never detected, the current mode is never theirs, `getDayInTenDays` is always null and `getDaysRemainingInTenDays` always 0 |
| SeasonalModes.ModeOfCalendarDates | utils/seasonalModes.ts:142-146 | for every calendar date up to the year 60000, `getCurrentSeasonalMode` gives the normal mode |
| SeasonalModes.GetSeasonalModeInfo | utils/seasonalModes.ts:151-191 | the mode as chosen, active exactly when not normal, the Islamic year, and the season's name, month, day, days remaining and length; the normal mode shows the month number with no day |
| SeasonalModes.RamadanDayLabels | utils/seasonalModes.ts:196-202 | only day 27 is labelled as the likely Night of Decree; every other label ends with "من رمضان"; two numbered days share a label only when they are the same day |
| SeasonalModes.TenDaysLabels | utils/seasonalModes.ts:207-221 | days 1 to 10 get their names from the list; any other day gets the numbered label, which names that day only |
| SeasonalModes.GetRamadanProgress | utils/seasonalModes.ts:226-230 | 0 outside Ramadan; otherwise the rounded percentage of 30, in 3..100 |
| SeasonalModes.GetTenDaysProgress | utils/seasonalModes.ts:235-239 | 0 outside the Ten Days |
| SeasonalModes.TenDaysProgressZero | utils/seasonalModes.ts:235-239 | since the Ten Days are never detected, their progress is always 0 |
| SeasonalModes.ProgressBounds | utils/seasonalModes.ts:229 | a day among `total` as a rounded percentage lies in 1..100, and in 3..100 when the total is 30 |
| InteractiveTools.HijriYearIsMonth | interactive-tools-data.ts:400-412 | the conversion returns the same number as year and month, `Q3 + 1`, and a day of at most 354 |
| InteractiveTools.HijriMonthNotPositive | interactive-tools-data.ts:390-412 | the day number leaves out the 365 days of each year, so it stays below the epoch 1948440 and the month comes out at most 0 for every year up to 10^8 |
| InteractiveTools.HijriToGregorianStandard | interactive-tools-data.ts:416-428 | the raw month is 0..11 and the day 1..31; month 0 comes with a year one too high, which `Date` carries back to December of the year before; after that carry the result is the textbook conversion of the same day number |
| InteractiveTools.FormatHijriDateReadable | interactive-tools-data.ts:431-437 | the day, the month's name and the year can be read back from the display string |
| InteractiveTools.DaysBetweenProps | interactive-tools-data.ts:440-443 | the count is symmetric, never negative, 0 for the same instant, and exactly \|k\| for instants k whole days apart |
| InteractiveTools.NextEventFirst | interactive-tools-data.ts:446-457 | a non-empty list always gives an event; it is the first upcoming event, or the first of the list when none is upcoming |
| InteractiveTools.NextEventBeforeFirstMonth | interactive-tools-data.ts:450-456 | before month 1, the first event of a list that starts in month 1 or later is upcoming and is chosen |
| InteractiveTools.NextEventIsNewYear | interactive-tools-data.ts:446-457 | the month is never positive for calendar dates up to the year 10^8, so every event is upcoming and the Islamic New Year is always chosen |
| AzkarService.ByCategoryKeeps | utils/azkarService.ts:217-219 | exactly the items of that category, and filtering `a + b` gives a's items followed by b's |
| AzkarService.GetCategories | utils/azkarService.ts:224-230 | every category once, in order of first appearance, and nothing else |
| AzkarService.SearchAzkarKeeps | utils/azkarService.ts:235-241 | exactly the items whose normalised text contains the normalised query; a query that normalises to nothing keeps every item |
| AzkarService.SearchFindsOwnText | utils/azkarService.ts:235-241 | an item's own text finds it |
| AzkarService.DailyAzkarBands | utils/azkarService.ts:253-269 | the hours split into four bands: [5, 12) morning, [12, 17) general, [17, 21) evening and the rest sleep; the list holds exactly the items of the band's category |
| AzkarService.GetRandomAzkar | utils/azkarService.ts:246-248 | an item of the catalogue, or undefined (None) exactly when the catalogue is empty |
| AzkarService.AzkarCache.constructor | utils/azkarService.ts:298-301 | nothing is cached at first |
| AzkarService.AzkarCache.CacheAzkar | utils/azkarService.ts:284-293 | the catalogue is stored with the time, and it reads back for any reading less than a day later |
| KnowledgeBase.SearchesKeepMatches | assistant-knowledge-base.ts:625-676 | each of the six searches returns exactly its database's matching entries: lower-cased fields contain the lower-cased query, and Arabic fields contain the query itself |
| KnowledgeBase.SearchesKeepOrder | assistant-knowledge-base.ts:625-676 | each search keeps its database's order: searching `a + b` gives a's hits followed by b's |
| KnowledgeBase.EmptyQueryKeepsAll | assistant-knowledge-base.ts:625-676 | the empty query is contained in every field, so each search returns its whole database |
| KnowledgeBase.HadithMatchesOnTextAndTopic | assistant-knowledge-base.ts:652-658 | a hadith is found by its text or its topic; two hadith that agree on those two fields are found by the same queries |
| KnowledgeBase.RandomPicksDraw | assistant-knowledge-base.ts:678-686 | each random pick draws min(count, size) entries of its database without repetition |
| KnowledgeBase.RelatedContentOfEmptyQuery | assistant-knowledge-base.ts:692-701 | the related content for the empty query is the whole knowledge base |
| Shuffle.TakeAtMost | assistant-knowledge-base.ts:680 | `slice(0, Math.min(count, length))` is a prefix of the shuffled list |
| Shuffle.TakeAtMostDraws | assistant-knowledge-base.ts:679-680 | a non-negative count takes min(count, size) entries of the shuffle, none more often than in the original |
| Assistant.FirstOfflineMatchIsFirst | geminiService.ts:148-156 | the table lookup finds an entry exactly when the prompt contains some lower-cased key, and then it is the first such entry in table order |
| Assistant.ShadowedKeyNeverChosen | geminiService.ts:149-154 | a key that contains an earlier key is never chosen, since every prompt that contains it also contains the earlier one |
| Assistant.PrayerConditionsShadowed | geminiService.ts:26-28 | in the table itself the entries for "شروط الصلاة" and "أركان الصلاة" sit after "الصلاة", which they contain, so they are never the offline answer |
| Assistant.PrayerKeysContainPrayer | geminiService.ts:26-28 | both later keys contain "الصلاة" |
| Assistant.FallbackTopics | geminiService.ts:179-184 | the fallback adds at most two suggestions |
| Assistant.PriorityChain | geminiService.ts:93-156 | the answer comes from the first non-empty result list in the order Quran, hadith, fiqh, azkar, stories, general, and from the keyword table only when all of them are empty |
| Assistant.ResponseShape | geminiService.ts:79-187 | every response can be read aloud and suggests at most three topics; its source follows the rule above; without a local answer it is the fixed apology for online or for offline; a local answer starts the response, and offline it is the whole response; the suggestions are the branch's first three, or the fallback when the branch had none |
| Assistant.FallbackNamesDatabaseEntries | geminiService.ts:179-184 | the fallback names one random zikr and one random story, with the prefixes "تعلم: " and "اقرأ قصة: ", one for each database that is not empty |
| Assistant.AskReligiousAssistant | geminiService.ts:79-187 | the method, step by step, gives the specified response |
| Assistant.FindLocalAnswer | geminiService.ts:93-156 | the database branches and then the keyword table give the specified local answer |
| Assistant.GoOnline | geminiService.ts:159-176 | the source gets its label; a local answer gets the enrichment appended when one comes back; no answer while online gives the apology |
| Assistant.AddFallbackTopics | geminiService.ts:179-184 | with suggestions already present nothing changes; otherwise the fallback topics are pushed, and the related verses see them too when the Quran branch shared that array |
| Assistant.ChooseLocalStages | geminiService.ts:148 | the keyword table is consulted only when no database matched |
| Assistant.SearchDatabases | geminiService.ts:93-145 | each database branch runs only when no earlier one matched, and the first non-empty list gives its answer and suggestions |
| Assistant.LookUpOffline | geminiService.ts:148-156 | the `for … in` loop stops at the first key the prompt contains, with that entry's answer; otherwise the answer is unchanged |
| Assistant.NewlinesToStopsProps | geminiService.ts:192 | replacing newlines leaves none, adds only full stops and spaces, and changes nothing in text without newlines |
| Assistant.SpeechTextClean | geminiService.ts:190-198 | the spoken text has at most 500 characters, no `#`, `*` or backtick and no newline; plain text of at most 500 characters is spoken unchanged |
| Assistant.MapQuestions | geminiService.ts:235-242 | one question per item, in order, each built from its item and position |
| Assistant.SmartQuizFailures | geminiService.ts:225-246 | offline, a failed request, text that does not parse and a reply that is not an array all give no questions |
| Assistant.SmartQuizMapsItems | geminiService.ts:235-242 | an array reply without `null` items gives one question per item, with distinct ids and the category "Islamic Knowledge"; options, answer index and explanation default to [], 0 and "" when missing or falsy |
| Assistant.QuizIdInjective | geminiService.ts:236 | distinct positions get distinct ids |
| Wav.U16 | services/audioGenerator.ts:69-70 | `setUint16(_, v, true)` stores two bytes |
| Wav.U32 | services/audioGenerator.ts:65 | `setUint32(_, v, true)` stores four bytes |
| Wav.FieldsRoundTrip | services/audioGenerator.ts:65-76 | reading a 16- or 32-bit little-endian field back gives the value modulo the field width |
| Wav.Ascii | services/audioGenerator.ts:58-62 | `writeString` stores one byte per character |
| Wav.TagWords | services/enhancedAudioPlayerService.ts:349-364 | the words 0x46464952, 0x45564157, 0x20746D66 and 0x61746164, stored little-endian, are the tags "RIFF", "WAVE", "fmt " and "data" |
| Wav.OffsetProduct | services/audioInitService.ts:168 | advancing the index by a fixed size i times reaches i times that size |
| Wav.OffsetMonotone | services/audioInitService.ts:168 | later frames start further on |
| Wav.DataLengthProduct | services/audioGenerator.ts:52 | the data length is frames × channels × 2 |
| Wav.SampleOffset | services/audioInitService.ts:162-170 | sample k of frame i starts at byte 2(i·channels + k) of the data |
| Wav.TaggedHeader | services/audioGenerator.ts:64-76 | the header is 44 bytes whatever word takes the place of the `fmt ` tag |
| Wav.Header | services/audioGenerator.ts:64-76 | the canonical header is 44 bytes |
| Wav.TaggedHeaderLayout | services/audioGenerator.ts:64-76 | the tags sit at offsets 0, 8, 12 and 36; the RIFF size 36 + length at 4; the chunk size 16, PCM format 1, channels, sample rate, byte rate, block align and 16 bits at 16 to 34; the data length at 40 |
| Wav.HeaderLayout | services/audioGenerator.ts:64-76 | the canonical header has that layout with "fmt " at offset 12 |
| Wav.HeaderSizes | services/audioGenerator.ts:65-76 | the RIFF size and the data size read back as 36 + length and length while the file fits in 32 bits |
| Wav.ReadBack32 | services/audioGenerator.ts:65 | a value that fits in 32 bits reads back unchanged |
| Wav.Clamp | services/audioInitService.ts:165 | `Math.max(-1, Math.min(1, x))` lies in [-1, 1] |
| Wav.SampleValueRange | services/audioInitService.ts:165-167 | every sample fits a signed 16-bit integer; full scale maps to 0x7fff and -0x8000, and silence to 0 |
| Wav.FrameBytes | services/audioInitService.ts:164-169 | a frame of c channels takes 2c bytes |
| Wav.FramesBytes | services/audioInitService.ts:163-170 | n frames take n × 2 × channels bytes |
| Wav.WavFile | services/audioInitService.ts:113-173 | a WAV file is 44 + frames·channels·2 bytes long |
| Wav.FrameBytesAt | services/audioInitService.ts:164-169 | inside a frame, channel k's sample sits at byte 2k |
| Wav.FramesBytesAt | services/audioInitService.ts:163-170 | frame i occupies the bytes from its offset up to where frame i + 1 starts |
| Wav.FramesSampleAt | services/audioInitService.ts:163-170 | sample k of frame i sits 2k bytes into that frame's bytes |
| Wav.WavFileSampleAt | services/audioInitService.ts:162-170 | sample k of frame i sits at byte 44 + 2(i·channels + k) of the file: the data is interleaved frame by frame, two bytes per sample |
| Wav.SilentFrames | services/audioGenerator.ts:78-85 | the sample bytes of a silent buffer are all zero |
| Wav.SilentFrame | services/audioGenerator.ts:81-84 | each frame of a silent buffer is zero bytes |
| Wav.SetBytes | services/audioGenerator.ts:58-62 | bytes are stored at the offset and nothing else changes |
| Wav.SetUint16 | services/audioGenerator.ts:69 | `setUint16` replaces exactly two bytes at the offset |
| Wav.SetUint32 | services/audioGenerator.ts:65 | `setUint32` replaces exactly four bytes at the offset |
| Wav.SetInt16 | services/audioInitService.ts:167 | `setInt16` stores the value truncated toward zero, modulo 2^16 in two's complement, in exactly two bytes |
| Wav.WriteString | services/audioGenerator.ts:58-62 | `writeString` stores the characters' codes at the offset and nothing else |
| Wav.WriteExtends | services/audioGenerator.ts:64-76 | writing the header's next field into a buffer that holds the header up to there, and zeros after, extends that prefix by one field |
| Wav.SetUint16Field | services/audioGenerator.ts:69-74 | a 16-bit header field write extends the written prefix by two bytes |
| Wav.SetUint32Field | services/audioGenerator.ts:65-76 | a 32-bit header field write extends the written prefix by four bytes |
| Wav.WriteTagField | services/audioGenerator.ts:64-75 | a tag write extends the written prefix by four bytes |
| Wav.SampleSlot | services/audioInitService.ts:167 | every sample slot lies inside the data chunk |
| Wav.ZeroOverZero | services/audioGenerator.ts:82 | writing a zero sample over zero bytes changes nothing |
| Wav.WriteSamples | services/audioInitService.ts:162-170 | the sample loop fills the data chunk with the interleaved clamped and scaled samples |
| Wav.FrameStep | services/audioInitService.ts:163-170 | one outer iteration writes frame i's bytes over the next zeros |
| Wav.WriteFrame | services/audioInitService.ts:164-169 | the inner loop writes every channel of frame i and advances the index by 2 per channel |
| Wav.AllFramesInside | services/audioInitService.ts:119 | all frames fill the data chunk exactly |
| Wav.WriteSample | services/audioInitService.ts:165-168 | one inner iteration writes one sample over the next zeros |
| Wav.SampleStep | services/audioInitService.ts:167-168 | writing one sample extends the written prefix by its two bytes |
| AudioGenerator.GenerateSilenceAudio | services/audioGenerator.ts:34-45 | the result is the canonical WAV file of a one-channel silent buffer |
| AudioGenerator.BufferToWave | services/audioGenerator.ts:47-88 | the file is the canonical header followed by zeros; the buffer's samples are never read |
| AudioGenerator.WriteRiffChunk | services/audioGenerator.ts:64-66 | offsets 0 to 12 hold "RIFF", 36 + length and "WAVE" |
| AudioGenerator.WriteFmtChunk | services/audioGenerator.ts:67-74 | offsets 12 to 36 hold the `fmt ` chunk |
| AudioGenerator.WriteDataHeading | services/audioGenerator.ts:75-76 | offsets 36 to 44 hold "data" and the data length, completing the header |
| AudioGenerator.WriteSilence | services/audioGenerator.ts:79-85 | writing zero samples over a zeroed data chunk leaves the buffer as it was |
| AudioInit.BufferToWav | services/audioInitService.ts:113-173 | the result is exactly the canonical WAV file of the buffer |
| AudioInit.WriteString | services/audioInitService.ts:126-131 | `writeString` writes at the running offset and moves it past the string |
| AudioInit.WriteHeader | services/audioInitService.ts:133-159 | the header writes, each followed by its advance, end exactly at offset 44, having written the canonical header |
| AudioInit.WriteRiffChunk | services/audioInitService.ts:134-137 | the RIFF chunk, from offset 0 to 12 |
| AudioInit.WriteFmtChunk | services/audioInitService.ts:140-154 | the `fmt ` chunk, from offset 12 to 36 |
| AudioInit.WriteDataHeading | services/audioInitService.ts:157-159 | the `data` heading, from offset 36 to 44 |
| EnhancedAudioPlayer.HeaderWithFmtWord | services/enhancedAudioPlayerService.ts:348-365 | the header with the given word in place of the `fmt ` tag is 44 bytes |
| EnhancedAudioPlayer.FmtWordAsWritten | services/enhancedAudioPlayerService.ts:354 | the word written for the `fmt ` tag is stored as the bytes "fct ", not "fmt " |
| EnhancedAudioPlayer.HeaderWithFmtWordDiffers | services/enhancedAudioPlayerService.ts:348-365 | the header written agrees with the canonical one except at offsets 12 to 16, and with the word as written those bytes are not the `fmt ` tag |
| EnhancedAudioPlayer.HeaderWithFmtWordLayout | services/enhancedAudioPlayerService.ts:349-365 | the fields as the closures write them: `length - 8`, `rate·2·channels`, `channels·2` and `length - pos - 4` with pos at 40 agree with the canonical fields |
| EnhancedAudioPlayer.ByteRate | services/enhancedAudioPlayerService.ts:359 | `sampleRate * 2 * numberOfChannels` is the canonical byte rate |
| EnhancedAudioPlayer.FmtWordCorrected | services/enhancedAudioPlayerService.ts:354 | with 0x20746D66 the header is the canonical one |
| EnhancedAudioPlayer.BufferToWaveAsWritten | services/enhancedAudioPlayerService.ts:330-381 | `bufferToWave` as written gives the canonical file except for "fct " at offset 12 |
| EnhancedAudioPlayer.BufferToWave | services/enhancedAudioPlayerService.ts:330-381 | with the word corrected, the result is exactly the canonical WAV file of the buffer |
| EnhancedAudioPlayer.EncodeWave | services/enhancedAudioPlayerService.ts:330-381 | with the tag word as a parameter, the header written through the closures and then the sample loop from `pos` on |
| EnhancedAudioPlayer.WriteHeader | services/enhancedAudioPlayerService.ts:348-365 | the thirteen closure calls end at offset 44, having written the header |
| EnhancedAudioPlayer.PutUint16 | services/enhancedAudioPlayerService.ts:339-342 | the `setUint16` closure writes at `pos` and advances it by 2 |
| EnhancedAudioPlayer.PutUint32 | services/enhancedAudioPlayerService.ts:343-346 | the `setUint32` closure writes at `pos` and advances it by 4 |
| EnhancedAudioPlayer.WebSource | services/enhancedAudioPlayerService.ts:94-101 | a path starting "audio/" is served from the root, one starting "http" is used as is, and any other goes under "/audio/"; the path is always kept whole at the end |
| EnhancedAudioPlayer.PublicPathsAgree | services/enhancedAudioPlayerService.ts:94-101 | a public asset named with or without its "audio/" folder resolves to the same source |
| EnhancedAudioPlayer.ClampVolume | services/enhancedAudioPlayerService.ts:264 | the volume is clamped to [0, 1]: unchanged inside, 1 above and 0 below |
| EnhancedAudioPlayer.AudioPlayerService.constructor | services/enhancedAudioPlayerService.ts:42 | no tracks and no native calls at first |
| EnhancedAudioPlayer.AudioPlayerService.Play | services/enhancedAudioPlayerService.ts:42-78 | an id that already has a track is stopped first; with a native player the file under "file:///android_asset/" is handed over and no track is kept; otherwise a playing web track is kept; the answer is true |
| EnhancedAudioPlayer.AudioPlayerService.PlayWithWebAudio | services/enhancedAudioPlayerService.ts:83-156 | a new track with the resolved source, playing from 0 at full volume, replaces any under that id |
| EnhancedAudioPlayer.AudioPlayerService.OnComplete | services/enhancedAudioPlayerService.ts:121-130 | the completion, end and error handlers drop the id |
| EnhancedAudioPlayer.AudioPlayerService.Pause | services/enhancedAudioPlayerService.ts:161-178 | the native pause when provided; a known track is paused and no longer playing; other tracks unchanged |
| EnhancedAudioPlayer.AudioPlayerService.Resume | services/enhancedAudioPlayerService.ts:183-200 | the native resume when provided; a known track plays again |
| EnhancedAudioPlayer.AudioPlayerService.Stop | services/enhancedAudioPlayerService.ts:205-229 | the native stop when provided; the id is removed whether or not it had a track |
| EnhancedAudioPlayer.AudioPlayerService.Seek | services/enhancedAudioPlayerService.ts:234-250 | the native seek when provided; a known track moves to `positionMs / 1000` seconds |
| EnhancedAudioPlayer.AudioPlayerService.SetVolume | services/enhancedAudioPlayerService.ts:255-271 | the native player gets the volume unclamped; a known track gets it clamped to [0, 1] |
| EnhancedAudioPlayer.AudioPlayerService.IsPlaying | services/enhancedAudioPlayerService.ts:276-282 | true exactly for a known track that is not paused |
| EnhancedAudioPlayer.AudioPlayerService.StopAll | services/enhancedAudioPlayerService.ts:287-303 | the native stop-all when provided; every track is dropped |
| Quiz.QuizGame.constructor | components/Quiz.tsx:9-19 | the selection screen, a classic quiz type, no questions, first question, no score, three lives, nothing selected, not finished |
| Quiz.QuizGame.ResetGameState | components/Quiz.tsx:67-74 | first question, no points, three lives, nothing selected or shown, not finished; mode and quiz type kept |
| Quiz.QuizGame.StartClassicQuiz | components/Quiz.tsx:21-29 | at most ten questions of a shuffled copy of the pool, none repeated, from a fresh game in classic play |
| Quiz.QuizGame.StartWorshipQuiz | components/Quiz.tsx:31-39 | at most ten shuffled worship questions, from a fresh game in worship mode; the classic questions are kept |
| Quiz.QuizGame.StartAIQuiz | components/Quiz.tsx:41-65 | offline or with an empty generated quiz the classic quiz starts instead; otherwise the generated questions are played as they are |
| Quiz.QuizGame.HandleAnswer | components/Quiz.tsx:76-89 | ignored when an explanation is shown, no lives are left or an option is selected; otherwise the option is selected, the explanation shown, and the right option adds 10 to the score while a wrong one costs a life |
| Quiz.QuizGame.HandleWorshipAnswer | components/Quiz.tsx:91-107 | the same, but a right answer earns the question's own points |
| Quiz.QuizGame.NextQuestion | components/Quiz.tsx:109-127 | with a later question of the current list and lives left, the next one with nothing selected; otherwise the quiz is finished |
| Quiz.QuizGame.WinMeansHalfRight | components/Quiz.tsx:183-186 | outside worship quizzes the game is won exactly when at least half the questions were answered right |
| Quiz.QuizGame.ThreeStrikes | components/Quiz.tsx:76-89 | there are never more than three wrong answers; after three the result is shown and no answer is taken |
| Tasbih.OfDhikr | components/Tasbih.tsx:177-179 | exactly the sessions of that dhikr |
| Tasbih.OfDhikrOn | components/Tasbih.tsx:171-173 | exactly the sessions of that dhikr on that day |
| Tasbih.PrependTotals | components/Tasbih.tsx:150-180 | prepending a session raises its own dhikr's totals by its count, today's only when it is dated today, and leaves every other dhikr alone |
| Tasbih.CountsCons | components/Tasbih.tsx:172-179 | the counts of at most one session put in front add to the rest |
| Tasbih.TodayWithinTotal | components/Tasbih.tsx:169-180 | with positive counts, every total is non-negative and today's never exceeds the all-time one |
| Tasbih.ProgressPercentage | components/Tasbih.tsx:182 | lies in [0, 100], is 0 for a target of 0 or less, and reaches 100 exactly when the count reaches a positive target |
| Tasbih.TasbihCounter.constructor | components/Tasbih.tsx:13-22 | no count, no session total, no history, goals or streaks, the chosen dhikr at its recommended target, and the session clock started |
| Tasbih.TasbihCounter.Increment | components/Tasbih.tsx:113-122 | one more on both the count and the session total; the long buzz is due exactly on a multiple of ten |
| Tasbih.TasbihCounter.SkipTen | components/Tasbih.tsx:124-129 | ten more on both the count and the session total |
| Tasbih.TasbihCounter.Reset | components/Tasbih.tsx:131-135 | when confirmed the count is zeroed; the session total is kept either way |
| Tasbih.TasbihCounter.SelectDhikr | components/Tasbih.tsx:300-305 | the dhikr becomes active at its recommended target, and the count and session clock restart; the session total is not zeroed |
| Tasbih.TasbihCounter.EndSession | components/Tasbih.tsx:137-167 | with nothing counted it does nothing; otherwise one session holding the whole session total goes first in the history, the dhikr's daily entry becomes its earlier total for today plus the session total, and count, total and clock restart |
| Tasbih.TasbihCounter.CheckStreak | components/Tasbih.tsx:62-82 | with a history but no session of the active dhikr today, the streak grows by one after a session yesterday (an absent one counts as 1) and drops to 0 otherwise; in every other case nothing changes |
| Tasbih.EndSessionTotals | components/Tasbih.tsx:150-160 | ending a session raises the active dhikr's all-time total and today's total by the session total, and other dhikrs are unaffected |
| DailyWird.DefaultWirdsFresh | components/DailyWird.tsx:29-46 | the default day has thirteen tasks, every one dated that day and at 0 |
| DailyWird.DefaultWirdsUnique | components/DailyWird.tsx:29-46 | the default tasks carry distinct ids |
| DailyWird.DefaultWirdsTargets | components/DailyWird.tsx:29-46 | only the Quran recitation task has target 0; all the others have positive targets |
| DailyWird.UpdateList | components/DailyWird.tsx:51-54 | only the tasks with that id change, and only in their count, which becomes the new count capped at their target; the list's length is kept |
| DailyWird.UpdateUnknownId | components/DailyWird.tsx:51-54 | an id that names no task leaves the list as it was |
| DailyWird.IncrementAtTarget | components/DailyWird.tsx:51-57 | with distinct ids, + on a task already at its target changes nothing |
| DailyWird.DecrementBelowZero | components/DailyWird.tsx:53 | nothing clamps from below: - on a task at 0 gives -1 |
| DailyWird.ZeroTargetStuck | components/DailyWird.tsx:51-54 | a task with target 0 never gets above 0 |
| DailyWird.PercentAtLeast | components/DailyWird.tsx:60 | for a positive target, the percentage reaches k exactly when 100 times the count reaches k times the target |
| DailyWird.BucketByCounts | components/DailyWird.tsx:59-65 | for a positive target the bar is finished at the target, three-quarter from 3/4, half from 1/2, and behind below half, each an if-and-only-if |
| DailyWird.BucketMonotone | components/DailyWird.tsx:59-65 | more progress on a task never moves its bar to a lower bucket |
| DailyWird.RatioSumBounds | components/DailyWird.tsx:75 | with positive targets and counts within them, the ratio sum is defined, lies in [0, number of tasks] and reaches that number when every task is done |
| DailyWird.ZeroTargetUndefined | components/DailyWird.tsx:75 | one task with target 0 makes the ratio sum undefined |
| DailyWird.OverallProgressBounds | components/DailyWird.tsx:74-76 | with positive targets and counts within them, the overall progress is a whole percentage in [0, 100], and 100 when there are tasks and all are done |
| DailyWird.DefaultOverallNotFinite | components/DailyWird.tsx:74-76 | the default day already holds a target of 0, so its overall progress is not a finite number |
| DailyWird.DailyWirdScreen.constructor | components/DailyWird.tsx:20-49 | mounting on today shows the list saved for today, or the default list when nothing is saved |
| DailyWird.DailyWirdScreen.Load | components/DailyWird.tsx:24-49 | the list becomes the one saved for the selected day, or that day's default list; the day and the storage are kept |
| DailyWird.DailyWirdScreen.SelectDate | components/DailyWird.tsx:24-49 | after picking a day, that day is selected and its saved or default list is shown |
| DailyWird.DailyWirdScreen.UpdateProgress | components/DailyWird.tsx:51-57 | the list takes its updated copy and is saved under the selected day, so loading that day again returns it |
| SmartChallenge.Floored | components/SmartChallenge.tsx:41 | the un-ticked score is never negative and never below score minus reward, being one or the other |
| SmartChallenge.TickUntick | components/SmartChallenge.tsx:38-46 | ticking an unticked mission and then un-ticking it gives back the list and, from a non-negative score, the score |
| SmartChallenge.UntickTick | components/SmartChallenge.tsx:38-46 | un-ticking and re-ticking a mission whose reward exceeds the score leaves a higher score than before |
| SmartChallenge.ChallengeScreen.constructor | components/SmartChallenge.tsx:10-25 | the missions view with no quiz, and the day's saved missions and score |
| SmartChallenge.ChallengeScreen.ToggleMissionCompletion | components/SmartChallenge.tsx:38-46 | a ticked mission is removed and its reward taken off the score, never below 0; an unticked one is appended and its reward added; exactly that mission's ticked state flips, the list stays free of duplicates, and the quiz is untouched |
| SmartChallenge.ChallengeScreen.OpenQuiz | components/SmartChallenge.tsx:48-79 | online with a non-empty generated quiz, that quiz; otherwise min(5, pool size) distinct draws from the local pool; then the first question with no score and nothing selected, missions untouched |
| SmartChallenge.ChallengeScreen.BackToMissions | components/SmartChallenge.tsx:159 | the missions view again, with the quiz and missions state kept |
| SmartChallenge.ChallengeScreen.HandleSelect | components/SmartChallenge.tsx:244-252 | ignored once an explanation is shown; otherwise the option is selected, the explanation shown, and exactly a right answer adds 1 to the score and 10 to the day's score |
| SmartChallenge.ChallengeScreen.Advance | components/SmartChallenge.tsx:330-337 | the next question with nothing selected when one is left, otherwise the missions view; scores and missions kept |
| DailyMissions.Reward | components/DailyMissionsAndWirds.tsx:53-54 | an id missing from the catalogue is worth 0; otherwise the reward of its first entry |
| DailyMissions.PointsBounds | components/DailyMissionsAndWirds.tsx:26-29 | with rewards in [0, most], the total of a list lies between 0 and its length times most |
| DailyMissions.RewardBounds | components/DailyMissionsAndWirds.tsx:27-28 | every lookup lies in [0, most] when the catalogue's rewards do |
| DailyMissions.CompletedAppend | components/DailyMissionsAndWirds.tsx:57-59 | after appending a mission its id is done, and every other id's answer is unchanged |
| DailyMissions.MissionsByCategory | components/DailyMissionsAndWirds.tsx:66-68 | exactly the catalogue entries of that category |
| DailyMissions.RandomWird | components/DailyMissionsAndWirds.tsx:61-64 | a salat or charity mission of the catalogue, and undefined exactly when the catalogue has none |
| DailyMissions.MissionsTab.constructor | components/DailyMissionsAndWirds.tsx:14-35 | with nothing stored, an empty list and 0 points; otherwise the stored list with its total recomputed from the catalogue |
| DailyMissions.MissionsTab.SaveMission | components/DailyMissionsAndWirds.tsx:38-55 | an already done mission changes nothing; otherwise it is appended, stored, and its reward added; afterwards it is done, no other id's answer changes, ids stay distinct and the total stays the list's reward sum |

## Left out

- `BootCompletedReceiver.java` only logs and restores nothing, so nothing in it is modelled.
- Android and browser APIs are abstract state or parameters: alarms, pending intents, media players, notifications, foreground services, `localStorage`, timers, `fetch`, `AudioContext`, audio elements. Logging and toasts are dropped.
- Timers, clocks and `Math.random()`: a timer firing is an explicit method call, and a clock or random reading is a parameter. Concurrency between callbacks is not modelled.
- The `adhan` library's astronomy is a function-typed parameter that may fail. Time zones and daylight saving are not modelled: a day is 1440 minutes and 86400000 ms.
- UpdateNextPrayer and SetupAdhanNotification: the handler is modelled as run on the controller's current `times` and switches. The source's calls run the handler copy of an earlier render, which holds that render's state values (React closure capture). So two stale readings are not modelled. First, the call right after `setTimes` on mount (components/PrayerTimes.tsx:74-77, :99-104, :166-171) still sees the empty `times` of the first render and chooses Fajr with the 05:00 default. Second, the minute interval (components/PrayerTimes.tsx:118-124, re-created only when `times` changes) keeps the notification and adhan switches of the render where `times` last changed, so turning notifications off does not stop it arming timers until `times` changes. The timer's own snapshot of `voiceEnabled && adhanEnabled` is modelled.
- `schedulePrayerAlarms`, `getTodayPrayerTimes` and `getMonthPrayerTimes` in `nativeAdhanService` and `offlinePrayerTimesService` only loop over the astronomy and scheduling already modelled, so they have no members of their own.
- `requestPermissions`, `playTestAdhan` and `requestNotificationPermission` are host permission and playback calls with no logic of their own.
- `getPredefinedLocations` is constant data. `formatTime` calls `toLocaleTimeString`, whose output depends on the locale.
- JSON text is not modelled: `JSON.stringify` followed by `JSON.parse` gives back the value, and any other stored text parses as malformed.
- `Number()` is modelled for runs of decimal digits with optional white space only. Signs, fractions and exponents are not.
- Text: `\p{P}` is a fixed set of ASCII and Arabic punctuation, `toLowerCase` folds ASCII only, and a string's length is its number of characters rather than UTF-16 code units (except in `String.hashCode`, which takes code units).
- `localStorage.setItem` throwing when the quota is exceeded is not modelled; every write succeeds.
- Tasmea's `saveSession`, `getSessions`, `deleteSession`, `clearAllSessions` and `generateSessionId` are storage plumbing. The session list is a parameter of the averages and statistics, and a session id is a parameter of `createSession`.
- `AzkarService.getAllAzkar` returns the constant catalogue, which is a parameter here.
- `getCurrentIslamicDate` and `getCurrentHijriYear` apply the conversion to `new Date()`; the conversion is modelled with the date as a parameter.
- `gregorianToHijri` computes a value `J` it never uses; it is left out. `hijriToGregorian` is modelled up to the raw year, month and day it passes to `Date`; the rollover `Date` then applies to month 0 is described, not computed.
- `gregorianToIslamic`'s floating-point `Math.floor(30.6001 * (month + 1))` is computed exactly as `floor(306001 · (month + 1) / 10000)`. The two agree for months 1 to 12, where the product is never a whole number.
- Tassem.BlankRecording: the single retry hint is proved for the empty recording only, not for one made of white space alone, although the source gives the same hint for both.
- The knowledge-base databases, the offline knowledge table, `QUIZ_POOL`, `WORSHIP_QUIZZES`, `DAILY_MISSIONS` and `DHIKRS` are defined outside the core and are parameters.
- Default arguments are not modelled. `KnowledgeBase.GetRandomAzkar` (`count = 3`), `KnowledgeBase.GetRandomStories` (`count = 1`), `Search.FuzzySearch` (`threshold = 0.6`) and `Search.GetSuggestions` (`limit = 5`) take that argument as a required parameter; a call without it is the call with the default written out.
- `generateMultipleChoiceQuestions` returns a constant list. `stopSpeech` and the speech synthesis call in `speakText` are host calls; only the text sanitising is modelled.
- `askReligiousAssistant`'s history argument is never read, and the online enrichment call is a parameter.
- Aliasing between stored objects, for example a track object shared by two map entries, is not modelled; maps hold values.
- The native media plugin's callbacks in the enhanced audio player, its `onloadedmetadata` duration updates and its progress intervals are host events; only the `tracks` map bookkeeping is modelled.
- `generateTestAudio`, `generateAndSaveTestAudio` and the tone synthesis in `services/audioInitService.ts` (lines 65-108) are floating-point signal work; the samples are a parameter.
- NaN samples are not modelled: a sample is an exact real, clamped to [-1, 1] before scaling.
- `generateSilenceAudio`'s frame count `sampleRate * durationSeconds` is a whole-number parameter; a fractional product, which `createBuffer` would truncate, is not modelled.
- Exceptions thrown by the host (`MediaPlayer.prepare`, `decodeAudioData`, `JSON.parse`) appear only where the source catches them, as explicit failure parameters.
- The enhanced player's WAV writer declares `volume`, `volume32Bit`, `channels` and `offset` but never reads them, so they are not modelled.
- Quiz: the loading flag, alerts and vibration are left out.
- Tasbih: sound, vibration, the `localStorage` load and save effects and the goal-setting input are left out; the history is a field.
- DailyWird: `getProgressColor`'s class strings are modelled as the bucket they pick, and per-day storage is a map from date to list.
- SmartChallenge: the Gemini quiz call is a parameter, and the per-day storage effects only supply the constructor's initial values.
- DailyMissions: the `catch` path of the load effect (malformed JSON) and the functional form of the `totalPoints` update are not modelled separately; the stored value is a list or nothing.

## Findings

| source | as written | input that shows it | evidently intended | confidence | as-written member | corrected member |
|---|---|---|---|---|---|---|
| services/enhancedAudioPlayerService.ts:354 | the `fmt ` chunk id is written as the little-endian word 0x20746366, which spells "fct " | any buffer: the bytes at offsets 12-15 read "fct " | 0x20746D66, which spells "fmt " as the other two writers do | not executed | EnhancedAudioPlayer.BufferToWaveAsWritten | EnhancedAudioPlayer.BufferToWave |
