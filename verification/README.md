# Notification decision rules of react-native-system-notification

The Android side of react-native-system-notification wraps each notification in
a `Notification` object: an integer id plus an attribute record. Around the
platform calls, that class makes a few decisions of its own:

- **Dispatch** (`setAlarmAndSaveOrShow`, `create`, `delete`, `update`, `clear`,
  `show`). It chooses between a delay alarm, a schedule alarm and showing now.
  It also decides whether an alarm is cancelled and whether the attributes are
  saved to or removed from the shared preferences.
- **Alarms** (`setDelay`, `setSchedule`). It maps the repeat type to a one-time
  alarm or a repeating alarm with a fixed interval.
- **Building** (`build`, `createErrorNotif`). It turns the attributes and the
  JSON payload into calls on a `NotificationCompat.Builder`. It also decides
  whether FLAG_INSISTENT is added.

This project models these rules as pure functions:

- `Effects`: the lifecycle operations. Each returns a list of platform effects:
  post or cancel a tray notification, set or cancel an alarm, save or remove
  attributes.
- `Alarms`: the alarm decisions. Each returns an `Alarm`, the arguments handed
  to `AlarmManager.set` or `setRepeating`.
- `Builder`: `build` as a list of builder setter calls, plus the insistent flag.

Each operation has a partner against which its properties are proved:

- `Effects.Run` applies an effect list to a `Device`. A `Device` is three
  maps keyed by notification id: tray, alarms and preferences. Posting or
  setting replaces the entry for the id. Cancelling or removing deletes it.
- `Builder.Render` folds a list of setter calls into the builder's final state.
  Each setter overwrites its field, and `addAction` appends.
- `Alarms.IntervalTable` lists the repeat interval of each recognised repeat
  type.

`JavaTypes` models Java `null` (`Option`), the `int` and `long` ranges, and
wrap-around `long` addition.

The platform enters only as values in `Builder.Host`:

- `now`: the `SystemClock.elapsedRealtime()` reading.
- `parse`: the Gson parser. It returns None when parsing throws or the payload
  is not a JSON object.
- `avatarFetched`: whether building the avatar URL, opening the connection and
  opening its stream threw nothing. When it is false, or `avatarUrl` is not a
  primitive member, the large icon is the launcher icon.
- `avatarDecodes`: whether `decodeStream` returned a bitmap. When it returned
  null, `setLargeIcon(null)` is called (`IconSource.NullBitmap`); the launcher
  icon is not used in that case.
- `bigPictureDecodes`: whether the base64 big picture decoded to a bitmap.

The model follows the Java code as written, including three behaviours a reader
might not expect:

- With `inboxStyle` set, an `InboxStyle` object is filled in but never passed
  to `setStyle`. The only visible effect of the flag is that `setDefaults` is
  not called. The model therefore has no inbox style setting.
- `"week"`, `"month"` and `"year"` repeat every `INTERVAL_DAY`, the same as
  `"day"`.
- `delete` cancels the alarm only when the current attributes are delayed or
  scheduled. An alarm set under other attributes survives `update`.
  `Lifecycle.UpdateAlarm` states this.

`Effects.Show`, `Effects.Create`, `Effects.Clear` and `Effects.CancelAlarmOf`
only list their effects. Their properties are stated on the device by
`Lifecycle.ShowOutcome`, `Lifecycle.CreateOutcome`, `Lifecycle.ClearOutcome` and
`Lifecycle.CancelAlarmOutcome`.

## Model

| member | source | states |
|---|---|---|
| JavaTypes.LongAdd | android/src/main/java/io/neson/react/notification/Notification.java:413 | the `long` sum is the true sum when it fits, and is congruent to it modulo 2^64 otherwise |
| Alarms.DelayAlarm | android/src/main/java/io/neson/react/notification/Notification.java:410-417 | a delay alarm is a one-shot ELAPSED_REALTIME_WAKEUP alarm at now + delay (with `long` wrap-around) |
| Alarms.ScheduleAlarm | android/src/main/java/io/neson/react/notification/Notification.java:422-467 | every schedule alarm is an RTC_WAKEUP alarm whose first trigger is `sendAt`; it repeats exactly when the repeat type is one of the eight recognised strings |
| Alarms.IntervalTable | android/src/main/java/io/neson/react/notification/Notification.java:430-457 | the interval table is keyed by exactly the eight repeat types the switch recognises |
| Alarms.ScheduleMatchesTable | android/src/main/java/io/neson/react/notification/Notification.java:425-463 | the schedule alarm repeats with the interval the table gives for a recognised type, and is one-shot at `sendAt` for null or any other string |
| Alarms.UnknownRepeatTypeIsOneShot | android/src/main/java/io/neson/react/notification/Notification.java:425-461 | a null or unrecognised repeat type gives a one-time RTC alarm at `sendAt` with no interval |
| Alarms.SubDailyIntervals | android/src/main/java/io/neson/react/notification/Notification.java:431-449 | "time" repeats every `repeatTime`, "minute" every 60000 ms, "hour" every 3600000 ms, "halfDay" every 43200000 ms |
| Alarms.CalendarTypesShareDailyAlarm | android/src/main/java/io/neson/react/notification/Notification.java:451-457 | "day", "week", "month" and "year" give the same alarm, repeating every 86400000 ms |
| Builder.CreateErrorNotif | android/src/main/java/io/neson/react/notification/Notification.java:124-129 | the error notification keeps what was already set, adds the title "ERROR" and the fixed error text, and is not insistent |
| Builder.DefaultsMask | android/src/main/java/io/neson/react/notification/Notification.java:289-298 | the mask has the DEFAULT_SOUND, DEFAULT_VIBRATE and DEFAULT_LIGHTS bit set exactly when sound, vibrate or lights equals "default", and no other bit |
| Builder.Build | android/src/main/java/io/neson/react/notification/Notification.java:163-379 | the built notification carries FLAG_INSISTENT exactly when the payload parses and its `type` is "offer" |
| BuildProperties.UnparsedPayloadIsError | android/src/main/java/io/neson/react/notification/Notification.java:184-190 | a null or unparsable payload gives the error notification: the builder holds only the small icon, the title "ERROR" and the error text |
| BuildProperties.MissingTypeIsError | android/src/main/java/io/neson/react/notification/Notification.java:207-214 | a payload without a primitive `type` gives the error notification: the icons, then the error title and text, and no attribute-driven setting |
| BuildProperties.OfferAddsActionsAndInsistence | android/src/main/java/io/neson/react/notification/Notification.java:216-220 | type "offer" adds exactly the Answer and Deny actions and makes the notification insistent (lines 372-378); any other type adds neither |
| BuildProperties.ContentFromAttributes | android/src/main/java/io/neson/react/notification/Notification.java:253-255 | on a well-formed payload the content title and text are the subject and message |
| BuildProperties.DefaultsUnlessInbox | android/src/main/java/io/neson/react/notification/Notification.java:269-301 | with `inboxStyle` no defaults call is made at all; otherwise the builder's defaults are the defaults mask |
| BuildProperties.BigTextBeforeBigPicture | android/src/main/java/io/neson/react/notification/Notification.java:316-342 | the style is big text when `bigText` is set, else big picture when the image is set and decodes, else none |
| BuildProperties.ProgressClamped | android/src/main/java/io/neson/react/notification/Notification.java:352-358 | null progress sets no bar; progress in [0, 1000] gives (1000, p, determinate); anything else gives (1000, 100, indeterminate) |
| Effects.SetAlarmAndSaveOrShow | android/src/main/java/io/neson/react/notification/Notification.java:393-405 | the attributes are saved exactly when delayed or scheduled; the delay alarm is set exactly when delayed; the schedule alarm is set when scheduled and not delayed, and never when not scheduled; a notification is posted exactly when neither flag holds |
| Effects.Delete | android/src/main/java/io/neson/react/notification/Notification.java:109-121 | delete always cancels the tray entry and removes the preference entry, cancels the alarm exactly when delayed or scheduled, and posts, sets or saves nothing |
| Effects.Update | android/src/main/java/io/neson/react/notification/Notification.java:87-93 | update keeps the id, takes the new attributes, and emits effects only for that id |
| Lifecycle.DeleteOutcome | android/src/main/java/io/neson/react/notification/Notification.java:109-121 | after delete the id has no tray entry and no stored attributes; its alarm is gone exactly when the attributes announce one; other ids are unchanged |
| Lifecycle.DeleteIdempotent | android/src/main/java/io/neson/react/notification/Notification.java:109-121 | deleting twice leaves the device as deleting once |
| Lifecycle.ClearOutcome | android/src/main/java/io/neson/react/notification/Notification.java:98-104 | clear removes the id's tray entry and nothing else |
| Lifecycle.CancelAlarmOutcome | android/src/main/java/io/neson/react/notification/Notification.java:472-477 | cancelAlarm removes the id's alarm and leaves the tray, the stored attributes and every other alarm unchanged |
| Lifecycle.ShowOutcome | android/src/main/java/io/neson/react/notification/Notification.java:384-388 | show posts the built notification under the id and changes nothing else |
| Lifecycle.DispatchOutcome | android/src/main/java/io/neson/react/notification/Notification.java:393-405 | on the device, dispatch sets the delay alarm and stores the attributes when delayed, sets the schedule alarm and stores them when only scheduled, and otherwise posts the notification and stores nothing |
| Lifecycle.CreateOutcome | android/src/main/java/io/neson/react/notification/Notification.java:76-82 | create has the same device outcome as dispatch |
| Lifecycle.UpdateRun | android/src/main/java/io/neson/react/notification/Notification.java:87-93 | update forgets the id under the old attributes, then dispatches the new ones |
| Lifecycle.UpdateStoresOnlyAlarmed | android/src/main/java/io/neson/react/notification/Notification.java:87-93 | after update the stored attributes of the id are the new ones exactly when they are delayed or scheduled, and absent otherwise |
| Lifecycle.UpdateShowsOnlyUnalarmed | android/src/main/java/io/neson/react/notification/Notification.java:87-93 | after update the id is in the tray exactly when the new attributes have no alarm, showing the notification built from them |
| Lifecycle.UpdateAlarm | android/src/main/java/io/neson/react/notification/Notification.java:87-93 | after update the id's alarm is the one the new attributes call for; without one, an old alarm survives exactly when it existed and the old attributes did not announce it |
| Lifecycle.UpdateLeavesOthers | android/src/main/java/io/neson/react/notification/Notification.java:87-93 | update changes no other id's tray entry, alarm or stored attributes |
| Lifecycle.UpdateIdempotent | android/src/main/java/io/neson/react/notification/Notification.java:87-93 | updating a second time with the same attributes and host readings leaves the device unchanged |

## Left out

- Avatar download and bitmap decoding (`HttpURLConnection`, `BitmapFactory`). These are network I/O and platform decoders, so `Host.avatarFetched`, `Host.avatarDecodes` and `Host.bigPictureDecodes` stand in for their outcomes.
- Gson. Payload parsing is the `Host.parse` parameter. Saving attributes is modelled as storing the record itself, under the notification id, in `Device.prefs`. `loadAttributesFromPreferences` is not modelled, because reading back depends on Gson's serialisation format.
- `PendingIntent` and `Intent` construction, `getSystemService`, `Color.parseColor`, `Html.fromHtml` and `Uri.parse`. These are platform wrappers. Intents appear only as the values they carry: the content intent's id, action and payload, and each action broadcast's intent action and body type. A colour string that `parseColor` rejects would make `build` throw. The model does not cover that case.
- The SDK-version branches: `commit` versus `apply`, and the second `setLargeIcon` on LOLLIPOP (line 266). The inbox style's title, summary and lines are also left out, because they never reach the builder.
- Logging. The unused helpers `createMessageNotification`, `createCallNotif` and `getByeIntent`, and the commented-out type dispatch. None of them is reachable from the modelled operations.
- A `null` attribute record, which the constructor allows but `delete` and `build` would dereference. The model always has a record. The `NotificationAttributes` class is not part of this model. Its boolean flags are modelled as `bool`, except `onlyAlertOnce` and `localOnly`, which are nullable (`Option<bool>`) and null-checked before use (lines 303 and 364). Times are modelled as `long`, and priority, progress and number as nullable 32-bit integers.
- What the notification manager and the alarm manager do with a posted notification or a set alarm: delivery, firing and repetition. `Device` records only which entry each id currently has.
