/**
 The attribute record of one notification (NotificationAttributes in the
 Java module) and the Notification object itself, an integer id paired with
 its attributes. Nullable Java fields are `Option`s; primitive `boolean` flags
 are `bool`.
 */
module Attributes {
  import opened JavaTypes

  datatype Attributes = Attributes(
    // scheduling
    delayed: bool,
    scheduled: bool,
    delay: Long,
    sendAt: Long,
    repeatType: Option<string>,
    repeatTime: Long,
    // content and tap intent
    payload: Option<string>,
    action: Option<string>,
    subject: Option<string>,
    message: Option<string>,
    autoClear: bool,
    priority: Option<Int32>,
    // style and alerting
    inboxStyle: bool,
    sound: Option<string>,
    vibrate: Option<string>,
    lights: Option<string>,
    onlyAlertOnce: Option<bool>,
    tickerText: Option<string>,
    when: Option<Long>,
    bigText: Option<string>,
    bigStyleImageBase64: Option<string>,
    color: Option<string>,
    subText: Option<string>,
    progress: Option<Int32>,
    number: Option<Int32>,
    localOnly: Option<bool>
  )

  /** A notification: its id (also the preference key and the alarm's request code) and attributes. */
  datatype Notification = Notification(id: Int32, attributes: Attributes)

  /** The attributes announce an alarm: one of the two scheduling flags is set. */
  predicate HasAlarm(a: Attributes) {
    a.delayed || a.scheduled
  }
}
