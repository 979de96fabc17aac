/**
 The lifecycle operations of a Notification — create, show, clear, delete,
 update and the dispatch `setAlarmAndSaveOrShow` — as lists of platform
 effects, and `Run`, which applies such a list to the three platform stores
 they touch: the notification tray, the alarm manager and the shared
 preferences, each keyed by notification id.
 */
module Effects {
  import opened JavaTypes
  import opened Attributes
  import opened Alarms
  import opened Builder

  datatype Effect =
    | PostNotification(id: Int32, notif: Notif)   // NotificationManager.notify
    | CancelNotification(id: Int32)                // NotificationManager.cancel
    | SetAlarm(id: Int32, alarm: Alarm)            // AlarmManager.set / setRepeating
    | CancelAlarm(id: Int32)                       // AlarmManager.cancel
    | SaveAttributes(id: Int32, attributes: Attributes)  // preference put
    | RemoveAttributes(id: Int32)                  // preference remove

  /** Every effect of `es` concerns notification `id`. */
  predicate OnlyConcerns(es: seq<Effect>, id: Int32) {
    forall i :: 0 <= i < |es| ==> es[i].id == id
  }

  /** show */
  function Show(n: Notification, host: Host): seq<Effect> {
    [PostNotification(n.id, Build(n.id, n.attributes, host))]
  }

  /** setAlarmAndSaveOrShow: a delay alarm wins over a schedule alarm, and either one
      saves the attributes; with neither flag the notification is shown now. */
  function SetAlarmAndSaveOrShow(n: Notification, host: Host): (r: seq<Effect>)
    ensures OnlyConcerns(r, n.id)
    ensures SaveAttributes(n.id, n.attributes) in r <==> HasAlarm(n.attributes)
    ensures SetAlarm(n.id, DelayAlarm(n.attributes, host.now)) in r <==> n.attributes.delayed
    ensures SetAlarm(n.id, ScheduleAlarm(n.attributes)) in r ==> n.attributes.scheduled
    ensures !n.attributes.delayed && n.attributes.scheduled ==> SetAlarm(n.id, ScheduleAlarm(n.attributes)) in r
    ensures (exists i :: 0 <= i < |r| && r[i].PostNotification?) <==> !HasAlarm(n.attributes)
  {
    var a := n.attributes;
    if a.delayed then
      [SetAlarm(n.id, DelayAlarm(a, host.now)), SaveAttributes(n.id, a)]
    else if a.scheduled then
      [SetAlarm(n.id, ScheduleAlarm(a)), SaveAttributes(n.id, a)]
    else
      var r := Show(n, host);
      assert r[0].PostNotification?;
      r
  }

  /** create */
  function Create(n: Notification, host: Host): seq<Effect> {
    SetAlarmAndSaveOrShow(n, host)
  }

  /** clear: only the tray entry goes. */
  function Clear(n: Notification): seq<Effect> {
    [CancelNotification(n.id)]
  }

  /** cancelAlarm */
  function CancelAlarmOf(n: Notification): seq<Effect> {
    [CancelAlarm(n.id)]
  }

  /** delete: cancel the tray entry, cancel the alarm only when the attributes say there is
      one, and remove the preference entry. Nothing is posted, set or saved. */
  function Delete(n: Notification): (r: seq<Effect>)
    ensures OnlyConcerns(r, n.id)
    ensures CancelNotification(n.id) in r && RemoveAttributes(n.id) in r
    ensures CancelAlarm(n.id) in r <==> HasAlarm(n.attributes)
    ensures forall i :: 0 <= i < |r| ==>
              !r[i].PostNotification? && !r[i].SetAlarm? && !r[i].SaveAttributes?
  {
    [CancelNotification(n.id)]
    + (if HasAlarm(n.attributes) then CancelAlarmOf(n) else [])
    + [RemoveAttributes(n.id)]
  }

  /** update: delete under the old attributes, then dispatch under the new ones. */
  function Update(n: Notification, newAttributes: Attributes, host: Host): (r: (Notification, seq<Effect>))
    ensures r.0 == Notification(n.id, newAttributes)
    ensures OnlyConcerns(r.1, n.id)
  {
    var updated := n.(attributes := newAttributes);
    (updated, Delete(n) + SetAlarmAndSaveOrShow(updated, host))
  }

  // ---------------------------------------------------------------- the platform stores

  datatype Device = Device(
    tray: map<Int32, Notif>,
    alarms: map<Int32, Alarm>,
    prefs: map<Int32, Attributes>
  )

  /** One effect: posting or setting replaces what the id had, cancelling removes it. */
  function Step(d: Device, e: Effect): Device {
    match e
    case PostNotification(id, notif) => d.(tray := d.tray[id := notif])
    case CancelNotification(id) => d.(tray := d.tray - {id})
    case SetAlarm(id, alarm) => d.(alarms := d.alarms[id := alarm])
    case CancelAlarm(id) => d.(alarms := d.alarms - {id})
    case SaveAttributes(id, attrs) => d.(prefs := d.prefs[id := attrs])
    case RemoveAttributes(id) => d.(prefs := d.prefs - {id})
  }

  function Run(d: Device, es: seq<Effect>): Device
    decreases |es|
  {
    if |es| == 0 then d else Run(Step(d, es[0]), es[1..])
  }
}
