/**
 What the lifecycle operations do to the tray, the alarms and the stored
 attributes, stated on the device state that `Run` produces.
 */
module Lifecycle {
  import opened JavaTypes
  import opened Attributes
  import opened Alarms
  import opened Builder
  import opened Effects

  /** Running a concatenation is running its parts one after the other. */
  lemma {:induction false} RunAppend(d: Device, xs: seq<Effect>, ys: seq<Effect>)
    ensures Run(d, xs + ys) == Run(Run(d, xs), ys)
    decreases |xs|
  {
    if |xs| > 0 {
      assert (xs + ys)[0] == xs[0];
      assert (xs + ys)[1..] == xs[1..] + ys;
      RunAppend(Step(d, xs[0]), xs[1..], ys);
    } else {
      assert xs + ys == ys;
    }
  }

  lemma RunOne(d: Device, e: Effect)
    ensures Run(d, [e]) == Step(d, e)
  {
    assert [e][1..] == [];
  }

  lemma RunTwo(d: Device, e: Effect, f: Effect)
    ensures Run(d, [e, f]) == Step(Step(d, e), f)
  {
    assert [e, f][1..] == [f];
    RunOne(Step(d, e), f);
  }

  /** The device with every trace of notification `id` taken out of the tray and the
      preferences, and out of the alarms too when `cancelAlarm` holds. */
  function Forget(d: Device, id: Int32, cancelAlarm: bool): Device {
    Device(d.tray - {id}, if cancelAlarm then d.alarms - {id} else d.alarms, d.prefs - {id})
  }

  /** delete leaves no tray entry and no stored attributes for the id; its alarm goes only
      when the attributes are delayed or scheduled; other ids are untouched. */
  lemma DeleteOutcome(d: Device, n: Notification)
    ensures Run(d, Delete(n)) == Forget(d, n.id, HasAlarm(n.attributes))
  {
    var mid := [CancelNotification(n.id)] + (if HasAlarm(n.attributes) then CancelAlarmOf(n) else []);
    assert Delete(n) == mid + [RemoveAttributes(n.id)];
    RunAppend(d, mid, [RemoveAttributes(n.id)]);
    RunOne(Run(d, mid), RemoveAttributes(n.id));
    if HasAlarm(n.attributes) {
      RunTwo(d, CancelNotification(n.id), CancelAlarm(n.id));
    } else {
      assert mid == [CancelNotification(n.id)];
      RunOne(d, CancelNotification(n.id));
    }
  }

  /** Deleting twice is deleting once. */
  lemma DeleteIdempotent(d: Device, n: Notification)
    ensures Run(Run(d, Delete(n)), Delete(n)) == Run(d, Delete(n))
  {
    DeleteOutcome(d, n);
    DeleteOutcome(Run(d, Delete(n)), n);
  }

  /** clear removes the tray entry and nothing else. */
  lemma ClearOutcome(d: Device, n: Notification)
    ensures Run(d, Clear(n)) == d.(tray := d.tray - {n.id})
  {
  }

  /** cancelAlarm removes the id's alarm and nothing else. */
  lemma CancelAlarmOutcome(d: Device, n: Notification)
    ensures Run(d, CancelAlarmOf(n)) == d.(alarms := d.alarms - {n.id})
  {
  }

  /** show posts the built notification under the id and changes nothing else. */
  lemma ShowOutcome(d: Device, n: Notification, host: Host)
    ensures Run(d, Show(n, host)) == d.(tray := d.tray[n.id := Build(n.id, n.attributes, host)])
  {
  }

  /** The device after dispatch: a delayed notification gets its delay alarm and is stored;
      a scheduled one gets its schedule alarm and is stored; any other is posted now and
      nothing is stored. */
  function Dispatched(d: Device, n: Notification, host: Host): Device {
    var a := n.attributes;
    if a.delayed then
      d.(alarms := d.alarms[n.id := DelayAlarm(a, host.now)], prefs := d.prefs[n.id := a])
    else if a.scheduled then
      d.(alarms := d.alarms[n.id := ScheduleAlarm(a)], prefs := d.prefs[n.id := a])
    else
      d.(tray := d.tray[n.id := Build(n.id, a, host)])
  }

  lemma DispatchOutcome(d: Device, n: Notification, host: Host)
    ensures Run(d, SetAlarmAndSaveOrShow(n, host)) == Dispatched(d, n, host)
  {
    var a := n.attributes;
    if a.delayed {
      RunTwo(d, SetAlarm(n.id, DelayAlarm(a, host.now)), SaveAttributes(n.id, a));
    } else if a.scheduled {
      RunTwo(d, SetAlarm(n.id, ScheduleAlarm(a)), SaveAttributes(n.id, a));
    } else {
      ShowOutcome(d, n, host);
    }
  }

  /** create is dispatch. */
  lemma CreateOutcome(d: Device, n: Notification, host: Host)
    ensures Run(d, Create(n, host)) == Dispatched(d, n, host)
  {
    DispatchOutcome(d, n, host);
  }

  /** update runs as: forget the id (the alarm only if the old attributes announce one),
      then dispatch the new attributes. */
  lemma UpdateRun(d: Device, n: Notification, newAttributes: Attributes, host: Host)
    ensures Run(d, Update(n, newAttributes, host).1)
              == Dispatched(Forget(d, n.id, HasAlarm(n.attributes)), Notification(n.id, newAttributes), host)
  {
    var updated := Notification(n.id, newAttributes);
    RunAppend(d, Delete(n), SetAlarmAndSaveOrShow(updated, host));
    DeleteOutcome(d, n);
    DispatchOutcome(Forget(d, n.id, HasAlarm(n.attributes)), updated, host);
  }

  /** After update the id's stored attributes are the new ones exactly when they are
      delayed or scheduled; otherwise there are none. */
  lemma UpdateStoresOnlyAlarmed(d: Device, n: Notification, newAttributes: Attributes, host: Host)
    ensures var d' := Run(d, Update(n, newAttributes, host).1);
      && (n.id in d'.prefs <==> HasAlarm(newAttributes))
      && (n.id in d'.prefs ==> d'.prefs[n.id] == newAttributes)
  {
    UpdateRun(d, n, newAttributes, host);
  }

  /** After update the id is in the tray exactly when the new attributes have no alarm,
      and then it shows the notification built from the new attributes. */
  lemma UpdateShowsOnlyUnalarmed(d: Device, n: Notification, newAttributes: Attributes, host: Host)
    ensures var d' := Run(d, Update(n, newAttributes, host).1);
      && (n.id in d'.tray <==> !HasAlarm(newAttributes))
      && (n.id in d'.tray ==> d'.tray[n.id] == Build(n.id, newAttributes, host))
  {
    UpdateRun(d, n, newAttributes, host);
  }

  /** After update the id's alarm is the one the new attributes call for. Without a new
      alarm, an old one survives only when it was set and the old attributes did not
      announce it (so delete did not cancel it). */
  lemma UpdateAlarm(d: Device, n: Notification, newAttributes: Attributes, host: Host)
    ensures var d' := Run(d, Update(n, newAttributes, host).1);
      && (newAttributes.delayed ==> n.id in d'.alarms && d'.alarms[n.id] == DelayAlarm(newAttributes, host.now))
      && (!newAttributes.delayed && newAttributes.scheduled ==>
            n.id in d'.alarms && d'.alarms[n.id] == ScheduleAlarm(newAttributes))
      && (!HasAlarm(newAttributes) ==>
            (n.id in d'.alarms <==> n.id in d.alarms && !HasAlarm(n.attributes)))
  {
    UpdateRun(d, n, newAttributes, host);
  }

  /** update touches no other notification's entries. */
  lemma UpdateLeavesOthers(d: Device, n: Notification, newAttributes: Attributes, host: Host)
    ensures var d' := Run(d, Update(n, newAttributes, host).1);
      && d'.tray - {n.id} == d.tray - {n.id}
      && d'.alarms - {n.id} == d.alarms - {n.id}
      && d'.prefs - {n.id} == d.prefs - {n.id}
  {
    UpdateRun(d, n, newAttributes, host);
  }

  /** Removing a key just written and writing it again gives the same map. */
  lemma Rewrite<K, V>(m: map<K, V>, k: K, v: V)
    ensures (m[k := v] - {k})[k := v] == m[k := v]
  {
  }

  /** On a device holding no tray entry and no stored attributes for the id, dispatching,
      forgetting the id (with the alarm the attributes announce) and dispatching again
      ends where the first dispatch did. */
  lemma RedispatchSame(d: Device, n: Notification, host: Host)
    requires n.id !in d.tray && n.id !in d.prefs
    ensures Dispatched(Forget(Dispatched(d, n, host), n.id, HasAlarm(n.attributes)), n, host)
              == Dispatched(d, n, host)
  {
    var id := n.id;
    var a := n.attributes;
    assert d.tray - {id} == d.tray;
    assert d.prefs - {id} == d.prefs;
    if a.delayed {
      Rewrite(d.alarms, id, DelayAlarm(a, host.now));
      Rewrite(d.prefs, id, a);
    } else if a.scheduled {
      Rewrite(d.alarms, id, ScheduleAlarm(a));
      Rewrite(d.prefs, id, a);
    } else {
      Rewrite(d.tray, id, Build(id, a, host));
    }
  }

  /** Updating again with the same attributes (and the same host readings) changes nothing. */
  lemma UpdateIdempotent(d: Device, n: Notification, newAttributes: Attributes, host: Host)
    ensures var r := Update(n, newAttributes, host);
      Run(Run(d, r.1), Update(r.0, newAttributes, host).1) == Run(d, r.1)
  {
    var r := Update(n, newAttributes, host);
    UpdateRun(d, n, newAttributes, host);
    UpdateRun(Run(d, r.1), r.0, newAttributes, host);
    RedispatchSame(Forget(d, n.id, HasAlarm(n.attributes)), r.0, host);
  }
}
