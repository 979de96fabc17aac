/**
 `build` of Notification.java as a plan: the sequence of NotificationCompat.Builder
 setter calls it makes, plus whether FLAG_INSISTENT is or-ed into the result.
 `Render` folds a plan into the builder's final state (each setter overwrites
 its field, `addAction` appends), the reference against which the plan's
 properties are stated.

 The host enters as parameters: the Gson parser of the payload, whether the
 avatar download succeeded, and whether the base64 big picture decoded.
 */
module Builder {
  import opened JavaTypes
  import opened Attributes

  // ---------------------------------------------------------------- JSON payload

  /** A member of the parsed payload object, as far as `getAsJsonPrimitive` cares. */
  datatype JsonValue = JsonNull | JsonPrimitive(text: string) | JsonArray | JsonObject

  type JsonMembers = map<string, JsonValue>

  /** What the platform answers: the `SystemClock.elapsedRealtime()` reading (used only by
      `setDelay`), the JSON parser (None: it threw, or the payload is not an object), whether
      the avatar URL, connection and stream were opened without an exception, whether
      `decodeStream` then returned a bitmap rather than null, and whether the big picture
      decoded. */
  datatype Host = Host(
    now: Long,
    parse: string -> Option<JsonMembers>,
    avatarFetched: bool,
    avatarDecodes: bool,
    bigPictureDecodes: bool
  )

  /** `(JsonObject) jsonParser.parse(payload)`; a null payload makes the parser throw. */
  function ParsePayload(payload: Option<string>, parse: string -> Option<JsonMembers>): Option<JsonMembers> {
    match payload
    case None => None
    case Some(p) => parse(p)
  }

  /** `obj.getAsJsonPrimitive(key).getAsString()`, None where that throws: a missing key
      (null primitive) or a member that is not a primitive (failed cast). */
  function PrimitiveMember(obj: JsonMembers, key: string): Option<string> {
    if key in obj && obj[key].JsonPrimitive? then Some(obj[key].text) else None
  }

  // ---------------------------------------------------------------- builder calls

  /** The bitmap handed to `setLargeIcon`: the launcher icon, the decoded avatar, or null
      when the avatar stream was opened but did not decode. */
  datatype IconSource = LauncherIcon | AvatarBitmap | NullBitmap

  /** A broadcast PendingIntent: its intent action and the `type` in its JSON body. */
  datatype Broadcast = Broadcast(intentAction: string, bodyType: string)

  datatype Action = Action(caption: string, intent: Broadcast)

  /** The tap intent: notification id, action and payload as extras. */
  datatype ContentIntent = ContentIntent(notificationId: Int32, tapAction: Option<string>, tapPayload: Option<string>)

  datatype Style = BigTextStyle(bigText: string) | BigPictureStyle

  datatype ProgressBar = ProgressBar(max: Int32, current: Int32, indeterminate: bool)

  /** One setter call on the builder. */
  datatype Setting =
    | SmallIcon
    | LargeIcon(source: IconSource)
    | ContentTitle(title: Option<string>)
    | ContentText(text: Option<string>)
    | AutoCancel(autoCancel: bool)
    | SetContentIntent(contentIntent: ContentIntent)
    | Priority(priority: Int32)
    | AddAction(action: Action)
    | Defaults(mask: bv32)
    | OnlyAlertOnce(onlyAlertOnce: bool)
    | Ticker(ticker: string)
    | When(when: Long)
    | ShowWhen(showWhen: bool)
    | SetStyle(style: Style)
    | Color(color: string)
    | SubText(subText: string)
    | Progress(bar: ProgressBar)
    | Number(number: Int32)
    | LocalOnly(localOnly: bool)
    | Sound(sound: string)

  /** The built notification: the setter calls made, and FLAG_INSISTENT. */
  datatype Notif = Notif(settings: seq<Setting>, insistent: bool)

  /** android.app.Notification.DEFAULT_SOUND, DEFAULT_VIBRATE, DEFAULT_LIGHTS. */
  const DefaultSound: bv32 := 1
  const DefaultVibrate: bv32 := 2
  const DefaultLights: bv32 := 4

  const ErrorTitle: string := "ERROR"
  const ErrorText: string := "Something went wrong trying to create the tray notif, check the logs"

  const ProgressMax: Int32 := 1000

  const AnswerAction: Action := Action("Answer", Broadcast("com.mobile.CallPushNotifIntent", "offer"))
  const DenyAction: Action := Action("Deny", Broadcast("com.oney.gcm.GCMReceiveNotification", "deny"))

  // ---------------------------------------------------------------- builder state

  /** What the builder holds after a sequence of setter calls; None: never set. */
  datatype BuilderState = BuilderState(
    smallIcon: bool,
    largeIcon: Option<IconSource>,
    title: Option<string>,
    text: Option<string>,
    autoCancel: Option<bool>,
    contentIntent: Option<ContentIntent>,
    priority: Option<Int32>,
    actions: seq<Action>,
    defaults: Option<bv32>,
    onlyAlertOnce: Option<bool>,
    ticker: Option<string>,
    when: Option<Long>,
    showWhen: Option<bool>,
    style: Option<Style>,
    color: Option<string>,
    subText: Option<string>,
    progress: Option<ProgressBar>,
    number: Option<Int32>,
    localOnly: Option<bool>,
    sound: Option<string>
  )

  /** A freshly constructed builder. */
  const Fresh: BuilderState :=
    BuilderState(false, None, None, None, None, None, None, [], None, None,
                 None, None, None, None, None, None, None, None, None, None)

  /** The effect of one setter call on the builder. */
  function Apply(b: BuilderState, s: Setting): BuilderState {
    match s
    case SmallIcon => b.(smallIcon := true)
    case LargeIcon(src) => b.(largeIcon := Some(src))
    case ContentTitle(t) => b.(title := t)
    case ContentText(t) => b.(text := t)
    case AutoCancel(v) => b.(autoCancel := Some(v))
    case SetContentIntent(i) => b.(contentIntent := Some(i))
    case Priority(p) => b.(priority := Some(p))
    case AddAction(a) => b.(actions := b.actions + [a])
    case Defaults(m) => b.(defaults := Some(m))
    case OnlyAlertOnce(v) => b.(onlyAlertOnce := Some(v))
    case Ticker(t) => b.(ticker := Some(t))
    case When(w) => b.(when := Some(w))
    case ShowWhen(v) => b.(showWhen := Some(v))
    case SetStyle(st) => b.(style := Some(st))
    case Color(c) => b.(color := Some(c))
    case SubText(t) => b.(subText := Some(t))
    case Progress(p) => b.(progress := Some(p))
    case Number(n) => b.(number := Some(n))
    case LocalOnly(v) => b.(localOnly := Some(v))
    case Sound(u) => b.(sound := Some(u))
  }

  /** The builder after the calls of `ss`, in order, starting from `b`. */
  function RenderFrom(b: BuilderState, ss: seq<Setting>): BuilderState
    decreases |ss|
  {
    if |ss| == 0 then b else RenderFrom(Apply(b, ss[0]), ss[1..])
  }

  function Render(ss: seq<Setting>): BuilderState {
    RenderFrom(Fresh, ss)
  }

  /** Rendering a concatenation is rendering its parts one after the other. */
  lemma {:induction false} RenderAppend(b: BuilderState, xs: seq<Setting>, ys: seq<Setting>)
    ensures RenderFrom(b, xs + ys) == RenderFrom(RenderFrom(b, xs), ys)
    decreases |xs|
  {
    if |xs| > 0 {
      assert (xs + ys)[0] == xs[0];
      assert (xs + ys)[1..] == xs[1..] + ys;
      RenderAppend(Apply(b, xs[0]), xs[1..], ys);
    } else {
      assert xs + ys == ys;
    }
  }

  /** Rendering a single call is applying it. */
  lemma RenderOne(b: BuilderState, s: Setting)
    ensures RenderFrom(b, [s]) == Apply(b, s)
  {
    assert [s][1..] == [];
  }

  /** Rendering two calls applies them in order. */
  lemma RenderTwo(b: BuilderState, s: Setting, t: Setting)
    ensures RenderFrom(b, [s, t]) == Apply(Apply(b, s), t)
  {
    assert [s, t][1..] == [t];
    RenderOne(Apply(b, s), t);
  }

  // ---------------------------------------------------------------- fields

  /** The builder fields a setter can write. */
  datatype Field = TitleF | TextF | ActionsF | DefaultsF | StyleF | ProgressF | OtherF

  /** The field a setter writes (the ones no property here is about map to OtherF). */
  function Writes(s: Setting): Field {
    match s
    case ContentTitle(_) => TitleF
    case ContentText(_) => TextF
    case AddAction(_) => ActionsF
    case Defaults(_) => DefaultsF
    case SetStyle(_) => StyleF
    case Progress(_) => ProgressF
    case _ => OtherF
  }

  /** `b` and `c` hold the same value in field `f`. */
  predicate SameField(b: BuilderState, c: BuilderState, f: Field) {
    match f
    case TitleF => b.title == c.title
    case TextF => b.text == c.text
    case ActionsF => b.actions == c.actions
    case DefaultsF => b.defaults == c.defaults
    case StyleF => b.style == c.style
    case ProgressF => b.progress == c.progress
    case OtherF => true
  }

  /** No call of `ss` writes field `f`. */
  predicate Untouched(ss: seq<Setting>, f: Field) {
    forall i :: 0 <= i < |ss| ==> Writes(ss[i]) != f
  }

  /** Calls that do not write a field leave it as it was. */
  lemma {:induction false} RenderFrame(b: BuilderState, ss: seq<Setting>, f: Field)
    requires Untouched(ss, f)
    ensures SameField(b, RenderFrom(b, ss), f)
    decreases |ss|
  {
    if |ss| > 0 {
      assert Writes(ss[0]) != f;
      assert Untouched(ss[1..], f) by {
        forall i | 0 <= i < |ss[1..]| ensures Writes(ss[1..][i]) != f {
          assert ss[1..][i] == ss[i + 1];
        }
      }
      RenderFrame(Apply(b, ss[0]), ss[1..], f);
    }
  }

  // ---------------------------------------------------------------- the plan

  /** createErrorNotif: title "ERROR" and a fixed text on top of what the builder already has. */
  function CreateErrorNotif(before: seq<Setting>): (r: Notif)
    ensures !r.insistent
    ensures |r.settings| >= |before| && r.settings[..|before|] == before
    ensures Render(r.settings) == Render(before).(title := Some(ErrorTitle), text := Some(ErrorText))
  {
    var ss := before + [ContentTitle(Some(ErrorTitle)), ContentText(Some(ErrorText))];
    RenderAppend(Fresh, before, [ContentTitle(Some(ErrorTitle)), ContentText(Some(ErrorText))]);
    RenderTwo(Render(before), ContentTitle(Some(ErrorTitle)), ContentText(Some(ErrorText)));
    Notif(ss, false)
  }

  /** The large icon: the launcher icon when anything up to `decodeStream` throws (a missing or
      non-primitive `avatarUrl`, a bad URL, a failed connection); otherwise whatever
      `decodeStream` returned, which is null for a stream that is not an image. */
  function AvatarSource(obj: JsonMembers, host: Host): IconSource {
    if PrimitiveMember(obj, "avatarUrl").None? || !host.avatarFetched then LauncherIcon
    else if host.avatarDecodes then AvatarBitmap
    else NullBitmap
  }

  /** The Answer and Deny actions, for type "offer" only. */
  function OfferActions(notifType: string): seq<Setting> {
    if notifType == "offer" then [AddAction(AnswerAction), AddAction(DenyAction)] else []
  }

  function ContentSettings(id: Int32, a: Attributes): seq<Setting> {
    [ContentTitle(a.subject), ContentText(a.message), SmallIcon,
     AutoCancel(a.autoClear), SetContentIntent(ContentIntent(id, a.action, a.payload))]
  }

  function PrioritySettings(a: Attributes): seq<Setting> {
    if a.priority.Some? then [Priority(a.priority.value)] else []
  }

  /** The defaults bitmask: one bit per field equal to "default". */
  function DefaultsMask(a: Attributes): (m: bv32)
    ensures m & DefaultSound != 0 <==> EqualsLiteral("default", a.sound)
    ensures m & DefaultVibrate != 0 <==> EqualsLiteral("default", a.vibrate)
    ensures m & DefaultLights != 0 <==> EqualsLiteral("default", a.lights)
    ensures m & !(DefaultSound | DefaultVibrate | DefaultLights) == 0
  {
    var m0: bv32 := 0;
    var m1 := if EqualsLiteral("default", a.sound) then m0 | DefaultSound else m0;
    var m2 := if EqualsLiteral("default", a.vibrate) then m1 | DefaultVibrate else m1;
    if EqualsLiteral("default", a.lights) then m2 | DefaultLights else m2
  }

  /** With the inbox style no defaults are set; the InboxStyle object itself is never attached. */
  function DefaultsSettings(a: Attributes): seq<Setting> {
    if a.inboxStyle then [] else [Defaults(DefaultsMask(a))]
  }

  function AlertSettings(a: Attributes): seq<Setting> {
    (if a.onlyAlertOnce.Some? then [OnlyAlertOnce(a.onlyAlertOnce.value)] else [])
    + (if a.tickerText.Some? then [Ticker(a.tickerText.value)] else [])
    + (if a.when.Some? then [When(a.when.value), ShowWhen(true)] else [])
  }

  /** bigText wins over the big picture; an undecodable picture sets no style. */
  function StyleSettings(a: Attributes, bigPictureDecodes: bool): seq<Setting> {
    if a.bigText.Some? then [SetStyle(BigTextStyle(a.bigText.value))]
    else if a.bigStyleImageBase64.Some? && bigPictureDecodes then [SetStyle(BigPictureStyle)]
    else []
  }

  function DecorationSettings(a: Attributes): seq<Setting> {
    (if a.color.Some? then [Color(a.color.value)] else [])
    + (if a.subText.Some? then [SubText(a.subText.value)] else [])
  }

  /** The progress bar, with out-of-range progress shown as an indeterminate bar. */
  function ProgressSettings(a: Attributes): seq<Setting> {
    match a.progress
    case None => []
    case Some(p) =>
      if p < 0 || p > 1000 then [Progress(ProgressBar(ProgressMax, 100, true))]
      else [Progress(ProgressBar(ProgressMax, p, false))]
  }

  function TailSettings(a: Attributes): seq<Setting> {
    (if a.number.Some? then [Number(a.number.value)] else [])
    + (if a.localOnly.Some? then [LocalOnly(a.localOnly.value)] else [])
    + (if a.sound.Some? then [Sound(a.sound.value)] else [])
  }

  /** The calls `build` makes once the payload parsed and has a type, in source order,
      grouped by the attribute (or attribute group) that drives them. */
  function PlanSegments(id: Int32, a: Attributes, avatar: IconSource, notifType: string, bigPictureDecodes: bool)
    : seq<seq<Setting>>
  {
    [[SmallIcon, LargeIcon(avatar)], OfferActions(notifType), ContentSettings(id, a),
     PrioritySettings(a), DefaultsSettings(a), AlertSettings(a), StyleSettings(a, bigPictureDecodes),
     DecorationSettings(a), ProgressSettings(a), TailSettings(a)]
  }

  /** The segments one after the other. */
  function Flatten(segs: seq<seq<Setting>>): seq<Setting>
    decreases |segs|
  {
    if |segs| == 0 then [] else Flatten(segs[..|segs| - 1]) + segs[|segs| - 1]
  }

  /** build */
  function Build(id: Int32, a: Attributes, host: Host): (r: Notif)
    ensures r.insistent <==>
              && ParsePayload(a.payload, host.parse).Some?
              && PrimitiveMember(ParsePayload(a.payload, host.parse).value, "type") == Some("offer")
  {
    match ParsePayload(a.payload, host.parse)
    case None => CreateErrorNotif([SmallIcon])
    case Some(obj) =>
      var avatar := AvatarSource(obj, host);
      match PrimitiveMember(obj, "type")
      case None => CreateErrorNotif([SmallIcon, LargeIcon(avatar)])
      case Some(t) => Notif(Flatten(PlanSegments(id, a, avatar, t, host.bigPictureDecodes)), t == "offer")
  }
}
