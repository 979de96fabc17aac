/**
 What `build` promises about the notification it builds, stated on the
 builder's final state (`Render`) rather than on the list of calls.
 */
module BuildProperties {
  import opened JavaTypes
  import opened Attributes
  import opened Builder

  /** Concatenations of untouched call lists are untouched. */
  lemma UntouchedAppend(xs: seq<Setting>, ys: seq<Setting>, f: Field)
    requires Untouched(xs, f) && Untouched(ys, f)
    ensures Untouched(xs + ys, f)
  {
    forall i | 0 <= i < |xs + ys| ensures Writes((xs + ys)[i]) != f {
      if i < |xs| {
        assert (xs + ys)[i] == xs[i];
      } else {
        assert (xs + ys)[i] == ys[i - |xs|];
      }
    }
  }

  /** Segments that each leave a field alone flatten to calls that leave it alone. */
  lemma {:induction false} FlattenUntouched(segs: seq<seq<Setting>>, f: Field)
    requires forall j :: 0 <= j < |segs| ==> Untouched(segs[j], f)
    ensures Untouched(Flatten(segs), f)
    decreases |segs|
  {
    if |segs| > 0 {
      var init := segs[..|segs| - 1];
      assert forall j :: 0 <= j < |init| ==> init[j] == segs[j];
      FlattenUntouched(init, f);
      UntouchedAppend(Flatten(init), segs[|segs| - 1], f);
    }
  }

  /** When only segment `k` writes field `f`, the field's final value is what segment `k`
      makes of a builder in which `f` still has its initial value. */
  lemma {:induction false} OnlyWriter(b: BuilderState, segs: seq<seq<Setting>>, k: nat, f: Field)
    requires k < |segs|
    requires forall j :: 0 <= j < |segs| && j != k ==> Untouched(segs[j], f)
    ensures SameField(b, RenderFrom(b, Flatten(segs[..k])), f)
    ensures SameField(RenderFrom(RenderFrom(b, Flatten(segs[..k])), segs[k]), RenderFrom(b, Flatten(segs)), f)
    decreases |segs|
  {
    var last := |segs| - 1;
    var init := segs[..last];
    assert forall j :: 0 <= j < |init| ==> init[j] == segs[j];
    RenderAppend(b, Flatten(init), segs[last]);
    if k == last {
      FlattenUntouched(init, f);
      RenderFrame(b, Flatten(init), f);
    } else {
      assert init[..k] == segs[..k];
      OnlyWriter(b, init, k, f);
      RenderFrame(RenderFrom(b, Flatten(init)), segs[last], f);
    }
  }

  /** The segments of a payload that parsed and has type `t`. */
  function HappySegments(id: Int32, a: Attributes, host: Host, obj: JsonMembers, t: string): seq<seq<Setting>> {
    PlanSegments(id, a, AvatarSource(obj, host), t, host.bigPictureDecodes)
  }

  /** The segment of the plan that writes each field the properties below are about. */
  function Owner(f: Field): nat
    requires f != OtherF
  {
    match f
    case ActionsF => 1
    case TitleF => 2
    case TextF => 2
    case DefaultsF => 4
    case StyleF => 6
    case ProgressF => 8
  }

  /** Three call lists that each leave `f` alone still leave it alone when concatenated. */
  lemma UntouchedThree(x: seq<Setting>, y: seq<Setting>, z: seq<Setting>, f: Field)
    requires Untouched(x, f) && Untouched(y, f) && Untouched(z, f)
    ensures Untouched(x + y + z, f)
  {
    UntouchedAppend(x, y, f);
    UntouchedAppend(x + y, z, f);
  }

  lemma AlertUntouched(a: Attributes, f: Field)
    requires f != OtherF
    ensures Untouched(AlertSettings(a), f)
  {
    UntouchedThree(if a.onlyAlertOnce.Some? then [OnlyAlertOnce(a.onlyAlertOnce.value)] else [],
                   if a.tickerText.Some? then [Ticker(a.tickerText.value)] else [],
                   if a.when.Some? then [When(a.when.value), ShowWhen(true)] else [], f);
  }

  lemma DecorationUntouched(a: Attributes, f: Field)
    requires f != OtherF
    ensures Untouched(DecorationSettings(a), f)
  {
    UntouchedAppend(if a.color.Some? then [Color(a.color.value)] else [],
                    if a.subText.Some? then [SubText(a.subText.value)] else [], f);
  }

  lemma TailUntouched(a: Attributes, f: Field)
    requires f != OtherF
    ensures Untouched(TailSettings(a), f)
  {
    UntouchedThree(if a.number.Some? then [Number(a.number.value)] else [],
                   if a.localOnly.Some? then [LocalOnly(a.localOnly.value)] else [],
                   if a.sound.Some? then [Sound(a.sound.value)] else [], f);
  }

  /** No segment but the owner writes a field. */
  lemma PlanOwnership(id: Int32, a: Attributes, avatar: IconSource, t: string, d: bool, f: Field)
    requires f != OtherF
    ensures forall j :: 0 <= j < 10 && j != Owner(f) ==> Untouched(PlanSegments(id, a, avatar, t, d)[j], f)
  {
    var segs := PlanSegments(id, a, avatar, t, d);
    assert Untouched(segs[0], f);
    if f != ActionsF { assert Untouched(segs[1], f); }
    if f != TitleF && f != TextF { assert Untouched(segs[2], f); }
    assert Untouched(segs[3], f);
    if f != DefaultsF { assert Untouched(segs[4], f); }
    AlertUntouched(a, f);
    if f != StyleF { assert Untouched(segs[6], f); }
    DecorationUntouched(a, f);
    if f != ProgressF { assert Untouched(segs[8], f); }
    TailUntouched(a, f);
  }

  // ---------------------------------------------------------------- error notifications

  /** A payload that does not parse (or is null) yields the error notification: only the
      small icon, the title "ERROR" and the error text are set. */
  lemma UnparsedPayloadIsError(id: Int32, a: Attributes, host: Host)
    requires ParsePayload(a.payload, host.parse).None?
    ensures Render(Build(id, a, host).settings)
              == Fresh.(smallIcon := true, title := Some(ErrorTitle), text := Some(ErrorText))
    ensures !Build(id, a, host).insistent
  {
  }

  /** A payload without a primitive `type` yields the error notification: the icons are set,
      then the error title and text, and none of the attribute-driven setters runs. */
  lemma MissingTypeIsError(id: Int32, a: Attributes, host: Host, obj: JsonMembers)
    requires ParsePayload(a.payload, host.parse) == Some(obj)
    requires PrimitiveMember(obj, "type").None?
    ensures Render(Build(id, a, host).settings)
              == Fresh.(smallIcon := true, largeIcon := Some(AvatarSource(obj, host)),
                        title := Some(ErrorTitle), text := Some(ErrorText))
    ensures !Build(id, a, host).insistent
  {
    RenderTwo(Fresh, SmallIcon, LargeIcon(AvatarSource(obj, host)));
  }

  // ---------------------------------------------------------------- the happy path

  /** Type "offer" adds exactly the Answer and Deny actions and sets FLAG_INSISTENT;
      any other type adds no action and no flag. */
  lemma OfferAddsActionsAndInsistence(id: Int32, a: Attributes, host: Host, obj: JsonMembers, t: string)
    requires ParsePayload(a.payload, host.parse) == Some(obj)
    requires PrimitiveMember(obj, "type") == Some(t)
    ensures Build(id, a, host).insistent <==> t == "offer"
    ensures Render(Build(id, a, host).settings).actions ==
              (if t == "offer" then [AnswerAction, DenyAction] else [])
  {
    var segs := HappySegments(id, a, host, obj, t);
    PlanOwnership(id, a, AvatarSource(obj, host), t, host.bigPictureDecodes, ActionsF);
    OnlyWriter(Fresh, segs, 1, ActionsF);
    var b := Render(Flatten(segs[..1]));
    if t == "offer" {
      RenderTwo(b, AddAction(AnswerAction), AddAction(DenyAction));
    }
  }

  /** The content segment sets the subject as title and the message as text. */
  lemma ContentSegment(b: BuilderState, id: Int32, a: Attributes)
    ensures RenderFrom(b, ContentSettings(id, a)).title == a.subject
    ensures RenderFrom(b, ContentSettings(id, a)).text == a.message
  {
    var head := [ContentTitle(a.subject), ContentText(a.message)];
    var rest := [SmallIcon, AutoCancel(a.autoClear), SetContentIntent(ContentIntent(id, a.action, a.payload))];
    assert ContentSettings(id, a) == head + rest;
    RenderAppend(b, head, rest);
    RenderTwo(b, ContentTitle(a.subject), ContentText(a.message));
    RenderFrame(RenderFrom(b, head), rest, TitleF);
    RenderFrame(RenderFrom(b, head), rest, TextF);
  }

  /** The content title and text are the attributes' subject and message. */
  lemma ContentFromAttributes(id: Int32, a: Attributes, host: Host, obj: JsonMembers, t: string)
    requires ParsePayload(a.payload, host.parse) == Some(obj)
    requires PrimitiveMember(obj, "type") == Some(t)
    ensures Render(Build(id, a, host).settings).title == a.subject
    ensures Render(Build(id, a, host).settings).text == a.message
  {
    var segs := HappySegments(id, a, host, obj, t);
    PlanOwnership(id, a, AvatarSource(obj, host), t, host.bigPictureDecodes, TitleF);
    PlanOwnership(id, a, AvatarSource(obj, host), t, host.bigPictureDecodes, TextF);
    OnlyWriter(Fresh, segs, 2, TitleF);
    OnlyWriter(Fresh, segs, 2, TextF);
    ContentSegment(Render(Flatten(segs[..2])), id, a);
  }

  /** With the inbox style no defaults call is made at all; otherwise the defaults
      mask is set, with each alert bit set exactly when its field is "default". */
  lemma DefaultsUnlessInbox(id: Int32, a: Attributes, host: Host, obj: JsonMembers, t: string)
    requires ParsePayload(a.payload, host.parse) == Some(obj)
    requires PrimitiveMember(obj, "type") == Some(t)
    ensures a.inboxStyle ==> Untouched(Build(id, a, host).settings, DefaultsF)
    ensures Render(Build(id, a, host).settings).defaults ==
              (if a.inboxStyle then None else Some(DefaultsMask(a)))
  {
    var segs := HappySegments(id, a, host, obj, t);
    PlanOwnership(id, a, AvatarSource(obj, host), t, host.bigPictureDecodes, DefaultsF);
    OnlyWriter(Fresh, segs, 4, DefaultsF);
    if a.inboxStyle {
      FlattenUntouched(segs, DefaultsF);
    } else {
      RenderOne(Render(Flatten(segs[..4])), Defaults(DefaultsMask(a)));
    }
  }

  /** bigText takes precedence over the big picture, which needs the image to decode. */
  lemma BigTextBeforeBigPicture(id: Int32, a: Attributes, host: Host, obj: JsonMembers, t: string)
    requires ParsePayload(a.payload, host.parse) == Some(obj)
    requires PrimitiveMember(obj, "type") == Some(t)
    ensures Render(Build(id, a, host).settings).style ==
              (if a.bigText.Some? then Some(BigTextStyle(a.bigText.value))
               else if a.bigStyleImageBase64.Some? && host.bigPictureDecodes then Some(BigPictureStyle)
               else None)
  {
    var segs := HappySegments(id, a, host, obj, t);
    PlanOwnership(id, a, AvatarSource(obj, host), t, host.bigPictureDecodes, StyleF);
    OnlyWriter(Fresh, segs, 6, StyleF);
    if |segs[6]| > 0 {
      RenderOne(Render(Flatten(segs[..6])), segs[6][0]);
    }
  }

  /** A null progress sets no bar; a progress in [0, 1000] is shown as is; any other value
      gives an indeterminate bar of 100 out of 1000. */
  lemma ProgressClamped(id: Int32, a: Attributes, host: Host, obj: JsonMembers, t: string)
    requires ParsePayload(a.payload, host.parse) == Some(obj)
    requires PrimitiveMember(obj, "type") == Some(t)
    ensures a.progress.None? ==> Render(Build(id, a, host).settings).progress.None?
    ensures a.progress.Some? && 0 <= a.progress.value <= 1000 ==>
              Render(Build(id, a, host).settings).progress == Some(ProgressBar(1000, a.progress.value, false))
    ensures a.progress.Some? && (a.progress.value < 0 || a.progress.value > 1000) ==>
              Render(Build(id, a, host).settings).progress == Some(ProgressBar(1000, 100, true))
  {
    var segs := HappySegments(id, a, host, obj, t);
    PlanOwnership(id, a, AvatarSource(obj, host), t, host.bigPictureDecodes, ProgressF);
    OnlyWriter(Fresh, segs, 8, ProgressF);
    if |segs[8]| > 0 {
      RenderOne(Render(Flatten(segs[..8])), segs[8][0]);
    }
  }
}
