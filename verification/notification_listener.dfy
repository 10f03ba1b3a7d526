/**
 * phone NotificationListener.kt: which active notification the watch shows,
 * and when that choice is published over the Wearable data layer.
 */
module NotificationListener {
  import opened Wrappers
  import opened Platform
  import opened Bits
  import opened Common

  /** The extras key holding the notification's style class name. */
  const TEMPLATE_KEY := "android.template"
  const INBOX_STYLE := "android.app.Notification$InboxStyle"
  /** The literal the summary exemption compares against. */
  const MESSAGE_STYLE := "android.app.Notification$MessageStyle"
  const MEDIA_STYLE := "android.app.Notification$MediaStyle"
  /** The class name the platform records for a messaging notification. */
  const MESSAGING_STYLE := "android.app.Notification$MessagingStyle"

  const FLAG_NO_CLEAR: Int32 := 0x20
  const FLAG_GROUP_SUMMARY: Int32 := 0x200

  const MEDIA_SESSION_KEY := "android.mediaSession"
  const STATE_PLAYING := 3

  // ----- Flag tests -----

  /** `Int.isSet(mask)`: `this and mask != 0`, over the 32-bit patterns. */
  predicate IsSet(flags: Int32, mask: Int32) {
    AndBits(Unsigned(flags), Unsigned(mask), 32) != 0
  }

  /** `Int.isNotSet(mask)`. */
  predicate IsNotSet(flags: Int32, mask: Int32) {
    !IsSet(flags, mask)
  }

  /** `isSet` holds exactly when flags and mask share a set bit; `isNotSet` is its negation. */
  lemma IsSetIffSharedBit(flags: Int32, mask: Int32)
    ensures IsSet(flags, mask) <==> exists i :: 0 <= i < 32 && Bit(Unsigned(flags), i) && Bit(Unsigned(mask), i)
    ensures IsNotSet(flags, mask) <==> !exists i :: 0 <= i < 32 && Bit(Unsigned(flags), i) && Bit(Unsigned(mask), i)
  {
    AndBitsNonZero(Unsigned(flags), Unsigned(mask), 32);
  }

  /** Against a single-bit mask 2^k, `isSet` tests bit k. */
  lemma IsSetSingleFlag(flags: Int32, mask: Int32, k: nat)
    requires k < 32 && Unsigned(mask) == Pow2(k)
    ensures IsSet(flags, mask) <==> Bit(Unsigned(flags), k)
  {
    IsSetIffSharedBit(flags, mask);
    if IsSet(flags, mask) {
      var i :| 0 <= i < 32 && Bit(Unsigned(flags), i) && Bit(Unsigned(mask), i);
      BitOfPow2(k, i);
    }
    if Bit(Unsigned(flags), k) {
      BitOfPow2(k, k);
      SharedBit(Unsigned(flags), Unsigned(mask), 32, k);
    }
  }

  /** FLAG_NO_CLEAR is bit 5 and FLAG_GROUP_SUMMARY is bit 9. */
  lemma FlagBits(flags: Int32)
    ensures IsSet(flags, FLAG_NO_CLEAR) <==> Bit(Unsigned(flags), 5)
    ensures IsSet(flags, FLAG_GROUP_SUMMARY) <==> Bit(Unsigned(flags), 9)
  {
    assert Pow2(5) == 0x20;
    assert Pow2(9) == 0x200;
    IsSetSingleFlag(flags, FLAG_NO_CLEAR, 5);
    IsSetSingleFlag(flags, FLAG_GROUP_SUMMARY, 9);
  }

  // ----- Selection -----

  /** `extras.getString("android.template")`. */
  function Template(sbn: StatusBarNotification): Option<string> {
    GetString(sbn.notification.extras, TEMPLATE_KEY)
  }

  /**
   * `isMediaSessionPlaying`: the media-session token is present and its
   * controller reports STATE_PLAYING. `playbackState` stands for
   * `MediaController(token).playbackState?.state`.
   */
  predicate IsMediaSessionPlaying(sbn: StatusBarNotification, playbackState: nat -> Option<int>) {
    var token := GetToken(sbn.notification.extras, MEDIA_SESSION_KEY);
    token.Some? && playbackState(token.value) == Some(STATE_PLAYING)
  }

  /** The `firstOrNull` filter of `doUpdateInner`. */
  predicate Eligible(sbn: StatusBarNotification, enabled: set<string>, playbackState: nat -> Option<int>) {
    var flags := sbn.notification.flags;
    var template := Template(sbn);
    && sbn.packageName in enabled
    && template != Some(INBOX_STYLE)
    && (IsNotSet(flags, FLAG_GROUP_SUMMARY) || template == Some(MESSAGE_STYLE))
    && (IsNotSet(flags, FLAG_NO_CLEAR) || template == Some(MEDIA_STYLE))
    && (template != Some(MEDIA_STYLE) || IsMediaSessionPlaying(sbn, playbackState))
  }

  /** The selection: the first eligible notification in ranking order, or null. */
  function Select(active: seq<StatusBarNotification>, enabled: set<string>, playbackState: nat -> Option<int>)
    : (selected: Option<StatusBarNotification>)
    ensures selected.Some? ==> selected.value in active && Eligible(selected.value, enabled, playbackState)
  {
    FirstOrNull(active, sbn => Eligible(sbn, enabled, playbackState))
  }

  /** Nothing is selected exactly when no active notification is eligible; a selection is the first eligible one. */
  lemma SelectionIsFirstEligible(active: seq<StatusBarNotification>, enabled: set<string>, playbackState: nat -> Option<int>)
    ensures Select(active, enabled, playbackState).None? <==>
      forall i :: 0 <= i < |active| ==> !Eligible(active[i], enabled, playbackState)
    ensures forall i ::
      (0 <= i < |active| && Eligible(active[i], enabled, playbackState) &&
       (forall j :: 0 <= j < i ==> !Eligible(active[j], enabled, playbackState))) ==>
      Select(active, enabled, playbackState) == Some(active[i])
  {
    var p := sbn => Eligible(sbn, enabled, playbackState);
    var r := FirstOrNull(active, p);
    forall i | 0 <= i < |active| && Eligible(active[i], enabled, playbackState) &&
        (forall j :: 0 <= j < i ==> !Eligible(active[j], enabled, playbackState))
      ensures r == Some(active[i])
    {
      assert p(active[i]);
    }
  }

  /**
   * Every rule of the filter holds of the selection: its package is enabled,
   * it is not inbox style, a group summary only with the MessageStyle
   * literal, a no-clear notification only with MediaStyle, and media only
   * while playing.
   */
  lemma SelectionObeysFilter(active: seq<StatusBarNotification>, enabled: set<string>, playbackState: nat -> Option<int>)
    requires Select(active, enabled, playbackState).Some?
    ensures var s := Select(active, enabled, playbackState).value;
      var flags := s.notification.flags;
      && s in active
      && s.packageName in enabled
      && Template(s) != Some(INBOX_STYLE)
      && (Bit(Unsigned(flags), 9) ==> Template(s) == Some(MESSAGE_STYLE))
      && (Bit(Unsigned(flags), 5) ==> Template(s) == Some(MEDIA_STYLE))
      && (Template(s) == Some(MEDIA_STYLE) ==>
            GetToken(s.notification.extras, MEDIA_SESSION_KEY).Some? &&
            playbackState(GetToken(s.notification.extras, MEDIA_SESSION_KEY).value) == Some(STATE_PLAYING))
  {
    var s := Select(active, enabled, playbackState).value;
    FlagBits(s.notification.flags);
  }

  /**
   * A group summary whose template is the platform's MessagingStyle class is
   * never selected: the exemption compares against "MessageStyle".
   */
  lemma MessagingSummaryNeverSelected(active: seq<StatusBarNotification>, enabled: set<string>, playbackState: nat -> Option<int>, sbn: StatusBarNotification)
    requires Template(sbn) == Some(MESSAGING_STYLE) && Bit(Unsigned(sbn.notification.flags), 9)
    ensures !Eligible(sbn, enabled, playbackState)
    ensures Select(active, enabled, playbackState) != Some(sbn)
  {
    FlagBits(sbn.notification.flags);
    if Select(active, enabled, playbackState) == Some(sbn) {
      SelectionObeysFilter(active, enabled, playbackState);
    }
  }

  /** A paused or stopped media notification is skipped even when its flags are clear. */
  lemma MediaNotPlayingNeverSelected(sbn: StatusBarNotification, enabled: set<string>, playbackState: nat -> Option<int>)
    requires Template(sbn) == Some(MEDIA_STYLE)
    ensures Eligible(sbn, enabled, playbackState) ==> IsMediaSessionPlaying(sbn, playbackState)
    ensures (sbn.packageName in enabled && IsNotSet(sbn.notification.flags, FLAG_GROUP_SUMMARY) &&
             IsMediaSessionPlaying(sbn, playbackState)) ==> Eligible(sbn, enabled, playbackState)
  {
  }

  // ----- Publishing -----

  /** A data item: its path, its payload and whether it was put as urgent. */
  datatype DataItem = DataItem(path: string, data: Bytes, urgent: bool)

  /** The Wearable data layer as this app sees it: one data item, or none. */
  class DataLayer {
    var item: Option<DataItem>

    constructor ()
      ensures item == None
    {
      item := None;
    }

    /** `dataItems.firstOrNull()?.data`. */
    function FirstData(): Option<Bytes>
      reads this
    {
      if item.Some? then Some(item.value.data) else None
    }

    /**
     * `dataItems.await()` followed by `firstOrNull()?.data`; `available` says
     * whether Play services answered, and a failed call surfaces as an ApiException.
     */
    method ReadFirstData(available: bool) returns (r: Result<Option<Bytes>, Failure>)
      ensures available ==> r == Ok(FirstData())
      ensures !available ==> r == Err(ApiException)
    {
      if available {
        r := Ok(FirstData());
      } else {
        r := Err(ApiException);
      }
    }

    /** `putDataItem(request).await()`; `succeeds` says whether Play services accepted it. */
    method PutDataItem(request: DataItem, succeeds: bool) returns (r: Result<(), Failure>)
      modifies this
      ensures succeeds ==> item == Some(request) && r == Ok(())
      ensures !succeeds ==> item == old(item) && r == Err(ApiException)
    {
      if succeeds {
        item := Some(request);
        r := Ok(());
      } else {
        r := Err(ApiException);
      }
    }
  }

  /** What one pass of `doUpdateInner` decides to do with the data layer. */
  datatype Decision = Unchanged | Publish(data: Bytes)

  /**
   * The publish decision for the stored payload `current` and the selection:
   * decode the stored record (a decode failure escapes), and publish the
   * encoded selection when its identity differs or the update is forced.
   */
  function PlanUpdate(current: Option<Bytes>, selected: Option<StatusBarNotification>, forceUpdate: bool,
                      codec: InfoCodec, g: Graphics): Result<Decision, Failure>
  {
    match FromBytes(current, codec)
    case Err(e) => Err(e)
    case Ok(info) =>
      if MatchesStatusBarNotification(info, selected) && !forceUpdate then Ok(Unchanged)
      else if selected.None? then Ok(Publish(ToBytes(None, codec)))
      else match Extract(selected.value, g)
        case Err(e) => Err(e)
        case Ok(r) => Ok(Publish(ToBytes(Some(r), codec)))
  }

  /**
   * `doUpdateInner`: select, read the current item, and put the new payload
   * at DATA_LAYER_PATH, urgent, when the plan says so. A failed read, decode
   * or extraction escapes; a failed put is swallowed.
   */
  method DoUpdateInner(layer: DataLayer, active: seq<StatusBarNotification>, enabled: set<string>,
                       playbackState: nat -> Option<int>, forceUpdate: bool, readSucceeds: bool, putSucceeds: bool,
                       codec: InfoCodec, g: Graphics) returns (r: Result<(), Failure>)
    modifies layer
    ensures !readSucceeds ==> r == Err(ApiException) && layer.item == old(layer.item)
    ensures readSucceeds ==>
      var plan := PlanUpdate(old(layer.FirstData()), Select(active, enabled, playbackState), forceUpdate, codec, g);
      && (plan.Err? ==> r == Err(plan.error) && layer.item == old(layer.item))
      && (plan.Ok? ==> r == Ok(()))
      && (plan == Ok(Unchanged) ==> layer.item == old(layer.item))
      && (plan.Ok? && plan.value.Publish? ==>
            layer.item == if putSucceeds then Some(DataItem(DATA_LAYER_PATH, plan.value.data, true)) else old(layer.item))
  {
    var selected := Select(active, enabled, playbackState);
    var currentData := layer.ReadFirstData(readSucceeds);
    if currentData.Err? {
      return Err(currentData.error);
    }
    var currentNotification := FromBytes(currentData.value, codec);
    if currentNotification.Err? {
      return Err(currentNotification.error);
    }
    if !MatchesStatusBarNotification(currentNotification.value, selected) || forceUpdate {
      var notificationInfo: Option<NotificationInfo> := None;
      if selected.Some? {
        var extracted := ToNotificationInfo(selected.value, g);
        if extracted.Err? {
          return Err(extracted.error);
        }
        notificationInfo := Some(extracted.value);
      }
      var bytes := ToBytes(notificationInfo, codec);
      var put := layer.PutDataItem(DataItem(DATA_LAYER_PATH, bytes, true), putSucceeds);
    }
    r := Ok(());
  }

  /**
   * Whenever the stored payload decodes and the selection extracts, a
   * publish happens exactly when the identity differs or the update is forced.
   */
  lemma PublishIffChangedOrForced(current: Option<Bytes>, selected: Option<StatusBarNotification>, forceUpdate: bool,
                                  codec: InfoCodec, g: Graphics)
    requires FromBytes(current, codec).Ok?
    requires selected.Some? ==> Extract(selected.value, g).Ok?
    ensures PlanUpdate(current, selected, forceUpdate, codec, g).Ok?
    ensures PlanUpdate(current, selected, forceUpdate, codec, g).value.Publish? <==>
      !MatchesStatusBarNotification(FromBytes(current, codec).value, selected) || forceUpdate
  {
  }

  /**
   * A published payload decodes to the record extracted from the selection,
   * and is empty exactly when nothing is selected.
   */
  lemma PublishedPayloadDecodesToSelection(current: Option<Bytes>, selected: Option<StatusBarNotification>,
                                           forceUpdate: bool, codec: InfoCodec, g: Graphics)
    requires Lawful(codec)
    requires PlanUpdate(current, selected, forceUpdate, codec, g).Ok?
    requires PlanUpdate(current, selected, forceUpdate, codec, g).value.Publish?
    ensures var data := PlanUpdate(current, selected, forceUpdate, codec, g).value.data;
      && (data == [] <==> selected.None?)
      && FromBytes(Some(data), codec) == Ok(if selected.None? then None else Some(Extract(selected.value, g).value))
  {
    var info := if selected.None? then None else Some(Extract(selected.value, g).value);
    RoundTrip(info, codec);
  }

  /**
   * Once a payload is published, running again over the same selection
   * without force leaves the data layer alone.
   */
  lemma RepeatWithoutForceIsNoOp(current: Option<Bytes>, selected: Option<StatusBarNotification>,
                                 forceUpdate: bool, codec: InfoCodec, g: Graphics)
    requires Lawful(codec)
    requires PlanUpdate(current, selected, forceUpdate, codec, g).Ok?
    requires PlanUpdate(current, selected, forceUpdate, codec, g).value.Publish?
    ensures PlanUpdate(Some(PlanUpdate(current, selected, forceUpdate, codec, g).value.data), selected, false, codec, g) == Ok(Unchanged)
  {
    PublishedPayloadDecodesToSelection(current, selected, forceUpdate, codec, g);
    if selected.Some? {
      ExtractKeepsIdentity(selected.value, g);
    }
  }

  /** A forced update publishes even when the stored record already matches the selection. */
  lemma ForcedUpdatePublishes(current: Option<Bytes>, selected: Option<StatusBarNotification>, codec: InfoCodec, g: Graphics)
    requires FromBytes(current, codec).Ok?
    requires selected.Some? ==> Extract(selected.value, g).Ok?
    ensures PlanUpdate(current, selected, true, codec, g).Ok?
    ensures PlanUpdate(current, selected, true, codec, g).value.Publish?
  {
  }

  /**
   * The same key posted again with a new post time is a new occurrence, and
   * is published.
   */
  lemma RepostIsPublished(current: Bytes, prev: NotificationInfo, sbn: StatusBarNotification, codec: InfoCodec, g: Graphics)
    requires current != [] && codec.decode(current) == Ok(prev)
    requires prev.key == sbn.key && prev.postTime != sbn.postTime
    ensures PlanUpdate(Some(current), Some(sbn), false, codec, g).Ok? <==> Extract(sbn, g).Ok?
    ensures Extract(sbn, g).Ok? ==>
      PlanUpdate(Some(current), Some(sbn), false, codec, g) == Ok(Publish(ToBytes(Some(Extract(sbn, g).value), codec)))
  {
  }
}
