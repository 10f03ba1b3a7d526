/**
 * phone phone/NotificationListener.kt: the earlier selection (enabled
 * packages only) and change detection against the record kept on the phone.
 */
module LegacyNotificationListener {
  import opened Wrappers
  import opened Platform
  import opened LegacyNotificationDataStore

  /** The earlier selection: the first notification in ranking order whose package is enabled. */
  function Select(active: seq<StatusBarNotification>, enabled: set<string>): (selected: Option<StatusBarNotification>)
    ensures selected.Some? ==> selected.value in active && selected.value.packageName in enabled
  {
    FirstOrNull(active, (sbn: StatusBarNotification) => sbn.packageName in enabled)
  }

  /** The selection is the first enabled notification, and null only when there is none; nothing else filters. */
  lemma SelectionIsFirstEnabled(active: seq<StatusBarNotification>, enabled: set<string>)
    ensures Select(active, enabled).None? <==> forall i :: 0 <= i < |active| ==> active[i].packageName !in enabled
    ensures forall i ::
      (0 <= i < |active| && active[i].packageName in enabled &&
       (forall j :: 0 <= j < i ==> active[j].packageName !in enabled)) ==>
      Select(active, enabled) == Some(active[i])
  {
    var p := (sbn: StatusBarNotification) => sbn.packageName in enabled;
    forall i |
      0 <= i < |active| && active[i].packageName in enabled &&
      (forall j :: 0 <= j < i ==> active[j].packageName !in enabled)
      ensures Select(active, enabled) == Some(active[i])
    {
      assert p(active[i]);
    }
  }

  /** What one earlier `doUpdateInner` pass does with the store. */
  datatype Decision = Unchanged | Store(info: Option<NotificationInfo>)

  /** Store the extracted selection (or null) exactly when the stored record does not match it; there is no force. */
  function PlanUpdate(current: Option<NotificationInfo>, selected: Option<StatusBarNotification>, g: Graphics): Result<Decision, Failure> {
    if MatchesStatusBarNotification(current, selected) then Ok(Unchanged)
    else if selected.None? then Ok(Store(None))
    else match Extract(selected.value, g)
      case Err(e) => Err(e)
      case Ok(info) => Ok(Store(Some(info)))
  }

  /** The earlier `doUpdateInner`. */
  method DoUpdateInner(store: CurrentNotificationDataStore, active: seq<StatusBarNotification>, enabled: set<string>,
                       codec: InfoCodec, g: Graphics) returns (r: Result<(), Failure>)
    modifies store
    ensures var current := old(store.CurrentNotification(codec));
      && (current.Err? ==> r == Err(current.error) && store.file == old(store.file))
      && (current.Ok? ==>
            var plan := PlanUpdate(current.value, Select(active, enabled), g);
            && (plan.Err? ==> r == Err(plan.error) && store.file == old(store.file))
            && (plan == Ok(Unchanged) ==> r == Ok(()) && store.file == old(store.file))
            && (plan.Ok? && plan.value.Store? ==> r == Ok(()) && store.file == Written(plan.value.info, codec)))
  {
    var firstStatusBarNotification := Select(active, enabled);
    var currentNotification := store.CurrentNotification(codec);
    if currentNotification.Err? {
      return Err(currentNotification.error);
    }
    if !MatchesStatusBarNotification(currentNotification.value, firstStatusBarNotification) {
      var info: Option<NotificationInfo> := None;
      if firstStatusBarNotification.Some? {
        var extracted := ToNotificationInfo(firstStatusBarNotification.value, g);
        if extracted.Err? {
          return Err(extracted.error);
        }
        info := Some(extracted.value);
      }
      store.SetNotification(info, codec);
    }
    r := Ok(());
  }

  /** Whenever extraction succeeds, a write happens exactly when the stored record does not match the selection. */
  lemma WriteIffMismatch(current: Option<NotificationInfo>, selected: Option<StatusBarNotification>, g: Graphics)
    requires selected.Some? ==> Extract(selected.value, g).Ok?
    ensures PlanUpdate(current, selected, g).Ok?
    ensures PlanUpdate(current, selected, g).value.Store? <==> !MatchesStatusBarNotification(current, selected)
    ensures PlanUpdate(current, selected, g).value.Store? ==>
      PlanUpdate(current, selected, g).value.info == if selected.None? then None else Some(Extract(selected.value, g).value)
  {
  }

  /**
   * Without a force path, once the selection is stored, the same selection
   * never causes another write.
   */
  lemma StoredSelectionIsNotRewritten(current: Option<NotificationInfo>, selected: Option<StatusBarNotification>, g: Graphics)
    requires PlanUpdate(current, selected, g).Ok? && PlanUpdate(current, selected, g).value.Store?
    ensures PlanUpdate(PlanUpdate(current, selected, g).value.info, selected, g) == Ok(Unchanged)
  {
    if selected.Some? {
      ExtractKeepsIdentity(selected.value, g);
    }
  }
}
