/**
 * wear NotificationWearableListenerService.kt: turning data-layer events on
 * the record's path into a new URI reference and a complication refresh.
 */
module NotificationWearableListener {
  import opened Wrappers
  import opened Platform
  import opened Common
  import opened CurrentNotificationUriDataStore

  /** `DataEvent.TYPE_CHANGED` and `DataEvent.TYPE_DELETED`. */
  const TYPE_CHANGED := 1
  const TYPE_DELETED := 2

  /** A data event: the URI of its data item and its type. */
  datatype DataEvent = DataEvent(uri: Uri, eventType: int)

  /**
   * What `onDataChanged` launches, one coroutine per event on
   * DATA_LAYER_PATH, each carrying the URI to store (null for a deletion),
   * and whether the walk ended by throwing. `pathOf` stands for `Uri.path`.
   */
  function Launches(events: seq<DataEvent>, pathOf: Uri -> Option<string>): (launches: (seq<Option<Uri>>, Result<(), Failure>))
    ensures |launches.0| <= |OnPath(events, pathOf)|
    ensures launches.1.Ok? ==> |launches.0| == |OnPath(events, pathOf)|
    ensures launches.1.Err? ==> launches.1.error.AssertionError?
  {
    if events == [] then ([], Ok(()))
    else
      var event := events[0];
      if pathOf(event.uri) != Some(DATA_LAYER_PATH) then Launches(events[1..], pathOf)
      else if event.eventType == TYPE_CHANGED || event.eventType == TYPE_DELETED then
        var rest := Launches(events[1..], pathOf);
        ([if event.eventType == TYPE_CHANGED then Some(event.uri) else None] + rest.0, rest.1)
      else ([], Err(AssertionError("System provided unknown data event type " + DecimalString(event.eventType))))
  }

  /** The events on DATA_LAYER_PATH, in order. */
  function OnPath(events: seq<DataEvent>, pathOf: Uri -> Option<string>): seq<DataEvent> {
    if events == [] then []
    else if pathOf(events[0].uri) == Some(DATA_LAYER_PATH) then [events[0]] + OnPath(events[1..], pathOf)
    else OnPath(events[1..], pathOf)
  }

  /** The reference an event on the path asks to store: its URI when changed, null when deleted. */
  function NewUri(event: DataEvent): Option<Uri> {
    if event.eventType == TYPE_CHANGED then Some(event.uri) else None
  }

  function NewUris(events: seq<DataEvent>): seq<Option<Uri>> {
    if events == [] then [] else [NewUri(events[0])] + NewUris(events[1..])
  }

  /**
   * When every event on the path is a change or a deletion, nothing is
   * thrown and there is exactly one launch per such event, in order: the
   * event's URI for a change, null for a deletion. Events on other paths
   * launch nothing.
   */
  lemma {:induction false} LaunchesOnePerEventOnPath(events: seq<DataEvent>, pathOf: Uri -> Option<string>)
    requires forall i :: 0 <= i < |events| && pathOf(events[i].uri) == Some(DATA_LAYER_PATH) ==>
      events[i].eventType in {TYPE_CHANGED, TYPE_DELETED}
    ensures Launches(events, pathOf) == (NewUris(OnPath(events, pathOf)), Ok(()))
  {
    if events != [] {
      LaunchesOnePerEventOnPath(events[1..], pathOf);
      if pathOf(events[0].uri) == Some(DATA_LAYER_PATH) {
        assert events[0].eventType in {TYPE_CHANGED, TYPE_DELETED};
      }
    }
  }

  /** An unknown event type on the path throws, after launching what the events before it launched. */
  lemma {:induction false} UnknownTypeThrows(events: seq<DataEvent>, pathOf: Uri -> Option<string>, k: nat)
    requires k < |events| && pathOf(events[k].uri) == Some(DATA_LAYER_PATH)
    requires events[k].eventType != TYPE_CHANGED && events[k].eventType != TYPE_DELETED
    ensures Launches(events, pathOf).1.Err? && Launches(events, pathOf).1.error.AssertionError?
    ensures |Launches(events, pathOf).0| <= k
  {
    if k > 0 && !(pathOf(events[0].uri) == Some(DATA_LAYER_PATH) && events[0].eventType !in {TYPE_CHANGED, TYPE_DELETED}) {
      UnknownTypeThrows(events[1..], pathOf, k - 1);
    }
  }

  /** `onDataChanged`: walk the events, skip other paths, and launch one store-and-refresh per event. */
  method OnDataChanged(events: seq<DataEvent>, pathOf: Uri -> Option<string>)
    returns (launched: seq<Option<Uri>>, r: Result<(), Failure>)
    ensures (launched, r) == Launches(events, pathOf)
  {
    launched := [];
    var i := 0;
    assert events[i..] == events;
    assert launched + Launches(events, pathOf).0 == Launches(events, pathOf).0;
    while i < |events|
      invariant 0 <= i <= |events|
      invariant Launches(events, pathOf) == (launched + Launches(events[i..], pathOf).0, Launches(events[i..], pathOf).1)
    {
      assert events[i..][1..] == events[i + 1..];
      var event := events[i];
      var rest := Launches(events[i + 1..], pathOf);
      if pathOf(event.uri) != Some(DATA_LAYER_PATH) {
        i := i + 1;
        continue;
      }
      var newUri: Option<Uri>;
      if event.eventType == TYPE_CHANGED {
        newUri := Some(event.uri);
      } else if event.eventType == TYPE_DELETED {
        newUri := None;
      } else {
        assert Launches(events[i..], pathOf).0 == [];
        assert launched + [] == launched;
        return launched, Err(AssertionError("System provided unknown data event type " + DecimalString(event.eventType)));
      }
      assert Launches(events[i..], pathOf) == ([newUri] + rest.0, rest.1);
      assert launched + ([newUri] + rest.0) == (launched + [newUri]) + rest.0;
      launched := launched + [newUri];
      i := i + 1;
    }
    assert events[i..] == [];
    assert launched + [] == launched;
    r := Ok(());
  }

  /**
   * `ComplicationDataSourceUpdateRequester`: each `requestUpdateAll` makes the
   * complication data source read the stored URI again; `seen` lists what
   * those reads returned, in order.
   */
  class UpdateRequester {
    const store: CurrentNotificationUriDataStore
    var seen: seq<Option<Uri>>

    constructor (store: CurrentNotificationUriDataStore)
      ensures this.store == store && seen == []
    {
      this.store := store;
      seen := [];
    }

    method RequestUpdateAll()
      modifies this
      ensures seen == old(seen) + [store.GetUri()]
    {
      seen := seen + [store.GetUri()];
    }
  }

  /**
   * The body of one launched coroutine: store the new reference, then
   * request a refresh of every complication, which therefore reads the new
   * reference.
   */
  method RunLaunched(newUri: Option<Uri>, store: CurrentNotificationUriDataStore, requester: UpdateRequester)
    requires requester.store == store
    modifies store, requester
    ensures store.prefs == AfterSetUri(old(store.prefs), newUri)
    ensures requester.seen == old(requester.seen) + [newUri]
  {
    store.SetUri(newUri);
    requester.RequestUpdateAll();
  }
}
