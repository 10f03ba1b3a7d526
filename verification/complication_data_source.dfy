/**
 * wear NotificationComplicationDataSourceService.kt: what each complication
 * type shows for the current record, or for its absence.
 */
module ComplicationDataSource {
  import opened Wrappers
  import opened Platform
  import opened Common

  const ELLIPSIS := "\U{2026}"

  /** The complication types the system may ask for; only the first three are supported. */
  datatype ComplicationType = SHORT_TEXT | LONG_TEXT | SMALL_IMAGE | OtherType(name: string)

  /** An image slot: the platform placeholder, or a bitmap turned into an icon. */
  datatype Image = Placeholder | FromBitmap(bitmap: Bitmap)

  /** The complication data the service builds. */
  datatype ComplicationData =
    | ShortText(text: string, contentDescription: string, monochromaticImage: Option<Image>)
    | LongText(text: string, contentDescription: string, title: Option<string>, smallImage: Option<Image>)
    | SmallImageData(image: Image, contentDescription: string)

  function UnknownType(t: ComplicationType): Failure
    requires t.OtherType?
  {
    AssertionError("System provided unknown complication type " + t.name)
  }

  /** `getPreviewData`: fixed placeholder content for the three supported types. */
  function GetPreviewData(t: ComplicationType): (r: Result<ComplicationData, Failure>)
    ensures r.Err? <==> t.OtherType?
    ensures r.Err? ==> r.error.AssertionError?
    ensures t == SHORT_TEXT ==> r.Ok? && r.value.ShortText? && r.value.text == "Title" + ELLIPSIS
    ensures t == LONG_TEXT ==>
      && r.Ok? && r.value.LongText?
      && r.value.text == "Notification body" + ELLIPSIS && r.value.title == Some("Title" + ELLIPSIS)
    ensures t == SMALL_IMAGE ==> r.Ok? && r.value.SmallImageData?
    ensures r.Ok? ==> match r.value
      case ShortText(_, _, image) => image == Some(Placeholder)
      case LongText(_, _, _, image) => image == Some(Placeholder)
      case SmallImageData(image, _) => image == Placeholder
  {
    match t
    case SHORT_TEXT => Ok(ShortText("Title" + ELLIPSIS, "Notification title", Some(Placeholder)))
    case LONG_TEXT => Ok(LongText("Notification body" + ELLIPSIS, "Notification preview", Some("Title" + ELLIPSIS), Some(Placeholder)))
    case SMALL_IMAGE => Ok(SmallImageData(Placeholder, "Notification image"))
    case OtherType(_) => Err(UnknownType(t))
  }

  /**
   * The record `onComplicationRequest` starts from: null without a stored
   * URI, otherwise the item at that URI decoded by `fromBytes`.
   * `getDataItem` stands for `dataClient.getDataItem(uri).await()`: the
   * failure of the Play services call (an ApiException), or null when there
   * is no such item (whose `.data` then throws), else the item's data.
   */
  function FetchCurrent(storedUri: Option<Uri>, getDataItem: Uri -> Result<Option<Option<Bytes>>, Failure>, codec: InfoCodec)
    : (r: Result<Option<NotificationInfo>, Failure>)
    ensures storedUri.None? ==> r == Ok(None)
    ensures storedUri.Some? && getDataItem(storedUri.value).Err? ==> r == Err(getDataItem(storedUri.value).error)
    ensures storedUri.Some? && getDataItem(storedUri.value) == Ok(None) ==> r == Err(NullPointerException)
    ensures storedUri.Some? && getDataItem(storedUri.value).Ok? && getDataItem(storedUri.value).value.Some? ==>
      r == FromBytes(getDataItem(storedUri.value).value.value, codec)
  {
    if storedUri.None? then Ok(None)
    else match getDataItem(storedUri.value)
      case Err(e) => Err(e)
      case Ok(None) => Err(NullPointerException)
      case Ok(Some(data)) => FromBytes(data, codec)
  }

  function ImageOf(b: Option<Bitmap>): Option<Image> {
    if b.Some? then Some(FromBitmap(b.value)) else None
  }

  /** What a request of type `t` shows for the record `info`. */
  function Present(t: ComplicationType, info: Option<NotificationInfo>, g: Graphics): (r: Result<ComplicationData, Failure>)
    requires t == SHORT_TEXT && info.Some? ==> |info.value.title| >= 7
    ensures r.Err? <==> t.OtherType?
    ensures r.Err? ==> r.error.AssertionError?
    ensures r.Ok? ==> (r.value.ShortText? <==> t == SHORT_TEXT) && (r.value.LongText? <==> t == LONG_TEXT)
  {
    match t
    case SHORT_TEXT =>
      if info.None? then Ok(ShortText("None", "No notifications", None))
      else Ok(ShortText(info.value.title[..7], "Notification title", ImageOf(SmallIconBitmap(info.value, g))))
    case LONG_TEXT =>
      if info.None? then Ok(LongText("No notifications", "No notifications", None, None))
      else Ok(LongText(info.value.body, "Notification preview", Some(info.value.title), ImageOf(LargeIconBitmap(info.value, g))))
    case SMALL_IMAGE =>
      var image := if info.Some? then ImageOf(LargeIconBitmap(info.value, g)) else None;
      if image.Some? then Ok(SmallImageData(image.value, "Notification image"))
      else Ok(SmallImageData(Placeholder, "No notifications"))
    case OtherType(_) => Err(UnknownType(t))
  }

  /**
   * `onComplicationRequest`: fetch the current record, then present it. A
   * failed or missing item, or a record that fails to decode, escapes as an
   * exception. SHORT_TEXT needs a title of at least seven characters.
   */
  function OnComplicationRequest(t: ComplicationType, storedUri: Option<Uri>,
                                 getDataItem: Uri -> Result<Option<Option<Bytes>>, Failure>,
                                 codec: InfoCodec, g: Graphics): (r: Result<ComplicationData, Failure>)
    requires var fetched := FetchCurrent(storedUri, getDataItem, codec);
      t == SHORT_TEXT && fetched.Ok? && fetched.value.Some? ==> |fetched.value.value.title| >= 7
    ensures r.Err? <==> FetchCurrent(storedUri, getDataItem, codec).Err? || t.OtherType?
    ensures FetchCurrent(storedUri, getDataItem, codec).Err? ==> r.error == FetchCurrent(storedUri, getDataItem, codec).error
  {
    match FetchCurrent(storedUri, getDataItem, codec)
    case Err(e) => Err(e)
    case Ok(info) => Present(t, info, g)
  }

  /** With no record: "None", "No notifications", or the placeholder image; an unknown type throws. */
  lemma NoRecordPresentation(t: ComplicationType, g: Graphics)
    ensures Present(t, None, g).Err? <==> t.OtherType?
    ensures t == SHORT_TEXT ==> Present(t, None, g) == Ok(ShortText("None", "No notifications", None))
    ensures t == LONG_TEXT ==> Present(t, None, g) == Ok(LongText("No notifications", "No notifications", None, None))
    ensures t == SMALL_IMAGE ==> Present(t, None, g) == Ok(SmallImageData(Placeholder, "No notifications"))
  {
  }

  /**
   * With a record: SHORT_TEXT shows the first seven title characters and the
   * small icon (falling back to the large one); LONG_TEXT shows body, title
   * and the large icon (falling back to the small one); SMALL_IMAGE shows the
   * large icon when one decodes, and the placeholder otherwise.
   */
  lemma RecordPresentation(t: ComplicationType, info: NotificationInfo, g: Graphics)
    requires t == SHORT_TEXT ==> |info.title| >= 7
    ensures Present(t, Some(info), g).Err? <==> t.OtherType?
    ensures t == SHORT_TEXT ==>
      var d := Present(t, Some(info), g).value;
      && d.ShortText? && |d.text| == 7 && info.title == d.text + info.title[7..]
      && d.monochromaticImage == ImageOf(g.decodeByteArray(if info.smallIcon != [] then info.smallIcon else info.largeIcon))
    ensures t == LONG_TEXT ==>
      var d := Present(t, Some(info), g).value;
      && d.LongText? && d.text == info.body && d.title == Some(info.title)
      && d.smallImage == ImageOf(g.decodeByteArray(if info.largeIcon != [] then info.largeIcon else info.smallIcon))
    ensures t == SMALL_IMAGE ==>
      var b := g.decodeByteArray(if info.largeIcon != [] then info.largeIcon else info.smallIcon);
      Present(t, Some(info), g) == Ok(if b.Some? then SmallImageData(FromBitmap(b.value), "Notification image")
                                      else SmallImageData(Placeholder, "No notifications"))
  {
    if t == SHORT_TEXT {
      assert info.title == info.title[..7] + info.title[7..];
    }
  }

  /** A stored URI whose item decodes to a record presents that record; none presents the empty state. */
  lemma RequestPresentsFetchedRecord(t: ComplicationType, storedUri: Option<Uri>,
                                     getDataItem: Uri -> Result<Option<Option<Bytes>>, Failure>,
                                     codec: InfoCodec, g: Graphics, info: NotificationInfo)
    requires Lawful(codec)
    requires storedUri.Some? && getDataItem(storedUri.value) == Ok(Some(Some(codec.encode(info))))
    requires t == SHORT_TEXT ==> |info.title| >= 7
    ensures OnComplicationRequest(t, storedUri, getDataItem, codec, g) == Present(t, Some(info), g)
    ensures OnComplicationRequest(t, None, getDataItem, codec, g) == Present(t, None, g)
  {
    RoundTrip(Some(info), codec);
  }
}
