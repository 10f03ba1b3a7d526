/**
 * phone phone/data/CurrentNotificationDataStore.kt: the earlier record with
 * nullable fields, its icon handling and extraction, its serializer and the
 * store that keeps the current record on the phone.
 */
module LegacyNotificationDataStore {
  import opened Wrappers
  import opened Platform
  import Common

  /** The earlier `NotificationInfo`: title, body and both icons may be null. */
  datatype NotificationInfo = NotificationInfo(
    key: string,
    postTime: Int64,
    title: Option<string>,
    body: Option<string>,
    smallIcon: Option<Bytes>,
    largeIcon: Option<Bytes>,
    color: Int32)

  type InfoCodec = Codec<NotificationInfo>

  // ----- Icon getters -----

  /** `smallIconBitmap()`: decode the small icon, null when it is null. */
  function SmallIconBitmap(info: NotificationInfo, g: Graphics): Option<Bitmap> {
    if info.smallIcon.Some? then g.decodeByteArray(info.smallIcon.value) else None
  }

  /** `largeIconBitmap()`: decode the large icon, null when it is null. */
  function LargeIconBitmap(info: NotificationInfo, g: Graphics): Option<Bitmap> {
    if info.largeIcon.Some? then g.decodeByteArray(info.largeIcon.value) else None
  }

  /**
   * Each getter reads only its own buffer: a null buffer gives null whatever
   * the other holds, where the later record falls back to the other icon.
   */
  lemma GettersHaveNoFallback(info: NotificationInfo, g: Graphics)
    ensures info.smallIcon.None? ==> SmallIconBitmap(info, g).None?
    ensures info.largeIcon.None? ==> LargeIconBitmap(info, g).None?
    ensures forall other: Option<Bytes> :: SmallIconBitmap(info.(largeIcon := other), g) == SmallIconBitmap(info, g)
    ensures forall other: Option<Bytes> :: LargeIconBitmap(info.(smallIcon := other), g) == LargeIconBitmap(info, g)
  {
  }

  // ----- Rasterising -----

  /** The earlier bitmap size: 1x1 for a non-positive side, else the intrinsic size, uncapped. */
  function RasterSize(iw: int, ih: int): (int, int) {
    if iw <= 0 || ih <= 0 then (1, 1) else (iw, ih)
  }

  /**
   * Both sides are always positive; within the 128-pixel cap the earlier
   * size agrees with the later one, and beyond it the earlier size exceeds the cap.
   */
  lemma RasterSizeAgainstCappedSize(iw: int, ih: int)
    ensures RasterSize(iw, ih).0 >= 1 && RasterSize(iw, ih).1 >= 1
    ensures Common.Max(iw, ih) <= Common.MAX_DIMEN ==> RasterSize(iw, ih) == Common.RasterSize(iw, ih)
    ensures 0 < iw && 0 < ih && Common.Max(iw, ih) > Common.MAX_DIMEN ==>
      Common.Max(RasterSize(iw, ih).0, RasterSize(iw, ih).1) > Common.MAX_DIMEN
  {
  }

  /**
   * What `iconToBitmapByteArray(context, icon)` returns: a null `Icon`
   * throws (the parameter is not nullable), an unloadable one gives null.
   */
  function IconBytes(icon: Option<Icon>, g: Graphics): Result<Option<Bytes>, Failure> {
    if icon.None? then Err(NullPointerException)
    else match LoadDrawable(icon.value)
      case None => Ok(None)
      case Some(d) =>
        var size := RasterSize(d.intrinsicWidth, d.intrinsicHeight);
        Ok(Some(g.compressPng(Draw(d, size.0, size.1))))
  }

  /** `iconToBitmapByteArray`: draw the icon at its intrinsic size (1x1 if degenerate) and compress to PNG. */
  method IconToBitmapByteArray(icon: Option<Icon>, g: Graphics) returns (r: Result<Option<Bytes>, Failure>)
    ensures r == IconBytes(icon, g)
  {
    if icon.None? {
      return Err(NullPointerException);
    }
    var drawable := LoadDrawable(icon.value);
    if drawable.None? {
      return Ok(None);
    }
    var d := drawable.value;
    var bitmap: Bitmap;
    if d.intrinsicWidth <= 0 || d.intrinsicHeight <= 0 {
      bitmap := Draw(d, 1, 1);
    } else {
      bitmap := Draw(d, d.intrinsicWidth, d.intrinsicHeight);
    }
    r := Ok(Some(g.compressPng(bitmap)));
  }

  /** A present, loadable icon always yields a non-empty buffer; an unloadable one yields null. */
  lemma IconBytesOutcomes(icon: Icon, g: Graphics)
    requires PngNonEmpty(g)
    ensures LoadDrawable(icon).None? ==> IconBytes(Some(icon), g) == Ok(None)
    ensures LoadDrawable(icon).Some? ==>
      IconBytes(Some(icon), g).Ok? && IconBytes(Some(icon), g).value.Some? && IconBytes(Some(icon), g).value.value != []
  {
    if LoadDrawable(icon).Some? {
      var d := LoadDrawable(icon).value;
      var size := RasterSize(d.intrinsicWidth, d.intrinsicHeight);
      assert |g.compressPng(Draw(d, size.0, size.1))| > 0;
    }
  }

  // ----- Identity -----

  /** `matchesStatusBarNotification`. */
  function MatchesStatusBarNotification(info: Option<NotificationInfo>, sbn: Option<StatusBarNotification>): (r: bool)
    ensures r <==>
      || (info.None? && sbn.None?)
      || (info.Some? && sbn.Some? && info.value.key == sbn.value.key && info.value.postTime == sbn.value.postTime)
  {
    (if info.Some? then Some(info.value.key) else None) == (if sbn.Some? then Some(sbn.value.key) else None) &&
    (if info.Some? then Some(info.value.postTime) else None) == (if sbn.Some? then Some(sbn.value.postTime) else None)
  }

  // ----- toNotificationInfo -----

  /** `CharSequence?.toString()`: a null title prints as "null". */
  function TitleString(title: Option<string>): string {
    if title.Some? then title.value else "null"
  }

  /**
   * The earlier messaging override: `messages.last()` throws on an empty
   * list; a non-null last message gives (conversation title as a string,
   * "sender: " + text), whatever the conversation title is.
   */
  function TitleAndText(style: Style): Result<Option<(string, string)>, Failure> {
    match style
    case MessagingStyle(_, conversationTitle, messages) =>
      if messages == [] then Err(NoSuchElementException)
      else
        var message := messages[|messages| - 1];
        if message.None? then Ok(None)
        else Ok(Some((TitleString(conversationTitle), Common.SenderPrefix(message.value) + Common.OrEmpty(message.value.text))))
    case _ => Ok(None)
  }

  /** What the earlier `toNotificationInfo` returns, or the exception it throws. */
  function Extract(sbn: StatusBarNotification, g: Graphics): Result<NotificationInfo, Failure> {
    var n := sbn.notification;
    match TitleAndText(n.style)
    case Err(e) => Err(e)
    case Ok(tt) =>
      var title := if tt.Some? then Some(tt.value.0) else GetString(n.extras, EXTRA_TITLE);
      var text := if tt.Some? then Some(tt.value.1) else GetString(n.extras, EXTRA_TEXT);
      match IconBytes(n.smallIcon, g)
      case Err(e) => Err(e)
      case Ok(small) =>
        match IconBytes(n.largeIcon, g)
        case Err(e) => Err(e)
        case Ok(large) => Ok(NotificationInfo(sbn.key, sbn.postTime, title, text, small, large, n.color))
  }

  /** The earlier `StatusBarNotification.toNotificationInfo`. */
  method ToNotificationInfo(sbn: StatusBarNotification, g: Graphics) returns (r: Result<NotificationInfo, Failure>)
    ensures r == Extract(sbn, g)
  {
    var n := sbn.notification;
    var titleAndText := TitleAndText(n.style);
    if titleAndText.Err? {
      return Err(titleAndText.error);
    }
    var title, text;
    if titleAndText.value.Some? {
      title, text := Some(titleAndText.value.value.0), Some(titleAndText.value.value.1);
    } else {
      title, text := GetString(n.extras, EXTRA_TITLE), GetString(n.extras, EXTRA_TEXT);
    }
    var smallIcon := IconToBitmapByteArray(n.smallIcon, g);
    if smallIcon.Err? {
      return Err(smallIcon.error);
    }
    var largeIcon := IconToBitmapByteArray(n.largeIcon, g);
    if largeIcon.Err? {
      return Err(largeIcon.error);
    }
    r := Ok(NotificationInfo(sbn.key, sbn.postTime, title, text, smallIcon.value, largeIcon.value, n.color));
  }

  /** Key, post time and colour are copied unchanged, so a record matches the notification it came from. */
  lemma ExtractKeepsIdentity(sbn: StatusBarNotification, g: Graphics)
    requires Extract(sbn, g).Ok?
    ensures var info := Extract(sbn, g).value;
      && info.key == sbn.key && info.postTime == sbn.postTime && info.color == sbn.notification.color
      && MatchesStatusBarNotification(Some(info), Some(sbn))
  {
  }

  /**
   * Title and text: a messaging style whose last message is non-null gives
   * the conversation title ("null" when absent) and "sender: " + text;
   * otherwise the EXTRA_TITLE and EXTRA_TEXT strings, which may be null.
   */
  lemma TitleAndTextCascade(sbn: StatusBarNotification, g: Graphics)
    requires Extract(sbn, g).Ok?
    ensures var n := sbn.notification;
      var info := Extract(sbn, g).value;
      if n.style.MessagingStyle? && n.style.messages[|n.style.messages| - 1].Some? then
        var m := n.style.messages[|n.style.messages| - 1].value;
        && info.title == Some(if n.style.conversationTitle.Some? then n.style.conversationTitle.value else "null")
        && info.body == Some(Common.SenderPrefix(m) + Common.OrEmpty(m.text))
      else
        info.title == GetString(n.extras, EXTRA_TITLE) && info.body == GetString(n.extras, EXTRA_TEXT)
  {
  }

  /**
   * Extraction needs both icons: it throws when either `Icon` is null, and
   * otherwise keeps each icon's own buffer, with no style fallback.
   */
  lemma ExtractNeedsBothIcons(sbn: StatusBarNotification, g: Graphics)
    requires TitleAndText(sbn.notification.style).Ok?
    ensures sbn.notification.smallIcon.None? || sbn.notification.largeIcon.None? ==>
      Extract(sbn, g) == Err(NullPointerException)
    ensures Extract(sbn, g).Ok? ==>
      && Extract(sbn, g).value.smallIcon == IconBytes(sbn.notification.smallIcon, g).value
      && Extract(sbn, g).value.largeIcon == IconBytes(sbn.notification.largeIcon, g).value
  {
  }

  // ----- Serializer and store -----

  /** The bytes `writeTo` writes: nothing for null, the encoding otherwise. */
  function Written(t: Option<NotificationInfo>, codec: InfoCodec): Bytes {
    if t.Some? then codec.encode(t.value) else []
  }

  /** The earlier `readFrom`: empty input and a SerializationException read as null. */
  function ReadFrom(input: Bytes, codec: InfoCodec): (r: Result<Option<NotificationInfo>, Failure>)
    ensures input == [] ==> r == Ok(None)
    ensures r.Err? ==> r.error != SerializationException && codec.decode(input) == Err(r.error)
    ensures r.Ok? && r.value.Some? ==> input != [] && codec.decode(input) == Ok(r.value.value)
    ensures input != [] && codec.decode(input) == Err(SerializationException) ==> r == Ok(None)
    ensures input != [] && codec.decode(input).Ok? ==> r == Ok(Some(codec.decode(input).value))
    ensures input != [] && codec.decode(input).Err? && codec.decode(input).error != SerializationException ==>
      r == Err(codec.decode(input).error)
  {
    if input == [] then Ok(None)
    else match codec.decode(input)
      case Ok(info) => Ok(Some(info))
      case Err(SerializationException) => Ok(None)
      case Err(e) => Err(e)
  }

  /** The earlier `writeTo`: null writes nothing. */
  method WriteTo(t: Option<NotificationInfo>, output: OutputStream, codec: InfoCodec)
    modifies output
    ensures output.written == old(output.written) + Written(t, codec)
  {
    if t.Some? {
      output.Write(codec.encode(t.value));
    } else {
      assert old(output.written) + [] == output.written;
    }
  }

  /** What `writeTo` writes, `readFrom` reads back, null included; only null writes nothing. */
  lemma SerializerRoundTrip(t: Option<NotificationInfo>, codec: InfoCodec)
    requires Lawful(codec)
    ensures Written(t, codec) == [] <==> t.None?
    ensures ReadFrom(Written(t, codec), codec) == Ok(t)
  {
    if t.Some? {
      assert codec.decode(codec.encode(t.value)) == Ok(t.value);
    }
  }

  /** The earlier `CurrentNotificationDataStore`: one file written by the serializer. */
  class CurrentNotificationDataStore {
    var file: Bytes

    constructor ()
      ensures file == []
    {
      file := [];
    }

    /** `currentNotification()`: the file read through the serializer. */
    function CurrentNotification(codec: InfoCodec): Result<Option<NotificationInfo>, Failure>
      reads this
    {
      ReadFrom(file, codec)
    }

    /** `setNotification`: replace the stored record; it then reads back as given. */
    method SetNotification(info: Option<NotificationInfo>, codec: InfoCodec)
      modifies this
      ensures file == Written(info, codec)
      ensures Lawful(codec) ==> CurrentNotification(codec) == Ok(info)
    {
      var output := new OutputStream();
      WriteTo(info, output, codec);
      file := output.written;
      if Lawful(codec) {
        SerializerRoundTrip(info, codec);
      }
    }
  }
}
