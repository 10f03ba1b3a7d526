/**
 * common/NotificationInfo.kt: the transported record, its codec, the icon
 * rasteriser and decoder, the identity check and the extraction of a record
 * from a status-bar notification.
 */
module Common {
  import opened Wrappers
  import opened Platform

  /** Data-layer path shared by the phone and the watch. */
  const DATA_LAYER_PATH := "/current_notification"

  /** Largest raster side, in pixels. */
  const MAX_DIMEN := 128

  /** `NotificationInfo`: what the watch needs of one notification. */
  datatype NotificationInfo = NotificationInfo(
    key: string,
    postTime: Int64,
    title: string,
    body: string,
    smallIcon: Bytes,
    largeIcon: Bytes,
    color: Int32)

  // ----- Codec -----

  /** The protobuf codec of `NotificationInfo`. */
  type InfoCodec = Codec<NotificationInfo>

  /** `NotificationInfo?.toBytes()`. */
  function ToBytes(info: Option<NotificationInfo>, codec: InfoCodec): (data: Bytes)
    ensures Lawful(codec) ==> (data == [] <==> info.None?)
  {
    match info
    case None => []
    case Some(r) => codec.encode(r)
  }

  /** `fromBytes(data)`: null and empty give null; a decode failure is not caught. */
  function FromBytes(data: Option<Bytes>, codec: InfoCodec): (r: Result<Option<NotificationInfo>, Failure>)
    ensures data.None? || data.value == [] ==> r == Ok(None)
    ensures r.Err? ==> data.Some? && codec.decode(data.value) == Err(r.error)
    ensures r.Ok? && r.value.Some? ==> data.Some? && codec.decode(data.value) == Ok(r.value.value)
    ensures data.Some? && data.value != [] && codec.decode(data.value).Ok? ==> r == Ok(Some(codec.decode(data.value).value))
    ensures data.Some? && data.value != [] && codec.decode(data.value).Err? ==> r == Err(codec.decode(data.value).error)
  {
    if data.None? || data.value == [] then Ok(None)
    else match codec.decode(data.value)
      case Ok(r) => Ok(Some(r))
      case Err(e) => Err(e)
  }

  /** The null law: null encodes to the empty buffer, and null or empty decodes to null. */
  lemma NullLaw(codec: InfoCodec)
    ensures ToBytes(None, codec) == []
    ensures FromBytes(None, codec) == Ok(None)
    ensures FromBytes(Some([]), codec) == Ok(None)
  {
  }

  /** Every record, and null, survives `toBytes` then `fromBytes`; only null encodes to nothing. */
  lemma RoundTrip(info: Option<NotificationInfo>, codec: InfoCodec)
    requires Lawful(codec)
    ensures ToBytes(info, codec) == [] <==> info.None?
    ensures FromBytes(Some(ToBytes(info, codec)), codec) == Ok(info)
  {
    if info.Some? {
      assert codec.encode(info.value) != [];
    }
  }

  /** Unlike the serializer, `fromBytes` lets a decode failure escape to its caller. */
  lemma FromBytesLetsDecodeFailuresThrough(data: Bytes, codec: InfoCodec)
    requires data != [] && codec.decode(data).Err?
    ensures FromBytes(Some(data), codec) == Err(codec.decode(data).error)
  {
  }

  // ----- NotificationInfoSerializer -----

  /**
   * `readFrom`: an empty stream and a `SerializationException` both read as
   * null; any other exception of the decoder escapes.
   */
  function ReadFrom(input: Bytes, codec: InfoCodec): (r: Result<Option<NotificationInfo>, Failure>)
    ensures input == [] ==> r == Ok(None)
    ensures r.Err? ==> r.error != SerializationException && codec.decode(input) == Err(r.error)
    ensures r.Ok? && r.value.Some? ==> input != [] && codec.decode(input) == Ok(r.value.value)
    ensures input != [] && codec.decode(input) == Err(SerializationException) ==> r == Ok(None)
    ensures input != [] && codec.decode(input).Ok? ==> r == Ok(Some(codec.decode(input).value))
    ensures input != [] && codec.decode(input).Err? && codec.decode(input).error != SerializationException ==>
      r == Err(codec.decode(input).error)
  {
    if input == [] then Ok(None)
    else match codec.decode(input)
      case Ok(info) => Ok(Some(info))
      case Err(SerializationException) => Ok(None)
      case Err(e) => Err(e)
  }

  /** `writeTo`: null writes nothing, a record writes its encoding. */
  method WriteTo(t: Option<NotificationInfo>, output: OutputStream, codec: InfoCodec)
    modifies output
    ensures output.written == old(output.written) + ToBytes(t, codec)
  {
    if t.Some? {
      output.Write(codec.encode(t.value));
    } else {
      assert old(output.written) + [] == output.written;
    }
  }

  /** What `writeTo` writes, `readFrom` reads back: a record or null. */
  lemma SerializerRoundTrip(t: Option<NotificationInfo>, codec: InfoCodec)
    requires Lawful(codec)
    ensures ReadFrom(ToBytes(t, codec), codec) == Ok(t)
  {
    if t.Some? {
      assert codec.decode(codec.encode(t.value)) == Ok(t.value);
    }
  }

  // ----- Icons -----

  /** The first non-empty buffer, or the empty buffer when all are empty. */
  function FirstNonEmpty(buffers: seq<Bytes>): (chosen: Bytes)
    ensures chosen == [] <==> forall i :: 0 <= i < |buffers| ==> buffers[i] == []
    ensures chosen != [] ==>
      exists i :: 0 <= i < |buffers| && buffers[i] == chosen && forall j :: 0 <= j < i ==> buffers[j] == []
  {
    if buffers == [] then []
    else if buffers[0] != [] then buffers[0]
    else
      var rest := FirstNonEmpty(buffers[1..]);
      assert rest != [] ==> exists i :: 0 <= i < |buffers| && buffers[i] == rest && forall j :: 0 <= j < i ==> buffers[j] == [] by {
        if rest != [] {
          var k :| 0 <= k < |buffers[1..]| && buffers[1..][k] == rest && forall j :: 0 <= j < k ==> buffers[1..][j] == [];
          assert buffers[k + 1] == rest;
        }
      }
      rest
  }

  /** `byteArraysToBitmap(vararg)`: decode the first non-empty buffer (the empty one when there is none). */
  function ByteArraysToBitmap(buffers: seq<Bytes>, g: Graphics): (b: Option<Bitmap>)
    ensures (forall i :: 0 <= i < |buffers| ==> buffers[i] == []) ==> b == g.decodeByteArray([])
    ensures forall i :: 0 <= i < |buffers| && buffers[i] != [] && (forall j :: 0 <= j < i ==> buffers[j] == []) ==>
      b == g.decodeByteArray(buffers[i])
  {
    g.decodeByteArray(FirstNonEmpty(buffers))
  }

  /** With two buffers: the first when it is non-empty, otherwise the second. */
  lemma FirstNonEmptyOfPair(a: Bytes, b: Bytes)
    ensures FirstNonEmpty([a, b]) == if a != [] then a else b
  {
    assert [a, b][1..] == [b];
    assert [b][1..] == [];
  }

  /** `smallIconBitmap()`: the small icon, or the large one when the small one is empty. */
  function SmallIconBitmap(info: NotificationInfo, g: Graphics): (b: Option<Bitmap>)
    ensures b == g.decodeByteArray(if info.smallIcon != [] then info.smallIcon else info.largeIcon)
  {
    FirstNonEmptyOfPair(info.smallIcon, info.largeIcon);
    ByteArraysToBitmap([info.smallIcon, info.largeIcon], g)
  }

  /** `largeIconBitmap()`: the large icon, or the small one when the large one is empty. */
  function LargeIconBitmap(info: NotificationInfo, g: Graphics): (b: Option<Bitmap>)
    ensures b == g.decodeByteArray(if info.largeIcon != [] then info.largeIcon else info.smallIcon)
  {
    FirstNonEmptyOfPair(info.largeIcon, info.smallIcon);
    ByteArraysToBitmap([info.largeIcon, info.smallIcon], g)
  }

  // ----- Identity -----

  function KeyOf(info: Option<NotificationInfo>): Option<string> {
    if info.Some? then Some(info.value.key) else None
  }

  function PostTimeOf(info: Option<NotificationInfo>): Option<Int64> {
    if info.Some? then Some(info.value.postTime) else None
  }

  function SbnKey(sbn: Option<StatusBarNotification>): Option<string> {
    if sbn.Some? then Some(sbn.value.key) else None
  }

  function SbnPostTime(sbn: Option<StatusBarNotification>): Option<Int64> {
    if sbn.Some? then Some(sbn.value.postTime) else None
  }

  /**
   * `matchesStatusBarNotification`: the same occurrence when key and post time
   * agree; two nulls match, a null never matches a non-null.
   */
  function MatchesStatusBarNotification(info: Option<NotificationInfo>, sbn: Option<StatusBarNotification>): (r: bool)
    ensures r <==>
      || (info.None? && sbn.None?)
      || (info.Some? && sbn.Some? && info.value.key == sbn.value.key && info.value.postTime == sbn.value.postTime)
  {
    KeyOf(info) == SbnKey(sbn) && PostTimeOf(info) == SbnPostTime(sbn)
  }

  // ----- Rasterising -----

  function Max(a: int, b: int): int {
    if a >= b then a else b
  }

  lemma ScaleBound(side: int, largest: int)
    requires 0 < side <= largest && largest > MAX_DIMEN
    ensures 0 <= side * MAX_DIMEN / largest <= MAX_DIMEN
    ensures side * MAX_DIMEN / largest <= side
  {
    assert side * MAX_DIMEN <= largest * MAX_DIMEN;
    assert side * MAX_DIMEN <= side * largest;
  }

  /**
   * The bitmap size `drawableToBitmapByteArray` computes as written, with the
   * Float scaling abstracted to integer arithmetic: a non-positive intrinsic
   * side gives 1x1, a size within the cap is kept, and a larger one is scaled
   * by MAX_DIMEN / largest with truncation.
   */
  function ScaledSizeAsWritten(iw: int, ih: int): (size: (int, int))
    ensures iw <= 0 || ih <= 0 ==> size == (1, 1)
    ensures 0 < iw && 0 < ih && Max(iw, ih) <= MAX_DIMEN ==> size == (iw, ih)
    ensures 0 < iw && 0 < ih ==> 0 <= size.0 <= MAX_DIMEN && 0 <= size.1 <= MAX_DIMEN
  {
    if iw <= 0 || ih <= 0 then (1, 1)
    else
      var largest := Max(iw, ih);
      if largest > MAX_DIMEN then
        ScaleBound(iw, largest);
        ScaleBound(ih, largest);
        (iw * MAX_DIMEN / largest, ih * MAX_DIMEN / largest)
      else (iw, ih)
  }

  /** A 1000x1 icon scales to a height of 0, which `Bitmap.createBitmap` rejects. */
  lemma ThinIconScalesToZeroHeight()
    ensures ScaledSizeAsWritten(1000, 1) == (128, 0)
  {
  }

  /**
   * The bitmap size used by the rest of this model: as written, except that a
   * scaled side never drops below one pixel.
   */
  function RasterSize(iw: int, ih: int): (size: (int, int))
    ensures iw <= 0 || ih <= 0 ==> size == (1, 1)
    ensures 0 < iw && 0 < ih && Max(iw, ih) <= MAX_DIMEN ==> size == (iw, ih)
    ensures 1 <= size.0 <= MAX_DIMEN && 1 <= size.1 <= MAX_DIMEN
    ensures 0 < iw && 0 < ih ==> size.0 <= iw && size.1 <= ih
    ensures ScaledSizeAsWritten(iw, ih).0 >= 1 && ScaledSizeAsWritten(iw, ih).1 >= 1 ==> size == ScaledSizeAsWritten(iw, ih)
  {
    if iw <= 0 || ih <= 0 then (1, 1)
    else
      var largest := Max(iw, ih);
      if largest > MAX_DIMEN then
        ScaleBound(iw, largest);
        ScaleBound(ih, largest);
        (Max(1, iw * MAX_DIMEN / largest), Max(1, ih * MAX_DIMEN / largest))
      else (iw, ih)
  }

  /** 0x0 falls back to 1x1, and 512x256 scales to 128x64. */
  lemma RasterSizeExamples()
    ensures RasterSize(0, 0) == (1, 1)
    ensures RasterSize(512, 256) == (128, 64)
    ensures RasterSize(1000, 1) == (128, 1)
  {
  }

  /**
   * `drawableToBitmapByteArray(d)` as written: `Bitmap.createBitmap` throws
   * when a scaled side has truncated to 0, otherwise the PNG of `d` drawn at
   * the scaled size.
   */
  function RasterBytesAsWritten(d: Drawable, g: Graphics): Result<Bytes, Failure> {
    var size := ScaledSizeAsWritten(d.intrinsicWidth, d.intrinsicHeight);
    if size.0 == 0 || size.1 == 0 then Err(IllegalArgumentException)
    else Ok(g.compressPng(Draw(d, size.0, size.1)))
  }

  /**
   * As written, rasterising throws exactly when a scaled side truncates to 0
   * (a 1000x1 drawable is one such); whenever it does not throw, it produces
   * what the corrected rasteriser produces.
   */
  lemma {:induction false} AsWrittenRasterThrowsOnThinDrawable(d: Drawable, g: Graphics)
    ensures var size := ScaledSizeAsWritten(d.intrinsicWidth, d.intrinsicHeight);
      RasterBytesAsWritten(d, g).Err? <==> size.0 == 0 || size.1 == 0
    ensures RasterBytesAsWritten(d, g).Err? ==> RasterBytesAsWritten(d, g).error == IllegalArgumentException
    ensures RasterBytesAsWritten(d, g).Ok? ==> RasterBytesAsWritten(d, g).value == RasterBytes(d, g)
    ensures d.intrinsicWidth == 1000 && d.intrinsicHeight == 1 ==> RasterBytesAsWritten(d, g) == Err(IllegalArgumentException)
  {
    if d.intrinsicWidth == 1000 && d.intrinsicHeight == 1 {
      ThinIconScalesToZeroHeight();
    }
  }

  /** What `drawableToBitmapByteArray(d)` returns in this model: the PNG of `d` drawn at the corrected `RasterSize`. */
  function RasterBytes(d: Drawable, g: Graphics): Bytes {
    var size := RasterSize(d.intrinsicWidth, d.intrinsicHeight);
    g.compressPng(Draw(d, size.0, size.1))
  }

  /** `drawableToBitmapByteArray`: size the bitmap, draw onto it, compress it to PNG. */
  method DrawableToBitmapByteArray(d: Drawable, g: Graphics) returns (png: Bytes)
    ensures png == RasterBytes(d, g)
  {
    var bitmap: Bitmap;
    if d.intrinsicWidth <= 0 || d.intrinsicHeight <= 0 {
      bitmap := Draw(d, 1, 1);
    } else {
      var width := d.intrinsicWidth;
      var height := d.intrinsicHeight;
      var largest := Max(width, height);
      if largest > MAX_DIMEN {
        width := Max(1, width * MAX_DIMEN / largest);
        height := Max(1, height * MAX_DIMEN / largest);
      }
      bitmap := Draw(d, width, height);
    }
    png := g.compressPng(bitmap);
  }

  /** What `iconToBitmapByteArray(icon)` returns. */
  function IconBytes(icon: Option<Icon>, g: Graphics): Bytes {
    if icon.None? then []
    else match LoadDrawable(icon.value)
      case None => []
      case Some(d) => RasterBytes(d, g)
  }

  /** `iconToBitmapByteArray`: an absent or unloadable icon gives the empty buffer. */
  method IconToBitmapByteArray(icon: Option<Icon>, g: Graphics) returns (bytes: Bytes)
    ensures bytes == IconBytes(icon, g)
  {
    if icon.None? {
      return [];
    }
    var drawable := LoadDrawable(icon.value);
    if drawable.None? {
      return [];
    }
    bytes := DrawableToBitmapByteArray(drawable.value, g);
  }

  /** An icon buffer is empty exactly when there is no drawable to rasterise. */
  lemma IconBytesEmptyIffNoDrawable(icon: Option<Icon>, g: Graphics)
    requires PngNonEmpty(g)
    ensures IconBytes(icon, g) == [] <==> icon.None? || LoadDrawable(icon.value).None?
  {
    if icon.Some? && LoadDrawable(icon.value).Some? {
      var d := LoadDrawable(icon.value).value;
      var size := RasterSize(d.intrinsicWidth, d.intrinsicHeight);
      assert |g.compressPng(Draw(d, size.0, size.1))| > 0;
    }
  }

  // ----- toNotificationInfo -----

  function OrEmpty(s: Option<string>): string {
    if s.Some? then s.value else ""
  }

  /** `message.person?.name?.let { "$it: " } ?: ""`. */
  function SenderPrefix(m: Message): string {
    if m.person.Some? && m.person.value.name.Some? then m.person.value.name.value + ": " else ""
  }

  /**
   * The messaging-style title and text: `messages.last()` throws on an empty
   * list; the pair exists only when the last message and the conversation
   * title are both non-null.
   */
  function MessagingTitleAndText(style: Style): Result<Option<(string, string)>, Failure>
    requires style.MessagingStyle?
  {
    if style.messages == [] then Err(NoSuchElementException)
    else
      var message := style.messages[|style.messages| - 1];
      if message.Some? && style.conversationTitle.Some? then
        Ok(Some((style.conversationTitle.value, SenderPrefix(message.value) + OrEmpty(message.value.text))))
      else Ok(None)
  }

  /** The small icon, tinted with the notification's colour. */
  function TintedSmallIcon(n: Notification): Option<Icon> {
    if n.smallIcon.Some? then Some(SetTint(n.smallIcon.value, n.color)) else None
  }

  /** The large icon after the style-specific fallbacks, which apply only to an empty one. */
  function LargeIconWithFallback(n: Notification, g: Graphics): Bytes {
    var large := IconBytes(n.largeIcon, g);
    if large != [] then large
    else match n.style
      case MessagingStyle(user, _, _) => IconBytes(user.icon, g)
      case BigPictureStyle =>
        (match GetBitmap(n.extras, EXTRA_PICTURE)
         case Some(picture) => RasterBytes(BitmapDrawable(picture), g)
         case None => large)
      case OtherStyle => large
  }

  /** What `toNotificationInfo` returns, or the exception it throws. */
  function Extract(sbn: StatusBarNotification, g: Graphics): Result<NotificationInfo, Failure> {
    var n := sbn.notification;
    var titleAndText := if n.style.MessagingStyle? then MessagingTitleAndText(n.style) else Ok(None);
    match titleAndText
    case Err(e) => Err(e)
    case Ok(tt) =>
      var title := if tt.Some? then tt.value.0 else OrEmpty(GetCharSequence(n.extras, EXTRA_TITLE));
      var text := if tt.Some? then tt.value.1 else OrEmpty(GetCharSequence(n.extras, EXTRA_TEXT));
      Ok(NotificationInfo(
        sbn.key, sbn.postTime, title, text,
        IconBytes(TintedSmallIcon(n), g), LargeIconWithFallback(n, g), n.color))
  }

  /** `StatusBarNotification.toNotificationInfo`. */
  method ToNotificationInfo(sbn: StatusBarNotification, g: Graphics) returns (r: Result<NotificationInfo, Failure>)
    ensures r == Extract(sbn, g)
  {
    var n := sbn.notification;
    var smallIcon := IconToBitmapByteArray(TintedSmallIcon(n), g);
    var largeIcon := IconToBitmapByteArray(n.largeIcon, g);
    var titleAndText: Option<(string, string)> := None;
    match n.style {
      case MessagingStyle(user, conversationTitle, messages) =>
        if largeIcon == [] {
          largeIcon := IconToBitmapByteArray(user.icon, g);
        }
        if messages == [] {
          return Err(NoSuchElementException);
        }
        var message := messages[|messages| - 1];
        if message.Some? && conversationTitle.Some? {
          var prefix := SenderPrefix(message.value);
          titleAndText := Some((conversationTitle.value, prefix + OrEmpty(message.value.text)));
        }
      case BigPictureStyle =>
        if largeIcon == [] {
          var picture := GetBitmap(n.extras, EXTRA_PICTURE);
          if picture.Some? {
            largeIcon := DrawableToBitmapByteArray(BitmapDrawable(picture.value), g);
          }
        }
      case OtherStyle =>
    }
    var title, text;
    if titleAndText.Some? {
      title, text := Some(titleAndText.value.0), Some(titleAndText.value.1);
    } else {
      title, text := GetCharSequence(n.extras, EXTRA_TITLE), GetCharSequence(n.extras, EXTRA_TEXT);
    }
    r := Ok(NotificationInfo(sbn.key, sbn.postTime, OrEmpty(title), OrEmpty(text), smallIcon, largeIcon, n.color));
  }

  /** Key, post time and colour are copied unchanged, so a record matches the notification it came from. */
  lemma ExtractKeepsIdentity(sbn: StatusBarNotification, g: Graphics)
    requires Extract(sbn, g).Ok?
    ensures var info := Extract(sbn, g).value;
      && info.key == sbn.key && info.postTime == sbn.postTime && info.color == sbn.notification.color
      && MatchesStatusBarNotification(Some(info), Some(sbn))
  {
  }

  /** Extraction throws only for a messaging style with no messages. */
  lemma ExtractFailsOnlyWithoutMessages(sbn: StatusBarNotification, g: Graphics)
    ensures Extract(sbn, g).Err? <==>
      sbn.notification.style.MessagingStyle? && sbn.notification.style.messages == []
    ensures Extract(sbn, g).Err? ==> Extract(sbn, g).error == NoSuchElementException
  {
  }

  /**
   * The title and body cascade: a messaging style with a last message and a
   * conversation title gives (conversation title, "sender: " + text);
   * otherwise the EXTRA_TITLE and EXTRA_TEXT char sequences, absent ones as "".
   */
  lemma TitleAndBodyCascade(sbn: StatusBarNotification, g: Graphics)
    requires Extract(sbn, g).Ok?
    ensures var n := sbn.notification;
      var info := Extract(sbn, g).value;
      if n.style.MessagingStyle? && n.style.messages[|n.style.messages| - 1].Some? && n.style.conversationTitle.Some? then
        var m := n.style.messages[|n.style.messages| - 1].value;
        && info.title == n.style.conversationTitle.value
        && info.body == SenderPrefix(m) + OrEmpty(m.text)
        && (m.person.None? || m.person.value.name.None? ==> info.body == OrEmpty(m.text))
      else
        && (info.title == "" <==> GetCharSequence(n.extras, EXTRA_TITLE) in {None, Some("")})
        && (GetCharSequence(n.extras, EXTRA_TITLE).Some? ==> info.title == GetCharSequence(n.extras, EXTRA_TITLE).value)
        && (info.body == "" <==> GetCharSequence(n.extras, EXTRA_TEXT) in {None, Some("")})
        && (GetCharSequence(n.extras, EXTRA_TEXT).Some? ==> info.body == GetCharSequence(n.extras, EXTRA_TEXT).value)
  {
  }

  /**
   * The large icon is replaced only when the notification's own large icon
   * gave an empty buffer: by the messaging user's icon, or by the big
   * picture; the small icon is the tinted small icon.
   */
  lemma LargeIconFallbackOnlyWhenEmpty(sbn: StatusBarNotification, g: Graphics)
    requires Extract(sbn, g).Ok?
    ensures var n := sbn.notification;
      var info := Extract(sbn, g).value;
      && info.smallIcon == IconBytes(TintedSmallIcon(n), g)
      && (IconBytes(n.largeIcon, g) != [] ==> info.largeIcon == IconBytes(n.largeIcon, g))
      && (IconBytes(n.largeIcon, g) == [] && n.style.MessagingStyle? ==> info.largeIcon == IconBytes(n.style.user.icon, g))
      && (IconBytes(n.largeIcon, g) == [] && n.style.BigPictureStyle? && GetBitmap(n.extras, EXTRA_PICTURE).Some? ==>
            info.largeIcon == RasterBytes(BitmapDrawable(GetBitmap(n.extras, EXTRA_PICTURE).value), g))
      && (IconBytes(n.largeIcon, g) == [] && n.style.BigPictureStyle? && GetBitmap(n.extras, EXTRA_PICTURE).None? ==>
            info.largeIcon == [])
      && (IconBytes(n.largeIcon, g) == [] && n.style.OtherStyle? ==> info.largeIcon == [])
  {
  }
}
