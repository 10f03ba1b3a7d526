/**
 * The Android and Kotlin surface the core consumes, reduced to values.
 * Drawing, PNG compression, bitmap decoding and media-session queries are
 * foreign code: they appear as fields of function type that callers pass in.
 */
module Platform {
  import opened Wrappers

  /** Kotlin `Int` and `Long`. */
  type Int32 = x: int | -0x8000_0000 <= x < 0x8000_0000
  type Int64 = x: int | -0x8000_0000_0000_0000 <= x < 0x8000_0000_0000_0000

  /** A `ByteArray`. */
  type Bytes = seq<bv8>

  /** The exceptions the modelled code can raise or let through. */
  datatype Failure =
    | SerializationException
    | NoSuchElementException
    | NullPointerException
    | AssertionError(message: string)
      // a failed Play services call, such as a rejected `putDataItem`
    | ApiException
      // `Bitmap.createBitmap` with a zero width or height
    | IllegalArgumentException

  /** A kotlinx.serialization protobuf encoder and decoder for records of type `T`. */
  datatype Codec<!T> = Codec(encode: T -> Bytes, decode: Bytes -> Result<T, Failure>)

  /**
   * What the model relies on of a protobuf codec: decoding an encoding gives
   * the record back, and an encoding is never empty (both record types have
   * a non-null `key`, so at least that field is always written).
   */
  ghost predicate Lawful<T(!new)>(codec: Codec<T>) {
    forall r: T {:trigger codec.encode(r)} :: codec.encode(r) != [] && codec.decode(codec.encode(r)) == Ok(r)
  }

  /** A loaded drawable: its intrinsic size and an opaque token for what it paints. */
  datatype Drawable = Drawable(intrinsicWidth: int, intrinsicHeight: int, art: nat, tint: Option<Int32>)

  /** A raster bitmap of a given size holding what some drawable painted onto it. */
  datatype Bitmap = Bitmap(width: int, height: int, art: nat, tint: Option<Int32>)

  /** An `Icon` handle: `content` is what `loadDrawable` yields (null when it cannot be loaded). */
  datatype Icon = Icon(content: Option<Drawable>, tint: Option<Int32>)

  /** `Icon.setTint(color)`. */
  function SetTint(icon: Icon, color: Int32): Icon {
    icon.(tint := Some(color))
  }

  /** `Icon.loadDrawable(context)`: the drawable, carrying the icon's tint. */
  function LoadDrawable(icon: Icon): Option<Drawable> {
    match icon.content
    case None => None
    case Some(d) => Some(d.(tint := if icon.tint.Some? then icon.tint else d.tint))
  }

  /** `BitmapDrawable(resources, bitmap)` (density scaling is not modelled). */
  function BitmapDrawable(b: Bitmap): Drawable {
    Drawable(b.width, b.height, b.art, b.tint)
  }

  /** `Bitmap.createBitmap(width, height)` followed by drawing `d` over the whole canvas. */
  function Draw(d: Drawable, width: int, height: int): Bitmap {
    Bitmap(width, height, d.art, d.tint)
  }

  /** PNG compression (`Bitmap.compress`) and `BitmapFactory.decodeByteArray`. */
  datatype Graphics = Graphics(compressPng: Bitmap -> Bytes, decodeByteArray: Bytes -> Option<Bitmap>)

  /** Every PNG stream starts with an eight-byte signature, so compression never yields an empty buffer. */
  ghost predicate PngNonEmpty(g: Graphics) {
    forall b: Bitmap {:trigger g.compressPng(b)} :: |g.compressPng(b)| > 0
  }

  /** A value stored in a notification's extras `Bundle`. */
  datatype Extra =
    | StringExtra(s: string)
      // a CharSequence that is not a String (styled text); `text` is its toString()
    | CharSequenceExtra(text: string)
    | BitmapExtra(bitmap: Bitmap, repr: string)
      // a parcelable media-session token
    | TokenExtra(token: nat, repr: string)
    | OtherExtra(repr: string)
    | NullExtra

  type Bundle = map<string, Extra>

  /** `Bundle.getString(key)`: only a String value is returned. */
  function GetString(b: Bundle, key: string): Option<string> {
    if key in b && b[key].StringExtra? then Some(b[key].s) else None
  }

  /** `Bundle.getCharSequence(key)`: a String or any other CharSequence. */
  function GetCharSequence(b: Bundle, key: string): Option<string> {
    if key !in b then None
    else match b[key]
      case StringExtra(s) => Some(s)
      case CharSequenceExtra(t) => Some(t)
      case _ => None
  }

  /** `getParcelable(key, Bitmap::class.java)`. */
  function GetBitmap(b: Bundle, key: string): Option<Bitmap> {
    if key in b && b[key].BitmapExtra? then Some(b[key].bitmap) else None
  }

  /** `getParcelable(key)` for a media-session token. */
  function GetToken(b: Bundle, key: string): Option<nat> {
    if key in b && b[key].TokenExtra? then Some(b[key].token) else None
  }

  /** `extras.get(key).toString()`; a null value prints as "null". */
  function ValueString(e: Extra): string {
    match e
    case StringExtra(s) => s
    case CharSequenceExtra(t) => t
    case BitmapExtra(_, r) => r
    case TokenExtra(_, r) => r
    case OtherExtra(r) => r
    case NullExtra => "null"
  }

  /** `NotificationCompat` person and message. */
  datatype Person = Person(name: Option<string>, icon: Option<Icon>)
  datatype Message = Message(person: Option<Person>, text: Option<string>)

  /** What `NotificationCompat.Style.extractStyleFromNotification` recognised. */
  datatype Style =
    | MessagingStyle(user: Person, conversationTitle: Option<string>, messages: seq<Option<Message>>)
    | BigPictureStyle
    | OtherStyle

  datatype Notification = Notification(
    flags: Int32,
    color: Int32,
    extras: Bundle,
    smallIcon: Option<Icon>,
    largeIcon: Option<Icon>,
    style: Style)

  datatype StatusBarNotification = StatusBarNotification(
    key: string,
    postTime: Int64,
    packageName: string,
    notification: Notification)

  /** An `android.net.Uri`; two URIs are equal when their string forms are. */
  datatype Uri = Uri(text: string)

  const EXTRA_TITLE := "android.title"
  const EXTRA_TEXT := "android.text"
  const EXTRA_PICTURE := "android.picture"

  /** Kotlin's `firstOrNull(predicate)`: the first element satisfying `p`, or null. */
  function FirstOrNull<T>(xs: seq<T>, p: T -> bool): (r: Option<T>)
    ensures r.None? <==> forall i :: 0 <= i < |xs| ==> !p(xs[i])
    ensures r.Some? ==> exists i :: 0 <= i < |xs| && xs[i] == r.value && p(xs[i]) && forall j :: 0 <= j < i ==> !p(xs[j])
  {
    if xs == [] then None
    else if p(xs[0]) then Some(xs[0])
    else
      var rest := FirstOrNull(xs[1..], p);
      assert rest.Some? ==> exists i :: 0 <= i < |xs| && xs[i] == rest.value && p(xs[i]) && forall j :: 0 <= j < i ==> !p(xs[j]) by {
        if rest.Some? {
          var k :| 0 <= k < |xs[1..]| && xs[1..][k] == rest.value && p(xs[1..][k]) && forall j :: 0 <= j < k ==> !p(xs[1..][j]);
          assert xs[k + 1] == rest.value;
        }
      }
      rest
  }

  function DigitChar(d: nat): char
    requires d < 10
  {
    "0123456789"[d]
  }

  /** The decimal form Kotlin's string templates print for an `Int`. */
  function DecimalString(n: int): (s: string)
    ensures |s| > 0
    decreases if n < 0 then -n + 1 else n
  {
    if n < 0 then "-" + DecimalString(-n)
    else if n < 10 then [DigitChar(n)]
    else DecimalString(n / 10) + [DigitChar(n % 10)]
  }

  /** A `java.io.OutputStream`: the bytes written to it so far. */
  class OutputStream {
    var written: Bytes

    constructor ()
      ensures written == []
    {
      written := [];
    }

    method Write(data: Bytes)
      modifies this
      ensures written == old(written) + data
    {
      written := written + data;
    }
  }
}
