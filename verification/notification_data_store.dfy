/**
 * phone data/CurrentNotificationDataStore.kt: the persisted current record,
 * the persisted copy of the current notification's extras, and this file's
 * own copy of the flag printer.
 */
module NotificationDataStore {
  import opened Wrappers
  import opened Platform
  import opened Bits
  import opened Common
  import FlagHelpers

  const FLAGS_KEY := "FLAGS"
  const FLAGS_HEX_KEY := "FLAGS_HEX"

  /** This file's copy of the flag names, bit 0 first. */
  const NotificationFlagNames: seq<string> := [
    "FLAG_SHOW_LIGHTS",
    "FLAG_ONGOING_EVENT",
    "FLAG_INSISTENT",
    "FLAG_ONLY_ALERT_ONCE",
    "FLAG_AUTO_CANCEL",
    "FLAG_NO_CLEAR",
    "FLAG_FOREGROUND_SERVICE",
    "FLAG_HIGH_PRIORITY",
    "FLAG_LOCAL_ONLY",
    "FLAG_GROUP_SUMMARY",
    "FLAG_AUTOGROUP_SUMMARY",
    "FLAG_CAN_COLORIZE",
    "FLAG_BUBBLE",
    "FLAG_NO_DISMISS",
    "FLAG_FSI_REQUESTED_BUT_DENIED",
    "FLAG_USER_INITIATED_JOB"
  ]

  /** The two copies of the name table are the same table. */
  lemma FlagNamesAgree()
    ensures NotificationFlagNames == FlagHelpers.NotificationFlagNames
  {
  }

  // ----- flagsToString (second copy) -----

  /**
   * This file's `flagsToString`: the same loop as in FlagHelpers.kt, proved
   * to print exactly what that copy prints, for every flag word and table.
   */
  method FlagsToString(flags: Int32, flagNames: seq<string>) returns (s: string)
    ensures s == FlagHelpers.FlagsText(flags, flagNames)
  {
    var flagsRemaining := flags;
    var result: seq<string> := [];
    var idx: nat := 0;
    while flagsRemaining > 0
      invariant result + FlagHelpers.Entries(flagsRemaining, idx, flagNames) == FlagHelpers.Entries(flags, 0, flagNames)
      decreases flagsRemaining
    {
      if flagsRemaining % 2 != 0 {
        result := result + [FlagHelpers.NameAt(idx, flagNames)];
      }
      flagsRemaining := FlagHelpers.UShr1(flagsRemaining);
      idx := idx + 1;
    }
    assert FlagHelpers.Entries(flagsRemaining, idx, flagNames) == [];
    assert result == FlagHelpers.Entries(flags, 0, flagNames);
    s := if result == [] then FlagHelpers.NoneText else FlagHelpers.Join(result, "|");
  }

  // ----- Int.toHexString() -----

  function HexChar(d: nat): char
    requires d < 16
  {
    "0123456789abcdef"[d]
  }

  /** The value of a lower-case hex digit. */
  function HexDigitValue(c: char): nat {
    if '0' <= c <= '9' then (c as int - '0' as int) as nat
    else if 'a' <= c <= 'f' then (c as int - 'a' as int + 10) as nat
    else 0
  }

  /** The last `n` hex digits of `u`, most significant first. */
  function HexDigits(u: nat, n: nat): (s: string)
    ensures |s| == n
  {
    if n == 0 then "" else HexDigits(u / 16, n - 1) + [HexChar(u % 16)]
  }

  /** `Int.toHexString()`: eight lower-case digits of the two's-complement pattern. */
  function Hex8(x: Int32): string {
    HexDigits(Unsigned(x), 8)
  }

  /** The number a string of hex digits denotes. */
  function HexValue(s: string): nat {
    if s == [] then 0 else 16 * HexValue(s[..|s| - 1]) + HexDigitValue(s[|s| - 1])
  }

  function Pow16(n: nat): (p: nat)
    ensures p >= 1
  {
    if n == 0 then 1 else 16 * Pow16(n - 1)
  }

  lemma {:induction false} HexDigitsRoundTrip(u: nat, n: nat)
    requires u < Pow16(n)
    ensures HexValue(HexDigits(u, n)) == u
  {
    if n > 0 {
      var s := HexDigits(u, n);
      HexDigitsRoundTrip(u / 16, n - 1);
      assert s[..|s| - 1] == HexDigits(u / 16, n - 1);
      assert HexDigitValue(HexChar(u % 16)) == u % 16;
    }
  }

  /** FLAGS_HEX is eight hex digits that read back as the flags' 32-bit pattern. */
  lemma Hex8RoundTrip(x: Int32)
    ensures |Hex8(x)| == 8
    ensures HexValue(Hex8(x)) == Unsigned(x)
  {
    assert Pow16(8) == 0x1_0000_0000;
    HexDigitsRoundTrip(Unsigned(x), 8);
  }

  // ----- The stores -----

  /** The extras entries `setNotificationExtras` leaves behind. */
  function ExtrasEntries(notification: Option<Notification>): map<string, string> {
    match notification
    case None => map[]
    case Some(n) =>
      (map key | key in n.extras :: ValueString(n.extras[key]))
        [FLAGS_KEY := FlagHelpers.FlagsText(n.flags, NotificationFlagNames)]
        [FLAGS_HEX_KEY := Hex8(n.flags)]
  }

  /**
   * With no notification the map is empty; otherwise its keys are the
   * extras keys plus FLAGS and FLAGS_HEX, those two overriding an extra of
   * the same name, and every other key holds its extra's string form.
   */
  lemma ExtrasEntriesContents(notification: Option<Notification>)
    ensures notification.None? ==> ExtrasEntries(notification) == map[]
    ensures notification.Some? ==>
      var n := notification.value;
      var m := ExtrasEntries(notification);
      && m.Keys == n.extras.Keys + {FLAGS_KEY, FLAGS_HEX_KEY}
      && m[FLAGS_KEY] == FlagHelpers.FlagsText(n.flags, NotificationFlagNames)
      && m[FLAGS_HEX_KEY] == Hex8(n.flags)
      && forall key :: key in n.extras && key != FLAGS_KEY && key != FLAGS_HEX_KEY ==> m[key] == ValueString(n.extras[key])
  {
  }

  /** The two stores behind `CurrentNotificationDataStore`. */
  class CurrentNotificationDataStore {
    /** The file of the record store, written by the record serializer. */
    var infoFile: Bytes
    /** The string preferences of the extras store. */
    var extras: map<string, string>

    constructor ()
      ensures infoFile == [] && extras == map[]
    {
      infoFile := [];
      extras := map[];
    }

    /** `currentNotificationInfo()`: the record store read through the serializer. */
    function CurrentNotificationInfo(codec: InfoCodec): Result<Option<NotificationInfo>, Failure>
      reads this
    {
      ReadFrom(infoFile, codec)
    }

    /** `setNotificationInfo`: replace the stored record (null writes an empty file). */
    method SetNotificationInfo(info: Option<NotificationInfo>, codec: InfoCodec)
      modifies this
      ensures infoFile == ToBytes(info, codec) && extras == old(extras)
      ensures Lawful(codec) ==> CurrentNotificationInfo(codec) == Ok(info)
    {
      var output := new OutputStream();
      WriteTo(info, output, codec);
      infoFile := output.written;
      if Lawful(codec) {
        SerializerRoundTrip(info, codec);
      }
    }

    /** `currentNotificationExtras()`: each preference key's name mapped to its value. */
    function CurrentNotificationExtras(): (m: map<string, string>)
      reads this
      ensures m.Keys == extras.Keys
      ensures forall key :: key in m ==> m[key] == extras[key]
    {
      map key | key in extras :: extras[key]
    }

    /**
     * `setNotificationExtras`: clear, then store every extra's string form,
     * then FLAGS and FLAGS_HEX. The result does not depend on what was there.
     */
    method SetNotificationExtras(notification: Option<Notification>)
      modifies this
      ensures extras == ExtrasEntries(notification) && infoFile == old(infoFile)
    {
      extras := map[];
      if notification.None? {
        return;
      }
      var bundle := notification.value.extras;
      var remaining := bundle.Keys;
      while remaining != {}
        invariant remaining <= bundle.Keys
        invariant infoFile == old(infoFile)
        invariant extras == map key | key in bundle.Keys - remaining :: ValueString(bundle[key])
        decreases remaining
      {
        var key :| key in remaining;
        extras := extras[key := ValueString(bundle[key])];
        remaining := remaining - {key};
      }
      var flagsText := FlagsToString(notification.value.flags, NotificationFlagNames);
      extras := extras[FLAGS_KEY := flagsText];
      extras := extras[FLAGS_HEX_KEY := Hex8(notification.value.flags)];
    }
  }
}
