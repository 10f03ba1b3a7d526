/** `flagsToString` and `notificationFlagNames` from data/FlagHelpers.kt. */
module FlagHelpers {
  import opened Platform
  import opened Bits

  /** Names of the `Notification.FLAG_*` bits, bit 0 first. */
  const NotificationFlagNames: seq<string> := [
    "FLAG_SHOW_LIGHTS",
    "FLAG_ONGOING_EVENT",
    "FLAG_INSISTENT",
    "FLAG_ONLY_ALERT_ONCE",
    "FLAG_AUTO_CANCEL",
    "FLAG_NO_CLEAR",
    "FLAG_FOREGROUND_SERVICE",
    "FLAG_HIGH_PRIORITY",
    "FLAG_LOCAL_ONLY",
    "FLAG_GROUP_SUMMARY",
    "FLAG_AUTOGROUP_SUMMARY",
    "FLAG_CAN_COLORIZE",
    "FLAG_BUBBLE",
    "FLAG_NO_DISMISS",
    "FLAG_FSI_REQUESTED_BUT_DENIED",
    "FLAG_USER_INITIATED_JOB"
  ]

  const NoneText := "<none>"

  /** Kotlin's `Int.ushr(1)`: the bit pattern shifted right with a zero brought in at the top. */
  function UShr1(x: Int32): (r: Int32)
    ensures x >= 0 ==> r == x / 2
  {
    Unsigned(x) / 2
  }

  /** Kotlin's `1.shl(idx)`: the shift distance is taken modulo 32 and bit 31 is the sign bit. */
  function ShlOne(idx: nat): Int32 {
    var d := idx % 32;
    Pow2Below(d);
    if d == 31 then -0x8000_0000 else Pow2(d)
  }

  /** `flagNames.getOrElse(idx) { "<unknown ${1.shl(idx)}>" }`. */
  function NameAt(idx: nat, flagNames: seq<string>): string {
    if idx < |flagNames| then flagNames[idx] else UnknownName(idx)
  }

  function UnknownName(idx: nat): (s: string)
    ensures s != ""
  {
    "<unknown " + DecimalString(ShlOne(idx)) + ">"
  }

  /** `joinToString(sep)`. */
  function Join(parts: seq<string>, sep: string): string {
    if parts == [] then ""
    else if |parts| == 1 then parts[0]
    else parts[0] + sep + Join(parts[1..], sep)
  }

  /**
   * The entries the loop collects from `remaining` onwards, `idx` being the
   * bit number of `remaining`'s lowest bit. Nothing is collected once
   * `remaining` is not positive.
   */
  function Entries(remaining: int, idx: nat, flagNames: seq<string>): seq<string>
    decreases if remaining <= 0 then 0 else remaining
  {
    if remaining <= 0 then []
    else (if remaining % 2 != 0 then [NameAt(idx, flagNames)] else [])
         + Entries(remaining / 2, idx + 1, flagNames)
  }

  /** What `flagsToString(flags, flagNames)` returns. */
  function FlagsText(flags: Int32, flagNames: seq<string>): string {
    var entries := Entries(flags, 0, flagNames);
    if entries == [] then NoneText else Join(entries, "|")
  }

  /** The bit-by-bit loop of `flagsToString`. */
  method FlagsToString(flags: Int32, flagNames: seq<string>) returns (s: string)
    ensures s == FlagsText(flags, flagNames)
  {
    var flagsRemaining := flags;
    var result: seq<string> := [];
    var idx: nat := 0;
    while flagsRemaining > 0
      invariant result + Entries(flagsRemaining, idx, flagNames) == Entries(flags, 0, flagNames)
      decreases flagsRemaining
    {
      if flagsRemaining % 2 != 0 {
        result := result + [NameAt(idx, flagNames)];
      }
      flagsRemaining := UShr1(flagsRemaining);
      idx := idx + 1;
    }
    assert Entries(flagsRemaining, idx, flagNames) == [];
    assert result == Entries(flags, 0, flagNames);
    s := if result == [] then NoneText else Join(result, "|");
  }

  // ----- A reference definition: the positions of the set bits -----

  /** The positions `i` in `[lo, hi)` with bit `i` of `x` set, in increasing order. */
  function SetBits(x: nat, lo: nat, hi: nat): (ps: seq<nat>)
    decreases hi - lo
  {
    if hi <= lo then []
    else (if Bit(x, lo) then [lo] else []) + SetBits(x, lo + 1, hi)
  }

  /** `SetBits` lists exactly the set bits of the range, each once, in increasing order. */
  lemma {:induction false} SetBitsAreTheSetBits(x: nat, lo: nat, hi: nat)
    ensures forall i :: i in SetBits(x, lo, hi) <==> lo <= i < hi && Bit(x, i)
    ensures forall j, k :: 0 <= j < k < |SetBits(x, lo, hi)| ==> SetBits(x, lo, hi)[j] < SetBits(x, lo, hi)[k]
    decreases hi - lo
  {
    if lo < hi {
      SetBitsAreTheSetBits(x, lo + 1, hi);
      var rest := SetBits(x, lo + 1, hi);
      assert forall k :: 0 <= k < |rest| ==> lo < rest[k] by {
        forall k | 0 <= k < |rest| ensures lo < rest[k] { assert rest[k] in rest; }
      }
    }
  }

  /** The labels the loop prints for bit positions `ps` of a value whose lowest bit is bit `idx`. */
  function Labels(ps: seq<nat>, idx: nat, flagNames: seq<string>): seq<string>
  {
    if ps == [] then [] else [NameAt(idx + ps[0], flagNames)] + Labels(ps[1..], idx, flagNames)
  }

  lemma {:induction false} LabelsAt(ps: seq<nat>, idx: nat, flagNames: seq<string>)
    ensures |Labels(ps, idx, flagNames)| == |ps|
    ensures forall k :: 0 <= k < |ps| ==> Labels(ps, idx, flagNames)[k] == NameAt(idx + ps[k], flagNames)
  {
    if ps != [] {
      LabelsAt(ps[1..], idx, flagNames);
    }
  }

  function Shift1(ps: seq<nat>): seq<nat>
  {
    if ps == [] then [] else [ps[0] + 1] + Shift1(ps[1..])
  }

  lemma {:induction false} Shift1Append(a: seq<nat>, b: seq<nat>)
    ensures Shift1(a + b) == Shift1(a) + Shift1(b)
  {
    if a == [] {
      assert a + b == b;
    } else {
      assert (a + b)[1..] == a[1..] + b;
      Shift1Append(a[1..], b);
      calc {
        Shift1(a + b);
        [a[0] + 1] + Shift1(a[1..] + b);
        [a[0] + 1] + (Shift1(a[1..]) + Shift1(b));
        ([a[0] + 1] + Shift1(a[1..])) + Shift1(b);
      }
    }
  }

  lemma {:induction false} SetBitsOfHalf(x: nat, lo: nat, hi: nat)
    ensures SetBits(x, lo + 1, hi + 1) == Shift1(SetBits(x / 2, lo, hi))
    decreases hi - lo
  {
    if lo < hi {
      SetBitsOfHalf(x, lo + 1, hi);
      assert Bit(x, lo + 1) == Bit(x / 2, lo);
      Shift1Append(if Bit(x / 2, lo) then [lo] else [], SetBits(x / 2, lo + 1, hi));
    }
  }

  lemma {:induction false} LabelsOfShift(ps: seq<nat>, idx: nat, flagNames: seq<string>)
    ensures Labels(Shift1(ps), idx, flagNames) == Labels(ps, idx + 1, flagNames)
  {
    if ps != [] {
      LabelsOfShift(ps[1..], idx, flagNames);
    }
  }

  /** The loop prints one label per set bit of a non-negative value below 2^n, lowest bit first. */
  lemma {:induction false} EntriesFollowSetBits(x: nat, idx: nat, n: nat, flagNames: seq<string>)
    requires x < Pow2(n)
    ensures Entries(x, idx, flagNames) == Labels(SetBits(x, 0, n), idx, flagNames)
  {
    if x == 0 {
      var s := SetBits(0, 0, n);
      SetBitsAreTheSetBits(0, 0, n);
      if s != [] {
        assert s[0] in s;
        NoBitsOfZero(s[0]);
      }
    } else {
      assert n > 0;
      var head: seq<nat> := if Bit(x, 0) then [0] else [];
      var rest := SetBits(x / 2, 0, n - 1);
      EntriesStep(x, idx, flagNames);
      SetBitsStep(x, n);
      SetBitsOfHalf(x, 0, n - 1);
      LabelsAppend(head, Shift1(rest), idx, flagNames);
      LabelsOfShift(rest, idx, flagNames);
      EntriesFollowSetBits(x / 2, idx + 1, n - 1, flagNames);
    }
  }

  lemma EntriesStep(x: nat, idx: nat, flagNames: seq<string>)
    requires x > 0
    ensures Entries(x, idx, flagNames)
         == Labels(if Bit(x, 0) then [0] else [], idx, flagNames) + Entries(x / 2, idx + 1, flagNames)
  {
  }

  lemma SetBitsStep(x: nat, n: nat)
    requires n > 0
    ensures SetBits(x, 0, n) == (if Bit(x, 0) then [0] else []) + SetBits(x, 1, n)
  {
  }

  lemma {:induction false} LabelsAppend(a: seq<nat>, b: seq<nat>, idx: nat, flagNames: seq<string>)
    ensures Labels(a + b, idx, flagNames) == Labels(a, idx, flagNames) + Labels(b, idx, flagNames)
  {
    if a == [] {
      assert a + b == b;
    } else {
      assert (a + b)[1..] == a[1..] + b;
      LabelsAppend(a[1..], b, idx, flagNames);
      var h := [NameAt(idx + a[0], flagNames)];
      calc {
        Labels(a + b, idx, flagNames);
        h + Labels(a[1..] + b, idx, flagNames);
        h + (Labels(a[1..], idx, flagNames) + Labels(b, idx, flagNames));
        (h + Labels(a[1..], idx, flagNames)) + Labels(b, idx, flagNames);
      }
    }
  }

  /**
   * For positive flags the text is one label per set bit, in increasing bit
   * order, joined by "|": bit i is labelled `flagNames[i]`, or
   * "<unknown 2^i>" beyond the end of `flagNames`.
   */
  lemma FlagsTextListsSetBits(flags: Int32, flagNames: seq<string>)
    requires flags > 0
    ensures var ps := SetBits(flags, 0, 31);
      && ps != []
      && (forall i :: i in ps <==> 0 <= i < 31 && Bit(flags, i))
      && FlagsText(flags, flagNames) == Join(Labels(ps, 0, flagNames), "|")
  {
    var ps := SetBits(flags, 0, 31);
    Pow2Below(31);
    EntriesFollowSetBits(flags, 0, 31, flagNames);
    SetBitsAreTheSetBits(flags, 0, 31);
    if ps == [] {
      assert Entries(flags, 0, flagNames) == [];
      PositiveHasEntries(flags, 0, flagNames);
    }
  }

  lemma {:induction false} PositiveHasEntries(x: int, idx: nat, flagNames: seq<string>)
    requires x > 0
    ensures Entries(x, idx, flagNames) != []
    decreases x
  {
    if x % 2 == 0 { PositiveHasEntries(x / 2, idx + 1, flagNames); }
  }

  /** Zero, and every negative value (bit 31 set), prints "<none>": the loop guard is `> 0`. */
  lemma NonPositiveFlagsPrintNone(flags: Int32, flagNames: seq<string>)
    requires flags <= 0
    ensures FlagsText(flags, flagNames) == "<none>"
  {
  }

  lemma {:induction false} JoinNonEmpty(parts: seq<string>, sep: string)
    requires parts != [] && parts[0] != ""
    ensures Join(parts, sep) != ""
  {
  }

  /** The text is never empty as long as no flag name is empty. */
  lemma FlagsTextNonEmpty(flags: Int32, flagNames: seq<string>)
    requires forall i :: 0 <= i < |flagNames| ==> flagNames[i] != ""
    ensures FlagsText(flags, flagNames) != ""
  {
    var entries := Entries(flags, 0, flagNames);
    if entries != [] {
      EntriesNonEmpty(flags, 0, flagNames);
      JoinNonEmpty(entries, "|");
    }
  }

  lemma {:induction false} EntriesNonEmpty(x: int, idx: nat, flagNames: seq<string>)
    requires forall i :: 0 <= i < |flagNames| ==> flagNames[i] != ""
    ensures forall k :: 0 <= k < |Entries(x, idx, flagNames)| ==> Entries(x, idx, flagNames)[k] != ""
    decreases if x <= 0 then 0 else x
  {
    if x > 0 {
      EntriesNonEmpty(x / 2, idx + 1, flagNames);
    }
  }

  lemma {:induction false} EntriesOfPowerOfTwo(k: nat, idx: nat, flagNames: seq<string>)
    ensures Entries(Pow2(k), idx, flagNames) == [NameAt(idx + k, flagNames)]
  {
    if k > 0 {
      EntriesOfPowerOfTwo(k - 1, idx + 1, flagNames);
      assert Pow2(k) / 2 == Pow2(k - 1);
    }
  }

  /** A single flag bit prints exactly its own label. */
  lemma SingleFlagPrintsItsName(k: nat, flagNames: seq<string>)
    requires k < 31
    ensures Pow2(k) < 0x8000_0000
    ensures FlagsText(Pow2(k), flagNames) == NameAt(k, flagNames)
  {
    Pow2Below(k);
    EntriesOfPowerOfTwo(k, 0, flagNames);
  }

  /** FLAG_GROUP_SUMMARY (0x200) prints as its name. */
  lemma GroupSummaryFlagText()
    ensures FlagsText(0x200, NotificationFlagNames) == "FLAG_GROUP_SUMMARY"
  {
    assert Pow2(9) == 0x200;
    SingleFlagPrintsItsName(9, NotificationFlagNames);
  }
}
