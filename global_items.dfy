/**
 * Global items (src/global_items.rs): their `PREFIX` constants and the labels
 * their `Display` implementations render from the data bytes.
 */
module GlobalItems {
  import opened Bytes
  import opened Text
  import opened Privates

  const UsagePagePrefix: bv8 := 0x04
  const LogicalMinimumPrefix: bv8 := 0x14
  const LogicalMaximumPrefix: bv8 := 0x24
  const PhysicalMinimumPrefix: bv8 := 0x34
  const PhysicalMaximumPrefix: bv8 := 0x44
  const UnitExponentPrefix: bv8 := 0x54
  const UnitPrefix: bv8 := 0x64
  const ReportSizePrefix: bv8 := 0x74
  const ReportIdPrefix: bv8 := 0x84
  const ReportCountPrefix: bv8 := 0x94
  const PushPrefix: bv8 := 0xA4
  const PopPrefix: bv8 := 0xB4

  const GlobalPrefixes: seq<bv8> := [
    UsagePagePrefix, LogicalMinimumPrefix, LogicalMaximumPrefix, PhysicalMinimumPrefix,
    PhysicalMaximumPrefix, UnitExponentPrefix, UnitPrefix, ReportSizePrefix, ReportIdPrefix,
    ReportCountPrefix, PushPrefix, PopPrefix]

  /**
   * The twelve global keys are the tags 0 to 11 in bits 7-4, of type Global
   * (bits 3-2 are 01) with size bits 00, hence pairwise distinct.
   */
  lemma GlobalPrefixesWellFormed()
    ensures |GlobalPrefixes| == 12
    ensures forall i :: 0 <= i < |GlobalPrefixes| ==> GlobalPrefixes[i] & 0x0F == 0x04
    ensures forall i :: 0 <= i < |GlobalPrefixes| ==> (GlobalPrefixes[i] >> 4) as int == i
    ensures forall i, j :: 0 <= i < j < |GlobalPrefixes| ==> GlobalPrefixes[i] != GlobalPrefixes[j]
  {
  }

  // ---------------------------------------------------------------- numbers

  /** "Name" alone without data, else "Name (value)" with the value in decimal. */
  function ValueLabel(name: string, data: seq<bv8>, value: int): string
  {
    if |data| == 0 then name else name + " (" + IntToDecimal(value) + ")"
  }

  /**
   * Logical/Physical Minimum/Maximum show the data as a signed integer: the
   * bare name without data, otherwise a label that reads back as `__data_to_signed`.
   */
  function SignedLabel(name: string, data: seq<bv8>): (text: string)
    ensures |data| == 0 ==> text == name
    ensures |data| >= 1 ==> LabelValue(name, text) == Some(DataToSigned(data))
  {
    ValueLabelRoundTrip(name, data, DataToSigned(data));
    ValueLabel(name, data, DataToSigned(data))
  }

  /**
   * Report Size, Report ID and Report Count show the data as an unsigned
   * integer: the bare name without data, otherwise a label that reads back as
   * `__data_to_unsigned`.
   */
  function UnsignedLabel(name: string, data: seq<bv8>): (text: string)
    ensures |data| == 0 ==> text == name
    ensures |data| >= 1 ==> LabelValue(name, text) == Some(DataToUnsigned(data))
  {
    ValueLabelRoundTrip(name, data, DataToUnsigned(data));
    ValueLabel(name, data, DataToUnsigned(data))
  }

  function LogicalMinimumLabel(data: seq<bv8>): (text: string)
    ensures |data| == 0 ==> text == "Logical Minimum"
    ensures |data| >= 1 ==> LabelValue("Logical Minimum", text) == Some(DataToSigned(data))
  {
    SignedLabel("Logical Minimum", data)
  }

  function LogicalMaximumLabel(data: seq<bv8>): (text: string)
    ensures |data| == 0 ==> text == "Logical Maximum"
    ensures |data| >= 1 ==> LabelValue("Logical Maximum", text) == Some(DataToSigned(data))
  {
    SignedLabel("Logical Maximum", data)
  }

  function PhysicalMinimumLabel(data: seq<bv8>): (text: string)
    ensures |data| == 0 ==> text == "Physical Minimum"
    ensures |data| >= 1 ==> LabelValue("Physical Minimum", text) == Some(DataToSigned(data))
  {
    SignedLabel("Physical Minimum", data)
  }

  function PhysicalMaximumLabel(data: seq<bv8>): (text: string)
    ensures |data| == 0 ==> text == "Physical Maximum"
    ensures |data| >= 1 ==> LabelValue("Physical Maximum", text) == Some(DataToSigned(data))
  {
    SignedLabel("Physical Maximum", data)
  }

  function ReportSizeLabel(data: seq<bv8>): (text: string)
    ensures |data| == 0 ==> text == "Report Size"
    ensures |data| >= 1 ==> LabelValue("Report Size", text) == Some(DataToUnsigned(data))
  {
    UnsignedLabel("Report Size", data)
  }

  function ReportIdLabel(data: seq<bv8>): (text: string)
    ensures |data| == 0 ==> text == "Report ID"
    ensures |data| >= 1 ==> LabelValue("Report ID", text) == Some(DataToUnsigned(data))
  {
    UnsignedLabel("Report ID", data)
  }

  function ReportCountLabel(data: seq<bv8>): (text: string)
    ensures |data| == 0 ==> text == "Report Count"
    ensures |data| >= 1 ==> LabelValue("Report Count", text) == Some(DataToUnsigned(data))
  {
    UnsignedLabel("Report Count", data)
  }

  /** A decimal numeral as `{}` prints an integer: digits, optionally after one minus sign. */
  predicate IsNumeral(s: string)
  {
    (|s| >= 1 && s[0] == '-' && IsDigits(s[1..])) || IsDigits(s)
  }

  /**
   * Reference reading of a label "name (numeral)": the value of the numeral,
   * or None when the text does not have that shape.
   */
  function LabelValue(name: string, text: string): Option<int>
  {
    if |text| >= |name| + 3 && text[..|name| + 2] == name + " (" && text[|text| - 1] == ')'
       && IsNumeral(text[|name| + 2..|text| - 1])
    then Some(DecimalValue(text[|name| + 2..|text| - 1]))
    else None
  }

  /**
   * A value label is the bare name exactly when there is no data; otherwise it
   * reads back as the value it was rendered from.
   */
  lemma ValueLabelRoundTrip(name: string, data: seq<bv8>, value: int)
    ensures |data| == 0 ==> ValueLabel(name, data, value) == name
    ensures |data| >= 1 ==> LabelValue(name, ValueLabel(name, data, value)) == Some(value)
  {
    if |data| >= 1 {
      var digits := IntToDecimal(value);
      var text := name + " (" + digits + ")";
      IntToDecimalRoundTrip(value);
      assert text[..|name| + 2] == name + " (";
      assert text[|name| + 2..|text| - 1] == digits;
    }
  }

  /** The two-byte Logical Maximum 0x023C of the crate's documentation reads back as 572. */
  lemma LogicalMaximumExample()
    ensures DataToSigned([0x3C, 0x02]) == 572
    ensures LabelValue("Logical Maximum", LogicalMaximumLabel([0x3C, 0x02])) == Some(572)
  {
  }

  /** One byte 0xFF is -1 as a Logical Minimum but 255 as a Report Count. */
  lemma SignednessExample()
    ensures LabelValue("Logical Minimum", LogicalMinimumLabel([0xFF])) == Some(-1)
    ensures LabelValue("Report Count", ReportCountLabel([0xFF])) == Some(255)
  {
  }

  // ---------------------------------------------------------------- usage page

  /** The usage-page name chosen by the data's unsigned value. */
  function UsagePageName(v: nat): string
  {
    match v
    case 0x00 => "Undefined"
    case 0x01 => "Generic Desktop"
    case 0x02 => "Simulation Controls"
    case 0x03 => "VR Controls"
    case 0x04 => "Sport Controls"
    case 0x05 => "Game Controls"
    case 0x06 => "Generic Device Controls"
    case 0x07 => "Keyboard/Keypad"
    case 0x08 => "LED"
    case 0x09 => "Button"
    case 0x0A => "Ordinal"
    case 0x0B => "Telephony Device"
    case 0x0C => "Consumer"
    case 0x0D => "Digitizers"
    case 0x0E => "Haptics"
    case 0x0F => "Physical Input Device"
    case 0x10 => "Unicode"
    case 0x11 => "SoC"
    case 0x12 => "Eye and Head Trackers"
    case 0x14 => "Auxiliary Display"
    case 0x20 => "Sensors"
    case 0x40 => "Medical Instrument"
    case 0x41 => "Braille Display"
    case 0x59 => "Lighting And Illumination"
    case 0x80 => "Monitor"
    case 0x81 => "Monitor Enumerated"
    case 0x82 => "VESA Virtual Controls"
    case 0x84 => "Power"
    case 0x85 => "Battery System"
    case 0x8C => "Bar Code Scanner"
    case 0x8D => "Scale"
    case 0x8E => "Magnetic Stripe Reading"
    case 0x90 => "Camera Control"
    case 0x91 => "Arcade"
    case 0x92 => "Gaming Device"
    case 0xF1D0 => "FIDO Alliance"
    case _ => if 0xFF00 <= v <= 0xFFFF then "Vendor Defined" else "Reserved"
  }

  /** The page values that have a name of their own. */
  const NamedPages: set<nat> := {
    0x00, 0x01, 0x02, 0x03, 0x04, 0x05, 0x06, 0x07, 0x08, 0x09, 0x0A, 0x0B, 0x0C, 0x0D, 0x0E, 0x0F,
    0x10, 0x11, 0x12, 0x14, 0x20, 0x40, 0x41, 0x59, 0x80, 0x81, 0x82, 0x84, 0x85, 0x8C, 0x8D, 0x8E,
    0x90, 0x91, 0x92, 0xF1D0}

  /**
   * The usage-page table is total and splits the values three ways: the named
   * pages, 0xFF00-0xFFFF Vendor Defined, and everything else Reserved (in
   * particular every value above 0xFFFF that a four-byte item can carry).
   */
  lemma UsagePageNameRanges(v: nat)
    ensures UsagePageName(v) == "Vendor Defined" <==> 0xFF00 <= v <= 0xFFFF
    ensures UsagePageName(v) == "Reserved" <==> v !in NamedPages && !(0xFF00 <= v <= 0xFFFF)
    ensures v > 0xFFFF && v != 0xF1D0 ==> UsagePageName(v) == "Reserved"
  {
  }

  /**
   * `Display for UsagePage`: the bare name exactly when there is no data;
   * otherwise the page of the unsigned value, Vendor Defined exactly for
   * 0xFF00-0xFFFF and Reserved for every value without a name.
   */
  function UsagePageLabel(data: seq<bv8>): (text: string)
    ensures text == "Usage Page" <==> |data| == 0
    ensures |data| >= 1 ==>
      (text == "Usage Page (Vendor Defined)" <==> 0xFF00 <= DataToUnsigned(data) <= 0xFFFF)
    ensures |data| >= 1 ==> (text == "Usage Page (Reserved)" <==>
      DataToUnsigned(data) !in NamedPages && !(0xFF00 <= DataToUnsigned(data) <= 0xFFFF))
    ensures |data| >= 1 ==> text == "Usage Page (" + UsagePageName(DataToUnsigned(data)) + ")"
  {
    if |data| == 0 then "Usage Page"
    else
      PageText(DataToUnsigned(data));
      "Usage Page (" + UsagePageName(DataToUnsigned(data)) + ")"
  }

  /** The page named in parentheses: Vendor Defined and Reserved as the table splits them. */
  lemma PageText(v: nat)
    ensures "Usage Page (" + UsagePageName(v) + ")" == "Usage Page (Vendor Defined)" <==> 0xFF00 <= v <= 0xFFFF
    ensures "Usage Page (" + UsagePageName(v) + ")" == "Usage Page (Reserved)" <==>
      v !in NamedPages && !(0xFF00 <= v <= 0xFFFF)
  {
    NamedLabel("Usage Page (", UsagePageName(v), "Vendor Defined", "Usage Page (Vendor Defined)");
    NamedLabel("Usage Page (", UsagePageName(v), "Reserved", "Usage Page (Reserved)");
    UsagePageNameRanges(v);
  }

  /** A one-byte Usage Page of 0x0C names the Consumer page. */
  lemma UsagePageConsumerExample()
    ensures UsagePageLabel([0x0C]) == "Usage Page (Consumer)"
  {
    assert DataToUnsigned([0x0C]) == 0x0C by {
      assert [0x0C][..DecodedWidth(1)] == [0x0C];
      LittleEndianShort([0x0C]);
    }
  }

  /**
   * The page name depends only on the bytes the decoder reads: a three-byte
   * payload names the same page as its first two bytes.
   */
  lemma UsagePageThreeBytes(data: seq<bv8>)
    requires |data| == 3
    ensures UsagePageLabel(data) == UsagePageLabel(data[..2])
  {
    assert data[..2][..2] == data[..2];
  }

  // ---------------------------------------------------------------- unit exponent

  /** The 4-bit two's-complement value of a nibble: 0x0-0x7 as is, 0x8-0xF as -8 to -1. */
  function NibbleExponent(n: nat): (e: int)
    requires n < 16
    ensures -8 <= e <= 7 && (e == n || e == n - 16)
  {
    if n < 8 then n else n - 16
  }

  /**
   * `Display for UnitExponent`: a number exactly when there is data whose
   * unsigned value is below 16, and that number is the value's 4-bit two's
   * complement; any other value, and no data, give the bare name.
   */
  function UnitExponentLabel(data: seq<bv8>): (text: string)
    ensures |data| >= 1 && DataToUnsigned(data) < 16 ==>
      text == "Unit Exponent " + IntToDecimal(NibbleExponent(DataToUnsigned(data)))
    ensures text == "Unit Exponent" <==> |data| == 0 || DataToUnsigned(data) >= 16
  {
    assert Radix(1) == 0x100 && Radix(2) == 0x1_0000 && Radix(4) == 0x1_0000_0000;
    if |data| == 0 then "Unit Exponent"
    else
      assert DecodedWidth(|data|) >= 1;
      var exp := DataToSigned(data);
      if 0 <= exp <= 7 then "Unit Exponent " + IntToDecimal(exp)
      else if 8 <= exp <= 15 then "Unit Exponent " + IntToDecimal(exp - 16)
      else "Unit Exponent"
  }

  // ---------------------------------------------------------------- unit

  /** The seven unit nibbles in order: nibble k is the low (k even) or high half of byte k / 2. */
  const Dimensions: seq<string> :=
    ["System", "Length", "Mass", "Time", "Temperature", "Current", "Luminous Intensity"]

  /** Names of codes 1-4 per nibble. */
  const UnitNames: seq<seq<string>> := [
    ["SI Linear", "SI Rotation", "English Linear", "English Rotation"],
    ["Centimeter", "Radians", "Inch", "Degrees"],
    ["Gram", "Gram", "Slug", "Slug"],
    ["Seconds", "Seconds", "Seconds", "Seconds"],
    ["Kelvin", "Kelvin", "Fahrenheit", "Fahrenheit"],
    ["Ampere", "Ampere", "Ampere", "Ampere"],
    ["Candela", "Candela", "Candela", "Candela"]]

  /** How many nibbles the data holds: two per byte, at most seven. */
  function NibbleCount(data: seq<bv8>): nat
  {
    if |data| >= 4 then 7 else 2 * |data|
  }

  function Nibble(data: seq<bv8>, k: nat): bv8
    requires k < NibbleCount(data)
  {
    if k % 2 == 0 then data[k / 2] & 0x0F else (data[k / 2] & 0xF0) >> 4
  }

  /** "Dimension: Name" for a non-zero code: 1-4 from the table, 5-0xE Reserved, 0xF Vendor Defined. */
  function UnitToken(k: nat, code: bv8): string
    requires k < 7 && 1 <= code < 16
  {
    Dimensions[k] + ": "
      + if code <= 4 then UnitNames[k][code as int - 1] else if code <= 0x0E then "Reserved" else "Vendor Defined"
  }

  /** The token every nibble from `k` on would push, as written: a zero nibble is `unreachable!()`. */
  function UnitTokensAsWrittenFrom(data: seq<bv8>, k: nat): Option<seq<string>>
    requires k <= NibbleCount(data)
    decreases NibbleCount(data) - k
  {
    if k == NibbleCount(data) then Some([])
    else if Nibble(data, k) == 0 then None
    else match UnitTokensAsWrittenFrom(data, k + 1)
      case None => None
      case Some(rest) => Some([UnitToken(k, Nibble(data, k))] + rest)
  }

  /** The unit tokens as the source computes them; None where it panics. */
  function UnitTokensAsWritten(data: seq<bv8>): Option<seq<string>>
  {
    UnitTokensAsWrittenFrom(data, 0)
  }

  /** The tokens of the non-zero nibbles from `k` on; a zero nibble means "None" and adds nothing. */
  function UnitTokensFrom(data: seq<bv8>, k: nat): seq<string>
    requires k <= NibbleCount(data)
    decreases NibbleCount(data) - k
  {
    if k == NibbleCount(data) then []
    else if Nibble(data, k) == 0 then UnitTokensFrom(data, k + 1)
    else [UnitToken(k, Nibble(data, k))] + UnitTokensFrom(data, k + 1)
  }

  function UnitTokens(data: seq<bv8>): seq<string>
  {
    UnitTokensFrom(data, 0)
  }

  /** Every nibble of the data from `k` on is non-zero. */
  predicate NoZeroNibbleFrom(data: seq<bv8>, k: nat)
  {
    forall j :: k <= j < NibbleCount(data) ==> Nibble(data, j) != 0
  }

  /**
   * The source panics exactly when some present nibble is zero, and otherwise
   * renders the same tokens as the corrected reading.
   */
  lemma {:induction false} UnitAsWrittenAgrees(data: seq<bv8>, k: nat)
    requires k <= NibbleCount(data)
    ensures UnitTokensAsWrittenFrom(data, k).None? <==> !NoZeroNibbleFrom(data, k)
    ensures NoZeroNibbleFrom(data, k) ==> UnitTokensAsWrittenFrom(data, k) == Some(UnitTokensFrom(data, k))
    decreases NibbleCount(data) - k
  {
    if k < NibbleCount(data) {
      UnitAsWrittenAgrees(data, k + 1);
      if Nibble(data, k) != 0 {
        assert NoZeroNibbleFrom(data, k) <==> NoZeroNibbleFrom(data, k + 1);
      }
    }
  }

  /**
   * Each present nibble contributes at most one token, in nibble order: there
   * are never more tokens than nibbles, and there are none exactly when every
   * present nibble is zero.
   */
  lemma {:induction false} UnitTokensCount(data: seq<bv8>, k: nat)
    requires k <= NibbleCount(data)
    ensures |UnitTokensFrom(data, k)| <= NibbleCount(data) - k
    ensures UnitTokensFrom(data, k) == [] <==> forall j :: k <= j < NibbleCount(data) ==> Nibble(data, j) == 0
    ensures k < NibbleCount(data) && Nibble(data, k) != 0 ==>
      UnitTokensFrom(data, k)[0] == UnitToken(k, Nibble(data, k))
    decreases NibbleCount(data) - k
  {
    if k < NibbleCount(data) {
      UnitTokensCount(data, k + 1);
    }
  }

  /**
   * One byte 0x01 (SI Linear, no length) is the smallest input that reaches
   * `unreachable!()`; the corrected reading shows just the system.
   */
  lemma UnitZeroNibbleExample()
    ensures UnitTokensAsWritten([0x01]) == None
    ensures UnitTokens([0x01]) == ["System: SI Linear"]
  {
    assert Nibble([0x01], 0) == 1;
    assert Nibble([0x01], 1) == 0;
    assert UnitTokensFrom([0x01], 1) == [];
    assert UnitToken(0, 1) == "System: SI Linear";
  }

  /** "Unit" when there are no tokens, else "Unit(t1, t2, ...)". */
  function UnitLabelOf(tokens: seq<string>): string
  {
    if tokens == [] then "Unit" else "Unit(" + Join(tokens, ", ") + ")"
  }

  /** The Unit label as written: None where the source panics. */
  function UnitLabelAsWritten(data: seq<bv8>): Option<string>
  {
    match UnitTokensAsWritten(data)
    case None => None
    case Some(tokens) => Some(UnitLabelOf(tokens))
  }

  /**
   * The corrected Unit label, which the rest of the model uses: bare "Unit"
   * exactly when no present nibble is set, and the label the source renders
   * wherever the source does not panic.
   */
  function UnitLabel(data: seq<bv8>): (text: string)
    ensures text == "Unit" <==> forall j :: 0 <= j < NibbleCount(data) ==> Nibble(data, j) == 0
    ensures UnitLabelAsWritten(data).Some? ==> UnitLabelAsWritten(data) == Some(text)
  {
    UnitTokensCount(data, 0);
    UnitAsWrittenAgrees(data, 0);
    assert UnitTokens(data) != [] ==> |UnitLabelOf(UnitTokens(data))| > |"Unit"|;
    UnitLabelOf(UnitTokens(data))
  }

  /**
   * `Unit::fmt` after its first `k` matches: every nibble so far was non-zero and
   * `units`, followed by the tokens still to come, is the whole token list.
   */
  predicate Pushed(data: seq<bv8>, k: nat, units: seq<string>)
  {
    && k <= NibbleCount(data)
    && units + UnitTokensFrom(data, k) == UnitTokens(data)
    && forall j :: 0 <= j < k ==> Nibble(data, j) != 0
  }

  /**
   * One `match` of `Unit::fmt`: pushes the token of nibble `k`, or stops where
   * the source reaches `unreachable!()` (a zero nibble), which makes the whole
   * label a panic.
   */
  method PushUnit(data: seq<bv8>, k: nat, units: seq<string>) returns (ok: bool, pushed: seq<string>)
    requires k < NibbleCount(data) && Pushed(data, k, units)
    ensures ok <==> Nibble(data, k) != 0
    ensures ok ==> Pushed(data, k + 1, pushed)
    ensures !ok ==> UnitLabelAsWritten(data) == None
  {
    var code := Nibble(data, k);
    if code == 0 {
      UnitAsWrittenAgrees(data, 0);
      return false, units;
    }
    pushed := units + [UnitToken(k, code)];
    assert UnitTokensFrom(data, k) == [UnitToken(k, code)] + UnitTokensFrom(data, k + 1);
    ok := true;
  }

  /**
   * The `if let` block of `Unit::fmt` for byte `b`: pushes its low nibble and,
   * except for the fourth byte, its high nibble.
   */
  method PushByte(data: seq<bv8>, b: nat, units: seq<string>) returns (ok: bool, pushed: seq<string>)
    requires b < |data| && b < 4 && Pushed(data, 2 * b, units)
    ensures ok ==> Pushed(data, NibbleCount(data[..b + 1]), pushed)
    ensures !ok ==> UnitLabelAsWritten(data) == None
  {
    ok, pushed := PushUnit(data, 2 * b, units);
    if ok && b < 3 {
      ok, pushed := PushUnit(data, 2 * b + 1, pushed);
    }
  }

  /** Once every present nibble is pushed, the source renders the corrected label. */
  lemma UnitPushedAll(data: seq<bv8>, units: seq<string>)
    requires Pushed(data, NibbleCount(data), units)
    ensures UnitLabelAsWritten(data) == Some(UnitLabelOf(units))
    ensures units == UnitTokens(data)
  {
    UnitAsWrittenAgrees(data, 0);
    assert NoZeroNibbleFrom(data, 0);
    assert UnitTokensFrom(data, NibbleCount(data)) == [];
    assert units + [] == units;
    assert UnitTokensAsWritten(data) == Some(UnitTokens(data));
  }

  /**
   * `Unit::fmt`: pushes the tokens of the present bytes one nibble at a time
   * (system, length, mass, time, temperature, current, luminous intensity) and
   * renders them; None where the source panics.
   */
  method UnitFmt(data: seq<bv8>) returns (text: Option<string>)
    ensures text == UnitLabelAsWritten(data)
  {
    var units: seq<string> := [];
    var ok := true;
    if |data| >= 1 {
      ok, units := PushByte(data, 0, units);
    }
    if ok && |data| >= 2 {
      ok, units := PushByte(data, 1, units);
    }
    if ok && |data| >= 3 {
      ok, units := PushByte(data, 2, units);
    }
    if ok && |data| >= 4 {
      ok, units := PushByte(data, 3, units);
    }
    if !ok {
      return None;
    }
    UnitPushedAll(data, units);
    return Some(UnitLabelOf(units));
  }

  // ---------------------------------------------------------------- push and pop

  /** `Display for Push` ignores the data. */
  function PushLabel(data: seq<bv8>): (text: string)
    ensures text == "Push"
  {
    "Push"
  }

  /** `Display for Pop` ignores the data. */
  function PopLabel(data: seq<bv8>): (text: string)
    ensures text == "Pop"
  {
    "Pop"
  }
}
