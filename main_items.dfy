/**
 * Main items (src/main_items.rs): their `PREFIX` constants and the labels their
 * `Display` implementations render from the data bytes.
 */
module MainItems {
  import opened Text
  import opened Macros

  const InputPrefix: bv8 := 0x80
  const OutputPrefix: bv8 := 0x90
  const FeaturePrefix: bv8 := 0xB0
  const CollectionPrefix: bv8 := 0xA0
  const EndCollectionPrefix: bv8 := 0xC0

  const MainPrefixes: seq<bv8> := [InputPrefix, OutputPrefix, FeaturePrefix, CollectionPrefix, EndCollectionPrefix]

  /** The main-item keys are pairwise distinct, of type Main (bits 3-2 are 00) and have size bits 00. */
  lemma MainPrefixesWellFormed()
    ensures forall i, j :: 0 <= i < j < |MainPrefixes| ==> MainPrefixes[i] != MainPrefixes[j]
    ensures forall i :: 0 <= i < |MainPrefixes| ==> MainPrefixes[i] & 0x0F == 0
  {
  }

  /** Names of a flag bit: the first when the bit is clear, the second when it is set. */
  type FlagNames = (string, string)

  /** Bits 0-6 of byte 0, common to Input, Output and Feature. */
  const DataFlags: seq<FlagNames> := [
    ("Data", "Constant"), ("Array", "Variable"), ("Absolute", "Relative"), ("No Wrap", "Wrap"),
    ("Linear", "Non Linear"), ("Preferred State", "No Preferred"), ("No Null Position", "Null State")]

  /** Bit 7 of byte 0 for Output and Feature (Input leaves it reserved). */
  const VolatileFlag: FlagNames := ("Non Volatile", "Volatile")

  /** Bit 0 of byte 1, for every flag kind. */
  const BufferedFlag: FlagNames := ("Bit Field", "Buffered Bytes")

  /** The names that bits 0 .. |names|-1 of `b` select, in bit order. */
  function ByteFlags(b: bv8, names: seq<FlagNames>): seq<string>
    requires |names| <= 8
  {
    seq(|names|, i requires 0 <= i < |names| => MatchesBit(b, i, names[i].0, names[i].1))
  }

  /**
   * Flags of an Input, Output or Feature item: none without data, the bits of
   * byte 0 named by `byte0` with one data byte, and Bit Field / Buffered Bytes
   * from bit 0 of byte 1 appended when there are two or more.
   */
  function MainFlags(data: seq<bv8>, byte0: seq<FlagNames>): seq<string>
    requires |byte0| <= 8
  {
    if |data| == 0 then []
    else if |data| == 1 then ByteFlags(data[0], byte0)
    else ByteFlags(data[0], byte0) + ByteFlags(data[1], [BufferedFlag])
  }

  /** "Name" alone when there are no flags, else "Name (f1, f2, ...)". */
  function FlagLabel(name: string, flags: seq<string>): string
  {
    if flags == [] then name else name + " (" + Join(flags, ", ") + ")"
  }

  const OutputFlags: seq<FlagNames> := DataFlags + [VolatileFlag]

  /** A flag label is the bare name exactly when there are no flags, and otherwise "name (...)". */
  lemma FlagLabelShape(name: string, flags: seq<string>)
    ensures FlagLabel(name, flags) == name <==> flags == []
    ensures flags != [] ==> name + " (" <= FlagLabel(name, flags)
    ensures flags != [] ==> FlagLabel(name, flags)[|FlagLabel(name, flags)| - 1] == ')'
  {
    if flags != [] {
      var text := FlagLabel(name, flags);
      assert text == (name + " ") + ("(" + Join(flags, ", ") + ")");
      assert |text| > |name|;
    }
  }

  /**
   * `Display for Input`: the bare name exactly when there is no data;
   * otherwise "Input (" and, in parentheses, the names of bits 0-6 of byte 0 (bit 7 is reserved) and, with a second byte, of bit 0 of byte 1.
   */
  function InputLabel(data: seq<bv8>): (text: string)
    ensures text == "Input" <==> |data| == 0
    ensures |data| >= 1 ==> text == "Input (" + Join(MainFlags(data, DataFlags), ", ") + ")"
    ensures |MainFlags(data, DataFlags)| == if |data| == 0 then 0 else if |data| == 1 then 7 else 8
    ensures |data| >= 1 ==> forall i :: 0 <= i < |DataFlags| ==>
      (MainFlags(data, DataFlags)[i] == DataFlags[i].0 <==> (data[0] >> i) & 1 == 0)
    ensures |data| >= 2 ==> (MainFlags(data, DataFlags)[|DataFlags|] == "Bit Field" <==> data[1] & 1 == 0)
  {
    FlagLabelShape("Input", MainFlags(data, DataFlags));
    MainFlagsMeaning(data, DataFlags);
    FlagLabel("Input", MainFlags(data, DataFlags))
  }

  /**
   * `Display for Output`: the bare name exactly when there is no data;
   * otherwise "Output (" and, in parentheses, the names of bits 0-7 of byte 0 and, with a second byte, of bit 0 of byte 1.
   */
  function OutputLabel(data: seq<bv8>): (text: string)
    ensures text == "Output" <==> |data| == 0
    ensures |data| >= 1 ==> text == "Output (" + Join(MainFlags(data, OutputFlags), ", ") + ")"
    ensures |MainFlags(data, OutputFlags)| == if |data| == 0 then 0 else if |data| == 1 then 8 else 9
    ensures |data| >= 1 ==> forall i :: 0 <= i < |OutputFlags| ==>
      (MainFlags(data, OutputFlags)[i] == OutputFlags[i].0 <==> (data[0] >> i) & 1 == 0)
    ensures |data| >= 2 ==> (MainFlags(data, OutputFlags)[|OutputFlags|] == "Bit Field" <==> data[1] & 1 == 0)
  {
    FlagLabelShape("Output", MainFlags(data, OutputFlags));
    MainFlagsMeaning(data, OutputFlags);
    FlagLabel("Output", MainFlags(data, OutputFlags))
  }

  /**
   * `Display for Feature`: the bare name exactly when there is no data;
   * otherwise "Feature (" and, in parentheses, the names of bits 0-7 of byte 0 and, with a second byte, of bit 0 of byte 1.
   */
  function FeatureLabel(data: seq<bv8>): (text: string)
    ensures text == "Feature" <==> |data| == 0
    ensures |data| >= 1 ==> text == "Feature (" + Join(MainFlags(data, OutputFlags), ", ") + ")"
    ensures |MainFlags(data, OutputFlags)| == if |data| == 0 then 0 else if |data| == 1 then 8 else 9
    ensures |data| >= 1 ==> forall i :: 0 <= i < |OutputFlags| ==>
      (MainFlags(data, OutputFlags)[i] == OutputFlags[i].0 <==> (data[0] >> i) & 1 == 0)
    ensures |data| >= 2 ==> (MainFlags(data, OutputFlags)[|OutputFlags|] == "Bit Field" <==> data[1] & 1 == 0)
  {
    FlagLabelShape("Feature", MainFlags(data, OutputFlags));
    MainFlagsMeaning(data, OutputFlags);
    FlagLabel("Feature", MainFlags(data, OutputFlags))
  }

  /** Both names of every flag differ, so the name shown tells the bit's value. */
  predicate DistinctNames(names: seq<FlagNames>)
  {
    forall i :: 0 <= i < |names| ==> names[i].0 != names[i].1
  }

  /**
   * The flag list of a main item: its length follows the data length, flag i
   * of byte 0 shows its "clear" name exactly when bit i of byte 0 is 0, and the
   * extra flag shows "Bit Field" exactly when bit 0 of byte 1 is 0.
   */
  lemma MainFlagsMeaning(data: seq<bv8>, byte0: seq<FlagNames>)
    requires |byte0| <= 8 && DistinctNames(byte0) && DistinctNames([BufferedFlag])
    ensures |data| == 0 ==> MainFlags(data, byte0) == []
    ensures |data| == 1 ==> |MainFlags(data, byte0)| == |byte0|
    ensures |data| >= 2 ==> |MainFlags(data, byte0)| == |byte0| + 1
    ensures |data| >= 1 ==> forall i :: 0 <= i < |byte0| ==>
      (MainFlags(data, byte0)[i] == byte0[i].0 <==> (data[0] >> i) & 1 == 0)
    ensures |data| >= 1 ==> forall i :: 0 <= i < |byte0| ==>
      (MainFlags(data, byte0)[i] == byte0[i].1 <==> (data[0] >> i) & 1 == 1)
    ensures |data| >= 2 ==>
      (MainFlags(data, byte0)[|byte0|] == "Bit Field" <==> data[1] & 1 == 0)
  {
    if |data| >= 1 {
      forall i | 0 <= i < |byte0|
        ensures (MainFlags(data, byte0)[i] == byte0[i].0 <==> (data[0] >> i) & 1 == 0)
        ensures (MainFlags(data, byte0)[i] == byte0[i].1 <==> (data[0] >> i) & 1 == 1)
      {
        assert MainFlags(data, byte0)[i] == ByteFlags(data[0], byte0)[i];
        FlagAt(data[0], byte0, i);
      }
    }
    if |data| >= 2 {
      assert MainFlags(data, byte0)[|byte0|] == ByteFlags(data[1], [BufferedFlag])[0];
      FlagAt(data[1], [BufferedFlag], 0);
    }
  }

  /** Flag `i` of a byte names the value of bit `i`, one way or the other. */
  lemma FlagAt(b: bv8, names: seq<FlagNames>, i: nat)
    requires |names| <= 8 && i < |names| && names[i].0 != names[i].1
    ensures ByteFlags(b, names)[i] == names[i].0 <==> (b >> i) & 1 == 0
    ensures ByteFlags(b, names)[i] == names[i].1 <==> (b >> i) & 1 == 1
  {
    BitTest(b, i);
  }

  /** The macro's mask test `field & (1 << pos)` agrees with shifting bit `pos` down. */
  lemma BitTest(b: bv8, pos: nat)
    requires pos < 8
    ensures (b & (1 << pos) == 0) <==> (b >> pos) & 1 == 0
    ensures (b >> pos) & 1 == 0 || (b >> pos) & 1 == 1
  {
  }

  /** Bit 7 of byte 0, which Input leaves reserved, never changes the Input label. */
  lemma InputIgnoresBit7(data: seq<bv8>)
    requires |data| >= 1
    ensures InputLabel(data) == InputLabel([data[0] ^ 0x80] + data[1..])
  {
    var other := [data[0] ^ 0x80] + data[1..];
    assert other[1..] == data[1..];
    forall i | 0 <= i < 7
      ensures ByteFlags(data[0], DataFlags)[i] == ByteFlags(other[0], DataFlags)[i]
    {
      assert data[0] & (1 << i) == other[0] & (1 << i);
    }
    assert ByteFlags(data[0], DataFlags) == ByteFlags(other[0], DataFlags);
    assert MainFlags(data, DataFlags) == MainFlags(other, DataFlags);
  }

  /** Output and Feature do read bit 7: flipping it changes the eighth flag. */
  lemma OutputReadsBit7(data: seq<bv8>)
    requires |data| >= 1
    ensures MainFlags(data, OutputFlags)[7] != MainFlags([data[0] ^ 0x80] + data[1..], OutputFlags)[7]
  {
    var other := [data[0] ^ 0x80] + data[1..];
    assert MainFlags(data, OutputFlags)[7] == MatchesBit(data[0], 7, "Non Volatile", "Volatile");
    assert MainFlags(other, OutputFlags)[7] == MatchesBit(other[0], 7, "Non Volatile", "Volatile");
  }

  /**
   * A single zero data byte selects every "clear" name: the Input of the crate's
   * documentation example, "Input (Data, Array, Absolute, No Wrap, Linear,
   * Preferred State, No Null Position)".
   */
  lemma InputFlagsAllClear()
    ensures MainFlags([0x00], DataFlags)
      == ["Data", "Array", "Absolute", "No Wrap", "Linear", "Preferred State", "No Null Position"]
    ensures InputLabel([0x00]) == "Input (" + Join(MainFlags([0x00], DataFlags), ", ") + ")"
  {
  }

  /** The collection type named by data byte 0. */
  function CollectionTypeName(b: bv8): string
  {
    match b
    case 0 => "Physical"
    case 1 => "Application"
    case 2 => "Logical"
    case 3 => "Report"
    case 4 => "Named Array"
    case 5 => "Usage Switch"
    case 6 => "Usage Modifier"
    case _ => if b <= 0x7F then "Reserved" else "Vendor Defined"
  }

  const CollectionTypes: seq<string> :=
    ["Physical", "Application", "Logical", "Report", "Named Array", "Usage Switch", "Usage Modifier"]

  /**
   * `Display for Collection`: the bare name exactly when there is no data;
   * otherwise the type that byte 0 names, Reserved for 7-0x7F and Vendor
   * Defined for 0x80-0xFF.
   */
  function CollectionLabel(data: seq<bv8>): (text: string)
    ensures text == "Collection" <==> |data| == 0
    ensures |data| >= 1 ==> (text == "Collection (Reserved)" <==> 7 <= data[0] <= 0x7F)
    ensures |data| >= 1 ==> (text == "Collection (Vendor Defined)" <==> 0x80 <= data[0])
    ensures |data| >= 1 && data[0] <= 6 ==> text == "Collection (" + CollectionTypes[data[0] as int] + ")"
  {
    if |data| == 0 then "Collection"
    else
      CollectionText(data[0]);
      CollectionTypeRanges(data[0]);
      "Collection (" + CollectionTypeName(data[0]) + ")"
  }

  /** The collection type named in parentheses: Reserved and Vendor Defined as the ranges split them. */
  lemma CollectionText(b: bv8)
    ensures "Collection (" + CollectionTypeName(b) + ")" == "Collection (Reserved)" <==> 7 <= b <= 0x7F
    ensures "Collection (" + CollectionTypeName(b) + ")" == "Collection (Vendor Defined)" <==> 0x80 <= b
  {
    NamedLabel("Collection (", CollectionTypeName(b), "Reserved", "Collection (Reserved)");
    NamedLabel("Collection (", CollectionTypeName(b), "Vendor Defined", "Collection (Vendor Defined)");
    CollectionTypeRanges(b);
  }

  /**
   * The collection type is total over byte 0 in three disjoint ranges: 0-6 name
   * the seven defined types, 7-0x7F are Reserved and 0x80-0xFF Vendor Defined.
   */
  lemma CollectionTypeRanges(b: bv8)
    ensures b <= 6 ==> CollectionTypeName(b) == CollectionTypes[b as int]
    ensures CollectionTypeName(b) == "Reserved" <==> 7 <= b <= 0x7F
    ensures CollectionTypeName(b) == "Vendor Defined" <==> 0x80 <= b
    ensures CollectionTypeName(b) in CollectionTypes <==> b <= 6
  {
  }

  /** `Display for EndCollection` ignores the data. */
  function EndCollectionLabel(data: seq<bv8>): (text: string)
    ensures text == "End Collection"
  {
    "End Collection"
  }
}
