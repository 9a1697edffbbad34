/**
 * The `ReportItem` enumeration of src/lib.rs: one variant per item kind, each
 * wrapping that kind's five-byte storage, plus the `Reserved` fallback. The
 * three usage kinds also carry the usage page the parser attached to them.
 */
module ReportItems {
  import opened Bytes
  import opened Errors
  import opened Privates
  import opened Macros
  import opened ReservedItems
  import opened MainItems
  import opened GlobalItems
  import opened LocalItems

  /** The variants of the enumeration. */
  datatype Kind =
    | Input
    | Output
    | Feature
    | Collection
    | EndCollection
    | UsagePage
    | LogicalMinimum
    | LogicalMaximum
    | PhysicalMinimum
    | PhysicalMaximum
    | UnitExponent
    | Unit
    | ReportSize
    | ReportId
    | ReportCount
    | Push
    | Pop
    | Usage
    | UsageMinimum
    | UsageMaximum
    | DesignatorIndex
    | DesignatorMinimum
    | DesignatorMaximum
    | StringIndex
    | StringMinimum
    | StringMaximum
    | Delimiter
    | Reserved
  {
    /** The kinds that take a usage page from a preceding Usage Page item. */
    predicate IsUsageKind()
    {
      Usage? || UsageMinimum? || UsageMaximum?
    }

    /** The local kinds, whose structs and labels live in src/local_items.rs. */
    predicate IsLocal()
    {
      Usage? || UsageMinimum? || UsageMaximum? || DesignatorIndex? || DesignatorMinimum?
        || DesignatorMaximum? || StringIndex? || StringMinimum? || StringMaximum? || Delimiter?
    }
  }

  /**
   * A report item: its variant and the five-byte storage of the item struct the
   * variant wraps. Only the usage kinds hold a page (the storage of a Usage Page
   * item); every other kind keeps `page == None`.
   */
  datatype ReportItem = ReportItem(kind: Kind, inner: Storage, page: Option<Storage>)
  {
    predicate IsUsageKind()
    {
      kind.IsUsageKind()
    }
  }

  /** Every known kind's `PREFIX`, in the order of the enumeration. */
  const ItemPrefixes: seq<bv8> := MainPrefixes + GlobalPrefixes + LocalPrefixes

  /** The same prefixes as a set: the keys `new` recognises. */
  const KnownKeys: set<bv8> := {
    InputPrefix, OutputPrefix, FeaturePrefix, CollectionPrefix, EndCollectionPrefix,
    UsagePagePrefix, LogicalMinimumPrefix, LogicalMaximumPrefix, PhysicalMinimumPrefix,
    PhysicalMaximumPrefix, UnitExponentPrefix, UnitPrefix, ReportSizePrefix, ReportIdPrefix,
    ReportCountPrefix, PushPrefix, PopPrefix,
    UsagePrefix, UsageMinimumPrefix, UsageMaximumPrefix, DesignatorIndexPrefix,
    DesignatorMinimumPrefix, DesignatorMaximumPrefix, StringIndexPrefix, StringMinimumPrefix,
    StringMaximumPrefix, DelimiterPrefix}

  /** Where each group of keys sits in `ItemPrefixes`. */
  lemma ItemPrefixGroups()
    ensures |ItemPrefixes| == 27
    ensures forall i :: 0 <= i < 5 ==> ItemPrefixes[i] == MainPrefixes[i]
    ensures forall i :: 5 <= i < 17 ==> ItemPrefixes[i] == GlobalPrefixes[i - 5]
    ensures forall i :: 17 <= i < 27 ==> ItemPrefixes[i] == LocalPrefixes[i - 17]
  {
  }

  /** The 27 known prefixes are pairwise distinct, all have size bits 00, and are exactly the known keys. */
  lemma ItemPrefixesDistinct()
    ensures |ItemPrefixes| == 27
    ensures forall k :: k in KnownKeys <==> k in ItemPrefixes
    ensures forall i :: 0 <= i < |ItemPrefixes| ==> ItemPrefixes[i] & 3 == 0
    ensures forall i, j :: 0 <= i < j < |ItemPrefixes| ==> ItemPrefixes[i] != ItemPrefixes[j]
  {
    ItemPrefixGroups();
    KnownKeysListed();
    forall i | 0 <= i < 27
      ensures ItemPrefixes[i] & 3 == 0
    {
      PrefixTypeBits(i);
    }
    forall i, j | 0 <= i < j < 27
      ensures ItemPrefixes[i] != ItemPrefixes[j]
    {
      PrefixTypeBits(i);
      PrefixTypeBits(j);
      if j < 5 {
        MainPrefixesWellFormed();
      } else if 5 <= i && j < 17 {
        GlobalPrefixesWellFormed();
      } else if 17 <= i {
        LocalPrefixesWellFormed();
      }
    }
  }

  /** The known keys are the listed prefixes. */
  lemma KnownKeysListed()
    ensures forall k :: k in KnownKeys <==> k in ItemPrefixes
  {
    assert ItemPrefixes == [
      InputPrefix, OutputPrefix, FeaturePrefix, CollectionPrefix, EndCollectionPrefix,
      UsagePagePrefix, LogicalMinimumPrefix, LogicalMaximumPrefix, PhysicalMinimumPrefix,
      PhysicalMaximumPrefix, UnitExponentPrefix, UnitPrefix, ReportSizePrefix, ReportIdPrefix,
      ReportCountPrefix, PushPrefix, PopPrefix,
      UsagePrefix, UsageMinimumPrefix, UsageMaximumPrefix, DesignatorIndexPrefix,
      DesignatorMinimumPrefix, DesignatorMaximumPrefix, StringIndexPrefix, StringMinimumPrefix,
      StringMaximumPrefix, DelimiterPrefix];
  }

  /**
   * The low nibble of each prefix: type bits 00 (Main), 01 (Global) or 10
   * (Local) by group, and size bits 00.
   */
  lemma PrefixTypeBits(i: nat)
    requires i < 27
    ensures ItemPrefixes[i] & 3 == 0
    ensures i < 5 ==> ItemPrefixes[i] & 0x0C == 0
    ensures 5 <= i < 17 ==> ItemPrefixes[i] & 0x0C == 0x04
    ensures 17 <= i ==> ItemPrefixes[i] & 0x0C == 0x08
  {
    ItemPrefixGroups();
    if i < 5 {
      MainPrefixesWellFormed();
      assert MainPrefixes[i] & 0x0F == 0x00;
    } else if i < 17 {
      GlobalPrefixesWellFormed();
      assert GlobalPrefixes[i - 5] & 0x0F == 0x04;
    } else {
      LocalPrefixesWellFormed();
      assert LocalPrefixes[i - 17] & 0x0F == 0x08;
    }
  }

  /** The `PREFIX` of a known kind; for `Reserved`, the tag and type bits it holds. */
  function Key(item: ReportItem): bv8
  {
    match item.kind
    case Input => InputPrefix
    case Output => OutputPrefix
    case Feature => FeaturePrefix
    case Collection => CollectionPrefix
    case EndCollection => EndCollectionPrefix
    case UsagePage => UsagePagePrefix
    case LogicalMinimum => LogicalMinimumPrefix
    case LogicalMaximum => LogicalMaximumPrefix
    case PhysicalMinimum => PhysicalMinimumPrefix
    case PhysicalMaximum => PhysicalMaximumPrefix
    case UnitExponent => UnitExponentPrefix
    case Unit => UnitPrefix
    case ReportSize => ReportSizePrefix
    case ReportId => ReportIdPrefix
    case ReportCount => ReportCountPrefix
    case Push => PushPrefix
    case Pop => PopPrefix
    case Usage => UsagePrefix
    case UsageMinimum => UsageMinimumPrefix
    case UsageMaximum => UsageMaximumPrefix
    case DesignatorIndex => DesignatorIndexPrefix
    case DesignatorMinimum => DesignatorMinimumPrefix
    case DesignatorMaximum => DesignatorMaximumPrefix
    case StringIndex => StringIndexPrefix
    case StringMinimum => StringMinimumPrefix
    case StringMaximum => StringMaximumPrefix
    case Delimiter => DelimiterPrefix
    case Reserved => item.inner[0] & 0xFC
  }

  /** The variant `new_unchecked` picks for the tag and type bits `key`. */
  function KindOf(key: bv8): (k: Kind)
    ensures k == Reserved <==> key !in KnownKeys
  {
    if key == InputPrefix then Input
    else if key == OutputPrefix then Output
    else if key == FeaturePrefix then Feature
    else if key == CollectionPrefix then Collection
    else if key == EndCollectionPrefix then EndCollection
    else if key == UsagePagePrefix then UsagePage
    else if key == LogicalMinimumPrefix then LogicalMinimum
    else if key == LogicalMaximumPrefix then LogicalMaximum
    else if key == PhysicalMinimumPrefix then PhysicalMinimum
    else if key == PhysicalMaximumPrefix then PhysicalMaximum
    else if key == UnitExponentPrefix then UnitExponent
    else if key == UnitPrefix then Unit
    else if key == ReportSizePrefix then ReportSize
    else if key == ReportIdPrefix then ReportId
    else if key == ReportCountPrefix then ReportCount
    else if key == PushPrefix then Push
    else if key == PopPrefix then Pop
    else if key == UsagePrefix then Usage
    else if key == UsageMinimumPrefix then UsageMinimum
    else if key == UsageMaximumPrefix then UsageMaximum
    else if key == DesignatorIndexPrefix then DesignatorIndex
    else if key == DesignatorMinimumPrefix then DesignatorMinimum
    else if key == DesignatorMaximumPrefix then DesignatorMaximum
    else if key == StringIndexPrefix then StringIndex
    else if key == StringMinimumPrefix then StringMinimum
    else if key == StringMaximumPrefix then StringMaximum
    else if key == DelimiterPrefix then Delimiter
    else Reserved
  }

  /**
   * `ReportItem::new_unchecked`: dispatches on the tag and type bits of `raw[0]`
   * and wraps a copy of `raw` in zeroed storage. The caller promises a
   * non-empty slice of at most five bytes (indexing and copying panic otherwise).
   * The result keeps the bytes and carries no page (see `NewUncheckedClassifies`
   * for the kind it picks).
   */
  function NewUnchecked(raw: seq<bv8>): (item: ReportItem)
    requires 1 <= |raw| <= 5
    ensures item.inner == StorageOf(raw) && item.page == None
  {
    ReportItem(KindOf(raw[0] & 0xFC), StorageOf(raw), None)
  }

  /**
   * The item `new_unchecked` builds is `Reserved` exactly when the key is
   * unknown, and otherwise is the kind whose `PREFIX` is the key.
   */
  lemma NewUncheckedClassifies(raw: seq<bv8>)
    requires 1 <= |raw| <= 5
    ensures NewUnchecked(raw).kind == Reserved <==> raw[0] & 0xFC !in KnownKeys
    ensures Key(NewUnchecked(raw)) == raw[0] & 0xFC
  {
  }

  /**
   * `ReportItem::new_strict_unchecked`: the same dispatch, written out again in
   * the source, with the unknown key reported as `ReservedItem` instead. A
   * result is never `Reserved` and keeps the bytes; the error carries them.
   */
  function NewStrictUnchecked(raw: seq<bv8>): (r: Result<ReportItem>)
    requires 1 <= |raw| <= 5
    ensures r.Ok? ==> r.value.kind != Reserved && r.value.inner == StorageOf(raw) && r.value.page == None
    ensures r.Err? ==> r.error == ReservedItem(StorageOf(raw))
  {
    var s := StorageOf(raw);
    var key := raw[0] & 0xFC;
    if key == InputPrefix then Ok(ReportItem(Input, s, None))
    else if key == OutputPrefix then Ok(ReportItem(Output, s, None))
    else if key == FeaturePrefix then Ok(ReportItem(Feature, s, None))
    else if key == CollectionPrefix then Ok(ReportItem(Collection, s, None))
    else if key == EndCollectionPrefix then Ok(ReportItem(EndCollection, s, None))
    else if key == UsagePagePrefix then Ok(ReportItem(UsagePage, s, None))
    else if key == LogicalMinimumPrefix then Ok(ReportItem(LogicalMinimum, s, None))
    else if key == LogicalMaximumPrefix then Ok(ReportItem(LogicalMaximum, s, None))
    else if key == PhysicalMinimumPrefix then Ok(ReportItem(PhysicalMinimum, s, None))
    else if key == PhysicalMaximumPrefix then Ok(ReportItem(PhysicalMaximum, s, None))
    else if key == UnitExponentPrefix then Ok(ReportItem(UnitExponent, s, None))
    else if key == UnitPrefix then Ok(ReportItem(Unit, s, None))
    else if key == ReportSizePrefix then Ok(ReportItem(ReportSize, s, None))
    else if key == ReportIdPrefix then Ok(ReportItem(ReportId, s, None))
    else if key == ReportCountPrefix then Ok(ReportItem(ReportCount, s, None))
    else if key == PushPrefix then Ok(ReportItem(Push, s, None))
    else if key == PopPrefix then Ok(ReportItem(Pop, s, None))
    else if key == UsagePrefix then Ok(ReportItem(Usage, s, None))
    else if key == UsageMinimumPrefix then Ok(ReportItem(UsageMinimum, s, None))
    else if key == UsageMaximumPrefix then Ok(ReportItem(UsageMaximum, s, None))
    else if key == DesignatorIndexPrefix then Ok(ReportItem(DesignatorIndex, s, None))
    else if key == DesignatorMinimumPrefix then Ok(ReportItem(DesignatorMinimum, s, None))
    else if key == DesignatorMaximumPrefix then Ok(ReportItem(DesignatorMaximum, s, None))
    else if key == StringIndexPrefix then Ok(ReportItem(StringIndex, s, None))
    else if key == StringMinimumPrefix then Ok(ReportItem(StringMinimum, s, None))
    else if key == StringMaximumPrefix then Ok(ReportItem(StringMaximum, s, None))
    else if key == DelimiterPrefix then Ok(ReportItem(Delimiter, s, None))
    else Err(ReservedItem(s))
  }

  /** Strict mode's view of an item: a `Reserved` item becomes the `ReservedItem` error. */
  function ToStrict(item: ReportItem): Result<ReportItem>
  {
    if item.kind == Reserved then Err(ReservedItem(item.inner)) else Ok(item)
  }

  /**
   * The two dispatch tables agree: strict classification is lenient
   * classification with `Reserved` turned into the error, and `ReservedItem`
   * is the only error it reports.
   */
  lemma StrictUncheckedAgrees(raw: seq<bv8>)
    requires 1 <= |raw| <= 5
    ensures NewStrictUnchecked(raw) == ToStrict(NewUnchecked(raw))
    ensures NewStrictUnchecked(raw).Err? ==> NewStrictUnchecked(raw).error.ReservedItem?
  {
  }

  /**
   * `ReportItem::new`: checks, in this order, for empty input and for a length
   * that disagrees with the size bits, then classifies. Any key is accepted.
   */
  function New(raw: seq<bv8>): (r: Result<ReportItem>)
    ensures raw == [] ==> r == Err(EmptyRawInput)
    ensures raw != [] && DataSize(raw[0]) + 1 != |raw| ==>
      r == Err(DataSizeNotMatch(DataSize(raw[0]), |raw| - 1))
    ensures r.Ok? <==> raw != [] && DataSize(raw[0]) + 1 == |raw|
    ensures r.Ok? ==> AsRef(r.value) == raw && Key(r.value) == raw[0] & 0xFC
  {
    if raw == [] then Err(EmptyRawInput)
    else
      var expected := DataSize(raw[0]);
      if expected + 1 != |raw| then Err(DataSizeNotMatch(expected, |raw| - 1))
      else
        StorageRoundTrip(raw);
        NewUncheckedClassifies(raw);
        Ok(NewUnchecked(raw))
  }

  /**
   * `ReportItem::new_strict`: the same checks as `new`, then strict
   * classification, which rejects exactly the keys of no known kind.
   */
  function NewStrict(raw: seq<bv8>): (r: Result<ReportItem>)
    ensures raw == [] ==> r == Err(EmptyRawInput)
    ensures raw != [] && DataSize(raw[0]) + 1 != |raw| ==>
      r == Err(DataSizeNotMatch(DataSize(raw[0]), |raw| - 1))
    ensures r.Ok? <==> raw != [] && DataSize(raw[0]) + 1 == |raw| && raw[0] & 0xFC in KnownKeys
    ensures raw != [] && DataSize(raw[0]) + 1 == |raw| && raw[0] & 0xFC !in KnownKeys ==>
      r == Err(ReservedItem(StorageOf(raw)))
    ensures r.Ok? ==> AsRef(r.value) == raw && Key(r.value) == raw[0] & 0xFC && r.value.kind != Reserved
  {
    if raw == [] then Err(EmptyRawInput)
    else
      var expected := DataSize(raw[0]);
      if expected + 1 != |raw| then Err(DataSizeNotMatch(expected, |raw| - 1))
      else
        StorageRoundTrip(raw);
        NewUncheckedClassifies(raw);
        StrictUncheckedAgrees(raw);
        NewStrictUnchecked(raw)
  }

  /**
   * `new_strict` is `new` with a `Reserved` result turned into the
   * `ReservedItem` error; every other result, error or not, is the same.
   */
  lemma NewStrictAgrees(raw: seq<bv8>)
    ensures New(raw).Err? ==> NewStrict(raw) == New(raw)
    ensures New(raw).Ok? ==> NewStrict(raw) == ToStrict(New(raw).value)
    ensures NewStrict(raw).Ok? <==> New(raw).Ok? && New(raw).value.kind != Reserved
  {
    if New(raw).Ok? {
      StrictUncheckedAgrees(raw);
    }
  }

  /** `AsRef for ReportItem`: delegates to the wrapped item's `as_ref`. */
  function AsRef(item: ReportItem): (r: seq<bv8>)
    ensures 1 <= |r| <= 5 && |r| == DataSize(item.inner[0]) + 1
    ensures r == item.inner[..|r|]
  {
    AsRefOf(item.inner)
  }

  /** `ReportItem::prefix`: equivalent to `as_ref()[0]`. */
  function Prefix(item: ReportItem): (p: bv8)
    ensures p == AsRef(item)[0] && p == item.inner[0]
  {
    AsRef(item)[0]
  }

  /** `ReportItem::data`: equivalent to `&as_ref()[1..]`. */
  function Data(item: ReportItem): (d: seq<bv8>)
    ensures d == AsRef(item)[1..] && |d| == DataSize(Prefix(item))
  {
    AsRef(item)[1..]
  }

  /**
   * `Display for ReportItem`: delegates to the wrapped item. The labels of the
   * local kinds are rendered by `local`, which stands for local_items.rs; a
   * `Reserved` item shows "Reserved".
   */
  function Label(item: ReportItem, local: ReportItem -> string): (text: string)
    ensures item.kind.IsLocal() ==> text == local(item)
    ensures item.kind == Reserved ==> text == "Reserved"
  {
    var data := Data(item);
    match item.kind
    case Input => InputLabel(data)
    case Output => OutputLabel(data)
    case Feature => FeatureLabel(data)
    case Collection => CollectionLabel(data)
    case EndCollection => EndCollectionLabel(data)
    case UsagePage => UsagePageLabel(data)
    case LogicalMinimum => LogicalMinimumLabel(data)
    case LogicalMaximum => LogicalMaximumLabel(data)
    case PhysicalMinimum => PhysicalMinimumLabel(data)
    case PhysicalMaximum => PhysicalMaximumLabel(data)
    case UnitExponent => UnitExponentLabel(data)
    case Unit => UnitLabel(data)
    case ReportSize => ReportSizeLabel(data)
    case ReportId => ReportIdLabel(data)
    case ReportCount => ReportCountLabel(data)
    case Push => PushLabel(data)
    case Pop => PopLabel(data)
    case Reserved => ReservedLabel(item.inner)
    case _ => local(item)
  }

  /** The label of a main, global or reserved item never consults the local labeller. */
  lemma LabelDelegates(item: ReportItem, local: ReportItem -> string, other: ReportItem -> string)
    ensures !item.kind.IsLocal() ==> Label(item, local) == Label(item, other)
  {
  }
}
