# hid-report, modelled in Dafny

A model of the `hid-report` crate. The crate decodes, re-encodes and
pretty-prints USB HID report descriptors made of short items (Device Class
Definition for HID 1.11, sections 6.2.2.2 and 6.2.2.4 to 6.2.2.8). Each model
member below is tied to the lines of the crate it models.

The model has these parts:

- **Frame codec** (`privates.dfy`, `macros.dfy`, `reserved.dfy`).
  - The size bits of a prefix byte, and the little-endian unsigned and
    two's-complement readings of the data bytes.
  - The macro-generated item structs and `Reserved`, as classes over a
    five-byte `array<bv8>`. Their constructors and `set_data` write that array
    in place.
- **Classification** (`report_item.dfy`).
  - `ReportItem` is a record. It holds the variant (`Kind`), the five bytes of
    storage, and the usage page that Usage, Usage Minimum and Usage Maximum
    carry.
  - `new`, `new_strict`, `new_unchecked` and `new_strict_unchecked` dispatch
    on `prefix & 0xFC`.
- **Labels** (`main_items.dfy`, `global_items.dfy`, `text.dfy`).
  - The `Display` rules of the main and global items, rendered as strings.
  - Small decimal, hex, padding, join and split helpers.
- **Stream parser** (`parser.dfy`).
  - `Iter` and `StrictIter` are classes holding the byte stream, a read
    position and the usage-page slot.
  - `Next` fills a five-byte buffer in a loop. It is proved against the
    specification functions `Items` and `StrictItems`.
- **Serialisation and layout** (`dump.dfy`, `render.dfy`).
  - `dump` is a loop proved against `Serialized`.
  - `pretty_print` is a loop over the items that updates the depth and the
    widest item. It is followed by the padded-line pass and is proved against
    `Rendered`.
  - `example.dfy` pins the documented `pretty_print` example: how its bytes
    are cut into items, the column width and each line's depth.

Bytes are `bv8` and strings are `seq<char>`. Integer widths are explicit where
the crate relies on them: `i8`, `i16` and `i32` sign extension, and the `u32`
readings.

The model follows the code on these points:

- `pretty_print` raises the depth before it records a Collection or Push line,
  and lowers it before it records an End Collection or Pop line. So a
  Collection line is shown at the inner depth and its End Collection at the
  outer depth, as the example in src/lib.rs:672-687 shows. The two lines are
  not at the same indentation.
- `new_unchecked` dispatches on 27 known keys: 5 main, 12 global and 10 local.

## Model

| member | source | states |
|---|---|---|
| Privates.DataSize | src/privates.rs:15-23 | the data size is 0, 1, 2 or 4, selected by prefix bits 1-0 alone (00, 01, 10, 11) |
| Privates.DataSizeDeterminesSizeBits | src/privates.rs:15-23 | two prefixes with the same tag and type bits are equal exactly when their data sizes are equal |
| Privates.SetDataSize | src/privates.rs:3-13 | bits 7-2 never change; succeeds exactly for lengths 0, 1, 2, 4 and then the data size equals the length; otherwise `InvalidDataSize`, with the size bits left cleared; other bytes untouched |
| Privates.DecodedWidth | src/privates.rs:25-41 | the decoders read all of a slice of up to two bytes, two bytes of a three-byte slice, four of a longer one |
| Privates.DataToUnsigned | src/privates.rs:34-41 | the value is the little-endian reading of the decoded bytes, below 2^(8w) |
| Privates.DataToSigned | src/privates.rs:25-33 | 0 for no data; otherwise in [-2^(8w-1), 2^(8w-1)) and equal to the unsigned reading or that minus 2^(8w) |
| Macros.AsRefOf | src/macros.rs:7-12 | the bytes in use number data size + 1 (1, 2, 3 or 5) and are a prefix of the storage |
| Macros.DataOf | src/macros.rs:60-63 | the data is the bytes in use after the prefix, as many as the data size |
| Macros.StorageRoundTrip | src/macros.rs:38-40 | copying a well-sized frame into zeroed storage gives back the frame from `as_ref` and its data from `data` |
| Macros.MatchesBit | src/macros.rs:98-105 | the "zero" text when bit `pos` is clear, the "one" text when it is set |
| Macros.CopyData | src/macros.rs:86-89 | `data_mut().copy_from_slice`: the data bytes become `data`, the prefix and the bytes after the data are unchanged |
| Macros.ShortItem.AsRef | src/macros.rs:7-12 | length data size + 1, in {1, 2, 3, 5}, and a prefix of the storage |
| Macros.ShortItem.Prefix | src/macros.rs:55-57 | the prefix is `as_ref()[0]` |
| Macros.ShortItem.Data | src/macros.rs:60-63 | the data is `as_ref()[1..]`, as many bytes as the data size |
| Macros.ShortItem.Default | src/macros.rs:14-18 | storage `[PREFIX, 0, 0, 0, 0]`: prefix `PREFIX`, empty data |
| Macros.ShortItem.NewUnchecked | src/macros.rs:48-52 | storage holds the slice followed by zeros |
| Macros.ShortItem.New | src/macros.rs:26-41 | `EmptyRawInput`, then `PrefixNotMatch`, then `DataSizeNotMatch{expected, provided}` in this order; success exactly otherwise, with `as_ref() == raw` and zeroed unused storage |
| Macros.WriteData | src/macros.rs:68-83 | the shared write of `new_with` and `set_data`: tag and type bits kept; success exactly for 0, 1, 2 or 4 bytes, then the data reads back as given and later bytes are kept; otherwise `InvalidDataSize`, size bits cleared, bytes 1-4 kept |
| Macros.ShortItem.NewWith | src/macros.rs:68-74 | succeeds exactly for data of 0, 1, 2 or 4 bytes, with tag and type bits `PREFIX`, `data() == data` and zero bytes after it; otherwise `InvalidDataSize` |
| Macros.ShortItem.SetData | src/macros.rs:79-83 | on success `data() == data`, tag and type bits kept, later storage bytes kept; on failure `InvalidDataSize`, size bits cleared, data empty, bytes 1-4 kept |
| ReservedItems.ReservedLabel | src/reserved.rs:72-79 | the label is always "Reserved" (the `unreachable!` arm needs a zero-length array) |
| ReservedItems.Reserved.AsRef | src/reserved.rs:9-14 | length data size + 1, in {1, 2, 3, 5}, and a prefix of the storage |
| ReservedItems.Reserved.Prefix | src/reserved.rs:46-48 | the prefix is `as_ref()[0]` |
| ReservedItems.Reserved.Data | src/reserved.rs:51-54 | the data is `as_ref()[1..]`, as many bytes as the data size |
| ReservedItems.Reserved.NewUnchecked | src/reserved.rs:39-43 | storage holds the slice followed by zeros; `as_ref() == raw` when the size bits agree with the length |
| ReservedItems.Reserved.New | src/reserved.rs:18-32 | `EmptyRawInput`, then `DataSizeNotMatch`; no prefix check; on success `as_ref() == raw` |
| ReservedItems.Reserved.SetData | src/reserved.rs:59-63 | as the short items: `data() == data` with tag and type bits kept on success, `InvalidDataSize` with cleared size bits on failure |
| MainItems.MainPrefixesWellFormed | src/main_items.rs:23-77 | the five main keys are pairwise distinct with type and size bits 00 |
| MainItems.BitTest | src/macros.rs:100-103 | `field & (1 << pos) == 0` exactly when bit `pos` is clear |
| MainItems.MainFlagsMeaning | src/main_items.rs:80-175 | no flags without data; one flag per named bit of byte 0 with one byte; plus Bit Field / Buffered Bytes from byte 1 with two or more; flag i is its "zero" name exactly when bit i is clear |
| MainItems.InputIgnoresBit7 | src/main_items.rs:80-109 | flipping bit 7 of byte 0 never changes the Input label |
| MainItems.OutputReadsBit7 | src/main_items.rs:111-142 | flipping bit 7 of byte 0 always changes the Output label's eighth flag (Non Volatile / Volatile) |
| MainItems.InputFlagsAllClear | src/main_items.rs:80-94 | Input data 0x00 renders "Input (Data, Array, Absolute, No Wrap, Linear, Preferred State, No Null Position)" |
| MainItems.InputLabel | src/main_items.rs:80-109 | bare "Input" exactly without data; otherwise "Input (" + the flags joined by ", " + ")", 7 flags from one byte and 8 from two or more; flag i (i < 7) is its "clear" name exactly when bit i of byte 0 is 0, and the eighth is "Bit Field" exactly when bit 0 of byte 1 is 0 |
| MainItems.OutputLabel | src/main_items.rs:111-142 | bare "Output" exactly without data; otherwise "Output (" + the flags joined by ", " + ")", 8 flags from one byte and 9 from two or more; flag i (i < 8) is its "clear" name exactly when bit i of byte 0 is 0, and the ninth is "Bit Field" exactly when bit 0 of byte 1 is 0 |
| MainItems.FeatureLabel | src/main_items.rs:144-175 | bare "Feature" exactly without data; otherwise "Feature (" + the flags joined by ", " + ")", with the same flags and bit meanings as Output |
| MainItems.CollectionLabel | src/main_items.rs:177-198 | bare "Collection" exactly without data; types 0-6 show their names (Physical, Application, Logical, Report, Named Array, Usage Switch, Usage Modifier); "Reserved" exactly for types 7-0x7F; "Vendor Defined" exactly for 0x80-0xFF |
| MainItems.CollectionTypeRanges | src/main_items.rs:177-198 | 0-6 name the seven collection types; "Reserved" exactly for 7-0x7F; "Vendor Defined" exactly for 0x80-0xFF |
| MainItems.EndCollectionLabel | src/main_items.rs:200-204 | "End Collection" whatever the data |
| GlobalItems.GlobalPrefixesWellFormed | src/global_items.rs:53-160 | twelve keys with tags 0-11 in order, type bits 01, size bits 00, pairwise distinct |
| GlobalItems.ValueLabelRoundTrip | src/global_items.rs:215-249 | without data the bare name; with data "Name (n)" whose number reads back as the value |
| GlobalItems.SignedLabel | src/global_items.rs:215-249 | the bare name without data; otherwise a number that reads back as the sign-extended value |
| GlobalItems.UnsignedLabel | src/global_items.rs:340-365 | the bare name without data; otherwise a number that reads back as the unsigned value |
| GlobalItems.LogicalMinimumLabel | src/global_items.rs:215-222 | "Logical Minimum" without data; otherwise "Logical Minimum (n)" with n the sign-extended value |
| GlobalItems.LogicalMaximumLabel | src/global_items.rs:224-231 | "Logical Maximum" without data; otherwise "Logical Maximum (n)" with n the sign-extended value |
| GlobalItems.PhysicalMinimumLabel | src/global_items.rs:233-240 | "Physical Minimum" without data; otherwise "Physical Minimum (n)" with n the sign-extended value |
| GlobalItems.PhysicalMaximumLabel | src/global_items.rs:242-249 | "Physical Maximum" without data; otherwise "Physical Maximum (n)" with n the sign-extended value |
| GlobalItems.ReportSizeLabel | src/global_items.rs:340-347 | "Report Size" without data; otherwise "Report Size (n)" with n the unsigned value |
| GlobalItems.ReportIdLabel | src/global_items.rs:349-356 | "Report ID" without data; otherwise "Report ID (n)" with n the unsigned value |
| GlobalItems.ReportCountLabel | src/global_items.rs:358-365 | "Report Count" without data; otherwise "Report Count (n)" with n the unsigned value |
| GlobalItems.LogicalMaximumExample | src/lib.rs:262-265 | `0x26 0x3C 0x02` shows "Logical Maximum (572)" |
| GlobalItems.SignednessExample | src/global_items.rs:215-365 | data 0xFF shows -1 as a Logical Minimum and 255 as a Report Count |
| GlobalItems.UsagePageLabel | src/global_items.rs:163-213 | bare "Usage Page" exactly without data; otherwise "Usage Page (" + the table's name of the unsigned value + ")"; "Usage Page (Vendor Defined)" exactly for 0xFF00-0xFFFF; "Usage Page (Reserved)" exactly for unlisted pages outside that range |
| GlobalItems.UsagePageNameRanges | src/global_items.rs:163-213 | "Vendor Defined" exactly for 0xFF00-0xFFFF; "Reserved" exactly for unlisted values outside it |
| GlobalItems.UsagePageConsumerExample | src/global_items.rs:163-213 | data 0x0C shows "Usage Page (Consumer)" |
| GlobalItems.UsagePageThreeBytes | src/global_items.rs:167-170 | three data bytes name the page by their first two |
| GlobalItems.NibbleExponent | src/global_items.rs:255-258 | a value 0-15 shows as itself below 8 and as itself minus 16 from 8 |
| GlobalItems.UnitExponentLabel | src/global_items.rs:251-262 | a number exactly when the value is below 16, and then its 4-bit two's complement; the bare name exactly without data or from 16 up |
| GlobalItems.PushUnit | src/global_items.rs:270-330 | one nibble match: pushes the nibble's token, or reports the panic exactly when the nibble is zero |
| GlobalItems.PushByte | src/global_items.rs:267-331 | one `if let` block: pushes the tokens of the byte's nibbles (only the low one for the fourth byte), or reports the panic |
| GlobalItems.UnitFmt | src/global_items.rs:264-337 | the successive pushes give exactly the as-written label, None where the code panics |
| GlobalItems.UnitAsWrittenAgrees | src/global_items.rs:264-337 | the code panics exactly when a present nibble is zero, and otherwise gives the corrected tokens |
| GlobalItems.UnitTokensCount | src/global_items.rs:264-337 | at most one token per nibble, in nibble order; none exactly when every present nibble is zero |
| GlobalItems.UnitZeroNibbleExample | src/global_items.rs:267-287 | data `[0x01]` panics as written; corrected, it shows just "System: SI Linear" |
| GlobalItems.UnitLabel | src/global_items.rs:264-338 | bare "Unit" exactly when no present nibble is set; equals the as-written label wherever that one does not panic |
| GlobalItems.PushLabel | src/global_items.rs:367-371 | "Push" whatever the data |
| GlobalItems.PopLabel | src/global_items.rs:373-377 | "Pop" whatever the data |
| ReportItems.ItemPrefixesDistinct | src/lib.rs:409-454 | the 27 dispatched keys are pairwise distinct with size bits 00 and form exactly the set of known keys |
| ReportItems.KindOf | src/lib.rs:409-454 | `Reserved` exactly for a key outside the known keys |
| ReportItems.NewUnchecked | src/lib.rs:409-454 | the item holds the slice followed by zeros and no usage page |
| ReportItems.NewUncheckedClassifies | src/lib.rs:409-454 | `Reserved` exactly when `raw[0] & 0xFC` is unknown; otherwise the chosen kind's key is `raw[0] & 0xFC` |
| ReportItems.StrictUncheckedAgrees | src/lib.rs:464-509 | strict dispatch is lenient dispatch with `Reserved` turned into a `ReservedItem` error holding the same bytes, which is its only error |
| ReportItems.New | src/lib.rs:267-330 | `EmptyRawInput`, then `DataSizeNotMatch{expected, len - 1}`; no other error; success exactly for a well-sized frame, with `as_ref() == raw` and the key of `raw[0]` |
| ReportItems.NewStrict | src/lib.rs:335-398 | `EmptyRawInput`, then `DataSizeNotMatch`; success exactly for a well-sized frame with a known key, giving a non-`Reserved` item with `as_ref() == raw`; a well-sized frame with an unknown key gives `ReservedItem` holding its bytes |
| ReportItems.NewStrictUnchecked | src/lib.rs:464-509 | never a `Reserved` item: success keeps the bytes with no page, the only error is `ReservedItem` with the same bytes |
| ReportItems.NewStrictAgrees | src/lib.rs:335-398 | the same framing errors as `new`; otherwise `new`'s item, or `ReservedItem` exactly where `new` gives `Reserved` |
| ReportItems.AsRef | src/lib.rs:181-214 | 1-5 bytes, as many as the data size + 1, a prefix of the storage |
| ReportItems.Prefix | src/lib.rs:512-515 | `as_ref()[0]` |
| ReportItems.Data | src/lib.rs:517-519 | `as_ref()[1..]`, as many bytes as the data size |
| ReportItems.LabelDelegates | src/lib.rs:216-249 | main, global and reserved labels never consult the local labeller: two labellers give the same text |
| ReportItems.Label | src/lib.rs:216-249 | a local item's label is the local labeller's; `Reserved` shows "Reserved" |
| Dump.SerializedConcat | src/lib.rs:648-656 | dumping a concatenation dumps the two halves in order |
| Dump.Serialized | src/lib.rs:648-656 | the dump of n items has between n and 5n bytes |
| Dump.Dump | src/lib.rs:648-656 | the loop yields the items' `as_ref` bytes in order |
| Parser.ItemLength | src/lib.rs:535-541 | an item occupies 1, 2, 3 or 5 bytes |
| Parser.Attach | src/lib.rs:546-557 | a usage kind takes the current page; kind and bytes never change; others, and all items without a page, are unchanged |
| Parser.Items | src/lib.rs:532-560 | every item takes at least one byte, so there are no more items than bytes |
| Parser.StrictItems | src/lib.rs:562-590 | no more results than bytes; every error is a `ReservedItem` |
| Parser.ParseStrict | src/lib.rs:638-645 | one result per item of `parse`, each that item made strict |
| Parser.Parse | src/lib.rs:625-632 | the dump of the parsed items followed by the leftover is the input |
| Parser.ParseRoundTrip | src/lib.rs:532-560 | from any page, dump of the items plus the leftover gives back the stream |
| Parser.LeftoverTruncated | src/lib.rs:535-541 | the leftover is empty or one item cut short by the end of the stream |
| Parser.LeftoverShort | src/lib.rs:535-541 | the leftover is at most four bytes |
| Parser.DumpParse | src/lib.rs:625-656 | a stream ending on an item boundary is reproduced exactly by `dump(parse(..))` |
| Parser.ItemsIgnoreLeftover | src/lib.rs:535-541 | dropping the truncated tail does not change what is parsed |
| Parser.ParseIdempotent | src/lib.rs:625-656 | parsing the dump of a parse gives the same items |
| Parser.UsagePageCarried | src/lib.rs:543-557 | every usage kind carries the storage of the last Usage Page item before it, else the initial page; every other item carries no page |
| Parser.StrictItemsAgree | src/lib.rs:562-590 | one result per complete item, each the lenient item made strict; a `ReservedItem` error does not end the stream |
| Parser.Iter.constructor | src/lib.rs:625-632 | the iterator starts at the first byte with no usage page |
| Parser.Iter.Next | src/lib.rs:532-560 | yields the next item of `Items` and moves past it, updating the page as `Items` does; None exactly when no complete item remains |
| Parser.Iter.Collect | src/lib.rs:532-560 | draining the iterator yields exactly `Items` of the stream |
| Parser.StrictIter.constructor | src/lib.rs:638-645 | the strict iterator starts at the first byte with no usage page |
| Parser.StrictIter.Next | src/lib.rs:562-590 | yields the next result of `StrictItems`; an error leaves the page alone |
| Parser.StrictIter.Collect | src/lib.rs:562-590 | draining the strict iterator yields exactly `StrictItems` of the stream |
| Render.NextDepth | src/lib.rs:696-700 | plus one for Collection and Push, minus one saturating at 0 for End Collection and Pop, unchanged otherwise |
| Render.DepthAfterNet | src/lib.rs:694-700 | the depth is at least openers minus closers, and equal to it when no prefix closes more than it opened |
| Render.CollectionDepths | src/lib.rs:672-687 | in `[Collection, End Collection]` the opener is at depth 1 and the closer at depth 0 |
| Render.MaxLen | src/lib.rs:701 | the widest item has at most five bytes |
| Render.MaxLenIsMax | src/lib.rs:692-701 | `max_len` bounds every item's length and is attained by one of them |
| Render.HexParts | src/lib.rs:703-706 | one token per byte, each four characters: "0x" then two hex digits that read back as that byte |
| Render.HexColumnRoundTrip | src/lib.rs:703-707 | the hex column of n bytes has 6n - 2 characters and reads back as the bytes |
| Render.HexColumnSingleLine | src/lib.rs:703-707 | the hex column has no line break |
| Render.LineLayout | src/lib.rs:714 | raw text, spaces up to the width, "//", `tab` spaces, then the comment |
| Render.LineSingleLine | src/lib.rs:714 | a line built from text without line breaks has none |
| Render.Lines | src/lib.rs:712-716 | one line per item |
| Render.LinesLayout | src/lib.rs:689-717 | each line starts with its item's bytes, which fit before the "//" placed at column `6 * max_len` on every line, followed by `2 * depth + 1` spaces and the label |
| Render.RenderedSplits | src/lib.rs:713-716 | with labels free of line breaks, splitting the output at "\n" gives exactly the lines, so no line break trails |
| Render.Rendered | src/lib.rs:689-717 | the text is empty exactly when there are no items (every line holds its "//") |
| Render.PrettyPrint | src/lib.rs:689-717 | the loop and the line pass produce `Rendered` |
| RenderExample.ItemsOfFrames | src/lib.rs:532-560 | frames laid end to end, each as long as its prefix announces, parse into one item per frame with that frame's kind and bytes |
| RenderExample.PrettyPrintExample | src/lib.rs:664-687 | the documented 25 bytes parse into twelve items cut as in the expected text, widest item 3 bytes (column width 18), depths 0, 0, 1 (nine times), 0 |
| Text.NatToDecimalRoundTrip | src/global_items.rs:344 | an unsigned value's decimal text reads back as the value |
| Text.IntToDecimalRoundTrip | src/global_items.rs:219 | a signed value's decimal text has a leading '-' exactly when it is negative and reads back as the value |
| Text.HexByteRoundTrip | src/lib.rs:705 | `{:#04X}` of a byte is four characters "0x" then two digits that read back as the byte |
| Text.HexDigitRange | src/lib.rs:705 | hex digits are 0-9 or upper-case A-F |
| Text.PadRight | src/lib.rs:714 | `{:<width$}`: the text followed by spaces up to the width, never truncated |
| Text.JoinLength | src/lib.rs:703-707 | joining n parts of length k gives n(k + separator) - separator characters |
| Text.JoinAt | src/lib.rs:703-707 | the j-th part of a join of equal-length parts sits at offset j(k + separator) |
| Text.SplitJoin | src/lib.rs:716 | splitting a join at its one-character separator gives back the parts when none contains it |

## Left out

- src/local_items.rs is not part of this model. The labels of the ten local
  kinds are a parameter `local: ReportItem -> string`. Their keys are taken
  from section 6.2.2.8 of HID 1.11 (0x08 to 0xA8). LocalItems.LocalPrefixesWellFormed
  proves those keys well formed. `set_usage_page` is modelled as setting the
  `page` field of the three usage kinds.
- `ReportItem` is one record with a `Kind` tag, not 28 wrapper structs. The
  per-variant structs of macros.rs are modelled once, as `Macros.ShortItem`
  with its key as a field.
- `data_mut` is modelled only through `Macros.CopyData`, which is its one use
  (`data_mut().copy_from_slice`). Mutable borrows and aliasing are not modelled.
- The byte source is a finite `seq<bv8>`, not a generic lazy `IntoIterator`.
  What a non-fused source does after it returned `None` is not modelled.
- The undefined behaviour of the `unsafe` constructors is excluded by
  preconditions. Those are a length of 1 to 5 for `ReportItem::new_unchecked`
  and a prefix with the right key for `Macros.ShortItem.NewUnchecked`.
- Rust's formatting machinery (`Formatter`, `write!`, width specifiers) is
  modelled by string functions for the formats used.
- Derived traits (`Clone`, `Debug`, `PartialEq`), the `no_std`/`alloc` plumbing
  and long items (section 6.2.2.3 of HID 1.11) are not modelled. The crate does
  not handle long items.
- `Push` and `Pop` save and restore nothing. Like the crate, the model tracks
  only the usage page.
- `ReportItems.Label` uses the corrected Unit label (see Findings). The code
  as written panics on the inputs listed there.

## Findings

| source | as written | input that shows it | evidently intended | confidence | as-written member | corrected member |
|---|---|---|---|---|---|---|
| src/global_items.rs:270-330 | every nibble match of `Unit::fmt` sends nibble value 0 to `unreachable!()` | Unit data `[0x01]`: system SI Linear, length nibble 0 | a zero nibble means "none" and adds no token, so this shows "Unit(System: SI Linear)" | high; not executed | GlobalItems.UnitFmt | GlobalItems.UnitLabel |
