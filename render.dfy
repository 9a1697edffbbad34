/**
 * `pretty_print` (src/lib.rs): one line per item, the item's bytes in
 * `{:#04X}` form on the left, padded to six columns per byte of the longest
 * item, then "//", an indentation of `2 * depth + 1` spaces and the item's label.
 * Collection and Push open a level before their own line; End Collection and
 * Pop close one (never below zero) before theirs.
 */
module Render {
  import opened Bytes
  import opened Text
  import opened Privates
  import opened ReportItems

  /** Items that open a nesting level: Collection and Push. */
  predicate Opens(item: ReportItem)
  {
    item.kind == Collection || item.kind == Push
  }

  /** Items that close a nesting level: End Collection and Pop. */
  predicate Closes(item: ReportItem)
  {
    item.kind == EndCollection || item.kind == Pop
  }

  /** The nesting depth after `item`, from `depth`; closing saturates at zero. */
  function NextDepth(item: ReportItem, depth: nat): (d: nat)
    ensures Opens(item) ==> d == depth + 1
    ensures Closes(item) ==> d == if depth == 0 then 0 else depth - 1
    ensures !Opens(item) && !Closes(item) ==> d == depth
  {
    match item.kind
    case Collection => depth + 1
    case Push => depth + 1
    case EndCollection => if depth == 0 then 0 else depth - 1
    case Pop => if depth == 0 then 0 else depth - 1
    case _ => depth
  }

  /** The depth after all of `items`, starting from zero. */
  function DepthAfter(items: seq<ReportItem>): nat
  {
    if items == [] then 0 else NextDepth(items[|items| - 1], DepthAfter(items[..|items| - 1]))
  }

  /** The depth item `i` is printed at: its own opening or closing counts. */
  function Depth(items: seq<ReportItem>, i: nat): nat
    requires i < |items|
  {
    DepthAfter(items[..i + 1])
  }

  /** Levels opened minus levels closed (reference reading, without saturation). */
  function Net(items: seq<ReportItem>): int
  {
    if items == [] then 0
    else
      var last := items[|items| - 1];
      Net(items[..|items| - 1]) + (if Opens(last) then 1 else if Closes(last) then -1 else 0)
  }

  /** No prefix closes more levels than it opened. */
  predicate Balanced(items: seq<ReportItem>)
  {
    forall i :: 0 <= i <= |items| ==> Net(items[..i]) >= 0
  }

  /**
   * The depth never drops below the count of open levels, and equals it as
   * long as no End Collection or Pop comes without a matching opener.
   */
  lemma {:induction false} DepthAfterNet(items: seq<ReportItem>)
    ensures DepthAfter(items) >= Net(items)
    ensures Balanced(items) ==> DepthAfter(items) == Net(items)
    decreases |items|
  {
    if items != [] {
      var front := items[..|items| - 1];
      DepthAfterNet(front);
      if Balanced(items) {
        forall i | 0 <= i <= |front|
          ensures Net(front[..i]) >= 0
        {
          assert front[..i] == items[..i];
        }
        assert items[..|items|] == items;
      }
    }
  }

  /** A Collection followed by its End Collection: the first line at depth 1, the second back at 0. */
  lemma CollectionDepths(open: ReportItem, close: ReportItem)
    requires open.kind == Collection && close.kind == EndCollection
    ensures Depth([open, close], 0) == 1 && Depth([open, close], 1) == 0
  {
    var items := [open, close];
    assert items[..1] == [open] && [open][..0] == [];
    assert items[..2] == items && items[..1] == [open];
    assert DepthAfter([open]) == 1;
  }

  /** One more item: the depth and the longest length move by that item alone. */
  lemma PrefixStep(items: seq<ReportItem>, i: nat)
    requires i < |items|
    ensures Depth(items, i) == NextDepth(items[i], DepthAfter(items[..i]))
    ensures MaxLen(items[..i + 1]) == if MaxLen(items[..i]) < |AsRef(items[i])| then |AsRef(items[i])| else MaxLen(items[..i])
  {
    assert items[..i + 1][..i] == items[..i];
  }

  /** The longest `as_ref` among `items` (zero for none), as the first loop keeps it. */
  function MaxLen(items: seq<ReportItem>): (m: nat)
    ensures m <= 5
  {
    if items == [] then 0
    else
      var m := MaxLen(items[..|items| - 1]);
      var len := |AsRef(items[|items| - 1])|;
      if m < len then len else m
  }

  /** `MaxLen` is the maximum: it bounds every item and is reached by one of them. */
  lemma {:induction false} MaxLenIsMax(items: seq<ReportItem>)
    ensures forall i :: 0 <= i < |items| ==> |AsRef(items[i])| <= MaxLen(items)
    ensures items != [] ==> exists i :: 0 <= i < |items| && |AsRef(items[i])| == MaxLen(items)
    decreases |items|
  {
    if items != [] {
      var front := items[..|items| - 1];
      MaxLenIsMax(front);
      forall i | 0 <= i < |front|
        ensures items[i] == front[i]
      {
      }
      if front != [] && MaxLen(items) == MaxLen(front) {
        var i :| 0 <= i < |front| && |AsRef(front[i])| == MaxLen(front);
        assert items[i] == front[i];
      } else {
        assert |AsRef(items[|items| - 1])| == MaxLen(items);
      }
    }
  }

  /** The value of the two hexadecimal digits `hi` and `lo`. */
  function HexValue(hi: char, lo: char): bv8
  {
    (HexDigitValue(hi) << 4) | HexDigitValue(lo)
  }

  /** The `{:#04X}` text of each byte: "0x" and two digits that read back as that byte. */
  function HexParts(bytes: seq<bv8>): (parts: seq<string>)
    ensures |parts| == |bytes|
    ensures forall j :: 0 <= j < |bytes| ==>
      |parts[j]| == 4 && parts[j][..2] == "0x" && HexValue(parts[j][2], parts[j][3]) == bytes[j]
  {
    assert forall j | 0 <= j < |bytes| :: HexValue(HexByte(bytes[j])[2], HexByte(bytes[j])[3]) == bytes[j] by {
      forall j | 0 <= j < |bytes|
        ensures HexValue(HexByte(bytes[j])[2], HexByte(bytes[j])[3]) == bytes[j]
      {
        HexByteRoundTrip(bytes[j]);
      }
    }
    seq(|bytes|, j requires 0 <= j < |bytes| => HexByte(bytes[j]))
  }

  /** The left column of a line: the bytes in `{:#04X}` form joined with ", ". */
  function HexColumn(bytes: seq<bv8>): string
  {
    Join(HexParts(bytes), ", ")
  }

  /** Reads `n` bytes back from a hexadecimal column: byte `j` is at columns `6j+2` and `6j+3`. */
  function ReadHexColumn(s: string, n: nat): (bytes: seq<bv8>)
    requires n == 0 || 6 * n - 2 <= |s|
    ensures |bytes| == n
  {
    seq(n, j requires 0 <= j < n => HexValue(s[6 * j + 2], s[6 * j + 3]))
  }

  /** The hexadecimal column is six characters per byte, less the last separator, and reads back as the bytes. */
  lemma HexColumnRoundTrip(bytes: seq<bv8>)
    requires bytes != []
    ensures |HexColumn(bytes)| == 6 * |bytes| - 2
    ensures ReadHexColumn(HexColumn(bytes), |bytes|) == bytes
  {
    var parts := HexParts(bytes);
    var s := HexColumn(bytes);
    JoinLength(parts, ", ", 4);
    forall j | 0 <= j < |bytes|
      ensures HexValue(s[6 * j + 2], s[6 * j + 3]) == bytes[j]
    {
      JoinAt(parts, ", ", 4, j);
      assert j * (4 + |", "|) == 6 * j;
      var piece := s[6 * j..6 * j + 4];
      assert piece == parts[j];
      assert s[6 * j + 2] == piece[2] && s[6 * j + 3] == piece[3];
    }
  }

  /** The hexadecimal column holds no line break. */
  lemma HexColumnSingleLine(bytes: seq<bv8>)
    ensures '\n' !in HexColumn(bytes)
  {
    var parts := HexParts(bytes);
    forall j | 0 <= j < |parts|
      ensures '\n' !in parts[j]
    {
      HexDigitRange(bytes[j] >> 4);
      HexDigitRange(bytes[j] & 0xF);
      assert parts[j] == ['0', 'x', HexDigit(bytes[j] >> 4), HexDigit(bytes[j] & 0xF)];
    }
    JoinAvoids(parts, ", ", '\n');
  }

  /** `format!("{:<width$}//{:<tab$}{}", raw, ' ', comment)`. */
  function Line(raw: string, comment: string, tab: nat, width: nat): string
  {
    PadRight(raw, width) + "//" + PadRight(" ", tab) + comment
  }

  /**
   * The layout of a line: the raw column, spaces up to `width`, "//" at
   * `width`, `tab` spaces, then the comment.
   */
  lemma LineLayout(raw: string, comment: string, tab: nat, width: nat)
    requires |raw| <= width && tab >= 1
    ensures var l := Line(raw, comment, tab, width);
      && |l| == width + 2 + tab + |comment|
      && l[..|raw|] == raw
      && (forall i :: |raw| <= i < width ==> l[i] == ' ')
      && l[width..width + 2] == "//"
      && (forall i :: width + 2 <= i < width + 2 + tab ==> l[i] == ' ')
      && l[width + 2 + tab..] == comment
  {
    var pad := PadRight(raw, width);
    var indent := PadRight(" ", tab);
    var l := Line(raw, comment, tab, width);
    assert l == pad + ("//" + (indent + comment));
    assert pad[..|raw|] == raw;
    assert l[..width] == pad;
    assert l[width..] == "//" + (indent + comment);
    assert l[width + 2..] == indent + comment;
    forall i | width + 2 <= i < width + 2 + tab
      ensures l[i] == ' '
    {
      assert l[i] == indent[i - width - 2];
    }
  }

  /** A line is free of line breaks when its comment is. */
  lemma LineSingleLine(raw: string, comment: string, tab: nat, width: nat)
    requires '\n' !in raw && '\n' !in comment
    ensures '\n' !in Line(raw, comment, tab, width)
  {
    var pad := PadRight(raw, width);
    var indent := PadRight(" ", tab);
    assert '\n' !in pad by {
      if |raw| < width {
        assert pad == raw + Spaces(width - |raw|);
      }
    }
    assert '\n' !in indent by {
      if 1 < tab {
        assert indent == " " + Spaces(tab - 1);
      }
    }
    assert Line(raw, comment, tab, width) == pad + "//" + indent + comment;
  }

  /** What the first pass records for item `i`: its column text, its label and its indentation. */
  function Entry(items: seq<ReportItem>, local: ReportItem -> string, i: nat): (string, string, nat)
    requires i < |items|
  {
    (HexColumn(AsRef(items[i])), Label(items[i], local), 2 * Depth(items, i) + 1)
  }

  /** A recorded entry formatted at `width`. */
  function EntryLine(e: (string, string, nat), width: nat): string
  {
    Line(e.0, e.1, e.2, width)
  }

  /** Item `i`'s entry, given its depth. */
  lemma EntryAt(items: seq<ReportItem>, local: ReportItem -> string, i: nat, tab: nat)
    requires i < |items| && tab == Depth(items, i)
    ensures Entry(items, local, i) == (HexColumn(AsRef(items[i])), Label(items[i], local), tab * 2 + 1)
  {
  }

  /** The entries recorded for the first `i` items, followed by that of item `i`. */
  lemma RecordedStep(items: seq<ReportItem>, local: ReportItem -> string, tmp: seq<(string, string, nat)>, i: nat)
    requires |tmp| == i < |items|
    requires forall k :: 0 <= k < i ==> tmp[k] == Entry(items, local, k)
    ensures forall k :: 0 <= k < i + 1 ==> (tmp + [Entry(items, local, i)])[k] == Entry(items, local, k)
  {
  }

  /** The second pass: each recorded entry formatted at `width`. */
  function FormatEntries(tmp: seq<(string, string, nat)>, width: nat): seq<string>
  {
    seq(|tmp|, k requires 0 <= k < |tmp| => EntryLine(tmp[k], width))
  }

  /** The lines `pretty_print` joins: every item at its depth, the "//" column after the longest item. */
  function Lines(items: seq<ReportItem>, local: ReportItem -> string): (lines: seq<string>)
    ensures |lines| == |items|
  {
    seq(|items|, i requires 0 <= i < |items| => EntryLine(Entry(items, local, i), 6 * MaxLen(items)))
  }

  /** Formatting the recorded entries at six columns per byte of the longest item gives the lines. */
  lemma FormattedLines(items: seq<ReportItem>, local: ReportItem -> string, tmp: seq<(string, string, nat)>)
    requires |tmp| == |items|
    requires forall k :: 0 <= k < |items| ==> tmp[k] == Entry(items, local, k)
    ensures FormatEntries(tmp, 6 * MaxLen(items)) == Lines(items, local)
  {
  }

  /**
   * `pretty_print`: the lines joined with line breaks. The text is empty
   * exactly when there are no items, since every line holds its "//".
   */
  function Rendered(items: seq<ReportItem>, local: ReportItem -> string): (text: string)
    ensures text == "" <==> items == []
  {
    JoinHead(Lines(items, local), "\n");
    Join(Lines(items, local), "\n")
  }

  /**
   * Every line shows the item's bytes, has its "//" at column `6 * MaxLen`
   * (the same on every line), and after `2 * depth + 1` spaces the item's label.
   */
  lemma LinesLayout(items: seq<ReportItem>, local: ReportItem -> string, i: nat)
    requires i < |items|
    ensures var l := Lines(items, local)[i];
      var raw := HexColumn(AsRef(items[i]));
      var width := 6 * MaxLen(items);
      var tab := 2 * Depth(items, i) + 1;
      && |raw| + 2 <= width
      && l[..|raw|] == raw
      && l[width..width + 2] == "//"
      && (forall k :: width + 2 <= k < width + 2 + tab ==> l[k] == ' ')
      && l[width + 2 + tab..] == Label(items[i], local)
  {
    var raw := HexColumn(AsRef(items[i]));
    MaxLenIsMax(items);
    HexColumnRoundTrip(AsRef(items[i]));
    LineLayout(raw, Label(items[i], local), 2 * Depth(items, i) + 1, 6 * MaxLen(items));
  }

  /** With labels free of line breaks, splitting the output at line breaks gives back the lines. */
  lemma RenderedSplits(items: seq<ReportItem>, local: ReportItem -> string)
    requires items != []
    requires forall i :: 0 <= i < |items| ==> '\n' !in Label(items[i], local)
    ensures Split(Rendered(items, local), '\n') == Lines(items, local)
  {
    var lines := Lines(items, local);
    forall i | 0 <= i < |lines|
      ensures '\n' !in lines[i]
    {
      HexColumnSingleLine(AsRef(items[i]));
      LineSingleLine(HexColumn(AsRef(items[i])), Label(items[i], local), 2 * Depth(items, i) + 1, 6 * MaxLen(items));
    }
    SplitJoin(lines, '\n');
  }

  /**
   * `pretty_print`: a first pass records each item's column text, label and
   * indentation and the longest item; a second formats and joins the lines.
   */
  method PrettyPrint(items: seq<ReportItem>, local: ReportItem -> string) returns (out: string)
    ensures out == Rendered(items, local)
  {
    var maxLen := 0;
    var tmp: seq<(string, string, nat)> := [];
    var tab := 0;
    for i := 0 to |items|
      invariant tab == DepthAfter(items[..i])
      invariant maxLen == MaxLen(items[..i])
      invariant |tmp| == i
      invariant forall k :: 0 <= k < i ==> tmp[k] == Entry(items, local, k)
    {
      var item := items[i];
      PrefixStep(items, i);
      if item.kind == Collection || item.kind == Push {
        tab := tab + 1;
      } else if item.kind == EndCollection || item.kind == Pop {
        tab := if tab == 0 then 0 else tab - 1;
      }
      var len := |AsRef(item)|;
      maxLen := if maxLen < len then len else maxLen;
      var entry := (HexColumn(AsRef(item)), Label(item, local), tab * 2 + 1);
      assert tab == Depth(items, i);
      EntryAt(items, local, i, tab);
      RecordedStep(items, local, tmp, i);
      tmp := tmp + [entry];
    }
    assert items[..|items|] == items;
    var width := 6 * maxLen;
    var lines := FormatEntries(tmp, width);
    FormattedLines(items, local, tmp);
    out := Join(lines, "\n");
  }
}
