/**
 * The example in the documentation of `pretty_print` (src/lib.rs): the 25
 * bytes of a consumer-control descriptor parse into twelve items whose longest
 * `as_ref` has three bytes (so the hex column is 18 characters wide) and whose
 * lines sit at depths 0, 0, 1, ..., 1, 0 (one space after "//" at depth 0,
 * three at depth 1). The labels themselves depend on the local-item labels,
 * which `Render` takes as a parameter, and are not pinned here.
 */
module RenderExample {
  import opened Bytes
  import opened Macros
  import opened ReportItems
  import opened Parser
  import opened Render

  /** The frames laid end to end. */
  function Concat(frames: seq<seq<bv8>>): seq<bv8>
  {
    if frames == [] then [] else frames[0] + Concat(frames[1..])
  }

  /** Each frame is one whole item: a prefix and the data bytes its size bits announce. */
  predicate Framed(frames: seq<seq<bv8>>)
  {
    forall i :: 0 <= i < |frames| ==> |frames[i]| >= 1 && |frames[i]| == ItemLength(frames[i][0])
  }

  /** `item` is what `new_unchecked` makes of `frame`, up to the page it carries. */
  predicate Matches(item: ReportItem, frame: seq<bv8>)
    requires 1 <= |frame| <= 5
  {
    item.kind == KindOf(frame[0] & 0xFC) && AsRef(item) == frame
  }

  /**
   * Parsing frames laid end to end yields one item per frame, each the item
   * `new_unchecked` makes of that frame.
   */
  lemma {:induction false} ItemsOfFrames(frames: seq<seq<bv8>>, page: Option<Storage>)
    requires Framed(frames)
    ensures |Items(Concat(frames), page)| == |frames|
    ensures forall i :: 0 <= i < |frames| ==> Matches(Items(Concat(frames), page)[i], frames[i])
    decreases |frames|
  {
    if frames != [] {
      var f := frames[0];
      var rest := Concat(frames[1..]);
      assert Concat(frames) == f + rest;
      FramedTail(frames);
      var head, next := FrameStep(f, rest, page);
      ItemsOfFrames(frames[1..], next);
      ConsMatches(head, Items(rest, next), frames);
    }
  }

  /** The head item matches the first frame and the tail the rest. */
  lemma ConsMatches(head: ReportItem, tail: seq<ReportItem>, frames: seq<seq<bv8>>)
    requires Framed(frames) && frames != [] && Matches(head, frames[0])
    requires |tail| == |frames| - 1 && forall i :: 0 <= i < |tail| ==> Matches(tail[i], frames[1..][i])
    ensures forall i :: 0 <= i < |frames| ==> Matches(([head] + tail)[i], frames[i])
  {
    forall i | 1 <= i < |frames|
      ensures Matches(([head] + tail)[i], frames[i])
    {
      assert ([head] + tail)[i] == tail[i - 1] && frames[1..][i - 1] == frames[i];
    }
  }

  /** Dropping the first frame keeps the rest framed. */
  lemma FramedTail(frames: seq<seq<bv8>>)
    requires Framed(frames) && frames != []
    ensures Framed(frames[1..])
  {
    forall i | 0 <= i < |frames| - 1
      ensures |frames[1..][i]| >= 1 && |frames[1..][i]| == ItemLength(frames[1..][i][0])
    {
      assert frames[1..][i] == frames[i + 1];
    }
  }

  /** One frame at the front of the input becomes the first item. */
  lemma FrameStep(f: seq<bv8>, rest: seq<bv8>, page: Option<Storage>) returns (head: ReportItem, next: Option<Storage>)
    requires |f| >= 1 && |f| == ItemLength(f[0])
    ensures Matches(head, f)
    ensures Items(f + rest, page) == [head] + Items(rest, next)
  {
    var src := f + rest;
    assert src[..|f|] == f && src[|f|..] == rest;
    ItemsStep(src, page);
    StorageRoundTrip(f);
    var item := NewUnchecked(StorageOf(f));
    next := NextPage(item, page);
    head := Attach(item, next);
  }

  /** The example's 25 bytes, cut where the parser cuts them (the hex column of the expected text). */
  const ExampleFrames: seq<seq<bv8>> := [
    [0x05, 0x0C], [0x09, 0x01], [0xA1, 0x01], [0x85, 0x02], [0x19, 0x00], [0x2A, 0x3C, 0x02],
    [0x15, 0x00], [0x26, 0x3C, 0x02], [0x95, 0x01], [0x75, 0x10], [0x81, 0x00], [0xC0]]

  /** Twelve items of the example's kinds and lengths have width 3 and the expected depths. */
  lemma ExampleLayout(items: seq<ReportItem>)
    requires |items| == 12
    requires items[0].kind == UsagePage && |AsRef(items[0])| == 2
    requires items[1].kind == Usage && |AsRef(items[1])| == 2
    requires items[2].kind == Collection && |AsRef(items[2])| == 2
    requires items[3].kind == ReportId && |AsRef(items[3])| == 2
    requires items[4].kind == UsageMinimum && |AsRef(items[4])| == 2
    requires items[5].kind == UsageMaximum && |AsRef(items[5])| == 3
    requires items[6].kind == LogicalMinimum && |AsRef(items[6])| == 2
    requires items[7].kind == LogicalMaximum && |AsRef(items[7])| == 3
    requires items[8].kind == ReportCount && |AsRef(items[8])| == 2
    requires items[9].kind == ReportSize && |AsRef(items[9])| == 2
    requires items[10].kind == Input && |AsRef(items[10])| == 2
    requires items[11].kind == EndCollection && |AsRef(items[11])| == 1
    ensures MaxLen(items) == 3
    ensures [Depth(items, 0), Depth(items, 1), Depth(items, 2), Depth(items, 3), Depth(items, 4), Depth(items, 5),
             Depth(items, 6), Depth(items, 7), Depth(items, 8), Depth(items, 9), Depth(items, 10), Depth(items, 11)]
      == [0, 0, 1, 1, 1, 1, 1, 1, 1, 1, 1, 0]
  {
    ExampleHead(items);
    ExampleUsages(items);
    ExampleLogical(items);
    ExampleTail(items);
    assert items[..12] == items;
  }

  /** Items 0 to 2: Usage Page and Usage at depth 0, then the Collection opens a level. */
  lemma ExampleHead(items: seq<ReportItem>)
    requires |items| == 12
    requires items[0].kind == UsagePage && |AsRef(items[0])| == 2
    requires items[1].kind == Usage && |AsRef(items[1])| == 2
    requires items[2].kind == Collection && |AsRef(items[2])| == 2
    ensures Depth(items, 0) == 0
    ensures Depth(items, 1) == 0
    ensures Depth(items, 2) == 1
    ensures DepthAfter(items[..3]) == 1 && MaxLen(items[..3]) == 2
  {
    assert items[..0] == [];
    LayoutStep(items, 0, 0, 0);
    LayoutStep(items, 1, 0, 2);
    LayoutStep(items, 2, 0, 2);
  }

  /** Items 3 to 5: Report ID and the usage range, inside the collection. */
  lemma ExampleUsages(items: seq<ReportItem>)
    requires |items| == 12 && DepthAfter(items[..3]) == 1 && MaxLen(items[..3]) == 2
    requires items[3].kind == ReportId && |AsRef(items[3])| == 2
    requires items[4].kind == UsageMinimum && |AsRef(items[4])| == 2
    requires items[5].kind == UsageMaximum && |AsRef(items[5])| == 3
    ensures Depth(items, 3) == 1
    ensures Depth(items, 4) == 1
    ensures Depth(items, 5) == 1
    ensures DepthAfter(items[..6]) == 1 && MaxLen(items[..6]) == 3
  {
    LayoutStep(items, 3, 1, 2);
    LayoutStep(items, 4, 1, 2);
    LayoutStep(items, 5, 1, 2);
  }

  /** Items 6 to 8: the logical range and the report count, inside the collection. */
  lemma ExampleLogical(items: seq<ReportItem>)
    requires |items| == 12 && DepthAfter(items[..6]) == 1 && MaxLen(items[..6]) == 3
    requires items[6].kind == LogicalMinimum && |AsRef(items[6])| == 2
    requires items[7].kind == LogicalMaximum && |AsRef(items[7])| == 3
    requires items[8].kind == ReportCount && |AsRef(items[8])| == 2
    ensures Depth(items, 6) == 1
    ensures Depth(items, 7) == 1
    ensures Depth(items, 8) == 1
    ensures DepthAfter(items[..9]) == 1 && MaxLen(items[..9]) == 3
  {
    LayoutStep(items, 6, 1, 3);
    LayoutStep(items, 7, 1, 3);
    LayoutStep(items, 8, 1, 3);
  }

  /** Items 9 to 11: Report Size and Input inside the collection, then End Collection closes it. */
  lemma ExampleTail(items: seq<ReportItem>)
    requires |items| == 12 && DepthAfter(items[..9]) == 1 && MaxLen(items[..9]) == 3
    requires items[9].kind == ReportSize && |AsRef(items[9])| == 2
    requires items[10].kind == Input && |AsRef(items[10])| == 2
    requires items[11].kind == EndCollection && |AsRef(items[11])| == 1
    ensures Depth(items, 9) == 1
    ensures Depth(items, 10) == 1
    ensures Depth(items, 11) == 0
    ensures DepthAfter(items[..12]) == 0 && MaxLen(items[..12]) == 3
  {
    LayoutStep(items, 9, 1, 3);
    LayoutStep(items, 10, 1, 3);
    LayoutStep(items, 11, 1, 3);
  }

  /** Depth and width after one more item. */
  lemma LayoutStep(items: seq<ReportItem>, i: nat, d: nat, m: nat)
    requires i < |items| && DepthAfter(items[..i]) == d && MaxLen(items[..i]) == m
    ensures DepthAfter(items[..i + 1]) == NextDepth(items[i], d)
    ensures MaxLen(items[..i + 1]) == if m < |AsRef(items[i])| then |AsRef(items[i])| else m
  {
    PrefixStep(items, i);
  }

  /** Every example frame is as long as its prefix announces. */
  lemma ExampleFramed()
    ensures Framed(ExampleFrames)
  {
  }

  /** The kinds of the example's frames, four at a time. */
  lemma ExampleKindsHead()
    ensures KindOf(ExampleFrames[0][0] & 0xFC) == UsagePage
    ensures KindOf(ExampleFrames[1][0] & 0xFC) == Usage
    ensures KindOf(ExampleFrames[2][0] & 0xFC) == Collection
    ensures KindOf(ExampleFrames[3][0] & 0xFC) == ReportId
  {
  }

  lemma ExampleKindsMiddle()
    ensures KindOf(ExampleFrames[4][0] & 0xFC) == UsageMinimum
    ensures KindOf(ExampleFrames[5][0] & 0xFC) == UsageMaximum
    ensures KindOf(ExampleFrames[6][0] & 0xFC) == LogicalMinimum
    ensures KindOf(ExampleFrames[7][0] & 0xFC) == LogicalMaximum
  {
  }

  lemma ExampleKindsTail()
    ensures KindOf(ExampleFrames[8][0] & 0xFC) == ReportCount
    ensures KindOf(ExampleFrames[9][0] & 0xFC) == ReportSize
    ensures KindOf(ExampleFrames[10][0] & 0xFC) == Input
    ensures KindOf(ExampleFrames[11][0] & 0xFC) == EndCollection
  {
  }

  /** Any twelve frames of the example's kinds and lengths print with width 3 and the expected depths. */
  lemma FramesLayout(frames: seq<seq<bv8>>)
    requires |frames| == 12 && Framed(frames)
    requires KindOf(frames[0][0] & 0xFC) == UsagePage && |frames[0]| == 2
    requires KindOf(frames[1][0] & 0xFC) == Usage && |frames[1]| == 2
    requires KindOf(frames[2][0] & 0xFC) == Collection && |frames[2]| == 2
    requires KindOf(frames[3][0] & 0xFC) == ReportId && |frames[3]| == 2
    requires KindOf(frames[4][0] & 0xFC) == UsageMinimum && |frames[4]| == 2
    requires KindOf(frames[5][0] & 0xFC) == UsageMaximum && |frames[5]| == 3
    requires KindOf(frames[6][0] & 0xFC) == LogicalMinimum && |frames[6]| == 2
    requires KindOf(frames[7][0] & 0xFC) == LogicalMaximum && |frames[7]| == 3
    requires KindOf(frames[8][0] & 0xFC) == ReportCount && |frames[8]| == 2
    requires KindOf(frames[9][0] & 0xFC) == ReportSize && |frames[9]| == 2
    requires KindOf(frames[10][0] & 0xFC) == Input && |frames[10]| == 2
    requires KindOf(frames[11][0] & 0xFC) == EndCollection && |frames[11]| == 1
    ensures var items := Parse(Concat(frames));
      && |items| == 12
      && MaxLen(items) == 3
      && [Depth(items, 0), Depth(items, 1), Depth(items, 2), Depth(items, 3), Depth(items, 4), Depth(items, 5),
          Depth(items, 6), Depth(items, 7), Depth(items, 8), Depth(items, 9), Depth(items, 10), Depth(items, 11)]
         == [0, 0, 1, 1, 1, 1, 1, 1, 1, 1, 1, 0]
      && forall i :: 0 <= i < 12 ==> AsRef(items[i]) == frames[i]
  {
    ItemsOfFrames(frames, None);
    var items := Parse(Concat(frames));
    assert items[0].kind == UsagePage && |AsRef(items[0])| == 2;
    assert items[1].kind == Usage && |AsRef(items[1])| == 2;
    assert items[2].kind == Collection && |AsRef(items[2])| == 2;
    assert items[3].kind == ReportId && |AsRef(items[3])| == 2;
    assert items[4].kind == UsageMinimum && |AsRef(items[4])| == 2;
    assert items[5].kind == UsageMaximum && |AsRef(items[5])| == 3;
    assert items[6].kind == LogicalMinimum && |AsRef(items[6])| == 2;
    assert items[7].kind == LogicalMaximum && |AsRef(items[7])| == 3;
    assert items[8].kind == ReportCount && |AsRef(items[8])| == 2;
    assert items[9].kind == ReportSize && |AsRef(items[9])| == 2;
    assert items[10].kind == Input && |AsRef(items[10])| == 2;
    assert items[11].kind == EndCollection && |AsRef(items[11])| == 1;
    ExampleLayout(items);
  }

  /**
   * `parse` of the example's bytes gives the twelve items of the expected
   * text, with hex column width `6 * 3` and depths 0, 0, 1 (nine times), 0.
   */
  lemma PrettyPrintExample()
    ensures var items := Parse(Concat(ExampleFrames));
      && |items| == 12
      && MaxLen(items) == 3
      && [Depth(items, 0), Depth(items, 1), Depth(items, 2), Depth(items, 3), Depth(items, 4), Depth(items, 5),
          Depth(items, 6), Depth(items, 7), Depth(items, 8), Depth(items, 9), Depth(items, 10), Depth(items, 11)]
         == [0, 0, 1, 1, 1, 1, 1, 1, 1, 1, 1, 0]
      && forall i :: 0 <= i < 12 ==> AsRef(items[i]) == ExampleFrames[i]
  {
    ExampleFramed();
    ExampleKindsHead();
    ExampleKindsMiddle();
    ExampleKindsTail();
    FramesLayout(ExampleFrames);
  }
}
