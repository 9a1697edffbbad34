/**
 * `parse` and `parse_strict` (src/lib.rs): iterators that cut a byte stream into
 * items, one prefix byte and its announced data bytes at a time, and attach the
 * most recent Usage Page to the usage kinds.
 */
module Parser {
  import opened Bytes
  import opened Errors
  import opened Privates
  import opened Macros
  import opened ReportItems
  import opened Dump

  /** Bytes an item occupies: its prefix and the data its size bits announce. */
  function ItemLength(prefix: bv8): (n: nat)
    ensures n == 1 || n == 2 || n == 3 || n == 5
  {
    DataSize(prefix) + 1
  }

  /** The parser's usage page after `item`: a Usage Page item replaces it, any other item keeps it. */
  function NextPage(item: ReportItem, page: Option<Storage>): Option<Storage>
  {
    if item.kind == UsagePage then Some(item.inner) else page
  }

  /**
   * `set_usage_page` as the iterators apply it: a usage kind takes the current
   * page when there is one; every other item, and every item while there is no
   * page, is unchanged.
   */
  function Attach(item: ReportItem, page: Option<Storage>): (r: ReportItem)
    ensures r.inner == item.inner
    ensures r.IsUsageKind() <==> item.IsUsageKind()
    ensures r.kind == item.kind
    ensures item.IsUsageKind() && page.Some? ==> r.page == page
    ensures !item.IsUsageKind() || page.None? ==> r == item
  {
    if page.Some? && item.IsUsageKind() then item.(page := page) else item
  }

  /**
   * The items `Iter` yields from the bytes `src` with usage page `page`: it stops
   * at the end of the stream and also, silently, at an item whose data bytes run
   * past the end. Each item is built from the five-byte buffer the iterator fills.
   * Every item takes at least one byte.
   */
  function Items(src: seq<bv8>, page: Option<Storage>): (items: seq<ReportItem>)
    ensures |items| <= |src|
    decreases |src|
  {
    if src == [] || |src| < ItemLength(src[0]) then []
    else
      var n := ItemLength(src[0]);
      var item := NewUnchecked(StorageOf(src[..n]));
      var next := NextPage(item, page);
      [Attach(item, next)] + Items(src[n..], next)
  }

  /** The bytes `Iter` consumes without yielding an item: none, or one truncated item at the end. */
  function Leftover(src: seq<bv8>): seq<bv8>
    decreases |src|
  {
    if src == [] then []
    else if |src| < ItemLength(src[0]) then src
    else Leftover(src[ItemLength(src[0])..])
  }

  /** `parse`: the iterator starts without a usage page. */
  function Parse(src: seq<bv8>): (items: seq<ReportItem>)
    ensures Serialized(items) + Leftover(src) == src
  {
    ParseRoundTrip(src, None);
    Items(src, None)
  }

  /** One step of `Items`: the first item, then the items after it. */
  lemma ItemsStep(src: seq<bv8>, page: Option<Storage>)
    requires src != [] && |src| >= ItemLength(src[0])
    ensures var n := ItemLength(src[0]);
      var item := NewUnchecked(StorageOf(src[..n]));
      Items(src, page) == [Attach(item, NextPage(item, page))] + Items(src[n..], NextPage(item, page))
  {
  }

  /** The dump of the parsed items starts with the bytes of the first one. */
  lemma SerializedItemsStep(src: seq<bv8>, page: Option<Storage>)
    requires src != [] && |src| >= ItemLength(src[0])
    ensures var n := ItemLength(src[0]);
      Serialized(Items(src, page))
        == src[..n] + Serialized(Items(src[n..], NextPage(NewUnchecked(StorageOf(src[..n])), page)))
  {
    var n := ItemLength(src[0]);
    var item := NewUnchecked(StorageOf(src[..n]));
    ItemsStep(src, page);
    StorageRoundTrip(src[..n]);
    assert AsRef(Items(src, page)[0]) == src[..n];
    SerializedCons(Items(src, page)[0], Items(src[n..], NextPage(item, page)));
  }

  /**
   * Dumping the parsed items gives back the stream minus its leftover: `dump`
   * undoes `parse` on every stream, up to the truncated tail.
   */
  lemma {:induction false} ParseRoundTrip(src: seq<bv8>, page: Option<Storage>)
    ensures Serialized(Items(src, page)) + Leftover(src) == src
    decreases |src|
  {
    if src != [] && |src| >= ItemLength(src[0]) {
      var n := ItemLength(src[0]);
      var next := NextPage(NewUnchecked(StorageOf(src[..n])), page);
      ParseRoundTrip(src[n..], next);
      SerializedItemsStep(src, page);
      LeftoverStep(src);
      ConcatSplit(src, n, Serialized(Items(src[n..], next)), Leftover(src[n..]));
    }
  }

  lemma LeftoverStep(src: seq<bv8>)
    requires src != [] && |src| >= ItemLength(src[0])
    ensures Leftover(src) == Leftover(src[ItemLength(src[0])..])
  {
  }

  /** Splitting a sequence at `n` and reassembling it. */
  lemma ConcatSplit(src: seq<bv8>, n: nat, x: seq<bv8>, l: seq<bv8>)
    requires n <= |src| && x + l == src[n..]
    ensures (src[..n] + x) + l == src
  {
    assert (src[..n] + x) + l == src[..n] + (x + l);
  }

  /** The leftover is empty or one item cut short by the end of the stream. */
  lemma {:induction false} LeftoverTruncated(src: seq<bv8>)
    ensures Leftover(src) == [] || |Leftover(src)| < ItemLength(Leftover(src)[0])
    decreases |src|
  {
    if src != [] && |src| >= ItemLength(src[0]) {
      LeftoverTruncated(src[ItemLength(src[0])..]);
    }
  }

  /** A leftover never holds a whole item, so it is at most four bytes. */
  lemma LeftoverShort(src: seq<bv8>)
    ensures |Leftover(src)| <= 4
  {
    LeftoverTruncated(src);
  }

  /** A stream that ends on an item boundary is reproduced exactly by `dump(parse(..))`. */
  lemma DumpParse(src: seq<bv8>)
    requires Leftover(src) == []
    ensures Serialized(Parse(src)) == src
  {
    assert Serialized(Parse(src)) + [] == src;
  }

  /** Dropping the truncated tail does not change what is parsed. */
  lemma {:induction false} ItemsIgnoreLeftover(src: seq<bv8>, page: Option<Storage>)
    ensures |Leftover(src)| <= |src|
    ensures Items(src[..|src| - |Leftover(src)|], page) == Items(src, page)
    decreases |src|
  {
    if src != [] && |src| >= ItemLength(src[0]) {
      var n := ItemLength(src[0]);
      var tail := src[n..];
      var next := NextPage(NewUnchecked(StorageOf(src[..n])), page);
      LeftoverStep(src);
      ItemsIgnoreLeftover(tail, next);
      ItemsStep(src, page);
      ItemsCutStep(src, page, |Leftover(src)|);
    } else {
      assert Leftover(src) == src;
      assert src[..0] == [];
    }
  }

  /** Cutting `k` bytes off a stream whose first item is whole leaves that item first. */
  lemma ItemsCutStep(src: seq<bv8>, page: Option<Storage>, k: nat)
    requires src != [] && ItemLength(src[0]) + k <= |src|
    ensures var n := ItemLength(src[0]);
      var next := NextPage(NewUnchecked(StorageOf(src[..n])), page);
      Items(src[..|src| - k], page) == [Attach(NewUnchecked(StorageOf(src[..n])), next)] + Items(src[n..][..|src[n..]| - k], next)
  {
    var n := ItemLength(src[0]);
    var cut := src[..|src| - k];
    CutAfter(src, n, k);
    assert cut[0] == src[0] && |cut| >= n;
    ItemsStep(cut, page);
    assert cut[..n] == src[..n];
    assert cut[n..] == src[n..][..|src[n..]| - k];
  }

  /** Cutting `k` bytes off the end leaves the first `n` bytes alone. */
  lemma CutAfter(src: seq<bv8>, n: nat, k: nat)
    requires n + k <= |src|
    ensures src[..|src| - k][..n] == src[..n]
    ensures src[..|src| - k][n..] == src[n..][..|src[n..]| - k]
    ensures src[..|src| - k] != [] ==> src[..|src| - k][0] == src[0]
  {
  }

  /** Parsing the dump of a parse gives the same items: `parse` is idempotent through `dump`. */
  lemma ParseIdempotent(src: seq<bv8>)
    ensures Parse(Serialized(Parse(src))) == Parse(src)
  {
    ItemsIgnoreLeftover(src, None);
    assert Serialized(Parse(src)) == src[..|src| - |Leftover(src)|];
  }

  /** The usage page the parser holds after `items`: that of the last Usage Page item, else `page`. */
  function LastPage(items: seq<ReportItem>, page: Option<Storage>): Option<Storage>
    decreases |items|
  {
    if items == [] then page else LastPage(items[1..], NextPage(items[0], page))
  }

  /**
   * Usage-page carry-over: every usage kind the parser yields carries the
   * storage of the last Usage Page item before it (or the initial page, or no
   * page); every other item carries no page.
   */
  lemma {:induction false} UsagePageCarried(src: seq<bv8>, page: Option<Storage>, i: nat)
    requires i < |Items(src, page)|
    ensures Items(src, page)[i].IsUsageKind() ==>
      Items(src, page)[i].page == LastPage(Items(src, page)[..i], page)
    ensures !Items(src, page)[i].IsUsageKind() ==> Items(src, page)[i].page == None
    decreases |src|
  {
    var n := ItemLength(src[0]);
    var item := NewUnchecked(StorageOf(src[..n]));
    var next := NextPage(item, page);
    ItemsStep(src, page);
    if i > 0 {
      UsagePageCarried(src[n..], next, i - 1);
      LastPageCons(Items(src, page), i, page);
    }
  }

  /** Folding over a non-empty prefix starts with its first item. */
  lemma LastPageCons(items: seq<ReportItem>, i: nat, page: Option<Storage>)
    requires 0 < i <= |items|
    ensures LastPage(items[..i], page) == LastPage(items[1..][..i - 1], NextPage(items[0], page))
  {
    assert items[..i][1..] == items[1..][..i - 1];
  }

  /**
   * The results `StrictIter` yields: as `Items`, with strict classification;
   * only `Ok` items move the page. Every result takes at least one byte, and
   * the only error is `ReservedItem`: a truncated tail ends the stream silently.
   */
  function StrictItems(src: seq<bv8>, page: Option<Storage>): (rs: seq<Result<ReportItem>>)
    ensures |rs| <= |src|
    ensures forall i :: 0 <= i < |rs| && rs[i].Err? ==> rs[i].error.ReservedItem?
    decreases |src|
  {
    if src == [] || |src| < ItemLength(src[0]) then []
    else
      var n := ItemLength(src[0]);
      var r := NewStrictUnchecked(StorageOf(src[..n]));
      var next := if r.Ok? then NextPage(r.value, page) else page;
      [if r.Ok? then Ok(Attach(r.value, next)) else r] + StrictItems(src[n..], next)
  }

  /**
   * `parse_strict`: the strict iterator starts without a usage page. It yields,
   * position by position, what `parse` yields with `Reserved` items turned into
   * `ReservedItem` errors.
   */
  function ParseStrict(src: seq<bv8>): (rs: seq<Result<ReportItem>>)
    ensures |rs| == |Parse(src)|
    ensures forall i :: 0 <= i < |rs| ==> rs[i] == ToStrict(Parse(src)[i])
  {
    StrictItemsAgree(src, None);
    StrictItems(src, None)
  }

  /**
   * The strict parser yields, position by position, what the lenient parser
   * yields with each `Reserved` item turned into a `ReservedItem` error; the
   * error is not fatal and the stream goes on.
   */
  lemma {:induction false} StrictItemsAgree(src: seq<bv8>, page: Option<Storage>)
    ensures |StrictItems(src, page)| == |Items(src, page)|
    ensures forall i :: 0 <= i < |Items(src, page)| ==> StrictItems(src, page)[i] == ToStrict(Items(src, page)[i])
    decreases |src|
  {
    if src != [] && |src| >= ItemLength(src[0]) {
      var n := ItemLength(src[0]);
      var item := NewUnchecked(StorageOf(src[..n]));
      var next := NextPage(item, page);
      StrictItemsAgree(src[n..], next);
      ItemsStep(src, page);
      StrictItemsHead(src, page);
      PointwiseCons(StrictItems(src, page), Items(src, page));
    }
  }

  /** The strict parser's first result and page are the lenient ones, made strict. */
  lemma StrictItemsHead(src: seq<bv8>, page: Option<Storage>)
    requires src != [] && |src| >= ItemLength(src[0])
    ensures var n := ItemLength(src[0]);
      var item := NewUnchecked(StorageOf(src[..n]));
      var next := NextPage(item, page);
      StrictItems(src, page) == [ToStrict(Attach(item, next))] + StrictItems(src[n..], next)
  {
    var n := ItemLength(src[0]);
    var raw := StorageOf(src[..n]);
    StrictUncheckedAgrees(raw);
  }

  /** Two lists agree pointwise under `ToStrict` when their heads and tails do. */
  lemma PointwiseCons(strict: seq<Result<ReportItem>>, lenient: seq<ReportItem>)
    requires |strict| == |lenient| > 0 && strict[0] == ToStrict(lenient[0])
    requires forall i :: 0 <= i < |lenient[1..]| ==> strict[1..][i] == ToStrict(lenient[1..][i])
    ensures forall i :: 0 <= i < |lenient| ==> strict[i] == ToStrict(lenient[i])
  {
    forall i | 1 <= i < |lenient|
      ensures strict[i] == ToStrict(lenient[i])
    {
      assert strict[1..][i - 1] == strict[i];
    }
  }

  /** The item the iterator builds from bytes `start` to `end` of `source` is the next of `Items`. */
  lemma ItemsStepAt(source: seq<bv8>, start: nat, end: nat, page: Option<Storage>)
    requires start < end <= |source| && end - start == ItemLength(source[start])
    ensures var item := NewUnchecked(StorageOf(source[start..end]));
      Items(source[start..], page)
        == [Attach(item, NextPage(item, page))] + Items(source[end..], NextPage(item, page))
  {
    var src := source[start..];
    assert src[..end - start] == source[start..end];
    assert src[end - start..] == source[end..];
    ItemsStep(src, page);
  }

  /** Strict counterpart of `ItemsStepAt`. */
  lemma StrictItemsStepAt(source: seq<bv8>, start: nat, end: nat, page: Option<Storage>)
    requires start < end <= |source| && end - start == ItemLength(source[start])
    ensures var r := NewStrictUnchecked(StorageOf(source[start..end]));
      var next := if r.Ok? then NextPage(r.value, page) else page;
      StrictItems(source[start..], page)
        == [if r.Ok? then Ok(Attach(r.value, next)) else r] + StrictItems(source[end..], next)
  {
    var src := source[start..];
    assert src[..end - start] == source[start..end];
    assert src[end - start..] == source[end..];
  }

  /** Moving one element across a concatenation. */
  lemma AppendOne<T>(a: seq<T>, x: T, b: seq<T>)
    ensures a + ([x] + b) == (a + [x]) + b
  {
  }

  /** Writing the next byte into the buffer extends the copied prefix by one. */
  lemma StorageOfAppend(source: seq<bv8>, start: nat, pos: nat)
    requires start < pos < |source| && pos - start < 5
    ensures StorageOf(source[start..pos + 1]) == StorageOf(source[start..pos])[pos - start := source[pos]]
  {
    assert source[start..pos + 1] == source[start..pos] + [source[pos]];
  }

  /** A stream that ends inside its first item yields nothing, leniently or strictly. */
  lemma TruncatedAt(source: seq<bv8>, start: nat, end: nat, page: Option<Storage>)
    requires start < end == |source| && end - start < ItemLength(source[start])
    ensures Items(source[start..], page) == [] && StrictItems(source[start..], page) == []
    ensures source[end..] == []
  {
  }

  /**
   * `Iter`: the byte stream (a slice read from position `pos`) and the usage
   * page seen so far.
   */
  class Iter {
    const source: seq<bv8>
    var pos: nat
    var usagePage: Option<Storage>

    ghost predicate Valid()
      reads this
    {
      pos <= |source|
    }

    /** The bytes the iterator has not consumed yet. */
    ghost function Remaining(): seq<bv8>
      reads this
      requires Valid()
    {
      source[pos..]
    }

    /** `parse(byte_stream)`. */
    constructor (source: seq<bv8>)
      ensures Valid() && this.source == source && pos == 0 && usagePage == None
      ensures Remaining() == source
    {
      this.source := source;
      pos := 0;
      usagePage := None;
    }

    /**
     * `Iterator::next`: reads a prefix and its announced data bytes into a zeroed
     * five-byte buffer, classifies it, records a Usage Page, and attaches the
     * page to a usage kind. Running out of bytes at any point yields `None`,
     * after consuming what was there.
     */
    method Next() returns (r: Option<ReportItem>)
      requires Valid()
      modifies this
      ensures Valid()
      ensures r.None? ==> Items(old(Remaining()), old(usagePage)) == [] && Remaining() == []
      ensures r.None? ==> usagePage == old(usagePage)
      ensures r.Some? ==> Items(old(Remaining()), old(usagePage)) == [r.value] + Items(Remaining(), usagePage)
      ensures r.Some? ==> |Remaining()| < |old(Remaining())|
      ensures r.Some? ==> usagePage == NextPage(r.value, old(usagePage))
    {
      if pos == |source| {
        assert Remaining() == [];
        return None;
      }
      var start := pos;
      var prefix := source[pos];
      pos := pos + 1;
      var size := DataSize(prefix);
      var storage := new bv8[5](_ => 0);
      storage[0] := prefix;
      for i := 0 to size
        invariant pos == start + 1 + i <= |source|
        invariant storage[..] == StorageOf(source[start..pos])
        invariant usagePage == old(usagePage)
      {
        if pos == |source| {
          TruncatedAt(source, start, pos, old(usagePage));
          return None;
        }
        StorageOfAppend(source, start, pos);
        storage[i + 1] := source[pos];
        pos := pos + 1;
      }
      ItemsStepAt(source, start, pos, old(usagePage));
      assert old(Remaining()) == source[start..] && Remaining() == source[pos..];
      var item := NewUnchecked(storage[..]);
      if item.kind == UsagePage {
        usagePage := Some(item.inner);
      }
      if usagePage.Some? && item.IsUsageKind() {
        item := item.(page := usagePage);
      }
      return Some(item);
    }

    /** Drains the iterator, as `parse(bytes).collect::<Vec<_>>()` does. */
    method Collect() returns (items: seq<ReportItem>)
      requires Valid()
      modifies this
      ensures Valid() && Remaining() == []
      ensures items == Items(old(Remaining()), old(usagePage))
    {
      items := [];
      while true
        invariant Valid()
        invariant items + Items(Remaining(), usagePage) == Items(old(Remaining()), old(usagePage))
        decreases |Remaining()|
      {
        var r := Next();
        if r.None? {
          return;
        }
        AppendOne(items, r.value, Items(Remaining(), usagePage));
        items := items + [r.value];
      }
    }
  }

  /** `StrictIter`: as `Iter`, yielding results. */
  class StrictIter {
    const source: seq<bv8>
    var pos: nat
    var usagePage: Option<Storage>

    ghost predicate Valid()
      reads this
    {
      pos <= |source|
    }

    ghost function Remaining(): seq<bv8>
      reads this
      requires Valid()
    {
      source[pos..]
    }

    /** `parse_strict(byte_stream)`. */
    constructor (source: seq<bv8>)
      ensures Valid() && this.source == source && pos == 0 && usagePage == None
      ensures Remaining() == source
    {
      this.source := source;
      pos := 0;
      usagePage := None;
    }

    /**
     * `Iterator::next` in strict mode: as `Iter::next`, but an unknown key gives
     * `Err(ReservedItem(..))`, which neither changes the page nor takes one.
     */
    method Next() returns (r: Option<Result<ReportItem>>)
      requires Valid()
      modifies this
      ensures Valid()
      ensures r.None? ==> StrictItems(old(Remaining()), old(usagePage)) == [] && Remaining() == []
      ensures r.None? ==> usagePage == old(usagePage)
      ensures r.Some? ==>
        StrictItems(old(Remaining()), old(usagePage)) == [r.value] + StrictItems(Remaining(), usagePage)
      ensures r.Some? ==> |Remaining()| < |old(Remaining())|
      ensures r.Some? && r.value.Err? ==> usagePage == old(usagePage)
    {
      if pos == |source| {
        assert Remaining() == [];
        return None;
      }
      var start := pos;
      var prefix := source[pos];
      pos := pos + 1;
      var size := DataSize(prefix);
      var storage := new bv8[5](_ => 0);
      storage[0] := prefix;
      for i := 0 to size
        invariant pos == start + 1 + i <= |source|
        invariant storage[..] == StorageOf(source[start..pos])
        invariant usagePage == old(usagePage)
      {
        if pos == |source| {
          TruncatedAt(source, start, pos, old(usagePage));
          return None;
        }
        StorageOfAppend(source, start, pos);
        storage[i + 1] := source[pos];
        pos := pos + 1;
      }
      StrictItemsStepAt(source, start, pos, old(usagePage));
      var item := NewStrictUnchecked(storage[..]);
      if item.Ok? && item.value.kind == UsagePage {
        usagePage := Some(item.value.inner);
      }
      if usagePage.Some? && item.Ok? && item.value.IsUsageKind() {
        item := Ok(item.value.(page := usagePage));
      }
      return Some(item);
    }

    /** Drains the strict iterator. */
    method Collect() returns (items: seq<Result<ReportItem>>)
      requires Valid()
      modifies this
      ensures Valid() && Remaining() == []
      ensures items == StrictItems(old(Remaining()), old(usagePage))
    {
      items := [];
      while true
        invariant Valid()
        invariant items + StrictItems(Remaining(), usagePage) == StrictItems(old(Remaining()), old(usagePage))
        decreases |Remaining()|
      {
        var r := Next();
        if r.None? {
          return;
        }
        AppendOne(items, r.value, StrictItems(Remaining(), usagePage));
        items := items + [r.value];
      }
    }
  }
}
