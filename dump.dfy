/** `dump` (src/lib.rs): the items' bytes, concatenated in order. */
module Dump {
  import opened ReportItems

  /**
   * Reference reading: each item's `as_ref` bytes, one after the other. Every
   * item contributes between one and five bytes.
   */
  function Serialized(items: seq<ReportItem>): (bytes: seq<bv8>)
    ensures |items| <= |bytes| <= 5 * |items|
  {
    if items == [] then [] else AsRef(items[0]) + Serialized(items[1..])
  }

  /** Serializing a concatenation serializes the two halves one after the other. */
  lemma {:induction false} SerializedConcat(a: seq<ReportItem>, b: seq<ReportItem>)
    ensures Serialized(a + b) == Serialized(a) + Serialized(b)
  {
    if a != [] {
      assert (a + b)[1..] == a[1..] + b;
      SerializedConcat(a[1..], b);
    } else {
      assert a + b == b;
    }
  }

  /** Serializing one item and then the rest. */
  lemma SerializedCons(x: ReportItem, rest: seq<ReportItem>)
    ensures Serialized([x] + rest) == AsRef(x) + Serialized(rest)
  {
    assert ([x] + rest)[1..] == rest;
  }

  /** `dump`: extends a byte vector with each item's `as_ref`. */
  method Dump(items: seq<ReportItem>) returns (v: seq<bv8>)
    ensures v == Serialized(items)
  {
    v := [];
    for i := 0 to |items|
      invariant v == Serialized(items[..i])
    {
      SerializedConcat(items[..i], [items[i]]);
      assert Serialized([items[i]]) == AsRef(items[i]) by {
        assert [items[i]][1..] == [];
      }
      assert items[..i + 1] == items[..i] + [items[i]];
      v := v + AsRef(items[i]);
    }
    assert items[..|items|] == items;
  }
}
