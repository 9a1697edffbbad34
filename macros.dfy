/**
 * The per-kind item struct that `__impls_for_short_items` generates (src/macros.rs):
 * a `[u8; 5]` storage whose logical length is derived from the prefix byte, its
 * checked and unchecked constructors, its accessors and its in-place data setter;
 * plus the `__matches_bit` flag selector.
 */
module Macros {
  import opened Bytes
  import opened Errors
  import opened Privates

  /** Storage after copying `raw` into a zeroed buffer (`storage[..raw.len()].copy_from_slice(raw)`). */
  function StorageOf(raw: seq<bv8>): (s: Storage)
    requires |raw| <= 5
    ensures s[..|raw|] == raw && forall i :: |raw| <= i < 5 ==> s[i] == 0
  {
    raw + seq(5 - |raw|, _ => 0)
  }

  /** `as_ref`: the prefix byte and the data bytes it announces, a prefix of the storage. */
  function AsRefOf(s: Storage): (r: seq<bv8>)
    ensures |r| == DataSize(s[0]) + 1
    ensures |r| == 1 || |r| == 2 || |r| == 3 || |r| == 5
    ensures r <= s
  {
    s[..DataSize(s[0]) + 1]
  }

  /** `data`: the data bytes announced by the prefix; the same as `as_ref()[1..]`. */
  function DataOf(s: Storage): (d: seq<bv8>)
    ensures d == AsRefOf(s)[1..]
    ensures |d| == DataSize(AsRefOf(s)[0])
  {
    s[1..DataSize(s[0]) + 1]
  }

  /** A frame whose length agrees with its prefix is read back unchanged from storage. */
  lemma {:induction false} StorageRoundTrip(raw: seq<bv8>)
    requires 1 <= |raw| <= 5 && DataSize(raw[0]) + 1 == |raw|
    ensures AsRefOf(StorageOf(raw)) == raw
    ensures DataOf(StorageOf(raw)) == raw[1..]
  {
    var s := StorageOf(raw);
    assert s[0] == raw[0];
    assert AsRefOf(s) == s[..|raw|];
  }

  /** `__matches_bit!`: `zero` when bit `pos` of `field` is clear, `one` otherwise. */
  function MatchesBit(field: bv8, pos: nat, zero: string, one: string): (r: string)
    requires pos < 8
    ensures (field >> pos) & 1 == 0 ==> r == zero
    ensures (field >> pos) & 1 == 1 ==> r == one
  {
    if field & (1 << pos) == 0 then zero else one
  }

  /** Storage whose announced data bytes are `data` has `data` as its data. */
  lemma DataOfWritten(s: Storage, data: seq<bv8>)
    requires DataSize(s[0]) == |data| && s[1..1 + |data|] == data
    ensures DataOf(s) == data
  {
  }

  /**
   * `data_mut().copy_from_slice(data)`: overwrites the data bytes the prefix
   * announces; `copy_from_slice` demands that `data` has exactly that length.
   */
  method CopyData(storage: array<bv8>, data: seq<bv8>)
    requires storage.Length == 5 && DataSize(storage[0]) == |data|
    modifies storage
    ensures storage[0] == old(storage[0])
    ensures storage[1..1 + |data|] == data
    ensures storage[1 + |data|..] == old(storage[1 + |data|..])
  {
    for i := 0 to |data|
      invariant forall k :: 0 <= k < i ==> storage[1 + k] == data[k]
      invariant forall k :: 1 + i <= k < 5 || k == 0 ==> storage[k] == old(storage[k])
    {
      storage[1 + i] := data[i];
    }
    assert storage[1..1 + |data|] == data;
  }

  /**
   * `__set_data_size(&mut storage[0], data)?` followed by
   * `data_mut().copy_from_slice(data)`, the write shared by `new_with` and
   * `set_data`. On failure the size bits are left cleared, so no data is announced.
   */
  method WriteData(storage: array<bv8>, data: seq<bv8>) returns (r: Result<()>)
    requires storage.Length == 5
    modifies storage
    ensures storage[0] & 0xFC == old(storage[0]) & 0xFC
    ensures r.Ok? <==> |data| == 0 || |data| == 1 || |data| == 2 || |data| == 4
    ensures r.Ok? ==> DataOf(storage[..]) == data && storage[1 + |data|..] == old(storage[1 + |data|..])
    ensures r.Ok? ==> forall i :: 1 + |data| <= i < 5 ==> storage[i] == old(storage[i])
    ensures r.Err? ==> r.error == InvalidDataSize && storage[0] == old(storage[0]) & 0xFC
    ensures r.Err? ==> DataOf(storage[..]) == [] && storage[1..] == old(storage[1..])
  {
    r := SetDataSize(storage, data);
    if r.Err? {
      DataOfWritten(storage[..], []);
      assert storage[1..] == old(storage[1..]);
      return;
    }
    CopyData(storage, data);
    DataOfWritten(storage[..], data);
    assert forall i :: 1 + |data| <= i < 5 ==> storage[i] == storage[1 + |data|..][i - 1 - |data|];
  }

  /**
   * One item struct generated by the macro. `Key` is the kind's `PREFIX`
   * constant (size bits 00); `storage` is the `[u8; 5]` it wraps.
   */
  class ShortItem {
    const Key: bv8
    const storage: array<bv8>

    /** Five storage bytes whose tag and type bits are the kind's `PREFIX`. */
    ghost predicate Valid()
      reads this, storage
    {
      storage.Length == 5 && Key & 3 == 0 && storage[0] & 0xFC == Key
    }

    /** The struct's value: its five storage bytes. */
    function Value(): Storage
      reads this, storage
      requires Valid()
    {
      storage[..]
    }

    /** `as_ref`: prefix plus announced data, length `__data_size(prefix) + 1`. */
    function AsRef(): (r: seq<bv8>)
      reads this, storage
      requires Valid()
      ensures |r| == DataSize(storage[0]) + 1
      ensures |r| == 1 || |r| == 2 || |r| == 3 || |r| == 5
      ensures r == storage[..|r|]
    {
      AsRefOf(Value())
    }

    /** `prefix`: equivalent to `as_ref()[0]`. */
    function Prefix(): (p: bv8)
      reads this, storage
      requires Valid()
      ensures p == AsRef()[0]
    {
      storage[0]
    }

    /** `data`: equivalent to `&as_ref()[1..]`. */
    function Data(): (d: seq<bv8>)
      reads this, storage
      requires Valid()
      ensures d == AsRef()[1..]
      ensures |d| == DataSize(Prefix())
    {
      DataOf(Value())
    }

    /** `Default`: the kind's prefix and no data. */
    constructor Default(key: bv8)
      requires key & 3 == 0
      ensures Valid() && Key == key && fresh(storage)
      ensures Value() == [key, 0, 0, 0, 0]
      ensures Prefix() == key && Data() == []
    {
      Key := key;
      storage := new bv8[5](i => if i == 0 then key else 0);
    }

    /**
     * `new_unchecked`: copies `raw` into zeroed storage without any check. Its
     * safety contract asks for a correct prefix; a slice longer than 5 would panic.
     */
    constructor NewUnchecked(key: bv8, raw: seq<bv8>)
      requires key & 3 == 0 && 1 <= |raw| <= 5 && raw[0] & 0xFC == key
      ensures Valid() && Key == key && fresh(storage)
      ensures Value() == StorageOf(raw)
    {
      Key := key;
      storage := new bv8[5](i requires 0 <= i < 5 => if i < |raw| then raw[i] else 0);
    }

    /**
     * `new`: checks, in this order, that `raw` is not empty, that its tag and
     * type bits are the kind's `PREFIX`, and that its length matches the size bits.
     */
    static method New(key: bv8, raw: seq<bv8>) returns (r: Result<ShortItem>)
      requires key & 3 == 0
      ensures raw == [] ==> r == Err(EmptyRawInput)
      ensures raw != [] && raw[0] & 0xFC != key ==> r == Err(PrefixNotMatch)
      ensures raw != [] && raw[0] & 0xFC == key && DataSize(raw[0]) + 1 != |raw| ==>
        r == Err(DataSizeNotMatch(DataSize(raw[0]), |raw| - 1))
      ensures r.Ok? <==> raw != [] && raw[0] & 0xFC == key && DataSize(raw[0]) + 1 == |raw|
      ensures r.Ok? ==> fresh(r.value) && fresh(r.value.storage) && r.value.Valid() && r.value.Key == key
      ensures r.Ok? ==> r.value.AsRef() == raw && r.value.Value() == StorageOf(raw)
    {
      if raw == [] {
        return Err(EmptyRawInput);
      }
      if raw[0] & 0xFC != key {
        return Err(PrefixNotMatch);
      }
      var expected := DataSize(raw[0]);
      if expected + 1 != |raw| {
        return Err(DataSizeNotMatch(expected, |raw| - 1));
      }
      var item := new ShortItem.NewUnchecked(key, raw);
      StorageRoundTrip(raw);
      return Ok(item);
    }

    /**
     * `new_with`: the kind's prefix with the size bits for `data`, followed by
     * `data`; fails with `InvalidDataSize` unless `data` has 0, 1, 2 or 4 bytes.
     */
    static method NewWith(key: bv8, data: seq<bv8>) returns (r: Result<ShortItem>)
      requires key & 3 == 0
      ensures r.Ok? <==> |data| == 0 || |data| == 1 || |data| == 2 || |data| == 4
      ensures r.Err? ==> r.error == InvalidDataSize
      ensures r.Ok? ==> fresh(r.value) && fresh(r.value.storage) && r.value.Valid() && r.value.Key == key
      ensures r.Ok? ==> r.value.Prefix() & 0xFC == key && r.value.Data() == data
      ensures r.Ok? ==> forall i :: 1 + |data| <= i < 5 ==> r.value.storage[i] == 0
    {
      // `Self([0; 5])` with `PREFIX` written into byte 0 is the `Default` value.
      var item := new ShortItem.Default(key);
      var written := WriteData(item.storage, data);
      if written.Err? {
        return Err(written.error);
      }
      return Ok(item);
    }

    /**
     * `set_data`: rewrites the size bits and the data bytes in place. Storage
     * bytes past the new length keep their old values. On failure the size bits
     * are left cleared, so the item then has no data.
     */
    method SetData(data: seq<bv8>) returns (r: Result<()>)
      requires Valid()
      modifies storage
      ensures Valid()
      ensures r.Ok? <==> |data| == 0 || |data| == 1 || |data| == 2 || |data| == 4
      ensures r.Ok? ==> Data() == data && Prefix() & 0xFC == old(Prefix()) & 0xFC
      ensures r.Ok? ==> storage[1 + |data|..] == old(storage[1 + |data|..])
      ensures r.Err? ==> r.error == InvalidDataSize && Prefix() == old(Prefix()) & 0xFC
      ensures r.Err? ==> Data() == [] && storage[1..] == old(storage[1..])
    {
      r := WriteData(storage, data);
    }
  }
}
