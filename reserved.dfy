/**
 * Items whose tag and type bits name no known kind (src/reserved.rs). Unlike the
 * macro-generated structs, `Reserved::new` performs no prefix check.
 */
module ReservedItems {
  import opened Bytes
  import opened Errors
  import opened Privates
  import opened Macros

  /**
   * `Display for Reserved`: matches on the storage length, which is always 5,
   * so the `unreachable!()` arm for length 0 is dead and the label is always "Reserved".
   */
  function ReservedLabel(s: Storage): (text: string)
    ensures text == "Reserved"
  {
    if |s| >= 1 then "Reserved" else assert false; ""
  }

  class Reserved {
    const storage: array<bv8>

    ghost predicate Valid()
      reads this
    {
      storage.Length == 5
    }

    /** The struct's value: its five storage bytes. */
    function Value(): Storage
      reads this, storage
      requires Valid()
    {
      storage[..]
    }

    /** `as_ref`: prefix plus announced data, a prefix of the storage. */
    function AsRef(): (r: seq<bv8>)
      reads this, storage
      requires Valid()
      ensures |r| == DataSize(storage[0]) + 1
      ensures |r| == 1 || |r| == 2 || |r| == 3 || |r| == 5
      ensures r == storage[..|r|]
    {
      AsRefOf(Value())
    }

    /** `prefix`: equivalent to `as_ref()[0]`. */
    function Prefix(): (p: bv8)
      reads this, storage
      requires Valid()
      ensures p == AsRef()[0]
    {
      storage[0]
    }

    /** `data`: equivalent to `&as_ref()[1..]`. */
    function Data(): (d: seq<bv8>)
      reads this, storage
      requires Valid()
      ensures d == AsRef()[1..]
      ensures |d| == DataSize(Prefix())
    {
      DataOf(Value())
    }

    /**
     * `new_unchecked`: copies `raw` into zeroed storage. Its safety contract asks
     * for size bits that match the length; a slice longer than 5 would panic.
     */
    constructor NewUnchecked(raw: seq<bv8>)
      requires |raw| <= 5
      ensures Valid() && fresh(storage)
      ensures Value() == StorageOf(raw)
      ensures 1 <= |raw| && DataSize(raw[0]) + 1 == |raw| ==> AsRef() == raw
    {
      storage := new bv8[5](i requires 0 <= i < 5 => if i < |raw| then raw[i] else 0);
      new;
      if 1 <= |raw| && DataSize(raw[0]) + 1 == |raw| {
        StorageRoundTrip(raw);
      }
    }

    /** `new`: rejects empty input and a length that disagrees with the size bits; any tag and type are accepted. */
    static method New(raw: seq<bv8>) returns (r: Result<Reserved>)
      ensures raw == [] ==> r == Err(EmptyRawInput)
      ensures raw != [] && DataSize(raw[0]) + 1 != |raw| ==>
        r == Err(DataSizeNotMatch(DataSize(raw[0]), |raw| - 1))
      ensures r.Ok? <==> raw != [] && DataSize(raw[0]) + 1 == |raw|
      ensures r.Ok? ==> fresh(r.value) && fresh(r.value.storage) && r.value.Valid()
      ensures r.Ok? ==> r.value.AsRef() == raw && r.value.Value() == StorageOf(raw)
    {
      if raw == [] {
        return Err(EmptyRawInput);
      }
      var expected := DataSize(raw[0]);
      if expected + 1 != |raw| {
        return Err(DataSizeNotMatch(expected, |raw| - 1));
      }
      var item := new Reserved.NewUnchecked(raw);
      return Ok(item);
    }

    /**
     * `set_data`: rewrites the size bits and the data bytes in place, keeping the
     * tag and type bits. On failure the size bits are left cleared.
     */
    method SetData(data: seq<bv8>) returns (r: Result<()>)
      requires Valid()
      modifies storage
      ensures Valid()
      ensures r.Ok? <==> |data| == 0 || |data| == 1 || |data| == 2 || |data| == 4
      ensures r.Ok? ==> Data() == data && Prefix() & 0xFC == old(Prefix()) & 0xFC
      ensures r.Ok? ==> storage[1 + |data|..] == old(storage[1 + |data|..])
      ensures r.Err? ==> r.error == InvalidDataSize && Prefix() == old(Prefix()) & 0xFC
      ensures r.Err? ==> Data() == [] && storage[1..] == old(storage[1..])
    {
      r := SetDataSize(storage, data);
      if r.Err? {
        DataOfWritten(storage[..], []);
        assert storage[1..] == old(storage[1..]);
        return;
      }
      CopyData(storage, data);
      DataOfWritten(storage[..], data);
    }
  }
}
