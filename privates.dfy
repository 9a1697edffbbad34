/**
 * The frame codec shared by every item kind (src/privates.rs): the bSize bits of
 * a prefix byte and the little-endian decoding of the data bytes.
 */
module Privates {
  import opened Bytes
  import opened Errors

  /** Number of data bytes announced by the size bits (1-0) of a prefix: 00, 01, 10, 11 give 0, 1, 2, 4. */
  function DataSize(prefix: bv8): (n: nat)
    ensures n == 0 || n == 1 || n == 2 || n == 4
  {
    match prefix & 3
    case 0 => 0
    case 1 => 1
    case 2 => 2
    case _ => 4
  }

  /** Tag and type bits (7-2) of a prefix together with its data size determine the whole prefix. */
  lemma DataSizeDeterminesSizeBits(p: bv8, q: bv8)
    requires p & 0xFC == q & 0xFC
    ensures DataSize(p) == DataSize(q) <==> p == q
  {
  }

  /**
   * `__set_data_size`: rewrites the size bits of the prefix byte `storage[0]` for
   * `data`. The size bits are cleared first and stay cleared when the length is
   * rejected: the prefix is not restored on failure.
   */
  method SetDataSize(storage: array<bv8>, data: seq<bv8>) returns (r: Result<()>)
    requires storage.Length > 0
    modifies storage
    ensures storage[0] & 0xFC == old(storage[0]) & 0xFC
    ensures r.Ok? <==> |data| == 0 || |data| == 1 || |data| == 2 || |data| == 4
    ensures r.Ok? ==> DataSize(storage[0]) == |data|
    ensures r.Err? ==> r.error == InvalidDataSize && storage[0] & 3 == 0
    ensures forall i :: 1 <= i < storage.Length ==> storage[i] == old(storage[i])
  {
    storage[0] := storage[0] & !3;
    match |data| {
      case 0 =>
      case 1 => storage[0] := storage[0] | 1;
      case 2 => storage[0] := storage[0] | 2;
      case 4 => storage[0] := storage[0] | 3;
      case _ => return Err(InvalidDataSize);
    }
    return Ok(());
  }

  /**
   * How many leading bytes of a slice of length `len` the two decoders read:
   * all of them up to two, the first two of three, the first four of four or more.
   */
  function DecodedWidth(len: nat): (w: nat)
    ensures w <= len && (w == 0 || w == 1 || w == 2 || w == 4)
  {
    if len == 3 then 2 else if len > 4 then 4 else len
  }

  /** `__data_to_unsigned`: the little-endian unsigned value of the data bytes. */
  function DataToUnsigned(data: seq<bv8>): (r: nat)
    ensures r == LittleEndian(data[..DecodedWidth(|data|)])
    ensures r < Radix(DecodedWidth(|data|))
  {
    var w := DecodedWidth(|data|);
    LittleEndianShort(data[..w]);
    LittleEndianBound(data[..w]);
    if |data| == 0 then 0
    else if |data| == 1 then data[0] as nat
    else if |data| < 4 then data[0] as nat + 0x100 * data[1] as nat
    else data[0] as nat + 0x100 * data[1] as nat + 0x1_0000 * data[2] as nat + 0x100_0000 * data[3] as nat
  }

  /**
   * `__data_to_signed`: the data bytes read as a little-endian two's-complement
   * `i8`, `i16` or `i32`: the value lies in the signed range of that width and
   * differs from the unsigned reading by 0 or by 2^(8w).
   */
  function DataToSigned(data: seq<bv8>): (r: int)
    ensures DecodedWidth(|data|) == 0 ==> r == 0
    ensures DecodedWidth(|data|) > 0 ==>
      -(Radix(DecodedWidth(|data|)) / 2) <= r < Radix(DecodedWidth(|data|)) / 2
    ensures r == DataToUnsigned(data) || r == DataToUnsigned(data) - Radix(DecodedWidth(|data|))
  {
    assert Radix(1) == 0x100 && Radix(2) == 0x1_0000 && Radix(4) == 0x1_0000_0000;
    // `from_le_bytes` of the signed type reinterprets the bits of the unsigned reading.
    var u := DataToUnsigned(data);
    if |data| == 0 then 0
    else if |data| == 1 then (if u < 0x80 then u else u - 0x100)
    else if |data| < 4 then (if u < 0x8000 then u else u - 0x1_0000)
    else (if u < 0x8000_0000 then u else u - 0x1_0000_0000)
  }

}
