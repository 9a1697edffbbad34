/** The error taxonomy of the crate (src/error.rs) and the result type its constructors return. */
module Errors {
  import opened Bytes

  datatype HidError =
    /** Requested data length for a short item is not 0, 1, 2 or 4. */
    | InvalidDataSize
    /** The data length announced by the prefix's size bits differs from the bytes supplied. */
    | DataSizeNotMatch(expected: nat, provided: nat)
    /** The prefix's tag and type bits do not name the item kind being built. */
    | PrefixNotMatch
    /** No bytes at all were supplied. */
    | EmptyRawInput
    /** Strict mode met an item whose tag and type match no known kind; carries its storage. */
    | ReservedItem(reserved: Storage)

  datatype Result<+T> = Ok(value: T) | Err(error: HidError)
}
