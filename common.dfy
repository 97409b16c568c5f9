/** Small shared vocabulary: an optional value and raw bytes. */
module Common {

  datatype Option<T> = None | Some(value: T)

  /** One octet of a response body or of a file in the mirror. */
  newtype Byte = x: int | 0 <= x < 256

  type Bytes = seq<Byte>
}
