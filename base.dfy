/** Small shared vocabulary: optional values and raw bytes. */
module Base {

  /** A Go pointer that may be nil, or a lookup that may miss. */
  datatype Option<+T> = None | Some(value: T)

  /** One octet of an HTTP body or a cached payload (Go's `byte`). */
  newtype byte = b: int | 0 <= b < 256

  /** A Go `[]byte`; a nil slice and an empty slice are the same value here. */
  type Bytes = seq<byte>
}
