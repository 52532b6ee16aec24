/** Values and file state shared by every part of the voice-chat backend. */
module Common {

  /** A value that may be missing, as Python's `None`. */
  datatype Option<T> = None | Some(value: T)

  /** The outcome of a call that either returns a value or raises an exception. */
  datatype Call<T> = Returned(value: T) | Raised

  /** How writing a file with `open(path, "wb")` ends: the bytes are written,
      the open succeeded (so the file now exists and is empty) but the write
      raised, or the open itself raised and the file is as it was. */
  datatype Write = Written | Truncated | Refused

  /** One octet of a file or an HTTP body. */
  newtype byte = x: int | 0 <= x < 256

  type Bytes = seq<byte>

  /** A binary file at one path: its bytes, or None while nothing exists there.
      Two objects may be the same file when two paths name it. */
  class BinaryFile {
    var content: Option<Bytes>
  }
}
