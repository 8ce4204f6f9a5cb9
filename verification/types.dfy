/** Value types shared by every layer of the keychain model. */
module Types {

  /** A value that may be absent: Swift's `Optional`. */
  datatype Option<+T> = None | Some(value: T) {
    function GetOr(default: T): T {
      match this
      case Some(v) => v
      case None => default
    }
  }

  /** One byte of a `Data` buffer. */
  newtype uint8 = x: int | 0 <= x < 0x100

  /** Foundation's `Data`: a finite byte string. */
  type Bytes = seq<uint8>
}
