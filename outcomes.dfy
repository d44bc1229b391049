/** Values shared by the whole model: bytes, optional values, and the outcome
    of a call into code the handler cannot see (it returns a value or throws
    an error carrying a message). */
module Outcomes {

  /** One octet of a Node.js `Buffer`. */
  newtype byte = x: int | 0 <= x < 256

  /** `Buffer`, `ArrayBuffer` and `Uint8Array` are all the same byte sequence here. */
  type Bytes = seq<byte>

  datatype Option<T> = None | Some(value: T)

  /** What an awaited external call did: it resolved with a value, or it
      rejected with an error whose `message` is given. */
  datatype Outcome<T> = Returns(value: T) | Throws(message: string)
}
