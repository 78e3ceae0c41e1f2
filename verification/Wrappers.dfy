/** Optional values and fallible results, used by every model in place of
    `null`, `undefined`, exceptions and panics, and bytes. */
module Wrappers {

  datatype Option<+T> = None | Some(value: T)

  datatype Result<+T, +E> = Ok(value: T) | Err(error: E)

  type Byte = b: int | 0 <= b < 256
}
