/** Small value types shared by the bot and the HTTP side. */
module Types {

  /** Go's nil-or-value, for optional fields and the `error` return. */
  datatype Option<+T> = None | Some(value: T)

  /** A Go `error` value; `message` is what its `Error()` method returns. */
  datatype Error = Error(message: string)

  /** `1` for true and `0` for false, for counting the attachment kinds present. */
  function Count(b: bool): nat
  {
    if b then 1 else 0
  }
}
