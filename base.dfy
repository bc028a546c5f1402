/** Option and Result wrappers, and the thrown-value model shared by every module. */
module Base {

  datatype Option<+T> = None | Some(value: T) {
    /** `x ?? fallback`; also `x || fallback` where no present value is falsy (an array or an
        object, empty or not, or an outcome name). */
    function GetOr(fallback: T): T {
      match this
      case Some(v) => v
      case None => fallback
    }
  }

  /** A JavaScript value that was thrown or used to reject a promise. `Thrown` is a value thrown
      by code outside the adapter (the client, the provider, the handler): `id` stands for its
      identity, since two errors with equal text are still different errors, and `text` is how
      `String(error)` ends for it: the string, or whatever the value's own `toString` or
      `Symbol.toPrimitive` throws (a TypeError for an object that has neither). `TypeError` is
      raised by the adapter's own code. */
  datatype Failure = Thrown(id: nat, text: Result<string>) | TypeError(message: string) {
    /** `String(error)`: its string, or the failure the conversion throws. */
    function Text(): Result<string> {
      match this
      case Thrown(_, text) => text
      case TypeError(message) => Ok(message)
    }
  }

  /** The settled state of a promise, or the normal/exceptional end of a call. */
  datatype Result<+T> = Ok(value: T) | Err(error: Failure)

  /** JavaScript truthiness of an optional string: absent and "" are falsy. */
  predicate Truthy(s: Option<string>) {
    s.Some? && s.value != ""
  }
}
