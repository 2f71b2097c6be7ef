/** Values shared by every module: optional values (JavaScript `undefined`/`null`),
    the completion of a JavaScript call that may throw, and component children. */
module Wrappers {

  /** An optional value; `None` stands for a missing property (`undefined`) or `null`. */
  datatype Option<+T> = None | Some(value: T) {
    function GetOr(default: T): T {
      match this
      case Some(v) => v
      case None => default
    }
  }

  /** What a `throw` carries: an `Error` object with its message, or any other value. */
  datatype Thrown = ErrorObject(message: string) | NonErrorValue

  /** How a JavaScript call (or an awaited promise) ends: it returns a value or it throws. */
  datatype Completion<+T> = Normal(value: T) | Abrupt(thrown: Thrown)

  /** A component's children: a plain string, or rendered elements. */
  datatype Children = Text(text: string) | Elements

  /** The TypeError raised when a property of `undefined` is read. */
  const ReadOfUndefined: Thrown := ErrorObject("Cannot read properties of undefined")
}
