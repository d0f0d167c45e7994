/** Values shared by every part of the client: optional values (JavaScript's
    `null`/`undefined`) and the outcome of one asynchronous server call. */
module Base {

  /** A value that may be missing (`null` or `undefined` in the client). */
  datatype Option<+T> = None | Some(value: T) {
    function GetOr(default: T): T {
      match this
      case Some(v) => v
      case None => default
    }
  }

  /** What an awaited API call yields to the handler that awaited it: the
      body it resolved with, or the error it rejected with. */
  datatype Reply<+T> = Ok(value: T) | Failed(message: string)

  /** JavaScript truthiness of an optional string: present and non-empty. */
  predicate Truthy(s: Option<string>) {
    s.Some? && s.value != ""
  }

  /** `a || b` on optional strings. */
  function OrElse(a: Option<string>, b: string): string {
    if Truthy(a) then a.value else b
  }

  /** `Boolean(v)` for a `boolean | null` value. */
  function BooleanOf(v: Option<bool>): (r: bool)
    ensures r <==> v == Some(true)
  {
    match v
    case Some(b) => b
    case None => false
  }
}
