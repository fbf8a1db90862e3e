/** Shared result types used by every route and screen of the reservation system. */
module Common {

  datatype Option<T> = None | Some(value: T)

  /** What an Express route sends back: a success status with a JSON body, or an
      error status with the message it puts in the body. */
  datatype Reply<T> = Ok(status: int, value: T) | Err(status: int, message: string)
  {
    function Status(): int
    {
      match this
      case Ok(s, _) => s
      case Err(s, _) => s
    }
  }

  /** How a request sent by a client screen ended, as the screen sees it:
      a parsed JSON reply (`ok` is `response.ok`, `message` the field the screen
      reads, "" when absent), a reply that is not JSON, or a thrown network error. */
  datatype Delivery = Delivered(ok: bool, message: string) | Garbled | Unreachable(reason: string)
}
