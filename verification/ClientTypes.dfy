/** The error classes, commands and results the client protocol branches on. */
module ClientTypes {
  import opened Wrappers
  import opened MsgPack
  import opened Values

  /** WriteFailed marks a request that never reached the wire; every other class ends the call. */
  datatype Err =
    | ConnectionClosed
    | ConnectionError
    | TimeoutError
    | FrameTooLargeError
    | DecodeError
    | AuthError
    | ServerError(message: Octets)
    | WriteFailed

  /** One command with its arguments, before it has an id. */
  datatype Command = Command(name: Octets, args: seq<Value>)

  /** What a call returns. */
  type Outcome = Result<Value, Err>

  /** A server reply as the caller sees it. */
  function Answer(resp: Response): Outcome {
    match resp
    case ResponseOk(_, v) => Ok(v)
    case ResponseErr(_, m) => Err(ServerError(m))
  }

  /** An unwrapped write failure is a plain connection error. */
  function Unwrapped(e: Err): Err { if e == WriteFailed then ConnectionError else e }

  /** During the handshake a server rejection is an authentication failure;
      transport failures keep their own class. */
  function AsHandshakeError(e: Err): Err {
    if Unwrapped(e).ServerError? then AuthError else Unwrapped(e)
  }
}
