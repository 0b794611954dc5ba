/** What the two ends of the tunnel exchange: bytes, WebSocket messages and close instructions. */
module Wire {

  newtype byte = x: int | 0 <= x < 256

  const NEWLINE: byte := 10

  // Largest binary message, and the read limit of both ends
  const BINARY_FRAME_MAX_SIZE := 64 * 1024

  // RFC 6455 section 7.4.1
  const STATUS_NORMAL_CLOSURE := 1000
  const STATUS_UNSUPPORTED_DATA := 1003
  const STATUS_INTERNAL_ERROR := 1011

  datatype Option<+T> = None | Some(value: T)

  /** Every reason the code attaches to a close instruction; the texts of wrapped errors are dropped. */
  datatype Reason =
    | ProcessFailedToStart | StartMessageFailed
    | WebSocketReadFailed | StdinWriteFailed | BadOoBMessage | BadMessageType | ShutdownAcknowledged
    | WebSocketWriteFailed | StdoutEOF | StdoutPipeClosed | StdoutReadFailed
    | ProcessNotGraceful
    | LibraryClose  // sent by the WebSocket library itself, not by this code

  datatype CloseError = CloseError(code: int, reason: Reason)

  /** One WebSocket message (RFC 6455 section 5.6) or close frame; Odd stands for any other message type. */
  datatype Frame =
    | Binary(data: seq<byte>)
    | Text(text: string)
    | Odd
    | Close(close: CloseError)

  /** A send either succeeds, or fails with the frame lost, or fails although the frame went out whole.
      `status` is what `websocket.CloseStatus` reports for the error: -1 unless the peer had closed. */
  datatype SendOutcome = Sent | Lost(status: int) | Doubtful(status: int)

  ghost predicate Closed(frames: seq<Frame>) {
    |frames| > 0 && frames[|frames| - 1].Close?
  }

  /** Nothing follows a close frame (RFC 6455 section 5.5.1). */
  ghost predicate CanPut(frames: seq<Frame>, o: SendOutcome) {
    Closed(frames) ==> o.Lost?
  }

  function Put(frames: seq<Frame>, f: Frame, o: SendOutcome): seq<Frame> {
    if o.Lost? then frames else frames + [f]
  }

  /** The bytes carried by the binary messages of a channel. */
  function Bytes(frames: seq<Frame>): seq<byte> {
    if frames == [] then []
    else
      var f := frames[|frames| - 1];
      Bytes(frames[..|frames| - 1]) + (if f.Binary? then f.data else [])
  }
}
