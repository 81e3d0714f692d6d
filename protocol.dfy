/**
 * The JSON frames of the backend's plain WebSocket channel (backend/routers/chat.py), in
 * both directions, as the server reads and writes them.
 */
module Protocol {
  import opened Wrappers

  /** A JSON value in the `type` position of an inbound frame. */
  datatype Json = JNull | JStr(s: string) | JInt(n: int) | JOther

  /**
   * An inbound text frame after `json.loads`. `Malformed` is text that is not JSON or not a
   * JSON object (the server then fails on it). For an object, `kind` is the `type` key (absent
   * is `None`), `receiverId` the `receiver_id` key (absent or null is `None`) and `content`
   * the `content` key (absent or null is `None`).
   */
  datatype Frame =
    | Malformed
    | Object(kind: Option<Json>, receiverId: Option<int>, content: Option<string>)

  /** A frame the server sends. */
  datatype WireOut =
    | NewMessage(id: int, content: string, senderId: int, receiverId: Option<int>, createdAt: int, status: string)
    | TypingStartOut(senderId: int)
    | TypingStopOut(senderId: int)
    | MessageReadOut(readerId: int, contactId: Option<int>)

  /** The name in a frame's `type` field. */
  function FrameType(w: WireOut): string
  {
    match w
    case NewMessage(_, _, _, _, _, _) => "new_message"
    case TypingStartOut(_) => "typing_start"
    case TypingStopOut(_) => "typing_stop"
    case MessageReadOut(_, _) => "message_read"
  }
}
