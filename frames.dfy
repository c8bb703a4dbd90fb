/**
 The vocabulary of one WebSocket session: the items the aggregated inbound
 message stream yields, and the frames the server hands to a session.
 */
module Frames {

  type Bytes = seq<bv8>

  /** One item of a socket's inbound stream, after continuation frames are aggregated. */
  datatype Event =
    | Text(text: string)
    | Binary(data: Bytes)
    | Ping(payload: Bytes)
    | Pong(payload: Bytes)
    | Close
    | ProtocolError

  /** A frame sent on a session: a text message or the answer to a ping. */
  datatype Frame =
    | TextOut(text: string)
    | PongOut(payload: Bytes)

  /** The frame kinds the event loop neither answers nor stops on. */
  predicate Ignored(e: Event)
  {
    e.Binary? || e.Pong? || e.Close?
  }
}
