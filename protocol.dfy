/** Wire-level values shared by the signaling relay and its browser client.
    Every frame is one JSON object `{type, status?, data?, message?}`; the
    JSON text itself is not modelled, the decoded object is. */
module Protocol {

  datatype Option<T> = None | Some(value: T)

  /** One WebSocket connection. Equality of handles stands for `===` on the
      connection objects the relay keeps. */
  type ConnId = int

  /** A session key. The relay draws them with `uuidv4()`; only their
      identity matters here. */
  type SessionId = nat

  /** A payload the relay forwards without looking inside: an SDP offer or
      answer, or a list of ICE candidates, as JSON text. */
  type Blob = string

  datatype Status = Success | Error

  /** One element of the `chatRoomList` sent for `get-all-offers`: a session
      stripped of its connection objects. */
  datatype RoomEntry = RoomEntry(id: SessionId, offer: Option<Blob>, answer: Option<Blob>)

  /** The `data` member of an outbound frame. `None` inside a field is a
      property whose value was `undefined` (JSON.stringify drops it). */
  datatype Payload =
    | NoData
    | SessionIdData(sessionId: SessionId)
    | OfferData(offer: Option<Blob>)
    | AnswerData(answer: Option<Blob>)
    | IceData(iceCandidates: Option<Blob>)
    | RoomListData(chatRoomList: seq<RoomEntry>)
    | Text(text: string)

  /** A decoded frame: `type` is `kind`; the other members may be absent. */
  datatype Envelope = Envelope(kind: string, status: Option<Status>, data: Payload, message: Option<string>)
}
