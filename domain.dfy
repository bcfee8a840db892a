/** The values both WebSocket handlers pass around: the persisted `User` and
    `MyMessage` records, the opaque session handle, the frames a handler sends
    and the exceptions a callback can end with. */
module Domain {
  import opened Wrappers

  /** A stored chat message. The `from` and `to` associations to `User` are
      kept as the ids of those users. */
  datatype MyMessage = MyMessage(
    id: string,
    name: string,
    message: string,
    from: Option<int>,
    to: Option<int>)

  /** A row of the `users` table. */
  datatype User = User(id: int, name: string, myMessages: seq<MyMessage>)

  /** One entry of the roster sent to a newly connected chat client. */
  datatype UserResponse = UserResponse(user: User, online: bool)

  /** An open WebSocket connection, known to the model only by its identity. */
  datatype Session = Session(handle: nat)

  /** What a handler writes on a connection. The JSON rendering of each case
      is not modelled: a payload stands for the text the encoder produces. */
  datatype Payload =
    | RosterList(entries: seq<UserResponse>)   // a JSON array of roster entries
    | MessageList(messages: seq<MyMessage>)    // a JSON array of a user's messages
    | Text(text: string)                       // a literal text frame

  /** A frame that was handed to the transport and sent successfully. */
  datatype Frame = Frame(to: Session, payload: Payload)

  /** An inbound WebSocket frame. Binary and pong frames carry a byte buffer
      rather than a string. */
  datatype InboundMessage =
    | TextMessage(payload: string)
    | BinaryMessage(bytes: seq<bv8>)

  /** The exceptions that end a callback early. */
  datatype HandlerError =
    | NumberFormat       // the `userId` header is not a decimal 64-bit integer
    | IllegalState       // no user has the id given in the header
    | SendFailed         // the transport refused the frame (an IOException)
    | ClassCast          // an inbound frame whose payload is not a string
    | JsonDecode         // an inbound text frame that is not a valid message
    | NullPointer        // an inbound text frame that decodes to `null`
}
