/** `MyWebSocketHandler`, the handler of the `/websocket` endpoint. It keeps
    no state of its own: on connect it decides what to send, and an inbound
    frame is only decoded. */
module WebSocketHandler {
  import opened Wrappers
  import opened Domain
  import opened UserRepo
  import opened LongParse

  /** What the connect callback does: send one payload, or throw. */
  datatype Greeting = Send(payload: Payload) | Fail(error: HandlerError)

  /** The connect decision for the first `userId` handshake header against
      the `users` table: no header gets "Hello", a known user gets its stored
      messages, an unknown user is an IllegalStateException with nothing
      sent, and a malformed id a NumberFormatException. */
  function AfterConnectionEstablished(userIdHeader: Option<string>, users: seq<User>): (r: Greeting)
    ensures userIdHeader.None? ==> r == Send(Text("Hello"))
    ensures userIdHeader.Some? && ParseLong(userIdHeader.value).None? ==> r == Fail(NumberFormat)
    ensures userIdHeader.Some? && ParseLong(userIdHeader.value).Some? ==>
      var id := ParseLong(userIdHeader.value).value;
      && (r == Fail(IllegalState) <==> forall u :: u in users ==> u.id != id)
      && ((exists u :: u in users && u.id == id) ==> r.Send?)
      && (r.Send? ==> exists u :: u in users && u.id == id && r.payload == MessageList(u.myMessages))
    ensures r.Send? && r.payload.Text? ==> userIdHeader.None?
  {
    match userIdHeader
    case None => Send(Text("Hello"))
    case Some(text) =>
      match ParseLong(text)
      case None => Fail(NumberFormat)
      case Some(id) =>
        match FindById(users, id)
        case None => Fail(IllegalState)
        case Some(user) => Send(MessageList(user.myMessages))
  }

  /** With ids unique, any header that parses to a user's id (with or
      without a sign, with leading zeros) sends exactly that user's messages. */
  lemma GreetingForKnownUser(users: seq<User>, k: nat, h: string)
    requires UniqueIds(users) && k < |users| && ParseLong(h) == Some(users[k].id)
    ensures AfterConnectionEstablished(Some(h), users) == Send(MessageList(users[k].myMessages))
  {
  }

  /** What the JSON mapper makes of a text payload: not a message at all,
      the JSON literal `null` (which the mapper returns as a null reference),
      or a message. */
  datatype Decoded = Invalid | Null | Value(m: MyMessage)

  /** An inbound frame: its string payload decoded by `decode` (the JSON
      mapper) into a message whose name and text are what gets logged. A
      frame without a string payload is a ClassCastException, one that does
      not decode a JSON error, and a decoded `null` a NullPointerException
      when its name is read for the log line. */
  function HandleMessage(message: InboundMessage, decode: string -> Decoded)
    : (r: MessageOutcome)
    ensures message.BinaryMessage? ==> r == Rejected(ClassCast)
    ensures message.TextMessage? ==>
      (r.Logged? <==> decode(message.payload).Value?)
      && (r.Logged? ==> r.name == decode(message.payload).m.name
                        && r.text == decode(message.payload).m.message)
      && (r == Rejected(JsonDecode) <==> decode(message.payload).Invalid?)
      && (r == Rejected(NullPointer) <==> decode(message.payload).Null?)
  {
    match message
    case BinaryMessage(_) => Rejected(ClassCast)
    case TextMessage(payload) =>
      match decode(payload)
      case Invalid => Rejected(JsonDecode)
      case Null => Rejected(NullPointer)
      case Value(m) => Logged(m.name, m.message)
  }

  /** The outcome of an inbound frame: the sender name and text that would
      be logged, or the exception thrown. */
  datatype MessageOutcome = Logged(name: string, text: string) | Rejected(error: HandlerError)
}
