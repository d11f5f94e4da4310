/**
  The two tables of the chat application, `Message` (a chat line) and `CommandMessage`
  (a command and its answer), and the JSON object a chat line becomes in a reply.
 */
module Models {
  import opened Wrappers
  import opened Payloads

  /** Values of `timezone.now()`: a clock that only moves forward. */
  type Timestamp = nat

  datatype User = User(id: nat, username: string)

  /** A row of `Message`: all three fields are required. */
  datatype Message = Message(user: User, datePosted: Timestamp, text: string)

  /**
    A row of `CommandMessage`. `uuid` is the primary key, assigned at creation and never
    edited; `dateAnswered` and `response` are nullable and stay None while the command is pending.
   */
  datatype CommandRecord = CommandRecord(
    uuid: Uuid,
    datePosted: Timestamp,
    dateAnswered: Option<Timestamp>,
    request: CommandRequest,
    response: Option<ResponseText>,
    user: User)
  {
    predicate IsPending() { dateAnswered.None? }
  }

  /** The `type` key of a displayed item: 'message' for chat lines, 'command' for bot answers. */
  datatype ItemType = MessageType | CommandType

  datatype Author = Author(id: nat, username: string)

  /** The author of every bot answer: `{'id': 0, 'username': 'Bot'}`. */
  const BotAuthor := Author(0, "Bot")

  /**
    One JSON object of a reply list: `text`, `user`, `timestamp` (None when the source date is
    null), `type`, and `error`, which is absent (None) on chat lines and on the synthetic
    conversion-failure item.
   */
  datatype DisplayMessage = DisplayMessage(
    text: string,
    user: Author,
    timestamp: Option<Timestamp>,
    kind: ItemType,
    error: Option<bool>)

  /** `Message.to_json_safe_object`. */
  function ToJsonSafeObject(m: Message): (d: DisplayMessage)
    ensures d.kind == MessageType && d.error.None?
    ensures d.text == m.text && d.timestamp == Some(m.datePosted)
    ensures d.user.id == m.user.id && d.user.username == m.user.username
  {
    DisplayMessage(m.text, Author(m.user.id, m.user.username), Some(m.datePosted), MessageType, None)
  }
}
