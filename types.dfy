/** Shared records of the chat-history engine: stored messages, chat and
    user documents, prompt entries and the HTTP errors the handlers raise. */
module ChatTypes {

  datatype Option<+T> = None | Some(value: T)

  datatype Result<+T, +E> = Success(value: T) | Failure(error: E)

  datatype Outcome<+E> = Pass | Fail(error: E)

  /** What `get_time()` returns; the model never inspects it. */
  type Timestamp = string

  datatype Role = User | Assistant | System

  datatype MessageType = Text | Audio | Image

  /** One element of a chat's `messages` array, with the fields that
      `insert_message` writes and the `is_liked` field that only the
      reaction handler writes (absent, i.e. `None`, until then). */
  datatype Message = Message(
    messageId: int,
    role: Role,
    messageType: MessageType,
    content: string,
    audioText: Option<string>,
    reaction: Option<bool>,
    isLiked: Option<bool>,
    createdAt: Timestamp,
    updatedAt: Timestamp)

  /** A `{"role", "content"}` pair handed to `insert_message`. */
  datatype Turn = Turn(role: Role, content: string)

  /** A `{"role", "content"}` entry of the prompt list sent upstream; the
      content of an audio message is its transcript, which may be absent. */
  datatype PromptEntry = PromptEntry(role: Role, content: Option<string>)

  /** A chat document; its `chat_id` is the key it is stored under. */
  datatype ChatDoc = ChatDoc(
    owner: string,
    chatPrompt: Option<string>,
    chatTitle: Option<string>,
    messages: seq<Message>,
    createdAt: Timestamp,
    updatedAt: Timestamp)

  /** The part of a user's subscription record the quota gate reads and writes. */
  datatype Subscription = Subscription(active: bool, freeQueries: int)

  datatype UserDoc = UserDoc(subscription: Subscription)

  /** The exceptions the chat handlers raise. */
  datatype Error =
    | ChatIdNotFound
    | MessageNotFound
    | FreeQueriesUsed
    | InvalidFileFormat
    | AudioNotClear
    | UpstreamFailed  // an exception from an external call, left unhandled

  function StatusCode(e: Error): int
  {
    match e
    case ChatIdNotFound => 404
    case MessageNotFound => 404
    case FreeQueriesUsed => 402
    case InvalidFileFormat => 415
    case AudioNotClear => 400
    case UpstreamFailed => 500
  }

  /** The id of the last stored message, or 0 for an empty history. */
  function LastId(ms: seq<Message>): int
  {
    if ms == [] then 0 else ms[|ms| - 1].messageId
  }
}
