/** Records shared by the bot's handlers: the booking, the paid chat session, the per-user
    state that is persisted and cached, and the role-tagged chat message sent to the LLM.
    Times are whole seconds; prices and temperatures are opaque reals. */
module Models {

  datatype Option<+T> = None | Some(value: T) {
    function GetOr(default: T): T {
      match this
      case Some(v) => v
      case None => default
    }
  }

  datatype Result<+T, +E> = Ok(value: T) | Err(error: E)

  type ChatId = int
  type MessageId = int
  /** Seconds on the wall clock. */
  type Timestamp = int

  const SecondsPerMinute := 60

  /** A message of the conversation history; only role and content are modelled. */
  datatype ChatMessage = ChatMessage(role: string, content: Option<string>)

  /** One reservation attempt. `model` is the persona's model name, `invoicePayload` the token
      that correlates the payment notification with the booking. */
  datatype Booking = Booking(
    id: string,
    userId: ChatId,
    model: string,
    durationMinutes: nat,
    totalPrice: real,
    invoicePayload: string,
    isPaid: bool,
    isCompleted: bool,
    createdAt: Timestamp,
    invoiceMessageId: Option<MessageId>,
    scheduledStart: Option<Timestamp>,
    expiresAt: Option<Timestamp>)

  /** The paid chat window of a user. */
  datatype UserSession = UserSession(
    chatId: ChatId,
    model: string,
    sessionStart: Timestamp,
    paidUntil: Timestamp,
    totalPrice: real,
    messagesExchanged: nat,
    history: seq<ChatMessage>,
    isActive: bool,
    scheduledStart: Option<Timestamp>)

  /** Everything stored per chat. */
  datatype UserState = UserState(
    currentModel: string,
    currentSession: Option<UserSession>,
    bookings: map<string, Booking>,
    conversationHistory: map<ChatId, seq<string>>,
    userTemperatures: map<ChatId, real>)

  /** The derived `Default` of the user state: every field empty. It is the fail-open value
      of a read and the state of a chat that has no stored row. */
  const DefaultUserState := UserState("", None, map[], map[], map[])

  /** The chat guard: a session exists, is active and its paid window has not ended. */
  predicate CanChat(s: UserState, now: Timestamp)
  {
    s.currentSession.Some? && s.currentSession.value.isActive && now < s.currentSession.value.paidUntil
  }

  lemma DefaultCannotChat(now: Timestamp)
    ensures !CanChat(DefaultUserState, now)
    ensures DefaultUserState.currentModel == "" && DefaultUserState.bookings == map[]
  {
  }
}
