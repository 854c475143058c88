# consultant-bot: a verified model of the user-state and session core

consultant-bot is a Telegram bot that sells paid chat sessions with LLM "consultant"
personas. This project models the part of the bot that keeps and changes each user's state,
and proves properties of that model:

- **State access layer.** `BotState` in `src/bot_state.rs` is a keyed table of user-state
  rows with a read-through, write-through cache in front of it. Cache entries expire after
  300 seconds. A save checks the serialized size of three columns before it writes.
- **Payment reconciliation.** A booking is looked up by its invoice payload and marked paid,
  and the session it buys is installed. The pre-checkout decision comes from the same
  lookup.
- **Session sweeper.** One tick of the background task deactivates every stored session
  that is active and past its paid window.
- **Chat turn.** The guard on the paid session, the history pushes, and the counter and
  expiry bookkeeping. It also covers `clean_telegram_markdown`, the cleaning of the LLM's
  reply.
- **Callback interpretation.** The parsing of the inline-button data, and the user-state
  update each button makes.
- **Presentation helpers.** MarkdownV2 escaping, `format_ai_info` and the session-management
  keyboard's button choice.
- **Catalog and provider.** The fixed persona catalog, `find_by_model`,
  `find_by_model_with_price`, and the LLM-provider choice by model name.

How the model is built:

- **Store and cache.** Both are maps inside a `Store` value. The class `StateStore.BotState`
  holds them as fields and its methods update them in place. Each method is proved equal to
  a specification function over `Store` values (`GetSpec`, `SaveSpec`, `Evict`, `ScanAll`).
  The handler-level properties are lemmas about those functions.
- **Handlers.** Each handler is a method on a `BotState`, proved equal to a specification
  function: `PaymentSpec`, `TickSpec`, `MessageSpec` or `CallbackSpec`.
- **Inputs.** Everything the handlers get from outside is a parameter. That covers the
  clock, store failures, the LLM's answer, the invoice message id, uuids, and the price
  stored in the database.
- **Time and sizes.** Time is whole seconds. JSON sizes are an abstract `Sizer`, one
  function per size-checked column.

Modules, one per source area:

| module | file | models |
|---|---|---|
| `Models` | models.dfy | the records of `src/models/*.rs` and the `can_chat` guard |
| `Text` | text.dfy | the `str` operations the handlers use: `starts_with`, `contains`, `replace`, `split`, `parse::<u32>` |
| `StateStore` | state_store.dfy | `src/bot_state.rs` |
| `BookingTable` | booking_table.dfy | the bookings table the payment handlers read and write |
| `Payments` | payments.dfy | `src/handlers/payments.rs` |
| `Sweeper` | sweeper.dfy | one tick of `src/handlers/mod.rs` |
| `Messages` | messages.dfy | `src/handlers/messages.rs` |
| `Callbacks` | callbacks.dfy | `src/handlers/callbacks.rs` |
| `Markdown` | markdown.dfy | `src/handlers/utils.rs` |
| `Catalog` | catalog.dfy | `src/models/ai_assistants.rs` |
| `Provider` | provider.dfy | `src/llm/mod.rs` |

## Model

| member | source | states |
|---|---|---|
| Models.DefaultCannotChat | src/models/user_state.rs:7-13 | the derived default user state has no session, so it never passes the chat guard; its model name is empty and it has no bookings |
| StateStore.Age | src/bot_state.rs:116 | elapsed whole seconds since the stamp; a stamp in the future has elapsed 0 |
| StateStore.ValidateDataSize | src/bot_state.rs:227-234 | passes iff size <= maxKb*1024; otherwise fails with DataTooLarge(size) |
| StateStore.ValidateBoundary | src/bot_state.rs:229 | the limit is inclusive: exactly maxKb*1024 bytes pass, one byte more fails |
| StateStore.SizeCheckLimits | src/bot_state.rs:63-73 | a save passes the size checks iff bookings <= 1024*1024, history <= 5120*1024 and temperatures <= 1024*1024 bytes; the first failing check in that order is reported; the session is never size-checked |
| StateStore.DecodeRow | src/bot_state.rs:148-165 | a single-user read decodes iff every JSON column decodes; otherwise it is a SerializationError |
| StateStore.ScanRow | src/bot_state.rs:188-207 | the bulk scan accepts a row iff its three map columns decode; a session that does not decode becomes None |
| StateStore.EncodeRoundTrip | src/bot_state.rs:75-97 | a written row reads back as the saved state through both readers |
| StateStore.ScanAgreesWithDecode | src/bot_state.rs:148-207 | the two readers agree on every row the single-user reader accepts; the scan additionally accepts rows whose only bad column is the session, and reads them with no session |
| StateStore.Evict | src/bot_state.rs:219-221 | the cache keeps exactly the entries younger than 300 s, with their values unchanged |
| StateStore.SaveFailureChangesNothing | src/bot_state.rs:71-97 | a save rejected for size or by the database changes neither store nor cache, and reports DataTooLarge or DatabaseError respectively |
| StateStore.SaveWritesThrough | src/bot_state.rs:75-102 | a successful save upserts the row and caches (state, now) for that chat |
| StateStore.ReadAfterWrite | src/bot_state.rs:99-118 | within 300 s of a successful save, a get returns the saved state and changes nothing, even if the store would fail |
| StateStore.ReadAfterExpiry | src/bot_state.rs:113-125 | once the entry has aged out, a get reads the saved row back and caches it with the new time |
| StateStore.GetReloads | src/bot_state.rs:122-125 | without a fresh entry a get reads the store: the decoded row, or the default state for a missing row; the result is cached with the current time |
| StateStore.GetFailsOpen | src/bot_state.rs:132-135 | a store error or an undecodable row makes a get return the default state and leave the cache as it was |
| StateStore.GetOnlyCaches | src/bot_state.rs:110-137 | a get never writes the store and touches only its own chat's cache entry |
| StateStore.GetTwice | src/bot_state.rs:110-137 | two gets at the same time return the same state, unless the first one failed open |
| StateStore.EvictUnobservable | src/bot_state.rs:214-221 | eviction does not change what a get at the same time returns, and evicting twice is evicting once |
| StateStore.ScanAllContents | src/bot_state.rs:171-212 | the scan holds exactly the accepted rows with their decoded states; a failed query gives an empty map |
| StateStore.BotState.SaveUserState | src/bot_state.rs:60-108 | result and new store are SaveSpec of the old store |
| StateStore.BotState.FetchUserStateFromDb | src/bot_state.rs:139-169 | a missing row gives the default state; an error iff the query fails or a column does not decode |
| StateStore.BotState.GetUserState | src/bot_state.rs:110-137 | result and new store are GetSpec of the old store |
| StateStore.BotState.GetAllUserStates | src/bot_state.rs:171-212 | the loop's map is ScanAll of the rows |
| StateStore.BotState.CleanupCache | src/bot_state.rs:214-225 | the new cache is Evict of the old one |
| BookingTable.LookupIn | src/handlers/payments.rs:106-134 | the lookup errs iff the store fails; NotFound iff there is no booking under the payload; a found booking is filed under that payload |
| BookingTable.Bookings.GetBookingByPayload | src/handlers/payments.rs:106 | the lookup by payload as LookupIn states it |
| BookingTable.Bookings.SaveBooking | src/handlers/payments.rs:151-156 | an upsert under the booking's payload, or no change when the store fails |
| Payments.MarkPaid | src/handlers/payments.rs:146-149 | the booking becomes paid, not completed, with no expiry; every other field is unchanged |
| Payments.NewSession | src/handlers/payments.rs:165-211 | a scheduled booking gives an inactive session from its scheduled start; an immediate one gives an active session from now; paid_until = start + duration, 0 messages, empty history |
| Payments.NewSessionChat | src/handlers/payments.rs:165-211 | a new immediate session lets the user chat at once iff it bought at least a minute; a scheduled one never does |
| Payments.PaymentRejections | src/handlers/payments.rs:101-156 | a missing payment, an unknown payload, a lookup error, an already-paid booking or a failed booking save change neither the user state nor the bookings; each of these exits is taken exactly in its own case |
| Payments.ActivationEffects | src/handlers/payments.rs:146-241 | on activation the booking under the payload was unpaid and is marked paid; the user state read gets the new session in place of the old one, and nothing else changes before the save |
| Payments.RedeliveryIsNoop | src/handlers/payments.rs:136-141 | a second delivery of the same payment changes nothing, so it never creates a second session |
| Payments.ImmediateActivationEnablesChat | src/handlers/payments.rs:198-241 | a saved immediate session of at least a minute lets the user chat |
| Payments.ActivationAfterFailedRead | src/handlers/payments.rs:163-241 | when the state read fails open, the stored row becomes the default state with only the new session, so the user's model, bookings, history and temperatures are lost |
| Payments.PreCheckout | src/handlers/payments.rs:266-293 | approve iff the booking exists and is unpaid |
| Payments.PreCheckoutAgreesWithPayment | src/handlers/payments.rs:266-293 | pre-checkout approves exactly the payloads the payment handler would activate; changing a booking's expiry never changes the answer |
| Payments.PreCheckoutDeclinesPaid | src/handlers/payments.rs:268-272 | after a payment is applied, a pre-checkout for it is declined |
| Payments.PreCheckoutHandler | src/handlers/payments.rs:259-296 | approve iff the lookup succeeds and finds an unpaid booking |
| Payments.SuccessfulPayment | src/handlers/payments.rs:94-257 | outcome, new store and new bookings are PaymentSpec of the old ones |
| Sweeper.Deactivate | src/handlers/mod.rs:27-30 | the session, if any, becomes inactive; nothing else changes |
| Sweeper.Written | src/handlers/mod.rs:24-34 | the chats written are among those considered and those scanned |
| Sweeper.TickEffect | src/handlers/mod.rs:24-39 | a chat is written iff its scanned session is active and now > paid_until, its state passes the size checks and its save does not fail; a written chat gets its deactivated state in row and cache; every other row and cache entry stays; the set of rows is unchanged |
| Sweeper.UnexpiredNotWritten | src/handlers/mod.rs:25-26 | a chat with no session, an inactive session or an unexpired one is not written |
| Sweeper.TickNeverActivates | src/handlers/mod.rs:24-39 | after the tick no stored session is active that was not active before |
| Sweeper.FailuresAreIsolated | src/handlers/mod.rs:32-34 | a failed save for other chats does not change what the tick does to this chat |
| Sweeper.TickIdempotent | src/handlers/mod.rs:26 | a second tick at the same time, without failures, leaves the store exactly as the first one left it |
| Sweeper.ApplyOneMore | src/handlers/mod.rs:24-34 | writing one more chat is adding it to the set of written chats |
| Sweeper.CheckSessionsTick | src/handlers/mod.rs:21-39 | the loop over the scanned states leaves the store TickSpec of the old one |
| Messages.HtmlRewrite | src/handlers/messages.rs:227-238 | every rewritten pattern is a non-empty tag starting with '<' |
| Messages.RewritesWithoutTags | src/handlers/messages.rs:227-238 | text without '<' is left unchanged by the tag rewrites |
| Messages.Utf8Len | src/handlers/messages.rs:257 | the byte length is at least the number of characters |
| Messages.Take | src/handlers/messages.rs:258 | the first n characters, or the whole text when it is shorter |
| Messages.CollapseBlankLines | src/handlers/messages.rs:252-254 | the result holds no "\n\n\n" and is no longer than the input |
| Messages.CleanTelegramMarkdown | src/handlers/messages.rs:223-263 | the buffer-and-loop procedure computes Clean(text) |
| Messages.CleanProperties | src/handlers/messages.rs:241-260 | before the cut there is no "\n\n\n"; a reply of at most 3800 bytes is that text; a longer one is exactly its first min(length, 3800) characters followed by the notice; the result is never longer than 3800 characters plus the notice |
| Messages.NoticeWithoutCut | src/handlers/messages.rs:257-260 | the check counts bytes but the cut counts characters, so a reply of 1901 to 3800 two-byte characters gets the notice with nothing removed |
| Messages.CutRestoresBlankRun | src/handlers/messages.rs:252-260 | a cut that ends on a line break puts a "\n\n\n" back, because the notice starts with two line breaks |
| Messages.TurnShape | src/handlers/messages.rs:115-175 | the history grows by the system message iff it was empty, then the user's message, then one assistant message iff the LLM answered; the counter grows by exactly that one; the session is deactivated iff it answered after paid_until |
| Messages.TurnPreservesInvariant | src/handlers/messages.rs:115-175 | a turn keeps the session invariant: the counter equals the number of assistant messages, and a non-empty history opens with the system message |
| Messages.NewSessionInvariant | src/handlers/payments.rs:167-210 | a freshly paid session satisfies that invariant |
| Messages.TurnAssistant | src/handlers/messages.rs:73-88 | a model in the static catalog gives that catalog entry with only its price replaced by the stored price (kept when the price lookup fails); otherwise the first entry of the handler's listing, or the built-in "Анна" persona when the listing is empty |
| Messages.BotTurnAssistant | src/handlers/messages.rs:73-88 | with the bot's catalog the turn's persona is find_by_model_with_price's, falling back to the first entry, and its prompt is that of the resolved persona |
| Messages.ChatTurnWritesBack | src/handlers/messages.rs:114-200 | a turn that saved had a session and an answer, and wrote the state read with only its session advanced by one turn |
| Messages.HandledTextChangesNothing | src/handlers/messages.rs:22-69 | no text, a '/' command or a menu label changes neither store nor cache |
| Messages.GuardStopsTurn | src/handlers/messages.rs:90-108 | without a session that is active and unexpired, the turn stops at the guard and no row is written |
| Messages.GuardPassedCaches | src/bot_state.rs:110-137 | a read that lets the user chat leaves this chat's cache entry holding the state it returned |
| Messages.TurnReadsStable | src/handlers/messages.rs:71-114 | past the guard, while the cache entry left by the first read is still fresh at the second read, the second read returns the state of the first, so the turn finds its session; an LLM error writes no row |
| Messages.SessionLostBetweenReads | src/handlers/messages.rs:114-208 | past the guard, when the cache entry ages out between the two reads and the reload fails, the second read gives the default state and the turn ends with "session not found", writing no row |
| Messages.TurnWritesBack | src/handlers/messages.rs:71-200 | a saved turn passed the guard on its first read and had an answer; it writes the state of its second read with only the session advanced by one turn, speaking as the persona chosen from the first read, and that session keeps the invariant |
| Messages.TakeTurn | src/handlers/messages.rs:115-175 | the in-place pushes and updates compute TurnSession |
| Messages.HandleMessage | src/handlers/messages.rs:16-220 | outcome and new store are MessageSpec of the old store |
| Callbacks.ParseBookData | src/handlers/callbacks.rs:57-61 | "book_<model>_<minutes>" parses back to that model and duration when neither part holds '_'; a duration that does not parse is 30 |
| Callbacks.ParseSelectData | src/handlers/callbacks.rs:28-29 | "select_ai_<m>" selects m |
| Callbacks.ParseBookMalformed | src/handlers/callbacks.rs:58-59 | "book_" data whose remainder does not hold exactly one '_' takes no action |
| Callbacks.UnknownData | src/handlers/callbacks.rs:213 | data matching no prefix and no exact command is Unknown |
| Callbacks.NewBookingFor | src/handlers/callbacks.rs:66-81 | the new booking: unpaid, not completed, no invoice message, priced at the persona's rate times the minutes |
| Callbacks.RecordInvoice | src/handlers/callbacks.rs:91-94 | only that booking's invoice message id is set, if it is there; every other booking and field is unchanged |
| Callbacks.OnlyItsChat | src/handlers/callbacks.rs:27-213 | no callback touches another chat's row or cache entry |
| Callbacks.SelectAiEffect | src/handlers/callbacks.rs:28-54 | the saved state is the one read with only current_model changed: to m when a persona has that model, otherwise to the first persona's model |
| Callbacks.ClearHistoryEffect | src/handlers/callbacks.rs:117-125 | the saved state is the one read with only this chat's history entry removed; other chats' entries stay |
| Callbacks.EndSessionEffect | src/handlers/callbacks.rs:151-163 | a session is deactivated and saved; without a session no row is written |
| Callbacks.InertCallbacks | src/handlers/callbacks.rs:110-213 | unknown or malformed data, change_psychologist and cancel_selection change nothing; extend_session and new_booking write no row; temperature data that does not parse changes nothing |
| Callbacks.BookWithInvoice | src/handlers/callbacks.rs:83-97 | with no store fault, the stored state holds the new booking under its id with the invoice message recorded, unpaid, not completed, at the persona's price; the other bookings stay |
| Callbacks.BookWithoutInvoice | src/handlers/callbacks.rs:83-87 | when the invoice is not sent, the booking stays as first saved, without an invoice message |
| Callbacks.SelectAssistant | src/handlers/callbacks.rs:28-54 | the arm's read, update and save leave the store as its specification says |
| Callbacks.BookSession | src/handlers/callbacks.rs:57-107 | the two read-change-save rounds leave the store BookSpec of the old one |
| Callbacks.ClearHistoryArm | src/handlers/callbacks.rs:117-126 | the arm leaves the store as its specification says |
| Callbacks.EndSessionArm | src/handlers/callbacks.rs:151-163 | the arm leaves the store EndSessionSpec of the old one |
| Callbacks.TemperatureArm | src/handlers/callbacks.rs:186-205 | the arm leaves the store as its specification says |
| Callbacks.HandleCallback | src/handlers/callbacks.rs:16-219 | a query without data or without a message changes nothing; otherwise the store becomes CallbackSpec of the old one |
| Markdown.EscapeMarkdownV2 | src/handlers/utils.rs:9-20 | the character loop computes Escape(text) |
| Markdown.EscapeLength | src/handlers/utils.rs:13-18 | output length = input length + number of reserved characters |
| Markdown.EscapeIsWellEscaped | src/handlers/utils.rs:13-18 | every reserved character of the output has a backslash right before it |
| Markdown.EscapePlainText | src/handlers/utils.rs:13-18 | text without reserved characters is left exactly as it is |
| Markdown.UnescapeEscape | src/handlers/utils.rs:13-18 | removing the inserted backslashes from an escaped text recovers it, whatever plain text follows |
| Markdown.EscapeRoundTrip | src/handlers/utils.rs:10-18 | Unescape(Escape(s)) == s; a backslash is not reserved and is not escaped |
| Markdown.LabelReadsBack | src/handlers/utils.rs:89-91 | an escaped "<name> - <specialty>" label unescapes to the plain label |
| Markdown.FormatAiInfo | src/handlers/utils.rs:89-91 | the label unescapes to "<name> - <specialty>" and is longer by the reserved characters of both parts |
| Markdown.SessionManagementKeyboard | src/handlers/utils.rs:115-130 | "end_session" is offered iff the user can chat; "new_session" is always last |
| Catalog.GetAllAssistants | src/models/ai_assistants.rs:15-61 | four entries; the first is "Анна" on "GigaChat-2-Max" |
| Catalog.FindIn | src/models/ai_assistants.rs:76-80 | None iff no entry has that exact model; otherwise the first entry that does |
| Catalog.FindByModel | src/models/ai_assistants.rs:76-80 | None iff no catalog entry has that exact model; otherwise a catalog entry with that model |
| Catalog.WithPrice | src/models/ai_assistants.rs:69-73 | a found entry keeps every field but the price, which is the stored price when there is one |
| Catalog.FindByModelWithPrice | src/models/ai_assistants.rs:63-74 | None iff find_by_model is None; otherwise the found entry with only its price changed, to the stored price when the price lookup succeeds and kept otherwise |
| Catalog.Resolve | src/handlers/callbacks.rs:30-31 | a persona of the list: the one with that model if any, the first otherwise |
| Catalog.ResolveAssistant | src/handlers/callbacks.rs:63-64 | a catalog entry with that model, or the first entry when none has it |
| Catalog.CatalogModelsDistinct | src/models/ai_assistants.rs:15-61 | the four model names are pairwise distinct |
| Catalog.FindInDistinct | src/models/ai_assistants.rs:76-80 | in a list with distinct model names each entry is what its own model finds |
| Catalog.CatalogEntriesFindThemselves | src/models/ai_assistants.rs:15-80 | each catalog entry is what its own model name finds |
| Catalog.UnknownModelFallsBack | src/models/ai_assistants.rs:17-19 | a model name outside the catalog resolves to the first entry, "GigaChat-2-Max" |
| Provider.ToLower | src/llm/mod.rs:22 | lower-casing keeps the length and maps each character |
| Provider.GetProviderFromModel | src/llm/mod.rs:21-30 | "gigachat" iff the lower-cased name contains "gigachat"; else "deepseek" iff it contains "deepseek"; else "unknown"; never anything else |
| Provider.LowerIdempotent | src/llm/mod.rs:22 | lower-casing twice is lower-casing once |
| Provider.CaseInsensitive | src/llm/mod.rs:21-30 | names with the same lower-cased form get the same provider |
| Provider.GigachatTakesPrecedence | src/llm/mod.rs:23-26 | a name containing both words goes to "gigachat" |
| Text.SplitProperties | src/handlers/callbacks.rs:58 | split gives one piece more than there are separators; no piece holds the separator; joining gives the input back |
| Text.SplitTwo | src/handlers/callbacks.rs:58-59 | two separator-free pieces joined by the separator split back into those two |
| Text.ParseU32 | src/handlers/callbacks.rs:61 | a parsed duration is below 2^32 and the text holds a digit |
| Text.ReplaceShrinks | src/handlers/messages.rs:252-254 | a replacement shorter than its pattern never lengthens the text, and shortens it when the pattern occurs |
| Text.ReplaceAbsent | src/handlers/messages.rs:227-238 | replacing a pattern that does not occur changes nothing |

## Left out

- Telegram transport is not modelled: sending, editing and deleting messages, invoices, keyboards and every message text. Each send is taken to succeed. In the source a failed send returns early through `?` and skips the save that follows it.
- The sqlx queries and the schema are not modelled. The table is a map of rows, and each JSON column either decodes or is `Malformed`. Serialized sizes are the abstract `Sizer`, and a serde encode error is not modelled.
- StateStore.EncodeRoundTrip and StateStore.ScanAgreesWithDecode hold by construction and prove nothing about serde. A `Column` holds the decoded value itself, so the JSON round trip (serialize, then deserialize gives the value back) is assumed rather than proved.
- `UserSession.messagesExchanged` is an unbounded `nat`. The source's counter is a `u32`, which would overflow at 2^32 messages; that overflow is not modelled and cannot occur in practice.
- Several store operations are called but not defined in the source shown: `get_booking_by_payload`, `save_booking`, `get_user_bookings` and `get_psychologist_price`. The bookings table is a map keyed by invoice payload, with a failure flag per call. The stored price is an `Option<real>` input, and the user's booking listing is only logged, so it is left out.
- The LLM call (`src/llm/mod.rs:32-66`) is not modelled; it is the `LlmReply` input. Its retries and its model and temperature arguments are left out.
- Floating point becomes `real`: prices are exact, there is no f64 rounding, and `calculate_price`'s nanoton truncation to u32 is left out. The `temp_` value's f32 parse is an `Option<real>` input, and the level text is not modelled.
- Time is whole seconds. Sub-second precision of `SystemTime` and `Utc::now()` is dropped. Each handler reads one `now`. The chat turn has three times: `now` for the first read and the guard, `reread` for the second read, and `later` for the expiry check and the save. No order between them is assumed.
- Concurrency is left out: the `RwLock`s, `tokio::spawn` and the interval timer. Handlers run one at a time, and the sweeper model is one tick.
- Uuids, the invoice message id and the chat id come in as inputs.
- Messages.TurnAssistant: the fallback persona listing is a parameter. `get_all_assistants(&state)` (the database-backed listing called at `src/handlers/messages.rs:72`) is not part of this model; the lookup by model always goes through the static catalog, as `find_by_model_with_price` does.
- The persona's `id` field is not part of this model. `src/handlers/utils.rs` uses one for button data, but `AIAssistant` in `src/models/ai_assistants.rs` has none.
- The session column is never size-checked, as in the code. Where a booking bot would usually behave differently, the model follows the code:
  - pre-checkout does not check expiry;
  - the sweeper only deactivates, and never activates a scheduled session or completes or purges a booking;
  - the `book_` callback puts the booking into `UserState.bookings` and not into the bookings table that payments read.
- `Callbacks.RecordInvoice` and `Callbacks.NewBookingFor` name booking fields after one consistent `Booking` record. `src/models/booking.rs` and `src/handlers/payments.rs` disagree on these names, and the record keeps `scheduledStart` and `expiresAt`, which the schema has.
- Text.ParseU32: the contract states only the facts used here: a parsed value lies below 2^32 and comes from a text with a digit. The exact set of accepted strings is what the function's body defines.
- Provider.ToLower: only ASCII capitals and the Kelvin sign are lower-cased. Rust's `to_lowercase` maps every Unicode capital. The catalog's model names are ASCII.
