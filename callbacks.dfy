/** The inline-button callbacks: the callback data is parsed into one of the handler's arms,
    and each arm that touches the user state reads it, changes one part of it, and saves it. */
module Callbacks {
  import opened Models
  import opened Text
  import opened StateStore
  import Catalog
  import Sweeper

  const SelectAiPrefix := "select_ai_"
  const BookPrefix := "book_"
  const TempPrefix := "temp_"

  /** The minutes booked when the duration in the callback data does not parse. */
  const DefaultMinutes := 30

  /** The arms of `callback_handler`, in the order they are tried. */
  datatype Callback =
    | SelectAi(model: string)
    | Book(model: string, minutes: nat)
    | BookMalformed
    | ChangePsychologist
    | ClearHistory
    | ExtendSession
    | EndSession
    | NewBooking
    | Temperature(text: string)
    | CancelSelection
    | Unknown

  /** The arm a callback's data selects. "book_" data needs exactly one '_' after the
      prefix; its duration is a `u32`, 30 when it does not parse. */
  function ParseCallback(data: string): Callback
  {
    if StartsWith(data, SelectAiPrefix) then SelectAi(data[|SelectAiPrefix|..])
    else if StartsWith(data, BookPrefix) then
      var parts := Split(data[|BookPrefix|..], '_');
      if |parts| == 2 then Book(parts[0], ParseU32(parts[1]).GetOr(DefaultMinutes)) else BookMalformed
    else if data == "change_psychologist" then ChangePsychologist
    else if data == "clear_history" then ClearHistory
    else if data == "extend_session" then ExtendSession
    else if data == "end_session" then EndSession
    else if data == "new_booking" then NewBooking
    else if StartsWith(data, TempPrefix) then Temperature(data[|TempPrefix|..])
    else if data == "cancel_selection" then CancelSelection
    else Unknown
  }

  /** Data that starts with none of 's', 'b', 't' has none of the three prefixes. */
  lemma NoPrefix(data: string)
    requires |data| > 0 && data[0] != 's' && data[0] != 'b' && data[0] != 't'
    ensures !StartsWith(data, SelectAiPrefix) && !StartsWith(data, BookPrefix) && !StartsWith(data, TempPrefix)
  {
    assert SelectAiPrefix[0] == 's' && BookPrefix[0] == 'b' && TempPrefix[0] == 't';
  }

  /** The booking buttons' data, "book_<model>_<minutes>", parses back into the model and
      the minutes for any model without '_'; a duration that is not a number books 30 minutes. */
  lemma ParseBookData(model: string, minutes: string)
    requires '_' !in model && '_' !in minutes
    ensures ParseCallback(BookPrefix + model + "_" + minutes) == Book(model, ParseU32(minutes).GetOr(DefaultMinutes))
    ensures ParseU32(minutes).None? ==> ParseCallback(BookPrefix + model + "_" + minutes).minutes == 30
  {
    var data := BookPrefix + model + "_" + minutes;
    assert data[0] == 'b';
    assert data[..|BookPrefix|] == BookPrefix;
    assert data[|BookPrefix|..] == model + "_" + minutes;
    SplitTwo(model, minutes, '_');
  }

  /** "select_ai_<model>" selects exactly that model name. */
  lemma ParseSelectData(model: string)
    ensures ParseCallback(SelectAiPrefix + model) == SelectAi(model)
  {
    var data := SelectAiPrefix + model;
    assert data[..|SelectAiPrefix|] == SelectAiPrefix;
    assert data[|SelectAiPrefix|..] == model;
  }

  /** "book_" data with no '_' or with more than one after the prefix is dropped. */
  lemma ParseBookMalformed(rest: string)
    requires Count(rest, '_') != 1
    ensures ParseCallback(BookPrefix + rest) == BookMalformed
  {
    var data := BookPrefix + rest;
    assert data[0] == 'b';
    assert data[..|BookPrefix|] == BookPrefix;
    assert data[|BookPrefix|..] == rest;
    SplitProperties(rest, '_');
  }

  /** The booking a "book_" callback creates: unpaid, not completed, with no invoice message,
      no scheduled start and no expiry, priced at the persona's rate for the minutes booked. */
  function NewBookingFor(chatId: ChatId, a: Catalog.Assistant, minutes: nat, bookingId: string, payload: string,
                         now: Timestamp): (b: Booking)
    ensures b.id == bookingId && b.userId == chatId && b.model == a.model && b.invoicePayload == payload
    ensures b.durationMinutes == minutes && b.totalPrice == a.pricePerMinute * minutes as real
    ensures !b.isPaid && !b.isCompleted && b.createdAt == now
    ensures b.invoiceMessageId.None? && b.scheduledStart.None? && b.expiresAt.None?
  {
    Booking(bookingId, chatId, a.model, minutes, a.pricePerMinute * minutes as real, payload, false, false, now,
            None, None, None)
  }

  /** The state with the invoice message recorded on one booking, if that booking is there;
      every other booking and every other field is kept. */
  function RecordInvoice(u: UserState, bookingId: string, messageId: MessageId): (r: UserState)
    ensures r.bookings.Keys == u.bookings.Keys
    ensures bookingId in u.bookings ==>
              r.bookings[bookingId] == u.bookings[bookingId].(invoiceMessageId := Some(messageId))
    ensures forall k :: k in u.bookings && k != bookingId ==> r.bookings[k] == u.bookings[k]
    ensures r.(bookings := u.bookings) == u
  {
    if bookingId in u.bookings then
      u.(bookings := u.bookings[bookingId := u.bookings[bookingId].(invoiceMessageId := Some(messageId))])
    else u
  }

  /** Store faults of one callback: the first read and save, and the read and save after the
      invoice has been sent. */
  datatype CallbackFaults = CallbackFaults(firstReadFails: bool, firstSaveFails: bool,
                                           secondReadFails: bool, secondSaveFails: bool)

  /** The changes the arms make to a user's state. */
  datatype Change =
    | SetModel(model: string)
    | AddBooking(bookingId: string, booking: Booking)
    | ForgetHistory(chatId: ChatId)
    | SetTemperature(chatId: ChatId, value: real)
    | AttachInvoice(bookingId: string, messageId: MessageId)

  /** The state after one change: only the part the change names differs. */
  function Apply(c: Change, u: UserState): UserState
  {
    match c
    case SetModel(m) => u.(currentModel := m)
    case AddBooking(id, b) => u.(bookings := u.bookings[id := b])
    case ForgetHistory(id) => u.(conversationHistory := u.conversationHistory - {id})
    case SetTemperature(id, t) => u.(userTemperatures := u.userTemperatures[id := t])
    case AttachInvoice(id, mid) => RecordInvoice(u, id, mid)
  }

  /** Read the state, make the change, save it; the save's error is only logged. */
  function ReadChangeSave(sz: Sizer, st: Store, chatId: ChatId, now: Timestamp, readFails: bool, saveFails: bool,
                          c: Change): Store
  {
    var (u, st1) := GetSpec(st, chatId, now, readFails);
    SaveSpec(sz, st1, chatId, Apply(c, u), now, saveFails).1
  }

  /** The "book_" arm: the booking is added to the user's state and saved; once the invoice
      is out (`invoice` is its message id, None when sending it failed) the state is read again
      and the booking's invoice message recorded. */
  function BookSpec(sz: Sizer, st: Store, personas: seq<Catalog.Assistant>, chatId: ChatId, model: string,
                    minutes: nat, now: Timestamp, bookingId: string, payload: string, invoice: Option<MessageId>,
                    f: CallbackFaults): Store
    requires |personas| > 0
  {
    var b := NewBookingFor(chatId, Catalog.Resolve(personas, model), minutes, bookingId, payload, now);
    var st1 := ReadChangeSave(sz, st, chatId, now, f.firstReadFails, f.firstSaveFails, AddBooking(bookingId, b));
    match invoice
    case None => st1
    case Some(mid) =>
      ReadChangeSave(sz, st1, chatId, now, f.secondReadFails, f.secondSaveFails, AttachInvoice(bookingId, mid))
  }

  /** The "end_session" arm: a session that is there is deactivated and saved; without a
      session nothing is saved. */
  function EndSessionSpec(sz: Sizer, st: Store, chatId: ChatId, now: Timestamp, f: CallbackFaults): Store
  {
    var (u, st1) := GetSpec(st, chatId, now, f.firstReadFails);
    if u.currentSession.None? then st1
    else SaveSpec(sz, st1, chatId, Sweeper.Deactivate(u), now, f.firstSaveFails).1
  }

  /** `callback_handler` for a query with data and a message, as a function of the store.
      `personas` is the persona catalog (the bot's is `Catalog.GetAllAssistants()`);
      `temperature` is the value `temp_` data parses to, None when it does not parse. */
  function CallbackSpec(sz: Sizer, st: Store, personas: seq<Catalog.Assistant>, chatId: ChatId, data: string,
                        now: Timestamp, bookingId: string, payload: string, invoice: Option<MessageId>,
                        temperature: Option<real>, f: CallbackFaults): Store
    requires |personas| > 0
  {
    match ParseCallback(data)
    case SelectAi(m) =>
      ReadChangeSave(sz, st, chatId, now, f.firstReadFails, f.firstSaveFails, SetModel(Catalog.Resolve(personas, m).model))
    case Book(m, minutes) => BookSpec(sz, st, personas, chatId, m, minutes, now, bookingId, payload, invoice, f)
    case ClearHistory =>
      ReadChangeSave(sz, st, chatId, now, f.firstReadFails, f.firstSaveFails, ForgetHistory(chatId))
    case EndSession => EndSessionSpec(sz, st, chatId, now, f)
    case Temperature(_) =>
      if temperature.None? then st
      else ReadChangeSave(sz, st, chatId, now, f.firstReadFails, f.firstSaveFails, SetTemperature(chatId, temperature.value))
    case ExtendSession => GetSpec(st, chatId, now, f.firstReadFails).1
    case NewBooking => GetSpec(st, chatId, now, f.firstReadFails).1
    case BookMalformed => st
    case ChangePsychologist => st
    case CancelSelection => st
    case Unknown => st
  }

  /** Every row and cache entry of the chats other than `chatId` is as it was. */
  ghost predicate Untouched(st: Store, st': Store, chatId: ChatId)
  {
    (forall other :: other != chatId ==> (other in st'.rows <==> other in st.rows)) &&
    (forall other :: other != chatId && other in st.rows ==> st'.rows[other] == st.rows[other]) &&
    (forall other :: other != chatId ==> (other in st'.cache <==> other in st.cache)) &&
    (forall other :: other != chatId && other in st.cache ==> st'.cache[other] == st.cache[other])
  }

  lemma ReadChangeSaveUntouched(sz: Sizer, st: Store, chatId: ChatId, now: Timestamp, readFails: bool, saveFails: bool,
                                c: Change)
    ensures Untouched(st, ReadChangeSave(sz, st, chatId, now, readFails, saveFails, c), chatId)
  {
    GetOnlyCaches(st, chatId, now, readFails);
  }

  lemma BookUntouched(sz: Sizer, st: Store, personas: seq<Catalog.Assistant>, chatId: ChatId, model: string,
                      minutes: nat, now: Timestamp, bookingId: string, payload: string, invoice: Option<MessageId>,
                      f: CallbackFaults)
    requires |personas| > 0
    ensures Untouched(st, BookSpec(sz, st, personas, chatId, model, minutes, now, bookingId, payload, invoice, f), chatId)
  {
    var b := NewBookingFor(chatId, Catalog.Resolve(personas, model), minutes, bookingId, payload, now);
    var st1 := ReadChangeSave(sz, st, chatId, now, f.firstReadFails, f.firstSaveFails, AddBooking(bookingId, b));
    ReadChangeSaveUntouched(sz, st, chatId, now, f.firstReadFails, f.firstSaveFails, AddBooking(bookingId, b));
    if invoice.Some? {
      ReadChangeSaveUntouched(sz, st1, chatId, now, f.secondReadFails, f.secondSaveFails, AttachInvoice(bookingId, invoice.value));
    }
  }

  lemma EndSessionUntouched(sz: Sizer, st: Store, chatId: ChatId, now: Timestamp, f: CallbackFaults)
    ensures Untouched(st, EndSessionSpec(sz, st, chatId, now, f), chatId)
  {
    GetOnlyCaches(st, chatId, now, f.firstReadFails);
  }

  lemma GetUntouched(st: Store, chatId: ChatId, now: Timestamp, readFails: bool)
    ensures Untouched(st, GetSpec(st, chatId, now, readFails).1, chatId)
  {
    GetOnlyCaches(st, chatId, now, readFails);
  }

  /** A callback never touches another chat's row or cache entry. */
  lemma {:induction false} OnlyItsChat(sz: Sizer, st: Store, personas: seq<Catalog.Assistant>, chatId: ChatId, data: string,
                                       now: Timestamp, bookingId: string, payload: string, invoice: Option<MessageId>,
                                       temperature: Option<real>, f: CallbackFaults)
    requires |personas| > 0
    ensures Untouched(st, CallbackSpec(sz, st, personas, chatId, data, now, bookingId, payload, invoice, temperature, f), chatId)
  {
    var st' := CallbackSpec(sz, st, personas, chatId, data, now, bookingId, payload, invoice, temperature, f);
    match ParseCallback(data)
    case SelectAi(m) =>
      ReadChangeSaveUntouched(sz, st, chatId, now, f.firstReadFails, f.firstSaveFails, SetModel(Catalog.Resolve(personas, m).model));
    case Book(m, minutes) =>
      BookUntouched(sz, st, personas, chatId, m, minutes, now, bookingId, payload, invoice, f);
    case ClearHistory =>
      ReadChangeSaveUntouched(sz, st, chatId, now, f.firstReadFails, f.firstSaveFails, ForgetHistory(chatId));
    case EndSession =>
      EndSessionUntouched(sz, st, chatId, now, f);
    case Temperature(_) =>
      if temperature.Some? {
        ReadChangeSaveUntouched(sz, st, chatId, now, f.firstReadFails, f.firstSaveFails, SetTemperature(chatId, temperature.value));
      } else {
        assert st' == st;
      }
    case ExtendSession =>
      GetUntouched(st, chatId, now, f.firstReadFails);
    case NewBooking =>
      GetUntouched(st, chatId, now, f.firstReadFails);
    case BookMalformed =>
      assert st' == st;
    case ChangePsychologist =>
      assert st' == st;
    case CancelSelection =>
      assert st' == st;
    case Unknown =>
      assert st' == st;
  }

  /** "select_ai_<m>" saves the state it read with only the model changed: to `m` when a
      persona has that model name, to the first persona's model otherwise. */
  lemma SelectAiEffect(sz: Sizer, st: Store, personas: seq<Catalog.Assistant>, chatId: ChatId, m: string,
                       now: Timestamp, bookingId: string, payload: string, invoice: Option<MessageId>,
                       temperature: Option<real>, f: CallbackFaults)
    requires |personas| > 0
    ensures var (u, st1) := GetSpec(st, chatId, now, f.firstReadFails);
            var model := Catalog.Resolve(personas, m).model;
            var st' := CallbackSpec(sz, st, personas, chatId, SelectAiPrefix + m, now, bookingId, payload, invoice, temperature, f);
            ((exists i :: 0 <= i < |personas| && personas[i].model == m) ==> model == m) &&
            ((forall i :: 0 <= i < |personas| ==> personas[i].model != m) ==> model == personas[0].model) &&
            st' == SaveSpec(sz, st1, chatId, u.(currentModel := model), now, f.firstSaveFails).1
  {
    ParseSelectData(m);
  }

  /** "clear_history" saves the state it read with only this chat's history entry removed;
      the entries of other chats stay. */
  lemma ClearHistoryEffect(sz: Sizer, st: Store, personas: seq<Catalog.Assistant>, chatId: ChatId,
                           now: Timestamp, bookingId: string, payload: string, invoice: Option<MessageId>,
                           temperature: Option<real>, f: CallbackFaults)
    requires |personas| > 0
    ensures var (u, st1) := GetSpec(st, chatId, now, f.firstReadFails);
            var u' := u.(conversationHistory := u.conversationHistory - {chatId});
            CallbackSpec(sz, st, personas, chatId, "clear_history", now, bookingId, payload, invoice, temperature, f) ==
              SaveSpec(sz, st1, chatId, u', now, f.firstSaveFails).1 &&
            chatId !in u'.conversationHistory &&
            forall k :: k != chatId && k in u.conversationHistory ==>
              k in u'.conversationHistory && u'.conversationHistory[k] == u.conversationHistory[k]
  {
    assert "clear_history"[0] == 'c';
    NoPrefix("clear_history");
    assert ParseCallback("clear_history") == ClearHistory;
  }

  /** "end_session" deactivates the session it finds and saves; without a session nothing is
      saved. */
  lemma EndSessionEffect(sz: Sizer, st: Store, personas: seq<Catalog.Assistant>, chatId: ChatId,
                         now: Timestamp, bookingId: string, payload: string, invoice: Option<MessageId>,
                         temperature: Option<real>, f: CallbackFaults)
    requires |personas| > 0
    ensures var (u, st1) := GetSpec(st, chatId, now, f.firstReadFails);
            var st' := CallbackSpec(sz, st, personas, chatId, "end_session", now, bookingId, payload, invoice, temperature, f);
            (u.currentSession.None? ==> st'.rows == st.rows) &&
            (u.currentSession.Some? ==>
               st' == SaveSpec(sz, st1, chatId, Sweeper.Deactivate(u), now, f.firstSaveFails).1 &&
               !Sweeper.Deactivate(u).currentSession.value.isActive)
  {
    assert "end_session"[0] == 'e';
    NoPrefix("end_session");
    assert ParseCallback("end_session") == EndSession;
    GetOnlyCaches(st, chatId, now, f.firstReadFails);
  }

  /** Data no arm acts on, "book_" data of the wrong shape, and the arms that only answer
      leave the store as it was; the two arms that only read may refresh the cache but never
      write a row. */
  lemma {:induction false} InertCallbacks(sz: Sizer, st: Store, personas: seq<Catalog.Assistant>, chatId: ChatId, data: string,
                                          now: Timestamp, bookingId: string, payload: string, invoice: Option<MessageId>,
                                          temperature: Option<real>, f: CallbackFaults)
    requires |personas| > 0
    ensures var c := ParseCallback(data);
            var st' := CallbackSpec(sz, st, personas, chatId, data, now, bookingId, payload, invoice, temperature, f);
            (c.Unknown? || c.BookMalformed? || c.ChangePsychologist? || c.CancelSelection? ==> st' == st) &&
            (c.ExtendSession? || c.NewBooking? ==> st'.rows == st.rows) &&
            (c.Temperature? && temperature.None? ==> st' == st)
  {
    GetOnlyCaches(st, chatId, now, f.firstReadFails);
  }

  /** Data outside every arm: not one of the prefixes, not one of the exact commands. */
  lemma UnknownData(data: string)
    requires !StartsWith(data, SelectAiPrefix) && !StartsWith(data, BookPrefix) && !StartsWith(data, TempPrefix)
    requires data !in {"change_psychologist", "clear_history", "extend_session", "end_session", "new_booking", "cancel_selection"}
    ensures ParseCallback(data) == Unknown
  {
  }

  /** A fault-free read-change-save within the size limits writes the changed state through
      to the row and the cache, and a read at the same time returns it. */
  lemma ReadChangeSaveClean(sz: Sizer, st: Store, chatId: ChatId, now: Timestamp, c: Change)
    requires SizeCheck(sz, Apply(c, GetSpec(st, chatId, now, false).0)).Pass?
    ensures var u' := Apply(c, GetSpec(st, chatId, now, false).0);
            var st' := ReadChangeSave(sz, st, chatId, now, false, false, c);
            st'.rows == st.rows[chatId := EncodeRow(u')] && st'.cache[chatId] == CacheEntry(u', now) &&
            GetSpec(st', chatId, now, false) == (u', st')
  {
    var (u, st1) := GetSpec(st, chatId, now, false);
    GetOnlyCaches(st, chatId, now, false);
    SaveWritesThrough(sz, st1, chatId, Apply(c, u), now, false);
    ReadAfterWrite(sz, st1, chatId, Apply(c, u), now, now, false, false);
  }

  /** Adding a booking and then recording its invoice, both without fault and within the size
      limits, leaves the booking with its invoice in the row and the cache. */
  lemma AddThenAttach(sz: Sizer, st: Store, chatId: ChatId, now: Timestamp, bookingId: string, b: Booking,
                      mid: MessageId)
    requires var u := GetSpec(st, chatId, now, false).0;
             SizeCheck(sz, u.(bookings := u.bookings[bookingId := b])).Pass? &&
             SizeCheck(sz, u.(bookings := u.bookings[bookingId := b.(invoiceMessageId := Some(mid))])).Pass?
    ensures var u := GetSpec(st, chatId, now, false).0;
            var u' := u.(bookings := u.bookings[bookingId := b.(invoiceMessageId := Some(mid))]);
            var st1 := ReadChangeSave(sz, st, chatId, now, false, false, AddBooking(bookingId, b));
            var st' := ReadChangeSave(sz, st1, chatId, now, false, false, AttachInvoice(bookingId, mid));
            st'.rows == st.rows[chatId := EncodeRow(u')] && st'.cache[chatId] == CacheEntry(u', now)
  {
    var u := GetSpec(st, chatId, now, false).0;
    var u1 := Apply(AddBooking(bookingId, b), u);
    assert u1 == u.(bookings := u.bookings[bookingId := b]);
    ReadChangeSaveClean(sz, st, chatId, now, AddBooking(bookingId, b));
    var st1 := ReadChangeSave(sz, st, chatId, now, false, false, AddBooking(bookingId, b));
    assert Apply(AttachInvoice(bookingId, mid), u1) == u.(bookings := u.bookings[bookingId := b.(invoiceMessageId := Some(mid))]);
    ReadChangeSaveClean(sz, st1, chatId, now, AttachInvoice(bookingId, mid));
  }

  /** A booking whose invoice went out, with no store fault and within the size limits, is
      stored in the user's state under its id with the invoice message recorded: unpaid, not
      completed, priced at the persona's rate. Every other booking of the state read stays. */
  lemma BookWithInvoice(sz: Sizer, st: Store, personas: seq<Catalog.Assistant>, chatId: ChatId, model: string,
                        minutes: nat, now: Timestamp, bookingId: string, payload: string, mid: MessageId)
    requires |personas| > 0
    requires var u := GetSpec(st, chatId, now, false).0;
             var b := NewBookingFor(chatId, Catalog.Resolve(personas, model), minutes, bookingId, payload, now);
             SizeCheck(sz, u.(bookings := u.bookings[bookingId := b])).Pass? &&
             SizeCheck(sz, u.(bookings := u.bookings[bookingId := b.(invoiceMessageId := Some(mid))])).Pass?
    ensures var u := GetSpec(st, chatId, now, false).0;
            var a := Catalog.Resolve(personas, model);
            var b := NewBookingFor(chatId, a, minutes, bookingId, payload, now);
            var u' := u.(bookings := u.bookings[bookingId := b.(invoiceMessageId := Some(mid))]);
            var st' := BookSpec(sz, st, personas, chatId, model, minutes, now, bookingId, payload, Some(mid),
                                CallbackFaults(false, false, false, false));
            st'.rows == st.rows[chatId := EncodeRow(u')] && st'.cache[chatId] == CacheEntry(u', now) &&
            !u'.bookings[bookingId].isPaid && !u'.bookings[bookingId].isCompleted &&
            u'.bookings[bookingId].invoiceMessageId == Some(mid) &&
            u'.bookings[bookingId].totalPrice == a.pricePerMinute * minutes as real &&
            forall k :: k in u.bookings && k != bookingId ==> u'.bookings[k] == u.bookings[k]
  {
    var b := NewBookingFor(chatId, Catalog.Resolve(personas, model), minutes, bookingId, payload, now);
    AddThenAttach(sz, st, chatId, now, bookingId, b, mid);
  }

  /** When the invoice cannot be sent, the booking stays as first saved, without an invoice
      message. */
  lemma BookWithoutInvoice(sz: Sizer, st: Store, personas: seq<Catalog.Assistant>, chatId: ChatId, model: string,
                           minutes: nat, now: Timestamp, bookingId: string, payload: string, f: CallbackFaults)
    requires |personas| > 0
    ensures var (u, st1) := GetSpec(st, chatId, now, f.firstReadFails);
            var b := NewBookingFor(chatId, Catalog.Resolve(personas, model), minutes, bookingId, payload, now);
            BookSpec(sz, st, personas, chatId, model, minutes, now, bookingId, payload, None, f) ==
              SaveSpec(sz, st1, chatId, u.(bookings := u.bookings[bookingId := b]), now, f.firstSaveFails).1 &&
            b.invoiceMessageId.None?
  {
  }

  /** The "select_ai_" arm. */
  method SelectAssistant(bs: BotState, personas: seq<Catalog.Assistant>, chatId: ChatId, m: string, now: Timestamp,
                         f: CallbackFaults)
    requires |personas| > 0
    modifies bs
    ensures bs.View() == ReadChangeSave(bs.sizer, old(bs.View()), chatId, now, f.firstReadFails, f.firstSaveFails,
                                        SetModel(Catalog.Resolve(personas, m).model))
  {
    var assistant := Catalog.Resolve(personas, m);
    var userState := bs.GetUserState(chatId, now, f.firstReadFails);
    userState := userState.(currentModel := assistant.model);
    var saved := bs.SaveUserState(chatId, userState, now, f.firstSaveFails);
  }

  /** The "book_" arm. */
  method BookSession(bs: BotState, personas: seq<Catalog.Assistant>, chatId: ChatId, model: string, minutes: nat,
                     now: Timestamp, bookingId: string, payload: string, invoice: Option<MessageId>, f: CallbackFaults)
    requires |personas| > 0
    modifies bs
    ensures bs.View() == BookSpec(bs.sizer, old(bs.View()), personas, chatId, model, minutes, now, bookingId, payload, invoice, f)
  {
    var assistant := Catalog.Resolve(personas, model);
    var booking := Booking(bookingId, chatId, assistant.model, minutes, assistant.pricePerMinute * minutes as real,
                           payload, false, false, now, None, None, None);
    assert booking == NewBookingFor(chatId, assistant, minutes, bookingId, payload, now);
    ghost var st0 := bs.View();
    var userState := bs.GetUserState(chatId, now, f.firstReadFails);
    userState := userState.(bookings := userState.bookings[bookingId := booking]);
    var saved := bs.SaveUserState(chatId, userState, now, f.firstSaveFails);
    assert bs.View() == ReadChangeSave(bs.sizer, st0, chatId, now, f.firstReadFails, f.firstSaveFails,
                                       AddBooking(bookingId, booking));
    if invoice.Some? {
      ghost var st1 := bs.View();
      userState := bs.GetUserState(chatId, now, f.secondReadFails);
      ghost var read := userState;
      if bookingId in userState.bookings {
        var updated := userState.bookings[bookingId].(invoiceMessageId := Some(invoice.value));
        userState := userState.(bookings := userState.bookings[bookingId := updated]);
      }
      assert userState == Apply(AttachInvoice(bookingId, invoice.value), read);
      saved := bs.SaveUserState(chatId, userState, now, f.secondSaveFails);
      assert bs.View() == ReadChangeSave(bs.sizer, st1, chatId, now, f.secondReadFails, f.secondSaveFails,
                                         AttachInvoice(bookingId, invoice.value));
    }
  }

  /** The "clear_history" arm. */
  method ClearHistoryArm(bs: BotState, chatId: ChatId, now: Timestamp, f: CallbackFaults)
    modifies bs
    ensures bs.View() == ReadChangeSave(bs.sizer, old(bs.View()), chatId, now, f.firstReadFails, f.firstSaveFails,
                                        ForgetHistory(chatId))
  {
    var userState := bs.GetUserState(chatId, now, f.firstReadFails);
    userState := userState.(conversationHistory := userState.conversationHistory - {chatId});
    var saved := bs.SaveUserState(chatId, userState, now, f.firstSaveFails);
  }

  /** The "end_session" arm. */
  method EndSessionArm(bs: BotState, chatId: ChatId, now: Timestamp, f: CallbackFaults)
    modifies bs
    ensures bs.View() == EndSessionSpec(bs.sizer, old(bs.View()), chatId, now, f)
  {
    var userState := bs.GetUserState(chatId, now, f.firstReadFails);
    if userState.currentSession.Some? {
      userState := userState.(currentSession := Some(userState.currentSession.value.(isActive := false)));
      var saved := bs.SaveUserState(chatId, userState, now, f.firstSaveFails);
    }
  }

  /** The "temp_" arm, given the parsed value. */
  method TemperatureArm(bs: BotState, chatId: ChatId, now: Timestamp, value: real, f: CallbackFaults)
    modifies bs
    ensures bs.View() == ReadChangeSave(bs.sizer, old(bs.View()), chatId, now, f.firstReadFails, f.firstSaveFails,
                                        SetTemperature(chatId, value))
  {
    var userState := bs.GetUserState(chatId, now, f.firstReadFails);
    userState := userState.(userTemperatures := userState.userTemperatures[chatId := value]);
    var saved := bs.SaveUserState(chatId, userState, now, f.firstSaveFails);
  }

  /** `callback_handler`: a query without data or without a message is ignored; otherwise
      the data's arm runs. Telegram's answers are left out; the save errors are only logged. */
  method HandleCallback(bs: BotState, personas: seq<Catalog.Assistant>, data: Option<string>, chat: Option<ChatId>,
                        now: Timestamp, bookingId: string, payload: string, invoice: Option<MessageId>,
                        temperature: Option<real>, f: CallbackFaults)
    requires |personas| > 0
    modifies bs
    ensures data.None? || chat.None? ==> bs.View() == old(bs.View())
    ensures data.Some? && chat.Some? ==>
              bs.View() == CallbackSpec(bs.sizer, old(bs.View()), personas, chat.value, data.value, now, bookingId,
                                        payload, invoice, temperature, f)
  {
    if data.None? || chat.None? {
      return;
    }
    var chatId := chat.value;
    match ParseCallback(data.value)
    case SelectAi(m) => SelectAssistant(bs, personas, chatId, m, now, f);
    case Book(m, minutes) => BookSession(bs, personas, chatId, m, minutes, now, bookingId, payload, invoice, f);
    case ClearHistory => ClearHistoryArm(bs, chatId, now, f);
    case EndSession => EndSessionArm(bs, chatId, now, f);
    case Temperature(_) =>
      if temperature.Some? {
        TemperatureArm(bs, chatId, now, temperature.value, f);
      }
    case ExtendSession =>
      var userState := bs.GetUserState(chatId, now, f.firstReadFails);
    case NewBooking =>
      var userState := bs.GetUserState(chatId, now, f.firstReadFails);
    case BookMalformed =>
    case ChangePsychologist =>
    case CancelSelection =>
    case Unknown =>
  }
}
