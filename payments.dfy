/** Payment reconciliation: the pre-checkout answer, and the successful-payment handler that
    marks the booking paid and installs the paid session in the user's state. */
module Payments {
  import opened Models
  import opened StateStore
  import opened BookingTable

  /** A booking marked paid: paid, not completed, no expiry; nothing else changes. */
  function MarkPaid(b: Booking): (paid: Booking)
    ensures paid.isPaid && !paid.isCompleted && paid.expiresAt.None?
    ensures paid.(isPaid := b.isPaid, isCompleted := b.isCompleted, expiresAt := b.expiresAt) == b
  {
    b.(isPaid := true, isCompleted := false, expiresAt := None)
  }

  /** The session a paid booking buys. A booking with a scheduled start gives an inactive
      session over the scheduled window; one without gives an active session starting now. */
  function NewSession(chatId: ChatId, b: Booking, now: Timestamp): (s: UserSession)
    ensures s.chatId == chatId && s.model == b.model && s.totalPrice == b.totalPrice
    ensures s.messagesExchanged == 0 && s.history == []
    ensures s.paidUntil == s.sessionStart + SecondsPerMinute * b.durationMinutes
    ensures s.scheduledStart == b.scheduledStart
    ensures s.isActive <==> b.scheduledStart.None?
    ensures s.sessionStart == b.scheduledStart.GetOr(now)
  {
    match b.scheduledStart
    case Some(start) =>
      UserSession(chatId, b.model, start, start + SecondsPerMinute * b.durationMinutes, b.totalPrice,
                  0, [], false, Some(start))
    case None =>
      UserSession(chatId, b.model, now, now + SecondsPerMinute * b.durationMinutes, b.totalPrice,
                  0, [], true, None)
  }

  /** An immediate session lets the user chat at once iff it bought at least a minute; a
      scheduled one does not let the user chat at any time. */
  lemma {:induction false} NewSessionChat(chatId: ChatId, b: Booking, now: Timestamp, u: UserState, t: Timestamp)
    ensures b.scheduledStart.None? ==>
      (CanChat(u.(currentSession := Some(NewSession(chatId, b, now))), now) <==> b.durationMinutes > 0)
    ensures b.scheduledStart.Some? ==> !CanChat(u.(currentSession := Some(NewSession(chatId, b, now))), t)
  {
    var s := NewSession(chatId, b, now);
    if b.scheduledStart.None? {
      assert s.paidUntil == now + 60 * b.durationMinutes;
    }
  }

  /** Which of the four store operations of the handler fail. */
  datatype PaymentFaults = PaymentFaults(lookupFails: bool, bookingSaveFails: bool, stateFetchFails: bool, stateSaveFails: bool)

  datatype PaymentOutcome =
    | NoPaymentData
    | BookingNotFound
    | LookupFailed
    | AlreadyPaid
    | BookingSaveFailed
    | Activated(saved: Outcome)

  /** `successful_payment_handler`, as a function of the store, the bookings table and the
      inputs. `payment` is the invoice payload of the notification, if it carries one. */
  function PaymentSpec(sz: Sizer, st: Store, rows: map<string, Booking>, chatId: ChatId,
                       payment: Option<string>, now: Timestamp, f: PaymentFaults): (PaymentOutcome, Store, map<string, Booking>)
    requires KeyedByPayload(rows)
  {
    if payment.None? then (NoPaymentData, st, rows)
    else
      match LookupIn(rows, payment.value, f.lookupFails)
      case LookupError => (LookupFailed, st, rows)
      case NotFound => (BookingNotFound, st, rows)
      case Found(b) =>
        if b.isPaid then (AlreadyPaid, st, rows)
        else if f.bookingSaveFails then (BookingSaveFailed, st, rows)
        else
          var (u, st1) := GetSpec(st, chatId, now, f.stateFetchFails);
          var (r, st2) := SaveSpec(sz, st1, chatId, u.(currentSession := Some(NewSession(chatId, b, now))), now, f.stateSaveFails);
          (Activated(r), st2, rows[b.invoicePayload := MarkPaid(b)])
  }

  /** Every early exit of the handler leaves both the user state and the bookings as they
      were; the exit taken is decided by the payload and the lookup. */
  lemma PaymentRejections(sz: Sizer, st: Store, rows: map<string, Booking>, chatId: ChatId,
                          payment: Option<string>, now: Timestamp, f: PaymentFaults)
    requires KeyedByPayload(rows)
    ensures var (o, st', rows') := PaymentSpec(sz, st, rows, chatId, payment, now, f);
            !o.Activated? ==> st' == st && rows' == rows
    ensures var o := PaymentSpec(sz, st, rows, chatId, payment, now, f).0;
            (o == BookingNotFound <==> payment.Some? && !f.lookupFails && payment.value !in rows) &&
            (o == LookupFailed <==> payment.Some? && f.lookupFails) &&
            (o == AlreadyPaid <==> payment.Some? && !f.lookupFails && payment.value in rows && rows[payment.value].isPaid) &&
            (o == BookingSaveFailed <==> payment.Some? && !f.lookupFails && payment.value in rows &&
                                         !rows[payment.value].isPaid && f.bookingSaveFails)
  {
  }

  /** On activation the booking under the payload is marked paid and nothing else in the
      table changes; the user state is the one read, with only its session replaced, and is
      handed to the save. */
  lemma {:induction false} ActivationEffects(sz: Sizer, st: Store, rows: map<string, Booking>, chatId: ChatId,
                                             p: string, now: Timestamp, f: PaymentFaults)
    requires KeyedByPayload(rows)
    requires PaymentSpec(sz, st, rows, chatId, Some(p), now, f).0.Activated?
    ensures p in rows && !rows[p].isPaid
    ensures PaymentSpec(sz, st, rows, chatId, Some(p), now, f).2 == rows[p := MarkPaid(rows[p])]
    ensures var (u, st1) := GetSpec(st, chatId, now, f.stateFetchFails);
            var u' := u.(currentSession := Some(NewSession(chatId, rows[p], now)));
            (PaymentSpec(sz, st, rows, chatId, Some(p), now, f).0.saved,
             PaymentSpec(sz, st, rows, chatId, Some(p), now, f).1) == SaveSpec(sz, st1, chatId, u', now, f.stateSaveFails)
  {
    assert LookupIn(rows, p, f.lookupFails) == Found(rows[p]);
  }

  /** Once a payment has been applied, a second delivery of the same notification finds the
      booking paid and changes nothing: a payment never buys two sessions. */
  lemma {:induction false} RedeliveryIsNoop(sz: Sizer, st: Store, rows: map<string, Booking>, chatId: ChatId,
                                            p: string, now: Timestamp, later: Timestamp, f: PaymentFaults, g: PaymentFaults)
    requires KeyedByPayload(rows)
    requires PaymentSpec(sz, st, rows, chatId, Some(p), now, f).0.Activated?
    requires !g.lookupFails
    ensures var (_, st', rows') := PaymentSpec(sz, st, rows, chatId, Some(p), now, f);
            KeyedByPayload(rows') &&
            PaymentSpec(sz, st', rows', chatId, Some(p), later, g) == (AlreadyPaid, st', rows')
  {
    ActivationEffects(sz, st, rows, chatId, p, now, f);
    var rows' := PaymentSpec(sz, st, rows, chatId, Some(p), now, f).2;
    assert rows'[p] == MarkPaid(rows[p]);
    assert KeyedByPayload(rows') by {
      forall q | q in rows' ensures rows'[q].invoicePayload == q {
        if q == p {
          assert rows'[q].invoicePayload == rows[p].invoicePayload;
        }
      }
    }
    assert LookupIn(rows', p, false) == Found(MarkPaid(rows[p]));
  }

  /** A paid immediate booking of at least a minute, saved successfully, lets the user chat
      at once, and the next read within the cache lifetime returns the new session. */
  lemma {:induction false} ImmediateActivationEnablesChat(sz: Sizer, st: Store, rows: map<string, Booking>, chatId: ChatId,
                                                          p: string, now: Timestamp, f: PaymentFaults, readFails: bool)
    requires KeyedByPayload(rows)
    requires PaymentSpec(sz, st, rows, chatId, Some(p), now, f).0 == Activated(Pass)
    requires p in rows && rows[p].scheduledStart.None? && rows[p].durationMinutes > 0
    ensures var st' := PaymentSpec(sz, st, rows, chatId, Some(p), now, f).1;
            CanChat(GetSpec(st', chatId, now, readFails).0, now)
  {
    ActivationEffects(sz, st, rows, chatId, p, now, f);
    var (u, st1) := GetSpec(st, chatId, now, f.stateFetchFails);
    var u' := u.(currentSession := Some(NewSession(chatId, rows[p], now)));
    ReadAfterWrite(sz, st1, chatId, u', now, now, f.stateSaveFails, readFails);
    NewSessionChat(chatId, rows[p], now, u, now);
  }

  /** The handler writes back whatever the read returned. When the read fails open, the
      stored row is replaced by the default state plus the new session: the user's stored
      model, bookings, history and temperatures are lost. */
  lemma {:induction false} ActivationAfterFailedRead(sz: Sizer, st: Store, rows: map<string, Booking>, chatId: ChatId,
                                                     p: string, now: Timestamp, f: PaymentFaults)
    requires KeyedByPayload(rows)
    requires PaymentSpec(sz, st, rows, chatId, Some(p), now, f).0 == Activated(Pass)
    requires f.stateFetchFails && (chatId !in st.cache || !IsFresh(st.cache[chatId].stamp, now))
    ensures var st' := PaymentSpec(sz, st, rows, chatId, Some(p), now, f).1;
            chatId in st'.rows &&
            st'.rows[chatId] == EncodeRow(DefaultUserState.(currentSession := Some(NewSession(chatId, rows[p], now))))
  {
    ActivationEffects(sz, st, rows, chatId, p, now, f);
    GetFailsOpen(st, chatId, now);
  }

  /** `pre_checkout_handler`'s decision: approve exactly an existing, unpaid booking. */
  function PreCheckout(lookup: Lookup): (approve: bool)
    ensures approve <==> lookup.Found? && !lookup.booking.isPaid
  {
    match lookup
    case Found(b) => !b.isPaid
    case NotFound => false
    case LookupError => false
  }

  /** The pre-checkout answer agrees with the payment handler: a payment is approved iff the
      same lookup would let the handler go past all its early exits for a missing, unreadable
      or already paid booking. No expiry is consulted by either. */
  lemma {:induction false} PreCheckoutAgreesWithPayment(sz: Sizer, st: Store, rows: map<string, Booking>, chatId: ChatId,
                                                        p: string, now: Timestamp, f: PaymentFaults)
    requires KeyedByPayload(rows)
    ensures PreCheckout(LookupIn(rows, p, f.lookupFails)) <==>
      PaymentSpec(sz, st, rows, chatId, Some(p), now, f).0 == BookingSaveFailed ||
      PaymentSpec(sz, st, rows, chatId, Some(p), now, f).0.Activated?
    ensures forall e :: p in rows && !f.lookupFails ==>
      PreCheckout(LookupIn(rows[p := rows[p].(expiresAt := e)], p, false)) == PreCheckout(LookupIn(rows, p, false))
  {
    PaymentRejections(sz, st, rows, chatId, Some(p), now, f);
    forall e | p in rows && !f.lookupFails
      ensures PreCheckout(LookupIn(rows[p := rows[p].(expiresAt := e)], p, false)) == PreCheckout(LookupIn(rows, p, false))
    {
      assert KeyedByPayload(rows[p := rows[p].(expiresAt := e)]);
    }
  }

  /** After a payment has been applied, a further pre-checkout for it is declined. */
  lemma {:induction false} PreCheckoutDeclinesPaid(sz: Sizer, st: Store, rows: map<string, Booking>, chatId: ChatId,
                                                   p: string, now: Timestamp, f: PaymentFaults, fails: bool)
    requires KeyedByPayload(rows)
    requires PaymentSpec(sz, st, rows, chatId, Some(p), now, f).0.Activated?
    ensures var rows' := PaymentSpec(sz, st, rows, chatId, Some(p), now, f).2;
            KeyedByPayload(rows') && !PreCheckout(LookupIn(rows', p, fails))
  {
    RedeliveryIsNoop(sz, st, rows, chatId, p, now, now, f, PaymentFaults(false, false, false, false));
  }

  method PreCheckoutHandler(table: Bookings, payload: string, lookupFails: bool) returns (approve: bool)
    requires table.Valid()
    ensures approve <==> !lookupFails && payload in table.rows && !table.rows[payload].isPaid
  {
    var lookup := table.GetBookingByPayload(payload, lookupFails);
    approve := PreCheckout(lookup);
  }

  method SuccessfulPayment(bs: BotState, table: Bookings, chatId: ChatId, payment: Option<string>,
                           now: Timestamp, f: PaymentFaults) returns (o: PaymentOutcome)
    requires table.Valid()
    modifies bs, table
    ensures table.Valid()
    ensures (o, bs.View(), table.rows) == PaymentSpec(bs.sizer, old(bs.View()), old(table.rows), chatId, payment, now, f)
  {
    if payment.None? {
      return NoPaymentData;
    }
    var lookup := table.GetBookingByPayload(payment.value, f.lookupFails);
    var booking: Booking;
    match lookup {
      case LookupError =>
        return LookupFailed;
      case NotFound =>
        return BookingNotFound;
      case Found(b) =>
        booking := b;
    }
    if booking.isPaid {
      return AlreadyPaid;
    }
    var saved := table.SaveBooking(MarkPaid(booking), f.bookingSaveFails);
    if !saved {
      return BookingSaveFailed;
    }
    var userState := bs.GetUserState(chatId, now, f.stateFetchFails);
    userState := userState.(currentSession := Some(NewSession(chatId, booking, now)));
    var r := bs.SaveUserState(chatId, userState, now, f.stateSaveFails);
    o := Activated(r);
  }
}
