/** The `bookings` table as the payment handlers use it: a lookup by invoice payload and an
    upsert, each of which can fail with a database error. The table is keyed by payload, the
    token the payment notification carries back. */
module BookingTable {
  import opened Models

  /** The three answers of a lookup by payload. */
  datatype Lookup = Found(booking: Booking) | NotFound | LookupError

  /** Every row is filed under its own invoice payload. */
  predicate KeyedByPayload(rows: map<string, Booking>)
  {
    forall p :: p in rows ==> rows[p].invoicePayload == p
  }

  /** `get_booking_by_payload`. */
  function LookupIn(rows: map<string, Booking>, payload: string, fails: bool): (r: Lookup)
    requires KeyedByPayload(rows)
    ensures r.LookupError? <==> fails
    ensures r.NotFound? <==> !fails && payload !in rows
    ensures r.Found? ==> payload in rows && r.booking == rows[payload] && r.booking.invoicePayload == payload
  {
    if fails then LookupError
    else if payload in rows then Found(rows[payload])
    else NotFound
  }

  class Bookings {
    var rows: map<string, Booking>

    predicate Valid()
      reads this
    {
      KeyedByPayload(rows)
    }

    constructor(rows: map<string, Booking>)
      requires KeyedByPayload(rows)
      ensures Valid() && this.rows == rows
    {
      this.rows := rows;
    }

    method GetBookingByPayload(payload: string, fails: bool) returns (r: Lookup)
      requires Valid()
      ensures r == LookupIn(rows, payload, fails)
      ensures r.Found? ==> r.booking.invoicePayload == payload
    {
      if fails {
        return LookupError;
      }
      if payload in rows {
        r := Found(rows[payload]);
      } else {
        r := NotFound;
      }
    }

    /** `save_booking`: an upsert under the booking's payload, or a database error that
        leaves the table as it was. */
    method SaveBooking(b: Booking, fails: bool) returns (saved: bool)
      requires Valid()
      modifies this
      ensures Valid()
      ensures saved == !fails
      ensures rows == if fails then old(rows) else old(rows)[b.invoicePayload := b]
    {
      if fails {
        return false;
      }
      rows := rows[b.invoicePayload := b];
      saved := true;
    }
  }
}
