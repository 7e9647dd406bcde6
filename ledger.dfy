/**
 * The rental app's store as one object, with one method per request handler
 * that reads or changes it.  Each method states its new state through the
 * functions of the Availability, Store and Providers modules, and keeps the
 * store's invariant `Valid()`: in particular, however the calls follow one
 * another, no two active bookings of a hall overlap.
 */
module Ledger {
  import opened Optional
  import opened Json
  import Numerals
  import opened Money
  import opened Models
  import opened Availability
  import opened Store
  import opened Providers

  /** The answer to a booking request: the new booking, 409, or 400 (unknown hall). */
  datatype BookingReply = Booked(bookingId: int, totalAmount: int) | Conflict | InvalidData

  /** The outcome of starting a PayPal or Stripe payment. */
  datatype PaymentReply = PaymentRecorded | BookingNotFound | HandlerRaised

  /** The answer to a Paystack initialization: the reference, e-mail and amount the client pays with. */
  datatype PaystackReply =
    | PaystackInitialized(reference: string, email: string, amountKobo: int)
    | PaystackBookingNotFound

  class Ledger {
    var halls: map<int, Hall>
    var bookings: seq<Booking>
    var payments: map<int, Payment>

    ghost function State(): Tables
      reads this
    {
      Tables(halls, bookings, payments)
    }

    ghost predicate Valid()
      reads this
    {
      Integrity(State()) && Invariant(State())
    }

    /** A store holding the given halls (halls are managed elsewhere) and no bookings or payments yet. */
    constructor (halls: map<int, Hall>)
      requires forall h :: h in halls ==> FitsMoney(halls[h].pricePerDay)
      ensures Valid()
      ensures this.halls == halls && bookings == [] && payments == map[]
    {
      this.halls := halls;
      bookings := [];
      payments := map[];
    }

    /**
     * `check_availability`: `None` for an unknown hall (404); otherwise whether
     * no pending or confirmed booking of the hall overlaps `start..end`.
     */
    function CheckAvailability(hallId: int, start: int, end: int): (r: Option<bool>)
      reads this
      ensures r.None? <==> hallId !in halls
      ensures r.Some? ==> (r.value <==> forall i :: 0 <= i < |bookings| ==> !Blocks(bookings[i], hallId, start, end))
    {
      if hallId !in halls then None else Some(Available(bookings, hallId, start, end))
    }

    /**
     * `create_booking`: an unknown hall is invalid data; a request that the
     * availability check would refuse is a conflict and stores nothing;
     * otherwise one pending booking priced per inclusive day is appended.
     */
    method CreateBooking(hallId: int, start: int, end: int, customerName: string, customerEmail: string)
      returns (r: BookingReply)
      requires Valid()
      modifies this
      ensures Valid()
      ensures halls == old(halls) && payments == old(payments)
      ensures r.InvalidData? <==> old(CheckAvailability(hallId, start, end)).None?
      ensures r.Conflict? <==> old(CheckAvailability(hallId, start, end)) == Some(false)
      ensures !r.Booked? ==> bookings == old(bookings)
      ensures r.Booked? ==>
                && r.bookingId == |old(bookings)| + 1
                && r.totalAmount == StayPrice(halls[hallId].pricePerDay, start, end)
                && bookings == old(bookings) + [Booking(hallId, customerName, customerEmail, start, end,
                                                        r.totalAmount, DefaultBookingStatus)]
    {
      if hallId !in halls {
        return InvalidData;
      }
      var hall := halls[hallId];
      var total := hall.pricePerDay * DayCount(start, end);
      var i := 0;
      while i < |bookings|
        invariant 0 <= i <= |bookings|
        invariant forall j :: 0 <= j < i ==> !Blocks(bookings[j], hallId, start, end)
      {
        var b := bookings[i];
        if b.hall == hallId && IsActive(b.status) && DatesOverlap(b.startDate, b.endDate, start, end) {
          return Conflict;
        }
        i := i + 1;
      }
      var booking := Booking(hallId, customerName, customerEmail, start, end, total, DefaultBookingStatus);
      AppendAvailableKeepsNoOverlap(bookings, booking);
      bookings := bookings + [booking];
      r := Booked(|bookings|, total);
    }

    /**
     * `paypal_create_order`: for an existing booking, PayPal is asked to create
     * an order for `PayPalPurchaseUnit(bookingId, booking)`, and `reply` is
     * its decoded answer; the booking's payment is upserted with the order id
     * as reference and the reply as raw response.
     */
    method PayPalCreateOrder(bookingId: int, reply: Json) returns (r: PaymentReply)
      requires Valid()
      modifies this
      ensures Valid()
      ensures halls == old(halls) && bookings == old(bookings)
      ensures !HasBooking(old(State()), bookingId) ==> r == BookingNotFound && payments == old(payments)
      ensures HasBooking(old(State()), bookingId) && OrderRef(reply).None? ==>
                r == HandlerRaised && payments == old(payments)
      ensures HasBooking(old(State()), bookingId) && OrderRef(reply).Some? ==>
                && r == PaymentRecorded
                && payments == Upsert(old(payments), bookingId, PayPal, OrderRef(reply).value,
                                      bookings[bookingId - 1].totalAmount, Some(reply))
    {
      if !(1 <= bookingId <= |bookings|) {
        return BookingNotFound;
      }
      var booking := bookings[bookingId - 1];
      match OrderRef(reply)
      case None =>
        r := HandlerRaised;
      case Some(ref) =>
        UpsertKeepsInvariant(State(), bookingId, PayPal, ref, Some(reply));
        payments := Upsert(payments, bookingId, PayPal, ref, booking.totalAmount, Some(reply));
        r := PaymentRecorded;
    }

    /**
     * The shared step of the payment handlers: booking `id` is saved as
     * confirmed and, when it has a payment, that payment as succeeded, with
     * `raw` as its new raw response if given.
     */
    method Settle(id: int, raw: Option<Json>)
      requires Valid() && HasBooking(State(), id)
      modifies this
      ensures Valid()
      ensures State() == Settled(old(State()), id, raw)
    {
      bookings := bookings[id - 1 := bookings[id - 1].(status := Confirmed)];
      if id in payments {
        payments := payments[id := payments[id].(status := Succeeded, rawResponse := raw.GetOr(payments[id].rawResponse))];
      }
      AdvancesKeepsInvariant(old(State()), State());
    }

    /**
     * `paypal_capture_order`: `data` is PayPal's decoded capture reply; the
     * named booking's payment becomes succeeded, then the booking confirmed,
     * and any failed lookup is swallowed.
     */
    method PayPalCaptureOrder(data: Json)
      requires Valid()
      modifies this
      ensures Valid()
      ensures State() == PayPalCaptureEffect(old(State()), data)
    {
      match CaptureBookingId(data)
      case None =>
      case Some(id) =>
        if 1 <= id <= |bookings| && id in payments {
          Settle(id, Some(data));
        }
    }

    /**
     * `stripe_create_checkout_session`: for an existing booking, Stripe is
     * asked for a checkout session described by `StripeCheckoutRequest`, and
     * `sessionId` is the id of the session it returns; the booking's payment
     * is upserted with that id as reference.
     */
    method StripeCreateCheckoutSession(bookingId: int, sessionId: string) returns (r: PaymentReply)
      requires Valid()
      modifies this
      ensures Valid()
      ensures halls == old(halls) && bookings == old(bookings)
      ensures !HasBooking(old(State()), bookingId) ==> r == BookingNotFound && payments == old(payments)
      ensures HasBooking(old(State()), bookingId) ==>
                && r == PaymentRecorded
                && payments == Upsert(old(payments), bookingId, Stripe, sessionId,
                                      bookings[bookingId - 1].totalAmount,
                                      Some(JObj([("session", JStr(sessionId))])))
    {
      if !(1 <= bookingId <= |bookings|) {
        return BookingNotFound;
      }
      var booking := bookings[bookingId - 1];
      var raw := JObj([("session", JStr(sessionId))]);
      UpsertKeepsInvariant(State(), bookingId, Stripe, sessionId, Some(raw));
      payments := Upsert(payments, bookingId, Stripe, sessionId, booking.totalAmount, Some(raw));
      r := PaymentRecorded;
    }

    /**
     * `stripe_webhook`: `event` is the decoded request body.  The result says
     * whether the handler answers 200, that is, whether no exception escapes.
     */
    method StripeWebhook(event: Json) returns (acknowledged: bool)
      requires Valid()
      modifies this
      ensures Valid()
      ensures acknowledged == StripeAcknowledges(event)
      ensures State() == StripeWebhookEffect(old(State()), event)
    {
      match StripeDecision(event)
      case StripeRaise =>
        acknowledged := false;
      case StripeIgnore =>
        acknowledged := true;
      case StripeConfirm(ref) =>
        acknowledged := true;
        match ToInt(ref)
        case None =>
        case Some(id) =>
          if 1 <= id <= |bookings| {
            assert StripeWebhookEffect(State(), event) == Settled(State(), id, None);
            Settle(id, None);
          }
    }

    /**
     * `paystack_initialize`: for an existing booking, mints the reference
     * `PSK_` + the first 18 characters of `uuidHex` (the hex form of a fresh
     * UUID), upserts the booking's payment with it, and answers with the
     * amount in minor units, which is the booking's total in cents.
     */
    method PaystackInitialize(bookingId: int, uuidHex: string) returns (r: PaystackReply)
      requires Valid()
      modifies this
      ensures Valid()
      ensures halls == old(halls) && bookings == old(bookings)
      ensures !HasBooking(old(State()), bookingId) ==> r == PaystackBookingNotFound && payments == old(payments)
      ensures HasBooking(old(State()), bookingId) ==>
                var booking := bookings[bookingId - 1];
                && r == PaystackInitialized(PaystackReference(uuidHex), booking.customerEmail, booking.totalAmount)
                && payments == Upsert(old(payments), bookingId, Paystack, r.reference, booking.totalAmount, None)
    {
      if !(1 <= bookingId <= |bookings|) {
        return PaystackBookingNotFound;
      }
      var booking := bookings[bookingId - 1];
      var ref := PaystackReference(uuidHex);
      UpsertKeepsInvariant(State(), bookingId, Paystack, ref, None);
      payments := Upsert(payments, bookingId, Paystack, ref, booking.totalAmount, None);
      var amountKobo := MinorUnits(Cents(booking.totalAmount));
      MinorUnitsOfCents(booking.totalAmount);
      r := PaystackInitialized(ref, booking.customerEmail, amountKobo);
    }

    /**
     * `paystack_webhook`: `event` is the decoded request body.  The result
     * says whether the handler answers 200.
     */
    method PaystackWebhook(event: Json) returns (acknowledged: bool)
      requires Valid()
      modifies this
      ensures Valid()
      ensures acknowledged == PaystackAcknowledges(event)
      ensures State() == PaystackWebhookEffect(old(State()), event)
    {
      match PaystackDecision(event)
      case PaystackRaise =>
        acknowledged := false;
      case PaystackIgnore =>
        acknowledged := true;
      case PaystackCharge(reference) =>
        acknowledged := true;
        var ids := PaystackMatches(payments, reference, |bookings|);
        if |ids| == 1 {
          Settle(ids[0], Some(event));
        }
    }
  }

  /**
   * A walk through the booking rules on one hall at 100.00 a day, days
   * numbered from 1 January: 1-3 January costs 300.00; 3-5 January then
   * conflicts on the 3rd; 4-5 January is free; a Stripe completion naming a
   * booking that does not exist is acknowledged and changes nothing.
   */
  method BookingWalkthrough() {
    var ledger := new Ledger(map[1 := Hall("Main hall", "", 120, 10000, "")]);
    var first := ledger.CreateBooking(1, 1, 3, "Ada", "ada@example.com");
    assert first == Booked(1, 30000);
    var second := ledger.CreateBooking(1, 3, 5, "Bob", "bob@example.com");
    assert second == Conflict;
    var third := ledger.CreateBooking(1, 4, 5, "Cy", "cy@example.com");
    assert third == Booked(2, 20000);
    var before := ledger.State();
    CompletedEventCarries("9");
    ToIntOfIdText(9);
    var ack := ledger.StripeWebhook(CompletedEvent(Numerals.NatToString(9)));
    assert ack && ledger.State() == before;
  }
}
