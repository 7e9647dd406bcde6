/**
 * The payment-provider side of the ledger: what the handlers send to PayPal,
 * Stripe and Paystack about a booking, how they read the provider's replies
 * and webhook events, and what a successful payment does to the tables.
 * Network calls are not modelled: a provider's reply or event is an input.
 */
module Providers {
  import opened Optional
  import opened Json
  import opened Numerals
  import opened Money
  import opened Models
  import opened Availability
  import opened Store

  // ---------------------------------------------------------------- requests

  /** The purchase unit of the PayPal order created for a booking. */
  datatype PurchaseUnit = PurchaseUnit(referenceId: string, amount: int)

  /** `reference_id` is `str(booking.id)`; the value is the booking's total. */
  function PayPalPurchaseUnit(id: nat, b: Booking): (u: PurchaseUnit)
    ensures ToInt(JStr(u.referenceId)) == Some(id)
  {
    ToIntOfIdText(id);
    PurchaseUnit(NatToString(id), b.totalAmount)
  }

  /** The line item and metadata of the Stripe checkout session created for a booking. */
  datatype CheckoutRequest = CheckoutRequest(customerEmail: string, unitAmount: int, metadataBookingId: string)

  /**
   * `unit_amount` is the total in minor units, exactly the booking's cents;
   * `metadata.booking_id` is `str(booking.id)`, which reads back as the id.
   */
  function StripeCheckoutRequest(id: nat, b: Booking): (r: CheckoutRequest)
    ensures r.unitAmount == b.totalAmount
    ensures ToInt(JStr(r.metadataBookingId)) == Some(id)
  {
    MinorUnitsOfCents(b.totalAmount);
    ToIntOfIdText(id);
    CheckoutRequest(b.customerEmail, MinorUnits(Cents(b.totalAmount)), NatToString(id))
  }

  /** How many characters of the random hex string a Paystack reference keeps. */
  const PaystackRandomLength: nat := 18

  function Min(a: int, b: int): int {
    if a < b then a else b
  }

  /**
   * `f"PSK_{hex[:18]}"` for the hex string `hex` of a fresh UUID: the prefix
   * followed by the first 18 characters of `hex` (all of it when shorter).
   */
  function PaystackReference(hex: string): (r: string)
    ensures PaystackPrefix <= r
    ensures |r| == |PaystackPrefix| + Min(PaystackRandomLength, |hex|)
    ensures r[|PaystackPrefix|..] <= hex
  {
    PaystackPrefix + hex[..Min(PaystackRandomLength, |hex|)]
  }

  predicate IsLowerHex(c: char) {
    ('0' <= c <= '9') || ('a' <= c <= 'f')
  }

  /**
   * `uuid4().hex` has 32 lower-case hex digits, so a Paystack reference is
   * `PSK_` followed by exactly 18 hex digits.
   */
  lemma PaystackReferenceOfUuid(hex: string)
    requires |hex| == 32 && forall i :: 0 <= i < |hex| ==> IsLowerHex(hex[i])
    ensures var r := PaystackReference(hex);
            && |r| == 22 && r[..4] == "PSK_"
            && forall i :: 4 <= i < 22 ==> IsLowerHex(r[i])
  {
    var r := PaystackReference(hex);
    forall i | 4 <= i < 22 ensures IsLowerHex(r[i]) {
      assert r[i] == hex[i - 4];
    }
  }

  // ------------------------------------------------------- PayPal: create order

  /**
   * The `provider_ref` stored from PayPal's reply to the order creation,
   * `data.get("id", "")` saved into a text column: a missing id gives "",
   * numbers and booleans are stored as `str()` writes them.  `None` where the
   * handler raises before the upsert: a reply that is no object (no `.get`), or
   * a `null` id (the column is not nullable).
   */
  function OrderRef(reply: Json): Option<string> {
    if !reply.JObj? then None
    else
      match Get(reply, "id")
      case None => Some("")
      case Some(JStr(s)) => Some(s)
      case Some(JInt(n)) => Some(IntToString(n))
      case Some(JBool(b)) => Some(if b then "True" else "False")
      case Some(_) => None
  }

  // ------------------------------------------------------ PayPal: capture order

  /**
   * The booking a PayPal capture reply names: `data["id"]` must exist, and the
   * id is `int(data["purchase_units"][0]["reference_id"])`.  `None` wherever
   * one of these steps raises; the handler swallows that.
   */
  function CaptureBookingId(data: Json): Option<int> {
    if Get(data, "id").None? then None
    else
      match Get(data, "purchase_units")
      case None => None
      case Some(units) =>
        match First(units)
        case None => None
        case Some(unit) =>
          match Get(unit, "reference_id")
          case None => None
          case Some(ref) => ToInt(ref)
  }

  /**
   * The capture handler's effect: when the reply names an existing booking
   * that has a payment, the payment becomes succeeded with the reply as its
   * raw response, then the booking becomes confirmed; anything else leaves
   * the tables untouched.
   */
  function PayPalCaptureEffect(t: Tables, data: Json): (r: Tables)
    ensures Advances(t, r)
    ensures CaptureBookingId(data).None? ==> r == t
    ensures CaptureBookingId(data).Some? ==>
              var id := CaptureBookingId(data).value;
              if HasBooking(t, id) && id in t.payments then
                && BookingOf(r, id).status == Confirmed
                && r.payments[id] == t.payments[id].(status := Succeeded, rawResponse := data)
                && (forall i :: 0 <= i < |t.bookings| && i != id - 1 ==> r.bookings[i] == t.bookings[i])
                && (forall k :: k in t.payments && k != id ==> r.payments[k] == t.payments[k])
              else r == t
  {
    match CaptureBookingId(data)
    case None => t
    case Some(id) =>
      if HasBooking(t, id) && id in t.payments then
        Settled(t, id, Some(data))
      else t
  }

  /** A capture reply that echoes an order's purchase unit, as PayPal's does. */
  function CaptureReply(orderId: string, u: PurchaseUnit): Json {
    JObj([("id", JStr(orderId)),
          ("purchase_units", JArr([JObj([("reference_id", JStr(u.referenceId))])]))])
  }

  /**
   * Round trip through PayPal: capturing the order created for booking `id`
   * confirms that booking and marks its payment succeeded.
   */
  lemma PayPalCaptureConfirmsOrderedBooking(t: Tables, id: int, orderId: string)
    requires HasBooking(t, id) && id in t.payments
    ensures var r := PayPalCaptureEffect(t, CaptureReply(orderId, PayPalPurchaseUnit(id, BookingOf(t, id))));
            BookingOf(r, id).status == Confirmed && r.payments[id].status == Succeeded
  {
    CaptureReplyNamesBooking(orderId, id, BookingOf(t, id));
  }

  /** The reply to capturing the order for booking `id` names booking `id`. */
  lemma CaptureReplyNamesBooking(orderId: string, id: nat, b: Booking)
    ensures CaptureBookingId(CaptureReply(orderId, PayPalPurchaseUnit(id, b))) == Some(id)
  {
    CaptureReplyCarries(orderId, PayPalPurchaseUnit(id, b));
  }

  /** A capture reply is read back to the `int` of its purchase unit's reference id. */
  lemma CaptureReplyCarries(orderId: string, u: PurchaseUnit)
    ensures CaptureBookingId(CaptureReply(orderId, u)) == ToInt(JStr(u.referenceId))
  {
    var unit := JObj([("reference_id", JStr(u.referenceId))]);
    var units := JArr([unit]);
    GetTwo("id", JStr(orderId), "purchase_units", units);
    assert First(units) == Some(unit);
    GetOne("reference_id", JStr(u.referenceId));
  }

  /** Capturing twice leaves the tables as capturing once. */
  lemma PayPalCaptureIdempotent(t: Tables, data: Json)
    ensures PayPalCaptureEffect(PayPalCaptureEffect(t, data), data) == PayPalCaptureEffect(t, data)
  {
    var once := PayPalCaptureEffect(t, data);
    if id :| CaptureBookingId(data) == Some(id) && HasBooking(t, id) && id in t.payments {
      SettledIdempotent(t, id, Some(data));
    }
  }

  // ---------------------------------------------------------- Stripe: webhook

  /** What the Stripe webhook does with an event. */
  datatype StripeAction =
    | StripeIgnore                 // returns 200 without touching anything
    | StripeRaise                  // an exception escapes the handler (no 200)
    | StripeConfirm(bookingRef: Json)  // enters the guarded update with this booking id value

  /**
   * `event.get("type")`, `event["data"]["object"]`,
   * `session.get("metadata", {}).get("booking_id")` and `if booking_id:`.
   * All of these run outside the handler's `try`, so a step that raises makes
   * the handler raise.
   */
  function StripeDecision(event: Json): StripeAction {
    if !event.JObj? then StripeRaise
    else if Get(event, "type") != Some(JStr("checkout.session.completed")) then StripeIgnore
    else
      match Get(event, "data")
      case None => StripeRaise
      case Some(data) =>
        match Get(data, "object")
        case None => StripeRaise
        case Some(session) =>
          if !session.JObj? then StripeRaise
          else
            var metadata := Get(session, "metadata").GetOr(EmptyObject);
            if !metadata.JObj? then StripeRaise
            else
              match Get(metadata, "booking_id")
              case None => StripeIgnore
              case Some(ref) => if Truthy(ref) then StripeConfirm(ref) else StripeIgnore
  }

  /** Whether the Stripe webhook answers 200 (it does unless an exception escapes). */
  predicate StripeAcknowledges(event: Json) {
    !StripeDecision(event).StripeRaise?
  }

  /**
   * The Stripe webhook's effect.  The booking named by the event is saved as
   * confirmed before its payment is looked up, so a booking without a payment
   * still becomes confirmed; a payment becomes succeeded and keeps its raw
   * response.  A non-completion event, a missing or unreadable booking id and
   * an unknown booking change nothing.
   */
  function StripeWebhookEffect(t: Tables, event: Json): (r: Tables)
    ensures Advances(t, r)
    ensures !StripeDecision(event).StripeConfirm? ==> r == t
    ensures StripeDecision(event).StripeConfirm? ==>
              match ToInt(StripeDecision(event).bookingRef)
              case None => r == t
              case Some(id) =>
                if HasBooking(t, id) then
                  && BookingOf(r, id).status == Confirmed
                  && (id in t.payments ==> r.payments[id] == t.payments[id].(status := Succeeded))
                  && (forall i :: 0 <= i < |t.bookings| && i != id - 1 ==> r.bookings[i] == t.bookings[i])
                  && (forall k :: k in t.payments && k != id ==> r.payments[k] == t.payments[k])
                else r == t
  {
    match StripeDecision(event)
    case StripeConfirm(ref) =>
      (match ToInt(ref)
       case Some(id) =>
         if HasBooking(t, id) then
           Settled(t, id, None)
         else t
       case None => t)
    case _ => t
  }

  /** The `checkout.session.completed` event Stripe sends for a session with this booking id in its metadata. */
  function CompletedEvent(metadataBookingId: string): Json {
    JObj([("type", JStr("checkout.session.completed")),
          ("data", JObj([("object", JObj([("metadata", JObj([("booking_id", JStr(metadataBookingId))]))]))]))])
  }

  /** A completion event with a non-empty booking id reaches the guarded update with that id. */
  lemma CompletedEventCarries(text: string)
    requires text != []
    ensures StripeDecision(CompletedEvent(text)) == StripeConfirm(JStr(text))
  {
    var metadata := JObj([("booking_id", JStr(text))]);
    var session := JObj([("metadata", metadata)]);
    var data := JObj([("object", session)]);
    GetTwo("type", JStr("checkout.session.completed"), "data", data);
    GetOne("object", session);
    GetOne("metadata", metadata);
    GetOne("booking_id", JStr(text));
  }

  /**
   * Round trip through Stripe: the completion event for the session created
   * for booking `id` is acknowledged, confirms the booking and, if the booking
   * has a payment, marks it succeeded.
   */
  lemma StripeCompletionConfirmsBooking(t: Tables, id: int)
    requires HasBooking(t, id)
    ensures var event := CompletedEvent(StripeCheckoutRequest(id, BookingOf(t, id)).metadataBookingId);
            var r := StripeWebhookEffect(t, event);
            && StripeAcknowledges(event)
            && BookingOf(r, id).status == Confirmed
            && (id in t.payments ==> r.payments[id].status == Succeeded)
  {
    var text := StripeCheckoutRequest(id, BookingOf(t, id)).metadataBookingId;
    CompletedEventCarries(text);
  }

  /** An event that reaches the guarded update with `str(id)` for an existing booking settles that booking. */
  lemma StripeConfirmSettles(t: Tables, event: Json, id: nat)
    requires HasBooking(t, id)
    requires StripeDecision(event) == StripeConfirm(JStr(NatToString(id)))
    ensures StripeWebhookEffect(t, event) == Settled(t, id, None)
  {
    ToIntOfIdText(id);
  }

  /** Delivering a Stripe event twice leaves the tables as delivering it once. */
  lemma StripeWebhookIdempotent(t: Tables, event: Json)
    ensures StripeWebhookEffect(StripeWebhookEffect(t, event), event) == StripeWebhookEffect(t, event)
  {
    var once := StripeWebhookEffect(t, event);
    if StripeDecision(event).StripeConfirm? {
      match ToInt(StripeDecision(event).bookingRef)
      case Some(id) =>
        if HasBooking(t, id) {
          SettledIdempotent(t, id, None);
        }
      case None =>
    }
  }

  /**
   * The payment handlers confirm a booking whatever its status: when a
   * booking cancelled by hand (which leaves its dates free) is paid for after
   * another active booking of the hall, made before or after it, took some of
   * those dates, the completion event confirms it again, and the "no
   * overlapping active bookings" rule that held before no longer holds.
   */
  lemma StripeReconfirmsCancelled(t: Tables, i: int, id: nat)
    requires HasBooking(t, id) && 0 <= i < |t.bookings| && i != id - 1 && NoOverlap(t.bookings)
    requires BookingOf(t, id).status == Cancelled
    requires Blocks(t.bookings[i], BookingOf(t, id).hall, BookingOf(t, id).startDate, BookingOf(t, id).endDate)
    ensures var r := StripeWebhookEffect(t, CompletedEvent(NatToString(id)));
            BookingOf(r, id).status == Confirmed && !NoOverlap(r.bookings)
  {
    CompletedEventCarries(NatToString(id));
    StripeConfirmSettles(t, CompletedEvent(NatToString(id)), id);
    SettlingBlockedBreaksNoOverlap(t, i, id, None);
  }

  /**
   * Settling a booking whose dates another active booking of its hall
   * already holds, wherever that booking sits in the table, leaves two
   * overlapping active bookings.
   */
  lemma SettlingBlockedBreaksNoOverlap(t: Tables, i: int, id: int, raw: Option<Json>)
    requires HasBooking(t, id) && 0 <= i < |t.bookings| && i != id - 1
    requires Blocks(t.bookings[i], BookingOf(t, id).hall, BookingOf(t, id).startDate, BookingOf(t, id).endDate)
    ensures !NoOverlap(Settled(t, id, raw).bookings)
  {
    var r := Settled(t, id, raw);
    var b, c := r.bookings[i], r.bookings[id - 1];
    assert b == t.bookings[i];
    assert IsActive(c.status) && c.hall == b.hall;
    if id - 1 < i {
      OverlapSymmetric(b.startDate, b.endDate, c.startDate, c.endDate);
      assert Blocks(c, b.hall, b.startDate, b.endDate);
    } else {
      assert Blocks(b, c.hall, c.startDate, c.endDate);
    }
  }

  // -------------------------------------------------------- Paystack: webhook

  /** What the Paystack webhook does with an event. */
  datatype PaystackAction =
    | PaystackIgnore                          // returns 200 without touching anything
    | PaystackRaise                           // an exception escapes the handler (no 200)
    | PaystackCharge(reference: Option<Json>) // looks the payment up by this reference

  /**
   * `event.get("event")`, `event.get("data", {})` and `data.get("reference")`,
   * all outside the handler's `try`.
   */
  function PaystackDecision(event: Json): PaystackAction {
    if !event.JObj? then PaystackRaise
    else if Get(event, "event") != Some(JStr("charge.success")) then PaystackIgnore
    else
      var data := Get(event, "data").GetOr(EmptyObject);
      if !data.JObj? then PaystackRaise else PaystackCharge(Get(data, "reference"))
  }

  /** Whether the Paystack webhook answers 200 (it does unless an exception escapes). */
  predicate PaystackAcknowledges(event: Json) {
    !PaystackDecision(event).PaystackRaise?
  }

  /** Payment `p` is one of those `Payment.objects.filter(provider="paystack", provider_ref=ref)` finds. */
  predicate PaystackMatch(p: Payment, reference: Option<Json>) {
    p.provider == Paystack && reference == Some(JStr(p.providerRef))
  }

  /**
   * The ids, in increasing order, of the payments of bookings `1..n` that
   * carry `reference` as Paystack reference.
   */
  function PaystackMatches(ps: map<int, Payment>, reference: Option<Json>, n: nat): (ids: seq<int>)
    ensures forall i :: 0 <= i < |ids| ==> 1 <= ids[i] <= n && ids[i] in ps && PaystackMatch(ps[ids[i]], reference)
    ensures forall k :: 1 <= k <= n && k in ps && PaystackMatch(ps[k], reference) ==> k in ids
    ensures forall i :: 0 < i < |ids| ==> ids[i - 1] < ids[i]
  {
    if n == 0 then []
    else PaystackMatches(ps, reference, n - 1) + (if n in ps && PaystackMatch(ps[n], reference) then [n] else [])
  }

  lemma PaymentKeysAreBookings(t: Tables)
    requires Integrity(t)
    ensures forall j :: j in t.payments ==> 1 <= j <= |t.bookings|
  {
    forall j | j in t.payments ensures 1 <= j <= |t.bookings| {
      assert HasBooking(t, j);
    }
  }

  /** A strictly increasing sequence spreads at least one step per entry. */
  lemma {:induction false} IncreasingSpread(s: seq<int>)
    requires |s| >= 1
    requires forall i :: 0 < i < |s| ==> s[i - 1] < s[i]
    ensures s[|s| - 1] - s[0] >= |s| - 1
  {
    if |s| > 1 {
      IncreasingSpread(s[..|s| - 1]);
      assert s[|s| - 2] < s[|s| - 1];
    }
  }

  /** A strictly increasing sequence all of whose entries are `k` has at most one entry. */
  lemma IncreasingConstantIsShort(s: seq<int>, k: int)
    requires forall i :: 0 < i < |s| ==> s[i - 1] < s[i]
    requires forall i :: 0 <= i < |s| ==> s[i] == k
    ensures |s| <= 1
  {
    if |s| >= 1 {
      IncreasingSpread(s);
      assert s[0] == k && s[|s| - 1] == k;
    }
  }

  /**
   * `Payment.objects.get(...)` succeeds exactly when one payment matches: the
   * match list has one entry exactly when its first entry is the only
   * matching payment.
   */
  lemma PaystackMatchIsUnique(ps: map<int, Payment>, n: nat, reference: Option<Json>, k: int)
    requires forall j :: j in ps ==> 1 <= j <= n
    ensures var ids := PaystackMatches(ps, reference, n);
            (|ids| == 1 && ids[0] == k) <==>
            (k in ps && PaystackMatch(ps[k], reference) &&
             forall j :: j in ps && PaystackMatch(ps[j], reference) ==> j == k)
  {
    var ids := PaystackMatches(ps, reference, n);
    if |ids| == 1 && ids[0] == k {
      forall j | j in ps && PaystackMatch(ps[j], reference) ensures j == k {
        assert j in ids;
      }
    }
    if k in ps && PaystackMatch(ps[k], reference) &&
       forall j :: j in ps && PaystackMatch(ps[j], reference) ==> j == k {
      assert k in ids;
      forall i | 0 <= i < |ids| ensures ids[i] == k {
        assert ids[i] in ps && PaystackMatch(ps[ids[i]], reference);
      }
      IncreasingConstantIsShort(ids, k);
    }
  }

  /**
   * The Paystack webhook's effect: when exactly one Paystack payment carries
   * the event's reference, it becomes succeeded with the event as raw
   * response and its booking becomes confirmed; no match, several matches, or
   * another kind of event change nothing.
   */
  function PaystackWebhookEffect(t: Tables, event: Json): (r: Tables)
    requires Integrity(t)
    ensures Advances(t, r)
    ensures !PaystackDecision(event).PaystackCharge? ==> r == t
    ensures PaystackDecision(event).PaystackCharge? ==>
              var ids := PaystackMatches(t.payments, PaystackDecision(event).reference, |t.bookings|);
              if |ids| == 1 then
                var k := ids[0];
                && BookingOf(r, k).status == Confirmed
                && r.payments[k] == t.payments[k].(status := Succeeded, rawResponse := event)
                && (forall i :: 0 <= i < |t.bookings| && i != k - 1 ==> r.bookings[i] == t.bookings[i])
                && (forall j :: j in t.payments && j != k ==> r.payments[j] == t.payments[j])
              else r == t
  {
    match PaystackDecision(event)
    case PaystackCharge(reference) =>
      var ids := PaystackMatches(t.payments, reference, |t.bookings|);
      if |ids| == 1 then
        Settled(t, ids[0], Some(event))
      else t
    case _ => t
  }

  /** The `charge.success` event Paystack sends for a reference. */
  function ChargeSuccessEvent(reference: string): Json {
    JObj([("event", JStr("charge.success")), ("data", JObj([("reference", JStr(reference))]))])
  }

  /**
   * Round trip through Paystack: when booking `id`'s payment is the only
   * Paystack payment with its reference, the charge event for that reference
   * is acknowledged, marks the payment succeeded and confirms the booking.
   */
  lemma PaystackChargeConfirmsBooking(t: Tables, id: int)
    requires Integrity(t) && id in t.payments && t.payments[id].provider == Paystack
    requires forall k :: k in t.payments && k != id && t.payments[k].provider == Paystack ==>
               t.payments[k].providerRef != t.payments[id].providerRef
    ensures var event := ChargeSuccessEvent(t.payments[id].providerRef);
            var r := PaystackWebhookEffect(t, event);
            && PaystackAcknowledges(event)
            && BookingOf(r, id).status == Confirmed && r.payments[id].status == Succeeded
  {
    var ref := t.payments[id].providerRef;
    var data := JObj([("reference", JStr(ref))]);
    GetTwo("event", JStr("charge.success"), "data", data);
    GetOne("reference", JStr(ref));
    assert PaystackDecision(ChargeSuccessEvent(ref)) == PaystackCharge(Some(JStr(ref)));
    PaymentKeysAreBookings(t);
    PaystackMatchIsUnique(t.payments, |t.bookings|, Some(JStr(ref)), id);
  }

  /** Two payment tables in which a reference matches the same bookings give the same match list. */
  lemma {:induction false} MatchesUnchanged(ps: map<int, Payment>, ps': map<int, Payment>, reference: Option<Json>, n: nat)
    requires forall k :: 1 <= k <= n ==> (k in ps' && PaystackMatch(ps'[k], reference)) == (k in ps && PaystackMatch(ps[k], reference))
    ensures PaystackMatches(ps', reference, n) == PaystackMatches(ps, reference, n)
  {
    if n > 0 {
      MatchesUnchanged(ps, ps', reference, n - 1);
    }
  }

  /** Payment events keep the payments every reference matches. */
  lemma AdvancesKeepsMatches(t: Tables, t': Tables, reference: Option<Json>)
    requires Advances(t, t')
    ensures PaystackMatches(t'.payments, reference, |t'.bookings|) == PaystackMatches(t.payments, reference, |t.bookings|)
  {
    forall k | 1 <= k <= |t.bookings|
      ensures (k in t'.payments && PaystackMatch(t'.payments[k], reference)) == (k in t.payments && PaystackMatch(t.payments[k], reference))
    {
      if k in t.payments {
        assert t'.payments[k].provider == t.payments[k].provider && t'.payments[k].providerRef == t.payments[k].providerRef;
      }
    }
    MatchesUnchanged(t.payments, t'.payments, reference, |t.bookings|);
  }

  /** Delivering a Paystack event twice leaves the tables as delivering it once. */
  lemma PaystackWebhookIdempotent(t: Tables, event: Json)
    requires Integrity(t)
    ensures Integrity(PaystackWebhookEffect(t, event))
    ensures PaystackWebhookEffect(PaystackWebhookEffect(t, event), event) == PaystackWebhookEffect(t, event)
  {
    var once := PaystackWebhookEffect(t, event);
    AdvancesKeepsIntegrity(t, once);
    if PaystackDecision(event).PaystackCharge? {
      var reference := PaystackDecision(event).reference;
      AdvancesKeepsMatches(t, once, reference);
      var ids := PaystackMatches(t.payments, reference, |t.bookings|);
      if |ids| == 1 {
        SettledIdempotent(t, ids[0], Some(event));
      }
    }
  }
}
