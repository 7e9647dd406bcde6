/**
 * The three tables of the rental app as one value, the constraints the
 * schema puts on them, the invariant the ledger's operations keep, and the
 * row updates the handlers perform: `update_or_create` of a payment, and the
 * status changes that a successful payment makes.
 */
module Store {
  import opened Optional
  import opened Json
  import opened Models
  import opened Availability

  /**
   * The hall table keyed by hall id, the booking table in insertion order
   * (booking `id` is at position `id - 1`: ids are assigned 1, 2, 3, ...),
   * and the payment table keyed by the id of the booking it belongs to.
   */
  datatype Tables = Tables(halls: map<int, Hall>, bookings: seq<Booking>, payments: map<int, Payment>)

  /** The prefix of every reference minted for a Paystack payment. */
  const PaystackPrefix: string := "PSK_"

  predicate HasBooking(t: Tables, id: int) {
    1 <= id <= |t.bookings|
  }

  function BookingOf(t: Tables, id: int): Booking
    requires HasBooking(t, id)
  {
    t.bookings[id - 1]
  }

  /**
   * What the schema enforces: prices fit their decimal column, every booking
   * references an existing hall, and every payment belongs to exactly one
   * existing booking (the key is its booking), so no booking has two.
   */
  ghost predicate Integrity(t: Tables) {
    && (forall h :: h in t.halls ==> FitsMoney(t.halls[h].pricePerDay))
    && (forall i :: 0 <= i < |t.bookings| ==> t.bookings[i].hall in t.halls)
    && (forall k :: k in t.payments ==> HasBooking(t, k) && t.payments[k].booking == k)
  }

  /**
   * What the ledger's operations keep: active bookings of a hall never
   * overlap, nothing is ever cancelled or failed, and Paystack payments carry
   * references with the Paystack prefix.
   */
  ghost predicate Invariant(t: Tables) {
    && NoOverlap(t.bookings)
    && (forall i :: 0 <= i < |t.bookings| ==> t.bookings[i].status != Cancelled)
    && (forall k :: k in t.payments ==> t.payments[k].status != Failed)
    && (forall k :: k in t.payments && t.payments[k].provider == Paystack ==>
          PaystackPrefix <= t.payments[k].providerRef)
  }

  /**
   * `Payment.objects.update_or_create(booking=..., defaults={...})`: the
   * payment of booking `id` afterwards carries the new provider, reference and
   * amount; an existing one keeps its status (status is not among the
   * defaults), a new one starts `initiated`.  `raw` is the raw response when
   * the defaults hold one; otherwise an existing payment keeps its own and a
   * new one gets `{}`.
   */
  function Upsert(ps: map<int, Payment>, id: int, provider: Provider, ref: string, amount: int, raw: Option<Json>)
    : (r: map<int, Payment>)
    ensures r.Keys == ps.Keys + {id}
    ensures forall k :: k in ps && k != id ==> r[k] == ps[k]
    ensures r[id].booking == id && r[id].provider == provider
    ensures r[id].providerRef == ref && r[id].amount == amount
    ensures r[id].status == if id in ps then ps[id].status else DefaultPaymentStatus
    ensures r[id].rawResponse == if raw.Some? then raw.value
                                 else if id in ps then ps[id].rawResponse else DefaultRawResponse
  {
    if id in ps then
      ps[id := ps[id].(booking := id, provider := provider, providerRef := ref, amount := amount,
                       rawResponse := raw.GetOr(ps[id].rawResponse))]
    else
      ps[id := Payment(id, provider, ref, DefaultPaymentStatus, amount, raw.GetOr(DefaultRawResponse))]
  }

  /**
   * Re-initiating a payment for the same booking overwrites it rather than
   * adding a second one: two upserts leave what the second alone would have
   * left, whenever the second carries a raw response or both carry the same.
   */
  lemma UpsertOverwrites(ps: map<int, Payment>, id: int,
                         p1: Provider, ref1: string, a1: int, raw1: Option<Json>,
                         p2: Provider, ref2: string, a2: int, raw2: Option<Json>)
    requires raw2.Some? || raw1 == raw2
    ensures Upsert(Upsert(ps, id, p1, ref1, a1, raw1), id, p2, ref2, a2, raw2) == Upsert(ps, id, p2, ref2, a2, raw2)
  {
    var twice := Upsert(Upsert(ps, id, p1, ref1, a1, raw1), id, p2, ref2, a2, raw2);
    var once := Upsert(ps, id, p2, ref2, a2, raw2);
    assert twice.Keys == once.Keys;
    assert twice[id] == once[id];
  }

  /** An upsert for an existing booking keeps the schema's constraints and the ledger's invariant. */
  lemma UpsertKeepsInvariant(t: Tables, id: int, provider: Provider, ref: string, raw: Option<Json>)
    requires Integrity(t) && Invariant(t) && HasBooking(t, id)
    requires provider == Paystack ==> PaystackPrefix <= ref
    ensures var t' := t.(payments := Upsert(t.payments, id, provider, ref, BookingOf(t, id).totalAmount, raw));
            Integrity(t') && Invariant(t')
  {
  }

  /** `booking.status = "confirmed"; booking.save()` for booking `id`. */
  function Confirm(bs: seq<Booking>, id: int): (r: seq<Booking>)
    requires 1 <= id <= |bs|
    ensures |r| == |bs| && r[id - 1].status == Confirmed
    ensures forall i :: 0 <= i < |bs| ==> r[i] == bs[i].(status := r[i].status)
    ensures forall i :: 0 <= i < |bs| && i != id - 1 ==> r[i] == bs[i]
  {
    bs[id - 1 := bs[id - 1].(status := Confirmed)]
  }

  /** `payment.status = "succeeded"` (and the raw response, when given) and `save()`. */
  function Succeed(ps: map<int, Payment>, id: int, raw: Option<Json>): (r: map<int, Payment>)
    requires id in ps
    ensures r.Keys == ps.Keys && r[id].status == Succeeded
    ensures r[id] == ps[id].(status := Succeeded, rawResponse := raw.GetOr(ps[id].rawResponse))
    ensures forall k :: k in ps && k != id ==> r[k] == ps[k]
  {
    ps[id := ps[id].(status := Succeeded, rawResponse := raw.GetOr(ps[id].rawResponse))]
  }

  /**
   * `t'` is `t` after payment events: same halls, same rows, and only
   * statuses and raw responses changed, each booking status either kept or
   * set to confirmed and each payment status either kept or set to succeeded.
   */
  ghost predicate Advances(t: Tables, t': Tables) {
    && t'.halls == t.halls
    && |t'.bookings| == |t.bookings|
    && (forall i :: 0 <= i < |t.bookings| ==>
          && t'.bookings[i] == t.bookings[i].(status := t'.bookings[i].status)
          && (t'.bookings[i].status == t.bookings[i].status || t'.bookings[i].status == Confirmed))
    && t'.payments.Keys == t.payments.Keys
    && (forall k :: k in t.payments ==>
          && t'.payments[k] == t.payments[k].(status := t'.payments[k].status,
                                              rawResponse := t'.payments[k].rawResponse)
          && (t'.payments[k].status == t.payments[k].status || t'.payments[k].status == Succeeded))
  }

  /**
   * The payment handlers' shared step: booking `id` saved as confirmed and,
   * when it has a payment, that payment saved as succeeded, with `raw` as its
   * raw response when one is given.  It is a payment event in the sense of
   * `Advances` and touches no other row.
   */
  function Settled(t: Tables, id: int, raw: Option<Json>): (r: Tables)
    requires HasBooking(t, id)
    ensures Advances(t, r)
    ensures BookingOf(r, id).status == Confirmed
    ensures id in t.payments ==>
              r.payments[id] == t.payments[id].(status := Succeeded, rawResponse := raw.GetOr(t.payments[id].rawResponse))
    ensures forall i :: 0 <= i < |t.bookings| && i != id - 1 ==> r.bookings[i] == t.bookings[i]
    ensures forall k :: k in t.payments && k != id ==> r.payments[k] == t.payments[k]
  {
    Tables(t.halls, Confirm(t.bookings, id),
           if id in t.payments then Succeed(t.payments, id, raw) else t.payments)
  }

  /** Settling a booking that is already settled the same way changes nothing. */
  lemma SettledIdempotent(t: Tables, id: int, raw: Option<Json>)
    requires HasBooking(t, id)
    ensures Settled(Settled(t, id, raw), id, raw) == Settled(t, id, raw)
  {
    var once := Settled(t, id, raw);
    assert Confirm(once.bookings, id) == once.bookings;
    if id in t.payments {
      assert Succeed(once.payments, id, raw) == once.payments;
    }
  }

  /** Confirming bookings and completing payments keeps the constraints and the invariant. */
  lemma AdvancesKeepsIntegrity(t: Tables, t': Tables)
    requires Integrity(t) && Advances(t, t')
    ensures Integrity(t')
  {
    forall k | k in t'.payments ensures HasBooking(t', k) && t'.payments[k].booking == k {
      assert HasBooking(t, k);
    }
  }

  lemma AdvancesKeepsInvariant(t: Tables, t': Tables)
    requires Integrity(t) && Invariant(t) && Advances(t, t')
    ensures Integrity(t') && Invariant(t')
  {
    NoReactivationKeepsNoOverlap(t.bookings, t'.bookings);
  }
}
