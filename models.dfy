/**
 * The three record shapes of the rental app: halls, bookings and payments,
 * with their status and provider choices.  Money is a whole number of cents
 * (every amount field is a decimal with two places); dates are day numbers.
 * Record ids are not fields: halls are keyed by id, a booking's id is its
 * position in the booking table, and a payment is keyed by its booking's id.
 */
module Models {
  import opened Json

  datatype BookingStatus = Pending | Confirmed | Cancelled

  datatype PaymentStatus = Initiated | Succeeded | Failed

  datatype Provider = PayPal | Stripe | Paystack

  /** The status a new booking gets when none is given. */
  const DefaultBookingStatus: BookingStatus := Pending

  /** The status a new payment gets when none is given. */
  const DefaultPaymentStatus: PaymentStatus := Initiated

  /** The raw response a new payment gets when none is given (`default=dict`). */
  const DefaultRawResponse: Json := EmptyObject

  /**
   * A decimal column with at most ten digits, two of them after the point,
   * held as cents: the magnitude stays below 10^10 cents.
   */
  const MaxCents: int := 10_000_000_000

  predicate FitsMoney(cents: int) {
    -MaxCents < cents < MaxCents
  }

  /** A rentable venue; its capacity is a non-negative integer. */
  datatype Hall = Hall(
    name: string,
    description: string,
    capacity: nat,
    pricePerDay: int,
    imageUrl: string)

  /** A reservation of hall `hall` for the inclusive day range `startDate..endDate`. */
  datatype Booking = Booking(
    hall: int,
    customerName: string,
    customerEmail: string,
    startDate: int,
    endDate: int,
    totalAmount: int,
    status: BookingStatus)

  /** The payment attempt of booking `booking`, with a provider's opaque reference. */
  datatype Payment = Payment(
    booking: int,
    provider: Provider,
    providerRef: string,
    status: PaymentStatus,
    amount: int,
    rawResponse: Json)
}
