# Hall rental booking ledger

This project is a Dafny model of the booking ledger of a small hall-rental
web application. Customers book a hall for an inclusive range of days. The
app refuses a booking that overlaps a pending or confirmed booking of the
same hall. It prices the stay at the hall's daily rate times the number of
days. The customer then pays through PayPal, Stripe or Paystack. A payment
row is created or updated for the booking. When a provider reports success
(PayPal's capture reply, Stripe's `checkout.session.completed` event or
Paystack's `charge.success` event), the payment becomes `succeeded` and the
booking becomes `confirmed`.

Layout, one module per file:

- `optional.dfy`: the `Option` type.
- `numerals.dfy`: Python's `str(n)` and `int(s)` on decimal text. Booking ids
  travel through the providers as this text.
- `json.dfy`: decoded JSON values and the way the handlers read them: dict
  `get` and `[]` (the last duplicate key wins), `[0]` on a list or a string,
  truthiness, and `int()`.
- `models.dfy`: the three tables (`Hall`, `Booking`, `Payment`), their status
  and provider choices, and their defaults.
- `availability.dfy`: date overlap, availability and pricing, and the rule
  that active bookings of a hall never overlap.
- `money.dfy`: `int(Decimal(total) * 100)`, the amount in minor units.
- `store.dfy`: the database as a value `Tables`, its integrity constraints,
  `update_or_create` on payments, and the step that confirms a booking and
  completes its payment.
- `providers.dfy`: what is sent to each provider, how replies and webhook
  events are read, and what each success path does to the tables.
- `ledger.dfy`: class `Ledger` with the three tables as fields and one method
  per request handler. Each method keeps the invariant `Valid()` and states
  its new state through the functions above.

Modelling choices:

- A date is an integer day number.
- An amount is an integer number of cents. A `DecimalField` with two decimal
  places holds exactly these.
- A booking's id is its position in `bookings` plus one, as the
  auto-increment key hands them out. Rows are never deleted.
- Payments are a map keyed by booking id. This models the one-to-one link
  from a payment to its booking.
- Network calls to the providers are inputs. The provider's decoded reply,
  the session id Stripe returns, and the random UUID hex string are
  parameters of the methods that use them.

Behaviour of the code worth knowing, which the model keeps:

- `create_booking` answers 400 "Invalid data", not 404, for an unknown hall.
  `Hall.objects.get` raises inside the handler's `try`
  (rentals/views.py:59-68).
- The Stripe and Paystack webhooks do not always answer 200. Reading
  `event["data"]["object"]` and `metadata.get` (views.py:177-179), and
  `event.get`/`data.get` (views.py:214-216), happen outside the `try`. A body
  of the wrong shape makes the handler raise. `StripeAcknowledges` and
  `PaystackAcknowledges` say when each webhook answers 200.
- The payment handlers confirm a booking whatever its status, including a
  booking that was cancelled by hand. `StripeReconfirmsCancelled` shows that
  this can leave two overlapping active bookings. The model keeps this
  behaviour.
- `Payment.objects.get(provider="paystack", provider_ref=ref)` succeeds only
  when exactly one payment matches. With no match or several matches, the
  `try` swallows the error and nothing changes.

## Model

| member | source | states |
|---|---|---|
| Availability.OverlapSymmetric | rentals/views.py:39-40 | whether two ranges overlap does not depend on their order |
| Availability.OverlapInclusive | rentals/views.py:39-40 | two ranges that share only an end day overlap |
| Availability.OverlapIffSharedDay | rentals/views.py:39-40 | two ranges with start before end overlap exactly when they have a day in common |
| Availability.Available | rentals/views.py:51-52 | a hall is available over a range exactly when no booking in the table blocks it: no pending or confirmed booking of that hall overlaps the range |
| Availability.AvailableIgnoresInactive | rentals/views.py:51 | a cancelled booking, or a booking of another hall, never changes availability |
| Availability.StayPriceCountsDays | rentals/views.py:65-66 | the total is the daily price once per day of the range, both ends included; a reversed range is not rejected and has a day count of zero or less |
| Availability.AppendAvailableKeepsNoOverlap | rentals/views.py:71-84 | appending a booking whose hall is available over its dates keeps active bookings of a hall free of overlaps |
| Availability.NoReactivationKeepsNoOverlap | rentals/views.py:183-184 | status changes that leave the set of active bookings unchanged or smaller keep active bookings free of overlaps |
| Numerals.NatToString | rentals/views.py:104 | `str(n)` of a booking id is a non-empty string of decimal digits with no leading zero |
| Numerals.ParseIntOfNatToString | rentals/views.py:129 | `int(str(n)) == n` for every non-negative n: the id written into a provider request reads back as the same id |
| Numerals.ParseIntOfIntToString | rentals/views.py:182 | `int(str(x)) == x` for every integer x, including negative ones |
| Json.Lookup | rentals/views.py:177-179 | a key is found exactly when some member has it, and then the value is that of the last member with the key |
| Json.ToIntOfIdText | rentals/views.py:182 | `int()` of a JSON string holding `str(id)` gives the id |
| Money.TruncDiv | rentals/views.py:161 | `int()` of a decimal rounds toward zero, for negative amounts too |
| Money.MinorUnitsOfCents | rentals/views.py:206 | `int(Decimal(total) * 100)` of an amount with two decimal places is exactly its number of cents |
| Store.Upsert | rentals/views.py:110-113 | `update_or_create` on the booking's payment: one row per booking; provider, reference and amount come from the defaults; an existing row keeps its status, a new row starts `initiated`; the raw response is the given one, otherwise the old one, otherwise `{}`; no other row changes |
| Store.UpsertOverwrites | rentals/views.py:199-202 | starting a second payment for the same booking overwrites the first rather than adding a row |
| Store.UpsertKeepsInvariant | rentals/views.py:167-170 | an upsert for an existing booking keeps the schema's constraints and the ledger invariant |
| Store.Confirm | rentals/views.py:183-184 | only the named booking changes, and only its status, which becomes `confirmed` |
| Store.Succeed | rentals/views.py:219-221 | only the named payment changes: its status becomes `succeeded`, and its raw response becomes the given one if any |
| Store.Settled | rentals/views.py:130-136 | the success step confirms the booking, completes its payment if it has one, and touches no other row; it changes only statuses and raw responses, and only forward |
| Store.SettledIdempotent | rentals/views.py:130-136 | repeating the success step for the same booking changes nothing |
| Store.AdvancesKeepsIntegrity | rentals/models.py:44 | changes to statuses and raw responses keep every payment linked to the booking under its own id |
| Store.AdvancesKeepsInvariant | rentals/views.py:183-187 | changes to statuses and raw responses that only confirm bookings and complete payments keep the ledger invariant |
| Providers.PayPalPurchaseUnit | rentals/views.py:101-107 | the order's `reference_id` reads back with `int()` as the booking id |
| Providers.StripeCheckoutRequest | rentals/views.py:157-165 | the line item's `unit_amount` equals the booking's total in cents, and `metadata.booking_id` reads back as the booking id |
| Providers.PaystackReference | rentals/views.py:198 | the reference is `PSK_` followed by a prefix of the hex string, at most 18 characters long |
| Providers.PaystackReferenceOfUuid | rentals/views.py:198 | for a 32-digit UUID hex string, the reference is 22 characters long: `PSK_` and then 18 hex digits |
| Providers.PayPalCaptureEffect | rentals/views.py:126-138 | a capture reply that names an existing booking with a payment completes the payment with the reply as raw response and confirms the booking; nothing else changes; any other reply changes nothing |
| Providers.CaptureReplyCarries | rentals/views.py:127-129 | a capture reply that echoes a purchase unit is read back to `int()` of that unit's `reference_id` |
| Providers.CaptureReplyNamesBooking | rentals/views.py:127-129 | the capture reply for the order created for booking `id` names booking `id` |
| Providers.PayPalCaptureConfirmsOrderedBooking | rentals/views.py:126-136 | round trip: capturing the order created for a booking that has a payment confirms the booking and completes the payment |
| Providers.PayPalCaptureIdempotent | rentals/views.py:126-138 | handling the same capture reply twice leaves the tables as handling it once |
| Providers.StripeWebhookEffect | rentals/views.py:177-189 | a completion event whose booking id reads as an existing booking confirms that booking, even when it has no payment; a payment becomes `succeeded` and keeps its raw response; every other event changes nothing |
| Providers.CompletedEventCarries | rentals/views.py:177-180 | a completion event with a non-empty booking id reaches the guarded update with that id |
| Providers.StripeConfirmSettles | rentals/views.py:180-187 | an event that reaches the update with `str(id)` of an existing booking performs the success step for it, without a raw response |
| Providers.StripeCompletionConfirmsBooking | rentals/views.py:177-187 | round trip: the completion event for the session created for a booking is acknowledged, confirms the booking, and completes its payment if it has one |
| Providers.StripeWebhookIdempotent | rentals/views.py:174-190 | delivering the same Stripe event twice leaves the tables as delivering it once |
| Providers.StripeReconfirmsCancelled | rentals/views.py:182-184 | a cancelled booking whose dates another active booking of the hall holds, made before or after it, is confirmed again by its completion event, and two active bookings of the hall then overlap |
| Providers.SettlingBlockedBreaksNoOverlap | rentals/views.py:183-184 | confirming a booking whose dates any other active booking of the hall holds breaks the no-overlap rule |
| Providers.PaystackMatches | rentals/views.py:218 | the list holds exactly the ids, in increasing order, of the Paystack payments whose reference equals the event's |
| Providers.PaymentKeysAreBookings | rentals/models.py:44 | every payment belongs to a booking that exists |
| Providers.PaystackMatchIsUnique | rentals/views.py:218 | the lookup finds payment `k` exactly when `k` is the only Paystack payment with the reference |
| Providers.PaystackWebhookEffect | rentals/views.py:214-226 | a `charge.success` event whose reference only one Paystack payment carries completes that payment with the event as raw response and confirms its booking; nothing else changes; no match, several matches or another event change nothing |
| Providers.PaystackChargeConfirmsBooking | rentals/views.py:214-224 | round trip: when a payment is the only Paystack payment with its reference, the charge event for that reference is acknowledged, completes the payment and confirms its booking |
| Providers.MatchesUnchanged | rentals/views.py:218 | two payment tables in which a reference matches the same bookings give the same match list |
| Providers.AdvancesKeepsMatches | rentals/views.py:218 | status and raw-response changes do not change which payments a reference matches |
| Providers.PaystackWebhookIdempotent | rentals/views.py:211-227 | delivering the same Paystack event twice leaves the tables as delivering it once |
| Ledger.Ledger.constructor | rentals/models.py:3-8 | a store with the given halls, no bookings and no payments, which satisfies the invariant |
| Ledger.Ledger.CheckAvailability | rentals/views.py:50-53 | unknown hall gives 404; otherwise `available` is true exactly when no pending or confirmed booking of the hall overlaps the range |
| Ledger.Ledger.CreateBooking | rentals/views.py:59-85 | 400 exactly for an unknown hall; 409 exactly when the availability check refuses, and nothing is stored; otherwise one pending booking is appended with the next id and the inclusive-day price; the invariant is kept |
| Ledger.Ledger.PayPalCreateOrder | rentals/views.py:97-114 | 404 for an unknown booking; otherwise the booking's payment is upserted with PayPal's order id (`""` when missing) and the reply as raw response; a reply the handler cannot read raises and stores nothing |
| Ledger.Ledger.Settle | rentals/views.py:130-136 | performs the success step for an existing booking and keeps the invariant |
| Ledger.Ledger.PayPalCaptureOrder | rentals/views.py:119-139 | the new state is `PayPalCaptureEffect` of the old one |
| Ledger.Ledger.StripeCreateCheckoutSession | rentals/views.py:150-171 | 404 for an unknown booking; otherwise the booking's payment is upserted with the session id and `{"session": id}` as raw response |
| Ledger.Ledger.StripeWebhook | rentals/views.py:176-190 | answers 200 exactly when no exception escapes; the new state is `StripeWebhookEffect` of the old one |
| Ledger.Ledger.PaystackInitialize | rentals/views.py:196-208 | 404 for an unknown booking; otherwise mints the `PSK_` reference, upserts the payment without touching its raw response, and answers with the customer's e-mail and the total in cents |
| Ledger.Ledger.PaystackWebhook | rentals/views.py:213-227 | answers 200 exactly when no exception escapes; the new state is `PaystackWebhookEffect` of the old one |

Every `Ledger` method keeps `Valid()`. `Valid()` asserts these facts:

- every price fits the decimal column;
- every booking's hall exists;
- every payment belongs to the booking under its own id;
- no two active bookings of a hall overlap;
- no booking is cancelled and no payment has failed (no handler sets either);
- every Paystack reference starts with `PSK_`.

`BookingWalkthrough` walks through one hall priced at 100.00 a day:

- days 1 to 3 book for 300.00;
- days 3 to 5 then conflict;
- days 4 to 5 book for 200.00;
- a completion event for an unknown booking is acknowledged and changes
  nothing.

## Left out

- HTTP plumbing is not modelled: method checks (400 "POST required"), reading
  and decoding request bodies, query parameters, and the JSON responses
  themselves. A reply stands in for each answer.
- `datetime.strptime` parsing of dates (400 "Invalid input" / "Invalid data"
  on bad dates) is not modelled; dates arrive as day numbers.
- Missing keys in the booking request payload are not modelled; the
  parameters of `CreateBooking` are the payload's fields.
- The calls to PayPal (`_paypal_access_token`, order creation, capture),
  Stripe (`Session.create`) and the UUID generator are not modelled. Their
  results are method parameters.
- `get_object_or_404` with a booking id sent as text is not modelled; booking
  ids arrive as integers.
- Concurrency is not modelled: two requests racing between the availability
  check and the insert could both succeed in the real app. The model runs
  one handler at a time.
- JSON floats are not modelled, nor `int()` of a float, because no handler's
  success path needs them.
- `int()` accepts non-ASCII digits and whitespace, and Python 3.11 limits
  conversions to 4300 digits. The model takes ASCII only and has no length
  limit.
- Providers.OrderRef: a PayPal `id` that is an array or an object is treated
  as making the handler raise. In the app, Django would store its text form.
- Providers.PaystackDecision: a reference Django could match after converting
  a non-string value to text (a number, say) is treated as matching no
  payment.
- The 10-digit bound of the decimal columns is recorded for hall prices
  only (`FitsMoney`); a total or amount beyond it is not modelled. The app
  itself validates no column: `create()` and `save()` never call
  `full_clean`, so `max_length`, `EmailField` and `URLField` are not checked
  and the model does not check them either.
- `created_at` timestamps, `__str__`, `home`, `halls_api` and the admin site
  are not modelled. So are cancellations and hall edits made by hand, except
  as the starting state of `StripeReconfirmsCancelled`.
- `paypal_webhook` does nothing but answer 200, so it is not modelled.
- Signature checks on webhooks are absent in the code and so are not
  modelled.
- The texts of the requests are not modelled beyond what the model relies
  on: success and cancel URLs, product names, currency, and the `amount.value`
  text of the PayPal order.
- config/settings.py and rentals/urls.py are not part of this model.
