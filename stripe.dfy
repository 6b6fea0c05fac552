/**
 * The Stripe client the checkout and webhook handlers use, as an external service:
 * creating a checkout session, and `webhooks.constructEvent`, which checks a
 * payload's signature against the webhook secret and parses the event.
 */
module Stripe {
  import opened Wrappers
  import opened Js
  import Services

  /** The fields of a checkout session the webhook reads. */
  datatype CheckoutSession = CheckoutSession(id: Value, metadata: Value, customerDetails: Value, customerEmail: Value)

  /** A verified event: its `type` and its `data.object`. */
  datatype Event = Event(eventType: string, session: CheckoutSession)

  datatype StripeCall =
    | CreateCheckoutSession(params: Value)
    | ConstructEvent(payload: seq<Byte>, signature: string, secret: Option<string>)

  datatype StripeResult = SessionCreated(url: Value) | EventConstructed(event: Event)

  type StripeReply = Result<StripeResult, Error>

  type StripeClient = Services.Service<StripeCall, StripeReply>

  type StripeOracle = (seq<StripeCall>, StripeCall) -> StripeReply

  /** `session.url`. */
  function SessionUrl(r: StripeResult): Value {
    if r.SessionCreated? then r.url else Undefined
  }
}
