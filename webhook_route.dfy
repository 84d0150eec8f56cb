/** app/webhook/stripe/route.ts: `POST`, the billing webhook as a Next.js
    route handler. Only the error response is returned inside the `catch`;
    the success response follows the `try` statement. */
module StripeWebhookRoute {
  import opened Wrappers
  import opened SchemaRows
  import opened Tables
  import opened JsText
  import opened StripeEvent
  import opened Storage

  method Post(store: Store, body: Payload, now: Timestamp) returns (resp: Response)
    requires store.Valid()
    modifies store
    ensures store.Valid()
    ensures (store.tables, resp) == Handled(old(store.tables), body, now)
  {
    // try
    var thrown: Option<string> := None;
    match body {
      case NotJson(m) =>
        thrown := Some(m);
      case JsonNull =>
        thrown := Some(NullBodyMessage);
      case Event(customer, write) =>
        if customer.Some? && Truthy(customer.value) {
          var err := store.UpdateSubscriptionStatus(customer.value, write, now);
          if err.Some? {
            thrown := Some(Message(err.value));
          }
        }
    }
    // catch
    if thrown.Some? {
      return WebhookError(thrown.value);
    }
    return Response(200, "Success");
  }
}
