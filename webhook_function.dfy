/** functions/webhook/stripe.ts: `onRequestPost`, the billing webhook as a
    Cloudflare Pages function. The success response is returned from inside
    the `try` block, after the update. */
module StripeWebhookFunction {
  import opened Wrappers
  import opened SchemaRows
  import opened Tables
  import opened JsText
  import opened StripeEvent
  import opened Storage

  method OnRequestPost(store: Store, body: Payload, now: Timestamp) returns (resp: Response)
    requires store.Valid()
    modifies store
    ensures store.Valid()
    ensures (store.tables, resp) == Handled(old(store.tables), body, now)
  {
    // try
    var thrown: Option<string> := None;
    match body {
      case NotJson(m) =>
        thrown := Some(m);
      case JsonNull =>
        thrown := Some(NullBodyMessage);
      case Event(customer, write) =>
        if customer.Some? && Truthy(customer.value) {
          var err := store.UpdateSubscriptionStatus(customer.value, write, now);
          if err.Some? {
            thrown := Some(Message(err.value));
          }
        }
        if thrown.None? {
          return Response(200, "Success");
        }
    }
    // catch
    return WebhookError(thrown.value);
  }
}
