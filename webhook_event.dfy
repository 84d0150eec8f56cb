/** The billing webhook's request body and response, and the outcome both
    handlers (functions/webhook/stripe.ts and app/webhook/stripe/route.ts)
    produce: the subscription status update guarded by the event's
    `data.object.customer`, with every thrown error turned into a 400. */
module StripeEvent {
  import opened Wrappers
  import opened SchemaEnums
  import opened SchemaRows
  import opened Tables
  import opened JsText
  import StatusUpdate

  /** The request body as the handler sees it after `request.json()`. */
  datatype Payload =
      /** The body is not JSON; parsing throws with this message. */
    | NotJson(message: string)
      /** The body is the JSON value `null`; reading `.data` of it throws. */
    | JsonNull
      /** Any other JSON value: what `data.object.customer` and
          `data.object.status` hold (None when absent, or when `data` or
          `data.object` is missing or not an object). */
    | Event(customer: Option<string>, status: StatusWrite)

  datatype Response = Response(status: int, body: string)

  const NullBodyMessage := "Cannot read properties of null (reading 'data')"

  function Ok(): Response { Response(200, "Success") }

  function WebhookError(message: string): (r: Response)
    ensures r.status == 400 && r.body == "Webhook error: " + message
  {
    Response(400, "Webhook error: " + message)
  }

  /** The event asks for an update: its customer is a non-empty string. */
  predicate Updates(p: Payload) {
    p.Event? && p.customer.Some? && Truthy(p.customer.value)
  }

  /** The database afterwards and the response, for a request handled at
      time `now`. */
  function Handled(db: Db, p: Payload, now: Timestamp): (Db, Response) {
    match p
    case NotJson(m) => (db, WebhookError(m))
    case JsonNull => (db, WebhookError(NullBodyMessage))
    case Event(customer, write) =>
      if !Updates(p) then (db, Ok())
      else match UpdateStatus(db, customer.value, write, now)
        case Success(db') => (db', Ok())
        case Failure(e) => (db, WebhookError(Message(e)))
  }

  // ---------------------------------------------------------------------
  // What a handled request guarantees

  /** Without a customer nothing changes and the answer is 200 'Success'. */
  lemma NoCustomerNoChange(db: Db, p: Payload, now: Timestamp)
    requires p.Event? && !Updates(p)
    ensures Handled(db, p, now) == (db, Response(200, "Success"))
  {
  }

  /** Any thrown error leaves the database as it was and answers 400 with
      'Webhook error: ' and the error's message; the success answer is
      given exactly when nothing was thrown. */
  lemma ErrorsAnswer400(db: Db, p: Payload, now: Timestamp)
    ensures var (db', resp) := Handled(db, p, now);
      && (resp.status == 200 || resp.status == 400)
      && (resp.status == 400 ==> db' == db && "Webhook error: " <= resp.body)
      && (resp.status == 200 <==> p.Event? && (Updates(p) ==> UpdateStatus(db, p.customer.value, p.status, now).Success?))
      && (p.NotJson? ==> resp.body == "Webhook error: " + p.message)
      && (Updates(p) && UpdateStatus(db, p.customer.value, p.status, now).Failure? ==>
            resp.body == "Webhook error: " + Message(UpdateStatus(db, p.customer.value, p.status, now).error))
  {
    var (db', resp) := Handled(db, p, now);
    if resp.status == 400 {
      var m :| resp.body == "Webhook error: " + m;
      assert resp.body[..|"Webhook error: "|] == "Webhook error: ";
    }
  }

  /** A valid status text reaches every subscription of the customer, and
      only those; each keeps all other columns apart from updated_at. */
  lemma StatusReachesCustomerRows(db: Db, customer: string, text: string, now: Timestamp, s: SubscriptionStatus)
    requires Truthy(customer) && s.Label() == text
    ensures var (db', resp) := Handled(db, Event(Some(customer), SetText(text)), now);
      && resp == Response(200, "Success")
      && db'.subscriptions.Keys == db.subscriptions.Keys
      && db' == db.(subscriptions := db'.subscriptions)
      && forall k :: k in db.subscriptions ==>
           if db.subscriptions[k].stripeCustomerId == customer
           then db'.subscriptions[k] == db.subscriptions[k].(status := s, updatedAt := Some(now))
           else db'.subscriptions[k] == db.subscriptions[k]
  {
    StatusUpdate.SetTextWritesMatchedRows(db, customer, text, now);
    LabelsDistinct(s, text);
  }

  lemma LabelsDistinct(s: SubscriptionStatus, text: string)
    requires s.Label() == text
    ensures forall t: SubscriptionStatus :: t.Label() == text ==> t == s
  {
    var p := ParseSubscriptionStatus(text);
    assert p == Some(s);
  }

  /** A status text outside subscription_status is refused by the database
      whatever the rows, and the answer carries PostgreSQL's message. */
  lemma UnknownStatusRefused(db: Db, customer: string, text: string, now: Timestamp)
    requires Truthy(customer) && forall s: SubscriptionStatus :: s.Label() != text
    ensures Handled(db, Event(Some(customer), SetText(text)), now) ==
      (db, Response(400, "Webhook error: " + Message(InvalidEnumValue("subscription_status", text))))
  {
    StatusUpdate.SetTextWritesMatchedRows(db, customer, text, now);
  }

  /** Handling the same event twice leaves what handling it once at the
      later time leaves: only updated_at moves. */
  lemma HandledIdempotent(db: Db, p: Payload, now: Timestamp, later: Timestamp)
    ensures Handled(Handled(db, p, now).0, p, later) == Handled(db, p, later)
  {
    if Updates(p) && UpdateStatus(db, p.customer.value, p.status, now).Success? {
      StatusUpdate.UpdateIdempotent(db, p.customer.value, p.status, now, later);
    }
  }

  /** A handled request keeps the integrity rules. */
  lemma HandledPreservesConsistent(db: Db, p: Payload, now: Timestamp)
    requires Consistent(db)
    ensures Consistent(Handled(db, p, now).0)
  {
    if Updates(p) {
      StatusUpdate.UpdatePreservesConsistent(db, p.customer.value, p.status, now);
    }
  }
}
