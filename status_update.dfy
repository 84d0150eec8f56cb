/** What the subscription status UPDATE issued by the billing webhook does
    to the subscriptions table (utils/db/schema.ts:48-64): which rows it
    writes, which columns it writes, when it is refused, and that it keeps
    the integrity rules. */
module StatusUpdate {
  import opened Wrappers
  import opened SchemaEnums
  import opened SchemaRows
  import opened Tables

  /** Some subscription row carries this Stripe customer id. */
  predicate AnyMatch(db: Db, customer: string) {
    exists k :: k in db.subscriptions && db.subscriptions[k].stripeCustomerId == customer
  }

  /** Text status: accepted exactly when it is a subscription_status label;
      every row of the customer then holds that status and the new
      timestamp, every other row is unchanged, and no other table changes. */
  lemma SetTextWritesMatchedRows(db: Db, customer: string, text: string, now: Timestamp)
    ensures var r := UpdateStatus(db, customer, SetText(text), now);
      && (r.Success? <==> exists s: SubscriptionStatus :: s.Label() == text)
      && (r.Failure? ==> r.error == InvalidEnumValue("subscription_status", text))
      && (r.Success? ==>
            && r.value == db.(subscriptions := r.value.subscriptions)
            && r.value.subscriptions.Keys == db.subscriptions.Keys
            && forall k :: k in db.subscriptions ==>
                 if db.subscriptions[k].stripeCustomerId == customer
                 then r.value.subscriptions[k].status.Label() == text
                      && r.value.subscriptions[k] == db.subscriptions[k].(status := r.value.subscriptions[k].status, updatedAt := Some(now))
                 else r.value.subscriptions[k] == db.subscriptions[k])
  {
    var p := ParseSubscriptionStatus(text);
    if p.Some? {
      assert p.value.Label() == text;
    }
  }

  /** No status in the payload: the query builder drops the key, so only the
      timestamp of the customer's rows is written. */
  lemma UnsetWritesTimestampOnly(db: Db, customer: string, now: Timestamp)
    ensures var r := UpdateStatus(db, customer, Unset, now);
      && r.Success?
      && r.value == db.(subscriptions := r.value.subscriptions)
      && r.value.subscriptions.Keys == db.subscriptions.Keys
      && forall k :: k in db.subscriptions ==>
           r.value.subscriptions[k] ==
             if db.subscriptions[k].stripeCustomerId == customer then db.subscriptions[k].(updatedAt := Some(now))
             else db.subscriptions[k]
  {
  }

  /** A NULL status breaks the NOT NULL rule of subscriptions.status, but
      only when some row is actually updated. */
  lemma SetNullRefusedOnMatch(db: Db, customer: string, now: Timestamp)
    ensures var r := UpdateStatus(db, customer, SetNull, now);
      && (r.Failure? <==> AnyMatch(db, customer))
      && (r.Failure? ==> r.error == NotNullViolation(Column("subscriptions", "status")))
      && (r.Success? ==> r.value == db)
  {
  }

  /** Only the status and updated_at columns of a row are ever written. */
  predicate SameButStatus(a: Subscription, b: Subscription) {
    a.(status := b.status, updatedAt := b.updatedAt) == b
  }

  lemma UpdateTouchesStatusAndTimestamp(db: Db, customer: string, write: StatusWrite, now: Timestamp)
    ensures var r := UpdateStatus(db, customer, write, now);
      r.Success? ==>
        && r.value.subscriptions.Keys == db.subscriptions.Keys
        && forall k :: k in db.subscriptions ==> SameButStatus(db.subscriptions[k], r.value.subscriptions[k])
  {
  }

  /** Repeating the update changes nothing but the timestamp: running it
      again at `later` gives what one run at `later` gives. */
  lemma UpdateIdempotent(db: Db, customer: string, write: StatusWrite, now: Timestamp, later: Timestamp)
    requires UpdateStatus(db, customer, write, now).Success?
    ensures UpdateStatus(UpdateStatus(db, customer, write, now).value, customer, write, later) == UpdateStatus(db, customer, write, later)
  {
    var once := UpdateStatus(db, customer, write, now).value;
    match write
    case Unset =>
      assert Restamped(once.subscriptions, customer, None, later) == Restamped(db.subscriptions, customer, None, later);
    case SetNull =>
    case SetText(t) =>
      var s := ParseSubscriptionStatus(t).value;
      assert Restamped(once.subscriptions, customer, Some(s), later) == Restamped(db.subscriptions, customer, Some(s), later);
  }

  /** The update keeps every integrity rule: it writes neither a reference
      nor a unique column. */
  lemma UpdatePreservesConsistent(db: Db, customer: string, write: StatusWrite, now: Timestamp)
    requires Consistent(db)
    ensures UpdateStatus(db, customer, write, now).Success? ==> Consistent(UpdateStatus(db, customer, write, now).value)
  {
    var r := UpdateStatus(db, customer, write, now);
    if r.Success? {
      UpdateTouchesStatusAndTimestamp(db, customer, write, now);
      var m := r.value.subscriptions;
      assert SubscriptionOwnersExist(m, db.users) by {
        forall k | k in m ensures m[k].userId in db.users {
          assert SameButStatus(db.subscriptions[k], m[k]);
        }
      }
      assert SubscriptionsUnique(m) by {
        forall a, b | a in m && b in m && a != b && m[a].stripeSubscriptionId.Some?
          ensures m[a].stripeSubscriptionId != m[b].stripeSubscriptionId
        {
          assert SameButStatus(db.subscriptions[a], m[a]) && SameButStatus(db.subscriptions[b], m[b]);
        }
      }
    }
  }
}
