/** The database of utils/db/schema.ts as a mutable store holding one map
    per table, changed in place by the statements the application issues. Every
    statement is proved to have the effect module Tables specifies, and to
    keep the integrity rules, so they hold in every reachable state. */
module Storage {
  import opened Wrappers
  import opened SchemaEnums
  import opened SchemaRows
  import opened Tables
  import Integrity
  import Deletion
  import StatusUpdate

  class Store {
    /** The contents of every table: one map per table from row id to row. */
    var tables: Db

    /** The schema's integrity rules hold. */
    predicate Valid()
      reads this
    {
      Consistent(tables)
    }

    /** A freshly created database: every table empty. */
    constructor ()
      ensures tables == Empty && Valid()
    {
      tables := Empty;
    }

    /** INSERT of one converted row under `id`: checked against every
        constraint, then stored in its table, or refused with the first
        violated constraint and nothing stored. */
    method Insert(id: Uuid, r: Row) returns (err: Option<DbError>)
      requires Valid()
      modifies this
      ensures Valid()
      ensures InsertRow(old(tables), id, r).Success? ==> err == None && tables == InsertRow(old(tables), id, r).value
      ensures InsertRow(old(tables), id, r).Failure? ==> err == Some(InsertRow(old(tables), id, r).error) && tables == old(tables)
    {
      Integrity.InsertRowIff(tables, id, r);
      err := Violation(tables, id, r);
      if err.Some? {
        return;
      }
      match r
      case UserRow(x) => tables := tables.(users := tables.users[id := x]);
      case SubscriptionRow(x) => tables := tables.(subscriptions := tables.subscriptions[id := x]);
      case UsageMetricRow(x) => tables := tables.(usageMetrics := tables.usageMetrics[id := x]);
      case CompanyRow(x) => tables := tables.(companies := tables.companies[id := x]);
      case CompanyContactRow(x) => tables := tables.(contacts := tables.contacts[id := x]);
      case CompanyListRow(x) => tables := tables.(lists := tables.lists[id := x]);
      case CompanyListItemRow(x) => tables := tables.(listItems := tables.listItems[id := x]);
      case CampaignRow(x) => tables := tables.(campaigns := tables.campaigns[id := x]);
      case SalesActivityRow(x) => tables := tables.(activities := tables.activities[id := x]);
      case EmailActivityRow(x) => tables := tables.(emails := tables.emails[id := x]);
      case FormActivityRow(x) => tables := tables.(forms := tables.forms[id := x]);
      case AiTemplateRow(x) => tables := tables.(templates := tables.templates[id := x]);
      case AiGenerationRow(x) => tables := tables.(generations := tables.generations[id := x]);
      case AuditLogRow(x) => tables := tables.(auditLogs := tables.auditLogs[id := x]);
      case SystemLogRow(x) => tables := tables.(systemLogs := tables.systemLogs[id := x]);
    }

    /** A multi-row INSERT: the rows are checked one after the other against
        the tables as the earlier rows left them, and the statement stores
        all of them or, at the first refused row, none. */
    method InsertMany(rows: seq<(Uuid, Row)>) returns (err: Option<DbError>)
      requires Valid()
      modifies this
      ensures Valid()
      ensures InsertRows(old(tables), rows).Success? ==> err == None && tables == InsertRows(old(tables), rows).value
      ensures InsertRows(old(tables), rows).Failure? ==> err == Some(InsertRows(old(tables), rows).error) && tables == old(tables)
    {
      var pending := tables;
      var i := 0;
      while i < |rows|
        invariant 0 <= i <= |rows|
        invariant Consistent(pending)
        invariant InsertRows(tables, rows) == InsertRows(pending, rows[i..])
        invariant tables == old(tables)
      {
        assert rows[i..][0] == rows[i] && rows[i..][1..] == rows[i + 1..];
        Integrity.InsertRowIff(pending, rows[i].0, rows[i].1);
        var step := InsertRow(pending, rows[i].0, rows[i].1);
        if step.Failure? {
          return Some(step.error);
        }
        pending := step.value;
        i := i + 1;
      }
      tables := pending;
      return None;
    }

    /** DELETE FROM t WHERE id = `id`, with the schema's ON DELETE actions:
        refused by ON DELETE RESTRICT, or the row removed with everything
        that cascades from it and SET NULL applied to the references that
        allow it. */
    method Delete(t: Table, id: Uuid, restrictFirst: bool) returns (err: Option<DbError>)
      requires Valid()
      modifies this
      ensures Valid()
      ensures Tables.Delete(old(tables), t, id, restrictFirst).Success? ==>
        err == None && tables == Tables.Delete(old(tables), t, id, restrictFirst).value
      ensures Tables.Delete(old(tables), t, id, restrictFirst).Failure? ==>
        err == Some(Tables.Delete(old(tables), t, id, restrictFirst).error) && tables == old(tables)
    {
      Deletion.DeletePreservesConsistent(tables, t, id, restrictFirst);
      var d := DoomedBy(tables, t, id);
      if Blocked(tables, d) || (restrictFirst && Contested(tables, d)) {
        return Some(RestrictViolation(CampaignListConstraint));
      }
      tables := Cascade(tables, d);
      return None;
    }

    /** UPDATE subscriptions SET status = ..., updated_at = `now` WHERE
        stripe_customer_id = `customer`; a refused statement leaves the
        table as it was. */
    method UpdateSubscriptionStatus(customer: string, write: StatusWrite, now: Timestamp) returns (err: Option<DbError>)
      requires Valid()
      modifies this
      ensures Valid()
      ensures UpdateStatus(old(tables), customer, write, now).Success? ==>
        err == None && tables == UpdateStatus(old(tables), customer, write, now).value
      ensures UpdateStatus(old(tables), customer, write, now).Failure? ==>
        err == Some(UpdateStatus(old(tables), customer, write, now).error) && tables == old(tables)
    {
      StatusUpdate.UpdatePreservesConsistent(tables, customer, write, now);
      var r := RunStatusUpdate(tables, customer, write, now);
      if r.Failure? {
        return Some(r.error);
      }
      tables := r.value;
      return None;
    }
  }

  /** The UPDATE run against the tables' contents: the status text is
      converted first, a NULL status is refused if some row would receive
      it, and otherwise the matching rows are restamped. */
  method RunStatusUpdate(db: Db, customer: string, write: StatusWrite, now: Timestamp) returns (r: Result<Db, DbError>)
    ensures r == UpdateStatus(db, customer, write, now)
  {
    match write
    case Unset =>
      var updated := RestampRows(db.subscriptions, customer, None, now);
      r := Success(db.(subscriptions := updated));
    case SetNull =>
      var found := AnyRowMatches(db.subscriptions, customer);
      r := if found then Failure(NotNullViolation(Column("subscriptions", "status"))) else Success(db);
    case SetText(text) =>
      var status := ParseSubscriptionStatus(text);
      if status.None? {
        return Failure(InvalidEnumValue("subscription_status", text));
      }
      var updated := RestampRows(db.subscriptions, customer, status, now);
      r := Success(db.(subscriptions := updated));
  }

  /** The rows of `customer` restamped one by one; every other row is kept. */
  method RestampRows(rows: map<Uuid, Subscription>, customer: string, status: Option<SubscriptionStatus>, now: Timestamp)
    returns (updated: map<Uuid, Subscription>)
    ensures updated == Restamped(rows, customer, status, now)
  {
    updated := rows;
    var remaining := rows.Keys;
    while remaining != {}
      invariant remaining <= rows.Keys && updated.Keys == rows.Keys
      invariant forall k :: k in rows && k !in remaining ==> updated[k] == Restamp(rows[k], customer, status, now)
      invariant forall k :: k in remaining ==> updated[k] == rows[k]
      decreases remaining
    {
      var k :| k in remaining;
      if rows[k].stripeCustomerId == customer {
        updated := updated[k := Restamp(rows[k], customer, status, now)];
      }
      remaining := remaining - {k};
    }
  }

  /** Scans the rows for one of `customer`. */
  method AnyRowMatches(rows: map<Uuid, Subscription>, customer: string) returns (found: bool)
    ensures found <==> exists k :: k in rows && rows[k].stripeCustomerId == customer
  {
    var remaining := rows.Keys;
    while remaining != {}
      invariant remaining <= rows.Keys
      invariant forall k :: k in rows && k !in remaining ==> rows[k].stripeCustomerId != customer
      decreases remaining
    {
      var k :| k in remaining;
      if rows[k].stripeCustomerId == customer {
        return true;
      }
      remaining := remaining - {k};
    }
    return false;
  }
}
