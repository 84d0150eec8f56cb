/** The `createCompanyList` server action (app/dashboard/lists/actions.ts):
    checks the signed-in user and the required form fields, inserts the list,
    parses the companies JSON and inserts every company under the user.
    The two INSERTs are separate statements, so a failure after the first
    leaves the list behind; every failure inside the try block surfaces as
    one generic error. */
module ListActions {
  import opened Wrappers
  import opened SchemaRows
  import opened Tables
  import opened WebForm
  import Integrity
  import Storage

  const NotAuthenticated := "認証されていません"
  const MissingFields := "必須項目が入力されていません"
  const CreateFailed := "リストの作成に失敗しました"

  /** The user the auth session reports; `id` is the auth user's id. */
  datatype AuthUser = AuthUser(id: Uuid)

  /** One element of the parsed companies array: its own `id` key, if any,
      and the company columns it carries (keys that are not columns of
      companies, such as the added `listId`, are dropped by the query
      builder). */
  datatype CompanyInput = CompanyInput(id: Option<Uuid>, columns: NewCompany)

  /** What `JSON.parse(companiesData)` yields, as far as the action can tell. */
  datatype Parsed =
      /** Not JSON: JSON.parse throws. */
    | SyntaxError
      /** `null`: reading `.length` of it throws. */
    | NullValue
      /** A value that is not an array and whose `length` is absent or not
          above 0 (a number, a boolean, an empty string, most objects). */
    | NoPositiveLength
      /** A value that is not an array but whose `length` is above 0 (a
          non-empty string, an object with a length key): it has no `map`. */
    | LengthWithoutMap
      /** An array. */
    | CompanyArray(items: seq<CompanyInput>)

  /** How the action ends: an Error thrown to the caller, or the redirect to
      /dashboard/lists/<listId>. */
  datatype Outcome = Threw(message: string) | Redirected(listId: Uuid)

  /** How the try block ends: an error was raised, or it ran to its end. */
  datatype TryEnd = Raised | Completed

  /** The record inserted into company_lists. */
  function ListRecord(userId: Uuid, name: FormValue, description: Option<FormValue>): (n: NewCompanyList)
    ensures n.userId == Some(userId) && n.name == Some(Stringify(name))
    ensures n.description == (if description.Some? then Some(Stringify(description.value)) else None)
    ensures n.totalCompanies == Omitted && n.isPublic == Omitted && n.createdAt == Omitted
  {
    NewCompanyList(Some(userId), Some(Stringify(name)),
                   if description.Some? then Some(Stringify(description.value)) else None,
                   Omitted, None, Omitted, Omitted, Omitted, None)
  }

  /** `{...company, listId, userId}` converted to a companies row. */
  function OwnedCompany(c: CompanyInput, userId: Uuid, now: Timestamp): Result<Company, DbError> {
    MaterializeCompany(c.columns.(userId := Some(userId)), now)
  }

  /** Every element converted, or the first conversion error. */
  function ConvertAll<A, B>(items: seq<A>, convert: A -> Result<B, DbError>): (r: Result<seq<B>, DbError>)
    ensures r.Success? <==> forall i :: 0 <= i < |items| ==> convert(items[i]).Success?
    ensures r.Success? ==> |r.value| == |items|
    ensures r.Success? ==> forall i :: 0 <= i < |items| ==> r.value[i] == convert(items[i]).value
    decreases |items|
  {
    if items == [] then Success([])
    else
      var c :- convert(items[0]);
      var rest :- ConvertAll(items[1..], convert);
      var all := [c] + rest;
      assert forall i :: 1 <= i < |items| ==> items[i] == items[1..][i - 1] && all[i] == rest[i - 1];
      Success(all)
  }

  /** The id of the element at position `i`: its own `id` key, else the
      generated `newId(first + i)`. */
  function IdOf(c: CompanyInput, newId: nat -> Uuid, pos: nat): Uuid {
    if c.id.Some? then c.id.value else newId(pos)
  }

  /** The companies rows of the converted elements, keyed by their ids. */
  function Keyed(cs: seq<Company>, items: seq<CompanyInput>, newId: nat -> Uuid, first: nat): (r: seq<(Uuid, Row)>)
    requires |cs| == |items|
    ensures |r| == |items|
    ensures forall i :: 0 <= i < |items| ==> r[i] == (IdOf(items[i], newId, first + i), CompanyRow(cs[i]))
  {
    seq(|items|, i requires 0 <= i < |items| => (IdOf(items[i], newId, first + i), CompanyRow(cs[i])))
  }

  /** The rows of the multi-row companies INSERT. */
  function CompanyRows(items: seq<CompanyInput>, userId: Uuid, newId: nat -> Uuid, first: nat, now: Timestamp)
    : (r: Result<seq<(Uuid, Row)>, DbError>)
  {
    var cs :- ConvertAll(items, c => OwnedCompany(c, userId, now));
    Success(Keyed(cs, items, newId, first))
  }

  /** The companies step after the list is stored: the database it leaves
      and whether it raised. */
  function AddCompanies(db: Db, userId: Uuid, parsed: Parsed, newId: nat -> Uuid, now: Timestamp): (Db, TryEnd) {
    match parsed
    case SyntaxError => (db, Raised)
    case NullValue => (db, Raised)
    case LengthWithoutMap => (db, Raised)
    case NoPositiveLength => (db, Completed)
    case CompanyArray(items) =>
      if |items| == 0 then (db, Completed)
      else match CompanyRows(items, userId, newId, 1, now)
        case Failure(_) => (db, Raised)
        case Success(rows) =>
          match InsertRows(db, rows)
          case Failure(_) => (db, Raised)
          case Success(db') => (db', Completed)
  }

  /** The try block: the list INSERT under the generated id `newId(0)`, then
      the companies. A raise after the list INSERT keeps the list. */
  function Attempt(db: Db, userId: Uuid, name: FormValue, description: Option<FormValue>, companies: FormValue,
                   parse: string -> Parsed, newId: nat -> Uuid, now: Timestamp): (Db, TryEnd) {
    match MaterializeCompanyList(ListRecord(userId, name, description), now)
    case Failure(_) => (db, Raised)
    case Success(l) =>
      match InsertRow(db, newId(0), CompanyListRow(l))
      case Failure(_) => (db, Raised)
      case Success(withList) => AddCompanies(withList, userId, parse(Stringify(companies)), newId, now)
  }

  /** The checks before the try block: the error thrown, if any. */
  function Refusal(user: Option<AuthUser>, form: FormData): Option<string> {
    if user.None? then Some(NotAuthenticated)
    else if !Present(Get(form, "name")) || !Present(Get(form, "companies")) then Some(MissingFields)
    else None
  }

  /** The action as written: `redirect` works by throwing, and it is called
      inside the try block, so the catch turns the redirect into the generic
      error as well. */
  function AsWritten(db: Db, user: Option<AuthUser>, form: FormData, parse: string -> Parsed,
                     newId: nat -> Uuid, now: Timestamp): (Db, Outcome) {
    match Refusal(user, form)
    case Some(m) => (db, Threw(m))
    case None =>
      var (db', _) := Attempt(db, user.value.id, Get(form, "name").value, Get(form, "description"),
                              Get(form, "companies").value, parse, newId, now);
      (db', Threw(CreateFailed))
  }

  /** The action with the redirect issued after the try block. */
  function Submitted(db: Db, user: Option<AuthUser>, form: FormData, parse: string -> Parsed,
                     newId: nat -> Uuid, now: Timestamp): (Db, Outcome) {
    match Refusal(user, form)
    case Some(m) => (db, Threw(m))
    case None =>
      var (db', end) := Attempt(db, user.value.id, Get(form, "name").value, Get(form, "description"),
                                Get(form, "companies").value, parse, newId, now);
      (db', if end == Completed then Redirected(newId(0)) else Threw(CreateFailed))
  }

  /** The action run against the store, with the redirect after the try
      block. */
  method CreateCompanyList(store: Storage.Store, user: Option<AuthUser>, form: FormData, parse: string -> Parsed,
                           newId: nat -> Uuid, now: Timestamp) returns (outcome: Outcome)
    requires store.Valid()
    modifies store
    ensures store.Valid()
    ensures (store.tables, outcome) == Submitted(old(store.tables), user, form, parse, newId, now)
  {
    if user.None? {
      return Threw(NotAuthenticated);
    }
    var name := Get(form, "name");
    var description := Get(form, "description");
    var companiesData := Get(form, "companies");
    if !Present(name) || !Present(companiesData) {
      return Threw(MissingFields);
    }
    var end := TryCreate(store, user.value.id, name.value, description, companiesData.value, parse, newId, now);
    return if end == Completed then Redirected(newId(0)) else Threw(CreateFailed);
  }

  /** The try block run against the store: the list INSERT, then the
      companies step. */
  method TryCreate(store: Storage.Store, userId: Uuid, name: FormValue, description: Option<FormValue>,
                   companies: FormValue, parse: string -> Parsed, newId: nat -> Uuid, now: Timestamp)
    returns (end: TryEnd)
    requires store.Valid()
    modifies store
    ensures store.Valid()
    ensures (store.tables, end) == Attempt(old(store.tables), userId, name, description, companies, parse, newId, now)
  {
    var list := MaterializeCompanyList(ListRecord(userId, name, description), now);
    if list.Failure? {
      return Raised;
    }
    var err := store.Insert(newId(0), CompanyListRow(list.value));
    if err.Some? {
      return Raised;
    }
    end := AddCompaniesTo(store, userId, parse(Stringify(companies)), newId, now);
  }

  /** The companies step run against the store. */
  method AddCompaniesTo(store: Storage.Store, userId: Uuid, parsed: Parsed, newId: nat -> Uuid, now: Timestamp)
    returns (end: TryEnd)
    requires store.Valid()
    modifies store
    ensures store.Valid()
    ensures (store.tables, end) == AddCompanies(old(store.tables), userId, parsed, newId, now)
  {
    match parsed {
      case SyntaxError => return Raised;
      case NullValue => return Raised;
      case LengthWithoutMap => return Raised;
      case NoPositiveLength => return Completed;
      case CompanyArray(items) =>
        if |items| == 0 {
          return Completed;
        }
        var rows := CompanyRows(items, userId, newId, 1, now);
        if rows.Failure? {
          return Raised;
        }
        var err := store.InsertMany(rows.value);
        return if err.Some? then Raised else Completed;
    }
  }

  // ---------------------------------------------------------------------
  // The two INSERTs seen from the tables

  /** The list INSERT: stored exactly when its id is new and its user_id
      names a users row; nothing else changes. */
  lemma InsertListRow(db: Db, id: Uuid, l: CompanyList)
    ensures InsertRow(db, id, CompanyListRow(l)).Success? <==> id !in db.lists && l.userId in db.users
    ensures InsertRow(db, id, CompanyListRow(l)).Success? ==>
      InsertRow(db, id, CompanyListRow(l)).value == db.(lists := db.lists[id := l])
  {
  }

  /** One companies row: stored exactly when its id is new and its user_id
      names a users row; nothing else changes. */
  lemma InsertCompanyRow(db: Db, id: Uuid, c: Company)
    ensures InsertRow(db, id, CompanyRow(c)).Success? <==> id !in db.companies && c.userId in db.users
    ensures InsertRow(db, id, CompanyRow(c)).Success? ==>
      InsertRow(db, id, CompanyRow(c)).value == db.(companies := db.companies[id := c])
  {
  }

  /** A multi-row companies INSERT writes the companies table only and keeps
      every row already there. */
  lemma {:induction false} InsertCompanyRowsKeeps(db: Db, rows: seq<(Uuid, Row)>)
    requires forall i :: 0 <= i < |rows| ==> rows[i].1.CompanyRow?
    ensures InsertRows(db, rows).Success? ==>
      var after := InsertRows(db, rows).value;
      && after == db.(companies := after.companies)
      && forall k :: k in db.companies ==> k in after.companies && after.companies[k] == db.companies[k]
    decreases |rows|
  {
    if rows != [] {
      var c := rows[0].1.company;
      assert rows[0].1 == CompanyRow(c);
      InsertCompanyRow(db, rows[0].0, c);
      var first := InsertRow(db, rows[0].0, CompanyRow(c));
      if first.Success? {
        assert forall i :: 1 <= i < |rows| ==> rows[i] == rows[1..][i - 1];
        InsertCompanyRowsKeeps(first.value, rows[1..]);
      }
    }
  }

  /** ... and stores each of its rows under an id that was not taken. */
  lemma {:induction false} InsertCompanyRowsStores(db: Db, rows: seq<(Uuid, Row)>, i: nat)
    requires forall j :: 0 <= j < |rows| ==> rows[j].1.CompanyRow?
    requires i < |rows|
    ensures InsertRows(db, rows).Success? ==>
      var after := InsertRows(db, rows).value;
      rows[i].0 !in db.companies && rows[i].0 in after.companies && after.companies[rows[i].0] == rows[i].1.company
    decreases |rows|
  {
    var c := rows[0].1.company;
    assert rows[0].1 == CompanyRow(c);
    InsertCompanyRow(db, rows[0].0, c);
    var first := InsertRow(db, rows[0].0, CompanyRow(c));
    if first.Success? {
      var tail := rows[1..];
      assert forall j :: 1 <= j < |rows| ==> rows[j] == tail[j - 1];
      if i == 0 {
        InsertCompanyRowsKeeps(first.value, tail);
      } else {
        InsertCompanyRowsStores(first.value, tail, i - 1);
        InsertCompanyRowsKeeps(first.value, tail);
      }
    }
  }

  /** ... so when all its rows belong to one user, every row it adds does. */
  lemma InsertOwnedCompanyRows(db: Db, rows: seq<(Uuid, Row)>, userId: Uuid)
    requires forall i :: 0 <= i < |rows| ==> rows[i].1.CompanyRow? && rows[i].1.company.userId == userId
    ensures InsertRows(db, rows).Success? ==>
      var after := InsertRows(db, rows).value;
      forall k :: k in after.companies && k !in db.companies ==> after.companies[k].userId == userId
  {
    InsertCompanyRowsOnly(db, rows);
    if InsertRows(db, rows).Success? {
      var after := InsertRows(db, rows).value;
      forall k | k in after.companies && k !in db.companies
        ensures after.companies[k].userId == userId
      {
        var i :| 0 <= i < |rows| && rows[i].0 == k;
        InsertCompanyRowsStores(db, rows, i);
      }
    }
  }

  /** ... and stores nothing else. */
  lemma {:induction false} InsertCompanyRowsOnly(db: Db, rows: seq<(Uuid, Row)>)
    requires forall i :: 0 <= i < |rows| ==> rows[i].1.CompanyRow?
    ensures InsertRows(db, rows).Success? ==>
      var after := InsertRows(db, rows).value;
      forall k :: k in after.companies ==> k in db.companies || exists i :: 0 <= i < |rows| && rows[i].0 == k
    decreases |rows|
  {
    if rows != [] {
      var c := rows[0].1.company;
      assert rows[0].1 == CompanyRow(c);
      InsertCompanyRow(db, rows[0].0, c);
      var first := InsertRow(db, rows[0].0, CompanyRow(c));
      if first.Success? {
        var tail := rows[1..];
        assert forall j :: 1 <= j < |rows| ==> rows[j] == tail[j - 1];
        InsertCompanyRowsOnly(first.value, tail);
        if InsertRows(db, rows).Success? {
          var after := InsertRows(first.value, tail).value;
          forall k | k in after.companies
            ensures k in db.companies || exists i :: 0 <= i < |rows| && rows[i].0 == k
          {
            if k !in first.value.companies {
              var j :| 0 <= j < |tail| && tail[j].0 == k;
              assert rows[j + 1].0 == k;
            }
          }
        }
      }
    }
  }

  /** The companies INSERT is built exactly when every element converts,
      and then has one companies row per element. */
  lemma CompanyRowsAreCompanies(items: seq<CompanyInput>, userId: Uuid, newId: nat -> Uuid, first: nat, now: Timestamp)
    ensures var r := CompanyRows(items, userId, newId, first, now);
      && (r.Success? <==> forall i :: 0 <= i < |items| ==> OwnedCompany(items[i], userId, now).Success?)
      && (r.Success? ==> |r.value| == |items| && forall i :: 0 <= i < |items| ==> r.value[i].1.CompanyRow?)
      && (r.Success? ==> forall i :: 0 <= i < |items| ==> r.value[i].1.company.userId == userId)
  {
    var convert := c => OwnedCompany(c, userId, now);
    assert forall i :: 0 <= i < |items| ==> convert(items[i]) == OwnedCompany(items[i], userId, now);
  }

  /** The row of the element at position `i`: its conversion, owned by the
      signed-in user, under its own id or `newId(first + i)`. */
  lemma CompanyRowAt(items: seq<CompanyInput>, userId: Uuid, newId: nat -> Uuid, first: nat, now: Timestamp, i: nat)
    requires i < |items|
    ensures var r := CompanyRows(items, userId, newId, first, now);
      r.Success? ==>
        && i < |r.value|
        && r.value[i] == (IdOf(items[i], newId, first + i), CompanyRow(OwnedCompany(items[i], userId, now).value))
        && r.value[i].1.company.userId == userId
  {
    var convert := c => OwnedCompany(c, userId, now);
    assert convert(items[i]) == OwnedCompany(items[i], userId, now);
  }

  // ---------------------------------------------------------------------
  // The companies step

  /** The companies step writes the companies table only, keeps every row
      already there and adds only rows of the signed-in user. */
  lemma AddCompaniesWritesCompanies(db: Db, userId: Uuid, parsed: Parsed, newId: nat -> Uuid, now: Timestamp)
    ensures var after := AddCompanies(db, userId, parsed, newId, now).0;
      && after == db.(companies := after.companies)
      && (forall k :: k in db.companies ==> k in after.companies && after.companies[k] == db.companies[k])
      && (forall k :: k in after.companies && k !in db.companies ==> after.companies[k].userId == userId)
  {
    var after := AddCompanies(db, userId, parsed, newId, now).0;
    if parsed.CompanyArray? && |parsed.items| > 0 {
      var rows := CompanyRows(parsed.items, userId, newId, 1, now);
      CompanyRowsAreCompanies(parsed.items, userId, newId, 1, now);
      if rows.Success? {
        var inserted := InsertRows(db, rows.value);
        assert after == if inserted.Success? then inserted.value else db;
        InsertCompanyRowsKeeps(db, rows.value);
        InsertOwnedCompanyRows(db, rows.value, userId);
      } else {
        assert after == db;
      }
    } else {
      assert after == db;
    }
  }

  /** When the companies step completes on an array, every element is
      stored under its id as the signed-in user's company. */
  lemma AddCompaniesStoresEach(db: Db, userId: Uuid, items: seq<CompanyInput>, newId: nat -> Uuid, now: Timestamp, i: nat)
    requires i < |items|
    ensures var (after, end) := AddCompanies(db, userId, CompanyArray(items), newId, now);
      end == Completed ==>
        && IdOf(items[i], newId, 1 + i) !in db.companies
        && IdOf(items[i], newId, 1 + i) in after.companies
        && after.companies[IdOf(items[i], newId, 1 + i)] == OwnedCompany(items[i], userId, now).value
        && after.companies[IdOf(items[i], newId, 1 + i)].userId == userId
  {
    var rows := CompanyRows(items, userId, newId, 1, now);
    CompanyRowsAreCompanies(items, userId, newId, 1, now);
    CompanyRowAt(items, userId, newId, 1, now, i);
    if rows.Success? {
      var inserted := InsertRows(db, rows.value);
      assert AddCompanies(db, userId, CompanyArray(items), newId, now)
        == if inserted.Success? then (inserted.value, Completed) else (db, Raised);
      InsertCompanyRowsStores(db, rows.value, i);
    }
  }

  /** The companies step keeps every integrity rule. */
  lemma AddCompaniesPreservesConsistent(db: Db, userId: Uuid, parsed: Parsed, newId: nat -> Uuid, now: Timestamp)
    requires Consistent(db)
    ensures Consistent(AddCompanies(db, userId, parsed, newId, now).0)
  {
    if parsed.CompanyArray? && |parsed.items| > 0 {
      var rows := CompanyRows(parsed.items, userId, newId, 1, now);
      if rows.Success? {
        Integrity.InsertRowsPreservesConsistent(db, rows.value);
      }
    }
  }

  // ---------------------------------------------------------------------
  // What the action guarantees

  /** Without a signed-in user, or with the name or the companies field
      missing or empty, the action throws before touching the database; with
      all three it never throws either of those errors. */
  lemma RefusedBeforeAnyWrite(db: Db, user: Option<AuthUser>, form: FormData, parse: string -> Parsed,
                              newId: nat -> Uuid, now: Timestamp)
    ensures user.None? ==> Submitted(db, user, form, parse, newId, now) == (db, Threw(NotAuthenticated))
    ensures user.Some? && !(Present(Get(form, "name")) && Present(Get(form, "companies"))) ==>
      Submitted(db, user, form, parse, newId, now) == (db, Threw(MissingFields))
    ensures user.Some? && Present(Get(form, "name")) && Present(Get(form, "companies")) ==>
      Submitted(db, user, form, parse, newId, now).1 !in {Threw(NotAuthenticated), Threw(MissingFields)}
  {
    assert CreateFailed != NotAuthenticated && CreateFailed != MissingFields by {
      assert CreateFailed[0] == 'リ' && NotAuthenticated[0] == '認' && MissingFields[0] == '必';
    }
  }

  /** The list row the action stores: owned by the signed-in user, named and
      described by the form; a name over 255 characters is refused unless
      the excess is spaces, which varchar(255) cuts off. */
  lemma ListRowCarriesForm(userId: Uuid, name: FormValue, description: Option<FormValue>, now: Timestamp)
    ensures var l := MaterializeCompanyList(ListRecord(userId, name, description), now);
      var s := Stringify(name);
      && (l.Success? <==> |s| <= 255 || AllSpaces(s[255..]))
      && (l.Success? ==>
            && l.value.userId == userId && l.value.name == (if |s| <= 255 then s else s[..255])
            && l.value.description == (if description.Some? then Some(Stringify(description.value)) else None)
            && l.value.totalCompanies == Some(0) && l.value.isPublic == Some(false))
  {
  }

  /** The try block writes the list and companies tables only: exactly one
      list row, under `newId(0)`, once the list INSERT succeeds; company rows
      only of the signed-in user; never a company_list_items row. */
  lemma AttemptWritesListAndCompanies(db: Db, userId: Uuid, name: FormValue, description: Option<FormValue>,
                                      companies: FormValue, parse: string -> Parsed, newId: nat -> Uuid, now: Timestamp)
    ensures var (after, end) := Attempt(db, userId, name, description, companies, parse, newId, now);
      var l := MaterializeCompanyList(ListRecord(userId, name, description), now);
      var stored := l.Success? && newId(0) !in db.lists && userId in db.users;
      && after == db.(lists := after.lists, companies := after.companies)
      && after.listItems == db.listItems
      && after.lists == (if stored then db.lists[newId(0) := l.value] else db.lists)
      && (end == Completed ==> stored)
      && (forall k :: k in db.companies ==> k in after.companies && after.companies[k] == db.companies[k])
      && (forall k :: k in after.companies && k !in db.companies ==> after.companies[k].userId == userId)
  {
    var l := MaterializeCompanyList(ListRecord(userId, name, description), now);
    if l.Success? {
      InsertListRow(db, newId(0), l.value);
      var first := InsertRow(db, newId(0), CompanyListRow(l.value));
      if first.Success? {
        AddCompaniesWritesCompanies(first.value, userId, parse(Stringify(companies)), newId, now);
      }
    }
  }

  /** When the try block completes on a companies array, every element is
      stored, under its id, as the signed-in user's company. */
  lemma CompletedStoresEveryCompany(db: Db, userId: Uuid, name: FormValue, description: Option<FormValue>,
                                    companies: FormValue, parse: string -> Parsed, newId: nat -> Uuid, now: Timestamp, i: nat)
    requires parse(Stringify(companies)).CompanyArray? && i < |parse(Stringify(companies)).items|
    ensures var (after, end) := Attempt(db, userId, name, description, companies, parse, newId, now);
      var c := parse(Stringify(companies)).items[i];
      end == Completed ==>
        && IdOf(c, newId, 1 + i) in after.companies
        && after.companies[IdOf(c, newId, 1 + i)] == OwnedCompany(c, userId, now).value
        && after.companies[IdOf(c, newId, 1 + i)].userId == userId
  {
    var l := MaterializeCompanyList(ListRecord(userId, name, description), now);
    if l.Success? {
      var first := InsertRow(db, newId(0), CompanyListRow(l.value));
      if first.Success? {
        AddCompaniesStoresEach(first.value, userId, parse(Stringify(companies)).items, newId, now, i);
      }
    }
  }

  /** The two INSERTs are not one transaction: when the companies step
      raises after the list was stored, the list stays. */
  lemma ListKeptWhenCompaniesFail(db: Db, userId: Uuid, name: FormValue, description: Option<FormValue>,
                                  companies: FormValue, parse: string -> Parsed, newId: nat -> Uuid, now: Timestamp)
    ensures var l := MaterializeCompanyList(ListRecord(userId, name, description), now);
      var parsed := parse(Stringify(companies));
      l.Success? && newId(0) !in db.lists && userId in db.users &&
      (parsed.SyntaxError? || parsed.NullValue? || parsed.LengthWithoutMap?) ==>
        Attempt(db, userId, name, description, companies, parse, newId, now) == (db.(lists := db.lists[newId(0) := l.value]), Raised)
  {
    var l := MaterializeCompanyList(ListRecord(userId, name, description), now);
    if l.Success? {
      InsertListRow(db, newId(0), l.value);
    }
  }

  /** An empty companies array (or any value without a positive length)
      stores the list alone. */
  lemma NoCompaniesStoresListOnly(db: Db, userId: Uuid, name: FormValue, description: Option<FormValue>,
                                  companies: FormValue, parse: string -> Parsed, newId: nat -> Uuid, now: Timestamp)
    ensures var l := MaterializeCompanyList(ListRecord(userId, name, description), now);
      var parsed := parse(Stringify(companies));
      l.Success? && newId(0) !in db.lists && userId in db.users &&
      (parsed == CompanyArray([]) || parsed.NoPositiveLength?) ==>
        Attempt(db, userId, name, description, companies, parse, newId, now) == (db.(lists := db.lists[newId(0) := l.value]), Completed)
  {
    var l := MaterializeCompanyList(ListRecord(userId, name, description), now);
    if l.Success? {
      InsertListRow(db, newId(0), l.value);
    }
  }

  /** With the redirect after the try block, the action redirects exactly
      when the try block completes, always to the list it stored, whose
      user_id must already name a users row. */
  lemma SubmittedRedirectsToStoredList(db: Db, user: Option<AuthUser>, form: FormData, parse: string -> Parsed,
                                       newId: nat -> Uuid, now: Timestamp)
    ensures var (after, outcome) := Submitted(db, user, form, parse, newId, now);
      && (outcome.Redirected? <==>
            Refusal(user, form).None? &&
            Attempt(db, user.value.id, Get(form, "name").value, Get(form, "description"),
                    Get(form, "companies").value, parse, newId, now).1 == Completed)
      && (outcome.Redirected? ==>
            && outcome.listId == newId(0) && newId(0) !in db.lists && newId(0) in after.lists
            && after.lists[newId(0)].userId == user.value.id && user.value.id in db.users)
      && (outcome.Threw? && Refusal(user, form).None? ==> outcome.message == CreateFailed)
  {
    if Refusal(user, form).None? {
      AttemptWritesListAndCompanies(db, user.value.id, Get(form, "name").value, Get(form, "description"),
                                    Get(form, "companies").value, parse, newId, now);
    }
  }

  /** The action keeps every integrity rule of the schema. */
  lemma SubmittedPreservesConsistent(db: Db, user: Option<AuthUser>, form: FormData, parse: string -> Parsed,
                                     newId: nat -> Uuid, now: Timestamp)
    requires Consistent(db)
    ensures Consistent(Submitted(db, user, form, parse, newId, now).0)
  {
    if Refusal(user, form).None? {
      var l := MaterializeCompanyList(ListRecord(user.value.id, Get(form, "name").value, Get(form, "description")), now);
      if l.Success? {
        Integrity.InsertRowIff(db, newId(0), CompanyListRow(l.value));
        var first := InsertRow(db, newId(0), CompanyListRow(l.value));
        if first.Success? {
          AddCompaniesPreservesConsistent(first.value, user.value.id, parse(Stringify(Get(form, "companies").value)), newId, now);
        }
      }
    }
  }

  /** As written, the action never redirects: it has the same effect on the
      database, but where the corrected action redirects it throws the
      generic error, after the list and the companies were stored. */
  lemma AsWrittenNeverRedirects(db: Db, user: Option<AuthUser>, form: FormData, parse: string -> Parsed,
                                newId: nat -> Uuid, now: Timestamp)
    ensures AsWritten(db, user, form, parse, newId, now).1.Threw?
    ensures AsWritten(db, user, form, parse, newId, now).0 == Submitted(db, user, form, parse, newId, now).0
    ensures Submitted(db, user, form, parse, newId, now).1.Redirected? ==>
      && AsWritten(db, user, form, parse, newId, now).1 == Threw(CreateFailed)
      && newId(0) in AsWritten(db, user, form, parse, newId, now).0.lists
  {
    SubmittedRedirectsToStoredList(db, user, form, parse, newId, now);
  }
}
