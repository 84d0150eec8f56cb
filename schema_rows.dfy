/** The rows of the fifteen tables of utils/db/schema.ts, what an insert
    statement supplies for each, and how the database turns the latter into
    the former: column defaults, NOT NULL, enum conversion, `varchar(n)`
    length limits and the 32-bit range of `integer` columns.

    A row record holds every column except `id`, which is the key of the
    table's map (see module Tables). */
module SchemaRows {
  import opened Wrappers
  import opened SchemaEnums

  /** Surrogate keys (`uuid`). Their generation is outside the model. */
  type Uuid = nat
  /** A `timestamp` value; the clock is an input of every operation. */
  type Timestamp = int
  /** A `jsonb` value, kept opaque. */
  type Json = string
  /** A `decimal` value, kept opaque. */
  type Decimal = string
  /** An `inet` value, kept opaque. */
  type Inet = string

  /** PostgreSQL `integer`. */
  newtype Int32 = x: int | -0x8000_0000 <= x < 0x8000_0000

  datatype Column = Column(table: string, name: string)

  /** The ways the database rejects a statement. */
  datatype DbError =
    | NotNullViolation(column: Column)
    | InvalidEnumValue(enumName: string, value: string)
    | ValueTooLong(column: Column, limit: nat)
    | IntegerOutOfRange(column: Column)
    | UniqueViolation(constraint: string)
    | ForeignKeyViolation(constraint: string)
    | RestrictViolation(constraint: string)

  /** The error's message, in the wording PostgreSQL uses for each kind. */
  function Message(e: DbError): (m: string)
    ensures m != []
  {
    match e
    case NotNullViolation(c) =>
      "null value in column \"" + c.name + "\" of relation \"" + c.table + "\" violates not-null constraint"
    case InvalidEnumValue(t, v) => "invalid input value for enum " + t + ": \"" + v + "\""
    case ValueTooLong(_, _) => "value too long for type character varying"
    case IntegerOutOfRange(_) => "integer out of range"
    case UniqueViolation(k) => "duplicate key value violates unique constraint \"" + k + "\""
    case ForeignKeyViolation(k) => "insert or update violates foreign key constraint \"" + k + "\""
    case RestrictViolation(k) => "update or delete violates foreign key constraint \"" + k + "\""
  }

  // ---------------------------------------------------------------------
  // Column conversions

  /** A NOT NULL column without default: a missing or null value is refused. */
  function Required<T>(v: Option<T>, c: Column): (r: Result<T, DbError>)
    ensures r.Success? <==> v.Some?
    ensures r.Success? ==> r.value == v.value
    ensures r.Failure? ==> r.error == NotNullViolation(c)
  {
    match v
    case Some(x) => Success(x)
    case None => Failure(NotNullViolation(c))
  }

  /** A nullable column with a default: an omitted value takes the default,
      an explicit null stays null. */
  function Defaulted<T>(v: Input<Option<T>>, default: T): (r: Option<T>)
    ensures v == Omitted ==> r == Some(default)
    ensures v.Given? ==> r == v.value
  {
    match v
    case Omitted => Some(default)
    case Given(x) => x
  }

  /** A column with a DEFAULT, as stored: the default when the INSERT
      leaves the column out, and otherwise the given value or NULL. */
  predicate StoredOrDefault<T(==)>(v: Input<Option<T>>, default: T, stored: Option<T>) {
    && (v == Omitted ==> stored == Some(default))
    && (v.Given? ==> stored == v.value)
  }

  /** A NOT NULL column with a default. */
  function RequiredDefaulted<T>(v: Input<Option<T>>, default: T, c: Column): (r: Result<T, DbError>)
    ensures v == Omitted ==> r == Success(default)
    ensures v == Given(None) ==> r == Failure(NotNullViolation(c))
    ensures v.Given? && v.value.Some? ==> r == Success(v.value.value)
  {
    Required(Defaulted(v, default), c)
  }

  predicate AllSpaces(s: string) {
    forall i :: 0 <= i < |s| ==> s[i] == ' '
  }

  /** A text a `varchar(limit)` column takes: one within the limit, or a
      longer one whose excess is nothing but spaces. */
  predicate Storable(s: string, limit: nat) {
    |s| <= limit || AllSpaces(s[limit..])
  }

  predicate OptStorable(s: Option<string>, limit: nat) {
    s.Some? ==> Storable(s.value, limit)
  }

  /** A column with a default: a given non-null text must be storable. */
  predicate GivenStorable(v: Input<Option<string>>, limit: nat) {
    v.Given? ==> OptStorable(v.value, limit)
  }

  /** `stored` is the text `given` cut to at most `limit` characters. */
  predicate Kept(given: string, stored: string, limit: nat) {
    stored <= given && |stored| == if |given| <= limit then |given| else limit
  }

  /** Null stays null, and a text is kept up to the limit. */
  predicate OptKept(given: Option<string>, stored: Option<string>, limit: nat) {
    && (given.None? <==> stored.None?)
    && (given.Some? ==> stored.Some? && Kept(given.value, stored.value, limit))
  }

  predicate InInt32(x: int) {
    -0x8000_0000 <= x < 0x8000_0000
  }

  predicate OptInInt32(x: Option<int>) {
    x.Some? ==> InInt32(x.value)
  }

  /** Null stays null, and a number is kept. */
  predicate OptIntKept(given: Option<int>, stored: Option<Int32>) {
    && (given.None? <==> stored.None?)
    && (given.Some? ==> stored.Some? && stored.value as int == given.value)
  }

  /** Storing `s` in a `varchar(limit)` column: a longer value is refused
      unless everything past the limit is spaces, which are then cut off. */
  function Varchar(s: string, limit: nat, c: Column): (r: Result<string, DbError>)
    ensures |s| <= limit ==> r == Success(s)
    ensures r.Success? <==> Storable(s, limit)
    ensures r.Success? ==> Kept(s, r.value, limit)
    ensures r.Success? && |s| > limit ==> r.value == s[..limit]
    ensures r.Failure? ==> r.error == ValueTooLong(c, limit)
  {
    if |s| <= limit then Success(s)
    else if AllSpaces(s[limit..]) then Success(s[..limit])
    else Failure(ValueTooLong(c, limit))
  }

  function OptVarchar(s: Option<string>, limit: nat, c: Column): (r: Result<Option<string>, DbError>)
    ensures s == None ==> r == Success(None)
    ensures r.Success? ==> OptFits(r.value, limit)
    ensures r.Success? <==> OptStorable(s, limit)
    ensures r.Success? ==> OptKept(s, r.value, limit)
  {
    match s
    case None => Success(None)
    case Some(x) => var y :- Varchar(x, limit, c); Success(Some(y))
  }

  function ReqVarchar(s: Option<string>, limit: nat, c: Column): (r: Result<string, DbError>)
    ensures s == None ==> r == Failure(NotNullViolation(c))
    ensures r.Success? <==> s.Some? && Storable(s.value, limit)
    ensures r.Success? ==> |r.value| <= limit && Kept(s.value, r.value, limit)
  {
    var x :- Required(s, c);
    Varchar(x, limit, c)
  }

  predicate OptFits(s: Option<string>, limit: nat) {
    s.Some? ==> |s.value| <= limit
  }

  /** Storing a number in an `integer` column. */
  function Int(x: int, c: Column): (r: Result<Int32, DbError>)
    ensures r.Success? <==> InInt32(x)
    ensures r.Success? ==> r.value as int == x
  {
    if -0x8000_0000 <= x < 0x8000_0000 then Success(x as Int32) else Failure(IntegerOutOfRange(c))
  }

  function OptInt(x: Option<int>, c: Column): (r: Result<Option<Int32>, DbError>)
    ensures x == None ==> r == Success(None)
    ensures r.Success? <==> OptInInt32(x)
    ensures r.Success? ==> OptIntKept(x, r.value)
  {
    match x
    case None => Success(None)
    case Some(v) => var y :- Int(v, c); Success(Some(y))
  }

  /** Converting the text of an enum column; `parsed` is the enum's parse
      of `text` and `typeName` its database name. */
  function EnumValue<E>(text: string, parsed: Option<E>, typeName: string): (r: Result<E, DbError>)
    ensures r.Success? <==> parsed.Some?
    ensures r.Success? ==> r.value == parsed.value
    ensures r.Failure? ==> r.error == InvalidEnumValue(typeName, text)
  {
    match parsed
    case Some(e) => Success(e)
    case None => Failure(InvalidEnumValue(typeName, text))
  }

  /** A nullable enum column with a default: an omitted value takes the
      declared default, an explicit null stays null, and a given text is
      converted by `parse`, the enum's text-to-value conversion. */
  function DefaultedEnum<E>(v: Input<Option<string>>, default: E, parse: string -> Option<E>, typeName: string)
    : (r: Result<Option<E>, DbError>)
    ensures r.Success? <==> (v.Given? && v.value.Some? ==> parse(v.value.value).Some?)
    ensures v == Omitted ==> r == Success(Some(default))
    ensures v == Given(None) ==> r == Success(None)
    ensures r.Success? && v.Given? && v.value.Some? ==> r.value == parse(v.value.value)
    ensures r.Failure? ==> r.error == InvalidEnumValue(typeName, v.value.value)
  {
    match v
    case Omitted => Success(Some(default))
    case Given(None) => Success(None)
    case Given(Some(s)) => var e :- EnumValue(s, parse(s), typeName); Success(Some(e))
  }

  // ---------------------------------------------------------------------
  // users (utils/db/schema.ts:30-46)

  datatype User = User(
    supabaseUserId: Uuid, email: string, name: string,
    companyName: Option<string>, avatarUrl: Option<string>,
    timezone: Option<string>, locale: Option<string>, status: Option<UserStatus>,
    createdAt: Option<Timestamp>, updatedAt: Option<Timestamp>, deletedAt: Option<Timestamp>)

  datatype NewUser = NewUser(
    supabaseUserId: Option<Uuid>, email: Option<string>, name: Option<string>,
    companyName: Option<string>, avatarUrl: Option<string>,
    timezone: Input<Option<string>>, locale: Input<Option<string>>, status: Input<Option<string>>,
    createdAt: Input<Option<Timestamp>>, updatedAt: Input<Option<Timestamp>>, deletedAt: Option<Timestamp>)

  predicate UserFits(u: User) {
    |u.email| <= 255 && |u.name| <= 255 && OptFits(u.companyName, 255)
    && OptFits(u.timezone, 50) && OptFits(u.locale, 10)
  }

  /** The user rows the database takes: supabase_user_id, email and name
      given, every text storable in its column, and a given non-null status
      one of the enum's labels. */
  predicate UserAccepted(n: NewUser) {
    && n.supabaseUserId.Some? && n.email.Some? && n.name.Some?
    && Storable(n.email.value, 255) && Storable(n.name.value, 255) && OptStorable(n.companyName, 255)
    && GivenStorable(n.timezone, 50) && GivenStorable(n.locale, 10)
    && (n.status.Given? && n.status.value.Some? ==> ParseUserStatus(n.status.value.value).Some?)
  }

  function MaterializeUser(n: NewUser, now: Timestamp): (r: Result<User, DbError>)
    ensures r.Success? <==> UserAccepted(n)
    ensures r.Success? ==> UserFits(r.value)
    ensures r.Success? ==>
      && Some(r.value.supabaseUserId) == n.supabaseUserId
      && Kept(n.email.value, r.value.email, 255) && Kept(n.name.value, r.value.name, 255)
      && OptKept(n.companyName, r.value.companyName, 255) && r.value.avatarUrl == n.avatarUrl
      && (n.timezone.Given? ==> OptKept(n.timezone.value, r.value.timezone, 50))
      && (n.locale.Given? ==> OptKept(n.locale.value, r.value.locale, 10))
      && r.value.deletedAt == n.deletedAt
    ensures r.Success? && n.status.Given? ==>
      (r.value.status.None? <==> n.status.value.None?)
      && (r.value.status.Some? ==> r.value.status.value.Label() == n.status.value.value)
    ensures r.Success? && n.status == Omitted ==> r.value.status == Some(UserStatus.Active)
    ensures r.Success? && n.timezone == Omitted ==> r.value.timezone == Some("Asia/Tokyo")
    ensures r.Success? && n.locale == Omitted ==> r.value.locale == Some("ja")
    ensures r.Success? && n.createdAt == Omitted ==> r.value.createdAt == Some(now)
    ensures r.Success? ==> StoredOrDefault(n.createdAt, now, r.value.createdAt) && StoredOrDefault(n.updatedAt, now, r.value.updatedAt)
  {
    var supabaseUserId :- Required(n.supabaseUserId, Column("users", "supabase_user_id"));
    var email :- ReqVarchar(n.email, 255, Column("users", "email"));
    var name :- ReqVarchar(n.name, 255, Column("users", "name"));
    var companyName :- OptVarchar(n.companyName, 255, Column("users", "company_name"));
    var timezone :- OptVarchar(Defaulted(n.timezone, "Asia/Tokyo"), 50, Column("users", "timezone"));
    var locale :- OptVarchar(Defaulted(n.locale, "ja"), 10, Column("users", "locale"));
    var status :- DefaultedEnum(n.status, UserStatus.Active, ParseUserStatus, "user_status");
    Success(User(supabaseUserId, email, name, companyName, n.avatarUrl, timezone, locale, status,
                 Defaulted(n.createdAt, now), Defaulted(n.updatedAt, now), n.deletedAt))
  }

  // ---------------------------------------------------------------------
  // subscriptions (utils/db/schema.ts:48-64)

  datatype Subscription = Subscription(
    userId: Uuid, stripeCustomerId: string, stripeSubscriptionId: Option<string>,
    planId: string, status: SubscriptionStatus,
    currentPeriodStart: Option<Timestamp>, currentPeriodEnd: Option<Timestamp>,
    cancelAtPeriodEnd: Option<bool>, trialEnd: Option<Timestamp>, metadata: Option<Json>,
    createdAt: Option<Timestamp>, updatedAt: Option<Timestamp>)

  datatype NewSubscription = NewSubscription(
    userId: Option<Uuid>, stripeCustomerId: Option<string>, stripeSubscriptionId: Option<string>,
    planId: Option<string>, status: Option<string>,
    currentPeriodStart: Option<Timestamp>, currentPeriodEnd: Option<Timestamp>,
    cancelAtPeriodEnd: Input<Option<bool>>, trialEnd: Option<Timestamp>, metadata: Option<Json>,
    createdAt: Input<Option<Timestamp>>, updatedAt: Input<Option<Timestamp>>)

  predicate SubscriptionFits(s: Subscription) {
    |s.stripeCustomerId| <= 255 && OptFits(s.stripeSubscriptionId, 255) && |s.planId| <= 50
  }

  /** The subscription rows the database takes: user_id, stripe_customer_id,
      plan_id and status given, the texts storable, and the status one of
      the enum's labels. */
  predicate SubscriptionAccepted(n: NewSubscription) {
    && n.userId.Some? && n.stripeCustomerId.Some? && n.planId.Some? && n.status.Some?
    && Storable(n.stripeCustomerId.value, 255) && OptStorable(n.stripeSubscriptionId, 255)
    && Storable(n.planId.value, 50)
    && ParseSubscriptionStatus(n.status.value).Some?
  }

  function MaterializeSubscription(n: NewSubscription, now: Timestamp): (r: Result<Subscription, DbError>)
    ensures r.Success? <==> SubscriptionAccepted(n)
    ensures r.Success? ==> SubscriptionFits(r.value)
    ensures r.Success? ==>
      && Some(r.value.userId) == n.userId
      && Kept(n.stripeCustomerId.value, r.value.stripeCustomerId, 255)
      && OptKept(n.stripeSubscriptionId, r.value.stripeSubscriptionId, 255)
      && Kept(n.planId.value, r.value.planId, 50)
      && r.value.status.Label() == n.status.value
      && r.value.currentPeriodStart == n.currentPeriodStart && r.value.currentPeriodEnd == n.currentPeriodEnd
      && r.value.trialEnd == n.trialEnd && r.value.metadata == n.metadata
    ensures r.Success? && n.cancelAtPeriodEnd == Omitted ==> r.value.cancelAtPeriodEnd == Some(false)
    ensures r.Success? && n.cancelAtPeriodEnd.Given? ==> r.value.cancelAtPeriodEnd == n.cancelAtPeriodEnd.value
    ensures r.Success? ==> StoredOrDefault(n.createdAt, now, r.value.createdAt) && StoredOrDefault(n.updatedAt, now, r.value.updatedAt)
  {
    var userId :- Required(n.userId, Column("subscriptions", "user_id"));
    var customer :- ReqVarchar(n.stripeCustomerId, 255, Column("subscriptions", "stripe_customer_id"));
    var subscriptionId :- OptVarchar(n.stripeSubscriptionId, 255, Column("subscriptions", "stripe_subscription_id"));
    var planId :- ReqVarchar(n.planId, 50, Column("subscriptions", "plan_id"));
    var statusText :- Required(n.status, Column("subscriptions", "status"));
    var status :- EnumValue(statusText, ParseSubscriptionStatus(statusText), "subscription_status");
    Success(Subscription(userId, customer, subscriptionId, planId, status,
                         n.currentPeriodStart, n.currentPeriodEnd, Defaulted(n.cancelAtPeriodEnd, false),
                         n.trialEnd, n.metadata, Defaulted(n.createdAt, now), Defaulted(n.updatedAt, now)))
  }

  // ---------------------------------------------------------------------
  // usage_metrics (utils/db/schema.ts:66-77)

  datatype UsageMetric = UsageMetric(
    userId: Uuid, metricType: string, metricValue: Int32,
    periodStart: Timestamp, periodEnd: Timestamp, createdAt: Option<Timestamp>)

  datatype NewUsageMetric = NewUsageMetric(
    userId: Option<Uuid>, metricType: Option<string>, metricValue: Input<Option<int>>,
    periodStart: Option<Timestamp>, periodEnd: Option<Timestamp>, createdAt: Input<Option<Timestamp>>)

  predicate UsageMetricFits(m: UsageMetric) {
    |m.metricType| <= 50
  }

  /** The usage rows the database takes: user_id, metric_type and both
      period bounds given, metric_value not null, the type storable and the
      value within `integer`. */
  predicate UsageMetricAccepted(n: NewUsageMetric) {
    && n.userId.Some? && n.metricType.Some? && n.periodStart.Some? && n.periodEnd.Some?
    && Storable(n.metricType.value, 50)
    && n.metricValue != Given(None)
    && (n.metricValue.Given? ==> InInt32(n.metricValue.value.value))
  }

  function MaterializeUsageMetric(n: NewUsageMetric, now: Timestamp): (r: Result<UsageMetric, DbError>)
    ensures r.Success? <==> UsageMetricAccepted(n)
    ensures r.Success? ==> UsageMetricFits(r.value)
    ensures r.Success? ==>
      && Some(r.value.userId) == n.userId && Kept(n.metricType.value, r.value.metricType, 50)
      && Some(r.value.periodStart) == n.periodStart && Some(r.value.periodEnd) == n.periodEnd
    ensures r.Success? && n.metricValue == Omitted ==> r.value.metricValue == 0
    ensures r.Success? && n.metricValue.Given? ==> r.value.metricValue as int == n.metricValue.value.value
    ensures r.Success? ==> StoredOrDefault(n.createdAt, now, r.value.createdAt)
  {
    var userId :- Required(n.userId, Column("usage_metrics", "user_id"));
    var metricType :- ReqVarchar(n.metricType, 50, Column("usage_metrics", "metric_type"));
    var value :- RequiredDefaulted(n.metricValue, 0, Column("usage_metrics", "metric_value"));
    var metricValue :- Int(value, Column("usage_metrics", "metric_value"));
    var periodStart :- Required(n.periodStart, Column("usage_metrics", "period_start"));
    var periodEnd :- Required(n.periodEnd, Column("usage_metrics", "period_end"));
    Success(UsageMetric(userId, metricType, metricValue, periodStart, periodEnd, Defaulted(n.createdAt, now)))
  }

  // ---------------------------------------------------------------------
  // companies (utils/db/schema.ts:80-105)

  datatype Company = Company(
    userId: Uuid, name: string, domain: Option<string>, websiteUrl: Option<string>,
    industry: Option<string>, employeeCountRange: Option<string>, revenueRange: Option<string>,
    country: Option<string>, prefecture: Option<string>, city: Option<string>,
    description: Option<string>, status: Option<CompanyStatus>, lastContactedAt: Option<Timestamp>,
    responseStatus: Option<string>, tags: Option<seq<string>>, customFields: Option<Json>,
    createdAt: Option<Timestamp>, updatedAt: Option<Timestamp>, deletedAt: Option<Timestamp>)

  datatype NewCompany = NewCompany(
    userId: Option<Uuid>, name: Option<string>, domain: Option<string>, websiteUrl: Option<string>,
    industry: Option<string>, employeeCountRange: Option<string>, revenueRange: Option<string>,
    country: Input<Option<string>>, prefecture: Option<string>, city: Option<string>,
    description: Option<string>, status: Input<Option<string>>, lastContactedAt: Option<Timestamp>,
    responseStatus: Option<string>, tags: Option<seq<string>>, customFields: Option<Json>,
    createdAt: Input<Option<Timestamp>>, updatedAt: Input<Option<Timestamp>>, deletedAt: Option<Timestamp>)

  type CompanyProfile = (Option<string>, Option<string>, Option<string>, Option<string>,
                          Option<string>, Option<string>, Option<string>)

  predicate CompanyFits(c: Company) {
    |c.name| <= 255 && OptFits(c.domain, 255) && OptFits(c.industry, 100)
    && OptFits(c.employeeCountRange, 50) && OptFits(c.revenueRange, 50)
    && OptFits(c.country, 100) && OptFits(c.prefecture, 50) && OptFits(c.city, 100)
    && OptFits(c.responseStatus, 20)
  }

  /** The company rows the database takes: user_id and name given, every
      text storable in its column, and a given non-null status one of the
      enum's labels. */
  predicate CompanyAccepted(n: NewCompany) {
    && n.userId.Some? && n.name.Some? && Storable(n.name.value, 255)
    && OptStorable(n.domain, 255) && OptStorable(n.industry, 100)
    && OptStorable(n.employeeCountRange, 50) && OptStorable(n.revenueRange, 50)
    && GivenStorable(n.country, 100) && OptStorable(n.prefecture, 50) && OptStorable(n.city, 100)
    && OptStorable(n.responseStatus, 20)
    && (n.status.Given? && n.status.value.Some? ==> ParseCompanyStatus(n.status.value.value).Some?)
  }

  /** The seven optional text columns from domain to city, converted in
      column order. */
  function CompanyProfileColumns(n: NewCompany): (r: Result<CompanyProfile, DbError>)
    ensures r.Success? <==>
      && OptStorable(n.domain, 255) && OptStorable(n.industry, 100)
      && OptStorable(n.employeeCountRange, 50) && OptStorable(n.revenueRange, 50)
      && OptStorable(Defaulted(n.country, "Japan"), 100) && OptStorable(n.prefecture, 50)
      && OptStorable(n.city, 100)
    ensures r.Success? ==>
      && OptKept(n.domain, r.value.0, 255) && OptKept(n.industry, r.value.1, 100)
      && OptKept(n.employeeCountRange, r.value.2, 50) && OptKept(n.revenueRange, r.value.3, 50)
      && OptKept(Defaulted(n.country, "Japan"), r.value.4, 100)
      && OptKept(n.prefecture, r.value.5, 50) && OptKept(n.city, r.value.6, 100)
  {
    var domain :- OptVarchar(n.domain, 255, Column("companies", "domain"));
    var industry :- OptVarchar(n.industry, 100, Column("companies", "industry"));
    var employees :- OptVarchar(n.employeeCountRange, 50, Column("companies", "employee_count_range"));
    var revenue :- OptVarchar(n.revenueRange, 50, Column("companies", "revenue_range"));
    var country :- OptVarchar(Defaulted(n.country, "Japan"), 100, Column("companies", "country"));
    var prefecture :- OptVarchar(n.prefecture, 50, Column("companies", "prefecture"));
    var city :- OptVarchar(n.city, 100, Column("companies", "city"));
    Success((domain, industry, employees, revenue, country, prefecture, city))
  }

  function MaterializeCompany(n: NewCompany, now: Timestamp): (r: Result<Company, DbError>)
    ensures r.Success? <==> CompanyAccepted(n)
    ensures r.Success? ==> CompanyFits(r.value)
    ensures r.Success? ==>
      && Some(r.value.userId) == n.userId && Kept(n.name.value, r.value.name, 255)
      && OptKept(n.domain, r.value.domain, 255) && OptKept(n.industry, r.value.industry, 100)
      && OptKept(n.employeeCountRange, r.value.employeeCountRange, 50)
      && OptKept(n.revenueRange, r.value.revenueRange, 50)
      && OptKept(n.prefecture, r.value.prefecture, 50) && OptKept(n.city, r.value.city, 100)
      && OptKept(n.responseStatus, r.value.responseStatus, 20)
      && r.value.websiteUrl == n.websiteUrl && r.value.description == n.description
      && r.value.tags == n.tags && r.value.customFields == n.customFields
      && r.value.lastContactedAt == n.lastContactedAt && r.value.deletedAt == n.deletedAt
    ensures r.Success? && n.country.Given? ==> OptKept(n.country.value, r.value.country, 100)
    ensures r.Success? && n.status.Given? ==>
      (r.value.status.None? <==> n.status.value.None?)
      && (r.value.status.Some? ==> r.value.status.value.Label() == n.status.value.value)
    ensures r.Success? && n.status == Omitted ==> r.value.status == Some(CompanyStatus.Active)
    ensures r.Success? && n.country == Omitted ==> r.value.country == Some("Japan")
    ensures r.Success? ==> StoredOrDefault(n.createdAt, now, r.value.createdAt) && StoredOrDefault(n.updatedAt, now, r.value.updatedAt)
  {
    var userId :- Required(n.userId, Column("companies", "user_id"));
    var name :- ReqVarchar(n.name, 255, Column("companies", "name"));
    var profile :- CompanyProfileColumns(n);
    var (domain, industry, employees, revenue, country, prefecture, city) := profile;
    var status :- DefaultedEnum(n.status, CompanyStatus.Active, ParseCompanyStatus, "company_status");
    var responseStatus :- OptVarchar(n.responseStatus, 20, Column("companies", "response_status"));
    Success(Company(userId, name, domain, n.websiteUrl, industry, employees, revenue, country,
                    prefecture, city, n.description, status, n.lastContactedAt, responseStatus,
                    n.tags, n.customFields, Defaulted(n.createdAt, now), Defaulted(n.updatedAt, now),
                    n.deletedAt))
  }

  // ---------------------------------------------------------------------
  // company_contacts (utils/db/schema.ts:107-123)

  datatype CompanyContact = CompanyContact(
    companyId: Uuid, contactType: string, value: string,
    contactPersonName: Option<string>, contactPersonTitle: Option<string>, department: Option<string>,
    isPrimary: Option<bool>, isVerified: Option<bool>, verificationDate: Option<Timestamp>,
    notes: Option<string>, createdAt: Option<Timestamp>, updatedAt: Option<Timestamp>)

  datatype NewCompanyContact = NewCompanyContact(
    companyId: Option<Uuid>, contactType: Option<string>, value: Option<string>,
    contactPersonName: Option<string>, contactPersonTitle: Option<string>, department: Option<string>,
    isPrimary: Input<Option<bool>>, isVerified: Input<Option<bool>>, verificationDate: Option<Timestamp>,
    notes: Option<string>, createdAt: Input<Option<Timestamp>>, updatedAt: Input<Option<Timestamp>>)

  predicate CompanyContactFits(c: CompanyContact) {
    |c.contactType| <= 20 && |c.value| <= 500 && OptFits(c.contactPersonName, 255)
    && OptFits(c.contactPersonTitle, 255) && OptFits(c.department, 100)
  }

  /** The contact rows the database takes: company_id, contact_type and
      value given, and every text storable in its column. */
  predicate CompanyContactAccepted(n: NewCompanyContact) {
    && n.companyId.Some? && n.contactType.Some? && n.value.Some?
    && Storable(n.contactType.value, 20) && Storable(n.value.value, 500)
    && OptStorable(n.contactPersonName, 255) && OptStorable(n.contactPersonTitle, 255)
    && OptStorable(n.department, 100)
  }

  function MaterializeCompanyContact(n: NewCompanyContact, now: Timestamp): (r: Result<CompanyContact, DbError>)
    ensures r.Success? <==> CompanyContactAccepted(n)
    ensures r.Success? ==> CompanyContactFits(r.value)
    ensures r.Success? ==>
      && Some(r.value.companyId) == n.companyId
      && Kept(n.contactType.value, r.value.contactType, 20) && Kept(n.value.value, r.value.value, 500)
      && OptKept(n.contactPersonName, r.value.contactPersonName, 255)
      && OptKept(n.contactPersonTitle, r.value.contactPersonTitle, 255)
      && OptKept(n.department, r.value.department, 100)
      && r.value.verificationDate == n.verificationDate && r.value.notes == n.notes
    ensures r.Success? && n.isPrimary == Omitted ==> r.value.isPrimary == Some(false)
    ensures r.Success? && n.isVerified == Omitted ==> r.value.isVerified == Some(false)
    ensures r.Success? && n.isPrimary.Given? ==> r.value.isPrimary == n.isPrimary.value
    ensures r.Success? && n.isVerified.Given? ==> r.value.isVerified == n.isVerified.value
    ensures r.Success? ==> StoredOrDefault(n.createdAt, now, r.value.createdAt) && StoredOrDefault(n.updatedAt, now, r.value.updatedAt)
  {
    var companyId :- Required(n.companyId, Column("company_contacts", "company_id"));
    var contactType :- ReqVarchar(n.contactType, 20, Column("company_contacts", "contact_type"));
    var value :- ReqVarchar(n.value, 500, Column("company_contacts", "value"));
    var person :- OptVarchar(n.contactPersonName, 255, Column("company_contacts", "contact_person_name"));
    var title :- OptVarchar(n.contactPersonTitle, 255, Column("company_contacts", "contact_person_title"));
    var department :- OptVarchar(n.department, 100, Column("company_contacts", "department"));
    Success(CompanyContact(companyId, contactType, value, person, title, department,
                           Defaulted(n.isPrimary, false), Defaulted(n.isVerified, false),
                           n.verificationDate, n.notes, Defaulted(n.createdAt, now), Defaulted(n.updatedAt, now)))
  }

  // ---------------------------------------------------------------------
  // company_lists (utils/db/schema.ts:125-138)

  datatype CompanyList = CompanyList(
    userId: Uuid, name: string, description: Option<string>, totalCompanies: Option<Int32>,
    tags: Option<seq<string>>, isPublic: Option<bool>,
    createdAt: Option<Timestamp>, updatedAt: Option<Timestamp>, deletedAt: Option<Timestamp>)

  datatype NewCompanyList = NewCompanyList(
    userId: Option<Uuid>, name: Option<string>, description: Option<string>,
    totalCompanies: Input<Option<int>>, tags: Option<seq<string>>, isPublic: Input<Option<bool>>,
    createdAt: Input<Option<Timestamp>>, updatedAt: Input<Option<Timestamp>>, deletedAt: Option<Timestamp>)

  predicate CompanyListFits(l: CompanyList) {
    |l.name| <= 255
  }

  /** The list rows the database takes: user_id and name given, the name
      storable in varchar(255), and a given total_companies within
      `integer`. */
  predicate CompanyListAccepted(n: NewCompanyList) {
    && n.userId.Some? && n.name.Some? && Storable(n.name.value, 255)
    && (n.totalCompanies.Given? ==> OptInInt32(n.totalCompanies.value))
  }

  function MaterializeCompanyList(n: NewCompanyList, now: Timestamp): (r: Result<CompanyList, DbError>)
    ensures r.Success? <==> CompanyListAccepted(n)
    ensures r.Success? ==> CompanyListFits(r.value)
    ensures r.Success? ==>
      && Some(r.value.userId) == n.userId && Kept(n.name.value, r.value.name, 255)
      && r.value.description == n.description && r.value.tags == n.tags && r.value.deletedAt == n.deletedAt
    ensures n.userId.Some? && n.name.Some? && |n.name.value| <= 255 && n.totalCompanies == Omitted ==> r.Success?
    ensures r.Success? && n.totalCompanies == Omitted ==> r.value.totalCompanies == Some(0)
    ensures r.Success? && n.isPublic == Omitted ==> r.value.isPublic == Some(false)
    ensures r.Success? && n.createdAt == Omitted ==> r.value.createdAt == Some(now)
    ensures r.Success? && n.updatedAt == Omitted ==> r.value.updatedAt == Some(now)
    ensures r.Success? && n.totalCompanies.Given? ==> OptIntKept(n.totalCompanies.value, r.value.totalCompanies)
    ensures r.Success? && n.isPublic.Given? ==> r.value.isPublic == n.isPublic.value
    ensures r.Success? && n.createdAt.Given? ==> r.value.createdAt == n.createdAt.value
    ensures r.Success? && n.updatedAt.Given? ==> r.value.updatedAt == n.updatedAt.value
  {
    var userId :- Required(n.userId, Column("company_lists", "user_id"));
    var name :- ReqVarchar(n.name, 255, Column("company_lists", "name"));
    var total :- OptInt(Defaulted(n.totalCompanies, 0), Column("company_lists", "total_companies"));
    Success(CompanyList(userId, name, n.description, total, n.tags, Defaulted(n.isPublic, false),
                        Defaulted(n.createdAt, now), Defaulted(n.updatedAt, now), n.deletedAt))
  }

  // ---------------------------------------------------------------------
  // company_list_items (utils/db/schema.ts:140-150)

  datatype CompanyListItem = CompanyListItem(
    listId: Uuid, companyId: Uuid, position: Option<Int32>, customData: Option<Json>,
    addedAt: Option<Timestamp>)

  datatype NewCompanyListItem = NewCompanyListItem(
    listId: Option<Uuid>, companyId: Option<Uuid>, position: Option<int>, customData: Option<Json>,
    addedAt: Input<Option<Timestamp>>)

  /** The item rows the database takes: list_id and company_id given, and a
      position within `integer`. */
  predicate CompanyListItemAccepted(n: NewCompanyListItem) {
    n.listId.Some? && n.companyId.Some? && OptInInt32(n.position)
  }

  function MaterializeCompanyListItem(n: NewCompanyListItem, now: Timestamp): (r: Result<CompanyListItem, DbError>)
    ensures r.Success? <==> CompanyListItemAccepted(n)
    ensures r.Success? ==>
      && Some(r.value.listId) == n.listId && Some(r.value.companyId) == n.companyId
      && OptIntKept(n.position, r.value.position) && r.value.customData == n.customData
    ensures r.Success? && n.addedAt == Omitted ==> r.value.addedAt == Some(now)
    ensures r.Success? ==> StoredOrDefault(n.addedAt, now, r.value.addedAt)
  {
    var listId :- Required(n.listId, Column("company_list_items", "list_id"));
    var companyId :- Required(n.companyId, Column("company_list_items", "company_id"));
    var position :- OptInt(n.position, Column("company_list_items", "position"));
    Success(CompanyListItem(listId, companyId, position, n.customData, Defaulted(n.addedAt, now)))
  }

  // ---------------------------------------------------------------------
  // campaigns (utils/db/schema.ts:153-172)

  datatype Campaign = Campaign(
    userId: Uuid, listId: Uuid, name: string, campaignType: CampaignType,
    status: Option<CampaignStatus>, targetCount: Option<Int32>, successCount: Option<Int32>,
    aiConfig: Json, templateConfig: Json, scheduleConfig: Option<Json>, rateLimitConfig: Option<Json>,
    startedAt: Option<Timestamp>, completedAt: Option<Timestamp>,
    createdAt: Option<Timestamp>, updatedAt: Option<Timestamp>)

  datatype NewCampaign = NewCampaign(
    userId: Option<Uuid>, listId: Option<Uuid>, name: Option<string>, campaignType: Option<string>,
    status: Input<Option<string>>, targetCount: Option<int>, successCount: Input<Option<int>>,
    aiConfig: Input<Option<Json>>, templateConfig: Input<Option<Json>>,
    scheduleConfig: Input<Option<Json>>, rateLimitConfig: Input<Option<Json>>,
    startedAt: Option<Timestamp>, completedAt: Option<Timestamp>,
    createdAt: Input<Option<Timestamp>>, updatedAt: Input<Option<Timestamp>>)

  /** The declared default of `rate_limit_config`. */
  const DefaultRateLimitConfig: Json := "{\"per_hour\": 10, \"per_day\": 100}"

  predicate CampaignFits(c: Campaign) {
    |c.name| <= 255
  }

  /** The campaign rows the database takes: user_id, list_id, name and
      campaign_type given, the name storable, the type and a given non-null
      status among their enums' labels, the counts within `integer`, and
      ai_config and template_config not null. */
  predicate CampaignAccepted(n: NewCampaign) {
    && n.userId.Some? && n.listId.Some? && n.name.Some? && n.campaignType.Some?
    && Storable(n.name.value, 255)
    && ParseCampaignType(n.campaignType.value).Some?
    && (n.status.Given? && n.status.value.Some? ==> ParseCampaignStatus(n.status.value.value).Some?)
    && OptInInt32(n.targetCount)
    && (n.successCount.Given? ==> OptInInt32(n.successCount.value))
    && n.aiConfig != Given(None) && n.templateConfig != Given(None)
  }

  function MaterializeCampaign(n: NewCampaign, now: Timestamp): (r: Result<Campaign, DbError>)
    ensures r.Success? <==> CampaignAccepted(n)
    ensures r.Success? ==> CampaignFits(r.value)
    ensures r.Success? ==>
      && Some(r.value.userId) == n.userId && Some(r.value.listId) == n.listId
      && Kept(n.name.value, r.value.name, 255)
      && r.value.campaignType.Label() == n.campaignType.value
      && OptIntKept(n.targetCount, r.value.targetCount)
      && r.value.startedAt == n.startedAt && r.value.completedAt == n.completedAt
    ensures r.Success? && n.status.Given? ==>
      (r.value.status.None? <==> n.status.value.None?)
      && (r.value.status.Some? ==> r.value.status.value.Label() == n.status.value.value)
    ensures r.Success? && n.successCount.Given? ==> OptIntKept(n.successCount.value, r.value.successCount)
    ensures r.Success? && n.aiConfig.Given? ==> Some(r.value.aiConfig) == n.aiConfig.value
    ensures r.Success? && n.templateConfig.Given? ==> Some(r.value.templateConfig) == n.templateConfig.value
    ensures r.Success? && n.status == Omitted ==> r.value.status == Some(CampaignStatus.Draft)
    ensures r.Success? && n.successCount == Omitted ==> r.value.successCount == Some(0)
    ensures r.Success? && n.aiConfig == Omitted ==> r.value.aiConfig == "{}"
    ensures r.Success? && n.templateConfig == Omitted ==> r.value.templateConfig == "{}"
    ensures r.Success? && n.rateLimitConfig == Omitted ==> r.value.rateLimitConfig == Some(DefaultRateLimitConfig)
    ensures r.Success? ==>
      && StoredOrDefault(n.scheduleConfig, "{}", r.value.scheduleConfig)
      && StoredOrDefault(n.rateLimitConfig, DefaultRateLimitConfig, r.value.rateLimitConfig)
    ensures r.Success? ==> StoredOrDefault(n.createdAt, now, r.value.createdAt) && StoredOrDefault(n.updatedAt, now, r.value.updatedAt)
  {
    var userId :- Required(n.userId, Column("campaigns", "user_id"));
    var listId :- Required(n.listId, Column("campaigns", "list_id"));
    var name :- ReqVarchar(n.name, 255, Column("campaigns", "name"));
    var typeText :- Required(n.campaignType, Column("campaigns", "campaign_type"));
    var campaignType :- EnumValue(typeText, ParseCampaignType(typeText), "campaign_type");
    var status :- DefaultedEnum(n.status, CampaignStatus.Draft, ParseCampaignStatus, "campaign_status");
    var targetCount :- OptInt(n.targetCount, Column("campaigns", "target_count"));
    var successCount :- OptInt(Defaulted(n.successCount, 0), Column("campaigns", "success_count"));
    var aiConfig :- RequiredDefaulted(n.aiConfig, "{}", Column("campaigns", "ai_config"));
    var templateConfig :- RequiredDefaulted(n.templateConfig, "{}", Column("campaigns", "template_config"));
    Success(Campaign(userId, listId, name, campaignType, status, targetCount, successCount,
                     aiConfig, templateConfig, Defaulted(n.scheduleConfig, "{}"),
                     Defaulted(n.rateLimitConfig, DefaultRateLimitConfig), n.startedAt, n.completedAt,
                     Defaulted(n.createdAt, now), Defaulted(n.updatedAt, now)))
  }

  // ---------------------------------------------------------------------
  // sales_activities (utils/db/schema.ts:174-193)

  datatype SalesActivity = SalesActivity(
    campaignId: Uuid, companyId: Uuid, activityType: ActivityType, status: ActivityStatus,
    channel: string, subject: Option<string>, content: Option<string>, responseContent: Option<string>,
    metadata: Option<Json>, scheduledAt: Option<Timestamp>, executedAt: Option<Timestamp>,
    respondedAt: Option<Timestamp>, createdAt: Option<Timestamp>, updatedAt: Option<Timestamp>)

  datatype NewSalesActivity = NewSalesActivity(
    campaignId: Option<Uuid>, companyId: Option<Uuid>, activityType: Option<string>, status: Option<string>,
    channel: Option<string>, subject: Option<string>, content: Option<string>, responseContent: Option<string>,
    metadata: Input<Option<Json>>, scheduledAt: Option<Timestamp>, executedAt: Option<Timestamp>,
    respondedAt: Option<Timestamp>, createdAt: Input<Option<Timestamp>>, updatedAt: Input<Option<Timestamp>>)

  predicate SalesActivityFits(a: SalesActivity) {
    |a.channel| <= 20 && OptFits(a.subject, 500)
  }

  /** The activity rows the database takes: campaign_id, company_id,
      activity_type, status and channel given, type and status among their
      enums' labels, and the texts storable. */
  predicate SalesActivityAccepted(n: NewSalesActivity) {
    && n.campaignId.Some? && n.companyId.Some? && n.activityType.Some? && n.status.Some? && n.channel.Some?
    && ParseActivityType(n.activityType.value).Some? && ParseActivityStatus(n.status.value).Some?
    && Storable(n.channel.value, 20) && OptStorable(n.subject, 500)
  }

  function MaterializeSalesActivity(n: NewSalesActivity, now: Timestamp): (r: Result<SalesActivity, DbError>)
    ensures r.Success? <==> SalesActivityAccepted(n)
    ensures r.Success? ==> SalesActivityFits(r.value)
    ensures r.Success? ==>
      && Some(r.value.campaignId) == n.campaignId && Some(r.value.companyId) == n.companyId
      && r.value.activityType.Label() == n.activityType.value && r.value.status.Label() == n.status.value
      && Kept(n.channel.value, r.value.channel, 20) && OptKept(n.subject, r.value.subject, 500)
      && r.value.content == n.content && r.value.responseContent == n.responseContent
    ensures r.Success? && n.metadata == Omitted ==> r.value.metadata == Some("{}")
    ensures r.Success? ==>
      && StoredOrDefault(n.metadata, "{}", r.value.metadata)
      && r.value.scheduledAt == n.scheduledAt && r.value.executedAt == n.executedAt
      && r.value.respondedAt == n.respondedAt
    ensures r.Success? ==> StoredOrDefault(n.createdAt, now, r.value.createdAt) && StoredOrDefault(n.updatedAt, now, r.value.updatedAt)
  {
    var campaignId :- Required(n.campaignId, Column("sales_activities", "campaign_id"));
    var companyId :- Required(n.companyId, Column("sales_activities", "company_id"));
    var typeText :- Required(n.activityType, Column("sales_activities", "activity_type"));
    var activityType :- EnumValue(typeText, ParseActivityType(typeText), "activity_type");
    var statusText :- Required(n.status, Column("sales_activities", "status"));
    var status :- EnumValue(statusText, ParseActivityStatus(statusText), "activity_status");
    var channel :- ReqVarchar(n.channel, 20, Column("sales_activities", "channel"));
    var subject :- OptVarchar(n.subject, 500, Column("sales_activities", "subject"));
    Success(SalesActivity(campaignId, companyId, activityType, status, channel, subject, n.content,
                          n.responseContent, Defaulted(n.metadata, "{}"), n.scheduledAt, n.executedAt,
                          n.respondedAt, Defaulted(n.createdAt, now), Defaulted(n.updatedAt, now)))
  }

  // ---------------------------------------------------------------------
  // email_activities (utils/db/schema.ts:195-215)

  datatype EmailActivity = EmailActivity(
    activityId: Uuid, toEmail: string, fromEmail: string, subject: string, content: string,
    htmlContent: Option<string>, trackingId: Option<string>,
    sentAt: Option<Timestamp>, openedAt: Option<Timestamp>, clickedAt: Option<Timestamp>,
    repliedAt: Option<Timestamp>, bouncedAt: Option<Timestamp>, bounceReason: Option<string>,
    smtpResponse: Option<string>, createdAt: Option<Timestamp>)

  datatype NewEmailActivity = NewEmailActivity(
    activityId: Option<Uuid>, toEmail: Option<string>, fromEmail: Option<string>, subject: Option<string>,
    content: Option<string>, htmlContent: Option<string>, trackingId: Option<string>,
    sentAt: Option<Timestamp>, openedAt: Option<Timestamp>, clickedAt: Option<Timestamp>,
    repliedAt: Option<Timestamp>, bouncedAt: Option<Timestamp>, bounceReason: Option<string>,
    smtpResponse: Option<string>, createdAt: Input<Option<Timestamp>>)

  predicate EmailActivityFits(e: EmailActivity) {
    |e.toEmail| <= 255 && |e.fromEmail| <= 255 && |e.subject| <= 500 && OptFits(e.trackingId, 255)
  }

  /** The email rows the database takes: activity_id, both addresses,
      subject and content given, and the texts storable. */
  predicate EmailActivityAccepted(n: NewEmailActivity) {
    && n.activityId.Some? && n.toEmail.Some? && n.fromEmail.Some? && n.subject.Some? && n.content.Some?
    && Storable(n.toEmail.value, 255) && Storable(n.fromEmail.value, 255)
    && Storable(n.subject.value, 500) && OptStorable(n.trackingId, 255)
  }

  function MaterializeEmailActivity(n: NewEmailActivity, now: Timestamp): (r: Result<EmailActivity, DbError>)
    ensures r.Success? <==> EmailActivityAccepted(n)
    ensures r.Success? ==> EmailActivityFits(r.value)
    ensures r.Success? ==>
      && Some(r.value.activityId) == n.activityId
      && Kept(n.toEmail.value, r.value.toEmail, 255) && Kept(n.fromEmail.value, r.value.fromEmail, 255)
      && Kept(n.subject.value, r.value.subject, 500) && Some(r.value.content) == n.content
      && OptKept(n.trackingId, r.value.trackingId, 255) && r.value.htmlContent == n.htmlContent
    ensures r.Success? ==>
      && r.value.sentAt == n.sentAt && r.value.openedAt == n.openedAt && r.value.clickedAt == n.clickedAt
      && r.value.repliedAt == n.repliedAt && r.value.bouncedAt == n.bouncedAt
      && r.value.bounceReason == n.bounceReason && r.value.smtpResponse == n.smtpResponse
    ensures r.Success? ==> StoredOrDefault(n.createdAt, now, r.value.createdAt)
  {
    var activityId :- Required(n.activityId, Column("email_activities", "activity_id"));
    var toEmail :- ReqVarchar(n.toEmail, 255, Column("email_activities", "to_email"));
    var fromEmail :- ReqVarchar(n.fromEmail, 255, Column("email_activities", "from_email"));
    var subject :- ReqVarchar(n.subject, 500, Column("email_activities", "subject"));
    var content :- Required(n.content, Column("email_activities", "content"));
    var trackingId :- OptVarchar(n.trackingId, 255, Column("email_activities", "tracking_id"));
    Success(EmailActivity(activityId, toEmail, fromEmail, subject, content, n.htmlContent, trackingId,
                          n.sentAt, n.openedAt, n.clickedAt, n.repliedAt, n.bouncedAt, n.bounceReason,
                          n.smtpResponse, Defaulted(n.createdAt, now)))
  }

  // ---------------------------------------------------------------------
  // form_activities (utils/db/schema.ts:217-229)

  datatype FormActivity = FormActivity(
    activityId: Uuid, formUrl: string, formFields: Json, submittedAt: Option<Timestamp>,
    success: Option<bool>, errorMessage: Option<string>, hasRecaptcha: Option<bool>,
    recaptchaVersion: Option<string>, responseHtml: Option<string>, createdAt: Option<Timestamp>)

  datatype NewFormActivity = NewFormActivity(
    activityId: Option<Uuid>, formUrl: Option<string>, formFields: Option<Json>, submittedAt: Option<Timestamp>,
    success: Input<Option<bool>>, errorMessage: Option<string>, hasRecaptcha: Input<Option<bool>>,
    recaptchaVersion: Option<string>, responseHtml: Option<string>, createdAt: Input<Option<Timestamp>>)

  predicate FormActivityFits(f: FormActivity) {
    OptFits(f.recaptchaVersion, 10)
  }

  /** The form rows the database takes: activity_id, form_url and
      form_fields given, and recaptcha_version storable. */
  predicate FormActivityAccepted(n: NewFormActivity) {
    n.activityId.Some? && n.formUrl.Some? && n.formFields.Some? && OptStorable(n.recaptchaVersion, 10)
  }

  function MaterializeFormActivity(n: NewFormActivity, now: Timestamp): (r: Result<FormActivity, DbError>)
    ensures r.Success? <==> FormActivityAccepted(n)
    ensures r.Success? ==> FormActivityFits(r.value)
    ensures r.Success? ==>
      && Some(r.value.activityId) == n.activityId && Some(r.value.formUrl) == n.formUrl
      && Some(r.value.formFields) == n.formFields
      && OptKept(n.recaptchaVersion, r.value.recaptchaVersion, 10)
      && r.value.errorMessage == n.errorMessage && r.value.responseHtml == n.responseHtml
    ensures r.Success? && n.success == Omitted ==> r.value.success == Some(false)
    ensures r.Success? && n.hasRecaptcha == Omitted ==> r.value.hasRecaptcha == Some(false)
    ensures r.Success? ==>
      && r.value.submittedAt == n.submittedAt
      && StoredOrDefault(n.success, false, r.value.success)
      && StoredOrDefault(n.hasRecaptcha, false, r.value.hasRecaptcha)
    ensures r.Success? ==> StoredOrDefault(n.createdAt, now, r.value.createdAt)
  {
    var activityId :- Required(n.activityId, Column("form_activities", "activity_id"));
    var formUrl :- Required(n.formUrl, Column("form_activities", "form_url"));
    var formFields :- Required(n.formFields, Column("form_activities", "form_fields"));
    var recaptchaVersion :- OptVarchar(n.recaptchaVersion, 10, Column("form_activities", "recaptcha_version"));
    Success(FormActivity(activityId, formUrl, formFields, n.submittedAt, Defaulted(n.success, false),
                         n.errorMessage, Defaulted(n.hasRecaptcha, false), recaptchaVersion,
                         n.responseHtml, Defaulted(n.createdAt, now)))
  }

  // ---------------------------------------------------------------------
  // ai_templates (utils/db/schema.ts:232-249)

  datatype AiTemplate = AiTemplate(
    userId: Uuid, name: string, templateType: TemplateType, industry: Option<string>, tone: string,
    language: Option<string>, templateContent: string, variables: Option<Json>,
    usageCount: Option<Int32>, isPublic: Option<bool>, rating: Option<Decimal>,
    createdAt: Option<Timestamp>, updatedAt: Option<Timestamp>)

  datatype NewAiTemplate = NewAiTemplate(
    userId: Option<Uuid>, name: Option<string>, templateType: Option<string>, industry: Option<string>,
    tone: Option<string>, language: Input<Option<string>>, templateContent: Option<string>,
    variables: Input<Option<Json>>, usageCount: Input<Option<int>>, isPublic: Input<Option<bool>>,
    rating: Input<Option<Decimal>>, createdAt: Input<Option<Timestamp>>, updatedAt: Input<Option<Timestamp>>)

  predicate AiTemplateFits(t: AiTemplate) {
    |t.name| <= 255 && OptFits(t.industry, 100) && |t.tone| <= 50 && OptFits(t.language, 10)
  }

  /** The template rows the database takes: user_id, name, template_type,
      tone and template_content given, the type among the enum's labels,
      the texts storable and usage_count within `integer`. */
  predicate AiTemplateAccepted(n: NewAiTemplate) {
    && n.userId.Some? && n.name.Some? && n.templateType.Some? && n.tone.Some? && n.templateContent.Some?
    && Storable(n.name.value, 255) && ParseTemplateType(n.templateType.value).Some?
    && OptStorable(n.industry, 100) && Storable(n.tone.value, 50) && GivenStorable(n.language, 10)
    && (n.usageCount.Given? ==> OptInInt32(n.usageCount.value))
  }

  function MaterializeAiTemplate(n: NewAiTemplate, now: Timestamp): (r: Result<AiTemplate, DbError>)
    ensures r.Success? <==> AiTemplateAccepted(n)
    ensures r.Success? ==> AiTemplateFits(r.value)
    ensures r.Success? ==>
      && Some(r.value.userId) == n.userId && Kept(n.name.value, r.value.name, 255)
      && r.value.templateType.Label() == n.templateType.value
      && OptKept(n.industry, r.value.industry, 100) && Kept(n.tone.value, r.value.tone, 50)
      && Some(r.value.templateContent) == n.templateContent
    ensures r.Success? && n.language.Given? ==> OptKept(n.language.value, r.value.language, 10)
    ensures r.Success? && n.usageCount.Given? ==> OptIntKept(n.usageCount.value, r.value.usageCount)
    ensures r.Success? && n.language == Omitted ==> r.value.language == Some("ja")
    ensures r.Success? && n.variables == Omitted ==> r.value.variables == Some("[]")
    ensures r.Success? && n.usageCount == Omitted ==> r.value.usageCount == Some(0)
    ensures r.Success? && n.rating == Omitted ==> r.value.rating == Some("0.0")
    ensures r.Success? ==>
      && StoredOrDefault(n.variables, "[]", r.value.variables)
      && StoredOrDefault(n.isPublic, false, r.value.isPublic)
      && StoredOrDefault(n.rating, "0.0", r.value.rating)
    ensures r.Success? ==> StoredOrDefault(n.createdAt, now, r.value.createdAt) && StoredOrDefault(n.updatedAt, now, r.value.updatedAt)
  {
    var userId :- Required(n.userId, Column("ai_templates", "user_id"));
    var name :- ReqVarchar(n.name, 255, Column("ai_templates", "name"));
    var typeText :- Required(n.templateType, Column("ai_templates", "template_type"));
    var templateType :- EnumValue(typeText, ParseTemplateType(typeText), "template_type");
    var industry :- OptVarchar(n.industry, 100, Column("ai_templates", "industry"));
    var tone :- ReqVarchar(n.tone, 50, Column("ai_templates", "tone"));
    var language :- OptVarchar(Defaulted(n.language, "ja"), 10, Column("ai_templates", "language"));
    var content :- Required(n.templateContent, Column("ai_templates", "template_content"));
    var usageCount :- OptInt(Defaulted(n.usageCount, 0), Column("ai_templates", "usage_count"));
    Success(AiTemplate(userId, name, templateType, industry, tone, language, content,
                       Defaulted(n.variables, "[]"), usageCount, Defaulted(n.isPublic, false),
                       Defaulted(n.rating, "0.0"), Defaulted(n.createdAt, now), Defaulted(n.updatedAt, now)))
  }

  // ---------------------------------------------------------------------
  // ai_generations (utils/db/schema.ts:251-267)

  datatype AiGeneration = AiGeneration(
    userId: Uuid, templateId: Option<Uuid>, inputData: Json, generatedContent: string,
    promptTokens: Option<Int32>, completionTokens: Option<Int32>, totalTokens: Option<Int32>,
    modelUsed: Option<string>, generationTimeMs: Option<Int32>, costUsd: Option<Decimal>,
    qualityRating: Option<Int32>, createdAt: Option<Timestamp>)

  datatype NewAiGeneration = NewAiGeneration(
    userId: Option<Uuid>, templateId: Option<Uuid>, inputData: Option<Json>, generatedContent: Option<string>,
    promptTokens: Option<int>, completionTokens: Option<int>, totalTokens: Option<int>,
    modelUsed: Option<string>, generationTimeMs: Option<int>, costUsd: Option<Decimal>,
    qualityRating: Option<int>, createdAt: Input<Option<Timestamp>>)

  predicate AiGenerationFits(g: AiGeneration) {
    OptFits(g.modelUsed, 50)
  }

  /** The generation rows the database takes: user_id, input_data and
      generated_content given, model_used storable and every count within
      `integer`. */
  predicate AiGenerationAccepted(n: NewAiGeneration) {
    && n.userId.Some? && n.inputData.Some? && n.generatedContent.Some?
    && OptInInt32(n.promptTokens) && OptInInt32(n.completionTokens) && OptInInt32(n.totalTokens)
    && OptStorable(n.modelUsed, 50) && OptInInt32(n.generationTimeMs) && OptInInt32(n.qualityRating)
  }

  function MaterializeAiGeneration(n: NewAiGeneration, now: Timestamp): (r: Result<AiGeneration, DbError>)
    ensures r.Success? <==> AiGenerationAccepted(n)
    ensures r.Success? ==> AiGenerationFits(r.value)
    ensures r.Success? ==>
      && Some(r.value.userId) == n.userId && r.value.templateId == n.templateId
      && Some(r.value.inputData) == n.inputData && Some(r.value.generatedContent) == n.generatedContent
      && OptIntKept(n.promptTokens, r.value.promptTokens)
      && OptIntKept(n.completionTokens, r.value.completionTokens)
      && OptIntKept(n.totalTokens, r.value.totalTokens)
      && OptKept(n.modelUsed, r.value.modelUsed, 50)
      && OptIntKept(n.generationTimeMs, r.value.generationTimeMs)
      && OptIntKept(n.qualityRating, r.value.qualityRating) && r.value.costUsd == n.costUsd
    ensures r.Success? ==> StoredOrDefault(n.createdAt, now, r.value.createdAt)
  {
    var userId :- Required(n.userId, Column("ai_generations", "user_id"));
    var inputData :- Required(n.inputData, Column("ai_generations", "input_data"));
    var content :- Required(n.generatedContent, Column("ai_generations", "generated_content"));
    var promptTokens :- OptInt(n.promptTokens, Column("ai_generations", "prompt_tokens"));
    var completionTokens :- OptInt(n.completionTokens, Column("ai_generations", "completion_tokens"));
    var totalTokens :- OptInt(n.totalTokens, Column("ai_generations", "total_tokens"));
    var modelUsed :- OptVarchar(n.modelUsed, 50, Column("ai_generations", "model_used"));
    var timeMs :- OptInt(n.generationTimeMs, Column("ai_generations", "generation_time_ms"));
    var quality :- OptInt(n.qualityRating, Column("ai_generations", "quality_rating"));
    Success(AiGeneration(userId, n.templateId, inputData, content, promptTokens, completionTokens,
                         totalTokens, modelUsed, timeMs, n.costUsd, quality, Defaulted(n.createdAt, now)))
  }

  // ---------------------------------------------------------------------
  // audit_logs (utils/db/schema.ts:270-283)

  datatype AuditLog = AuditLog(
    userId: Option<Uuid>, tableName: string, recordId: Uuid, action: string,
    oldValues: Option<Json>, newValues: Option<Json>, ipAddress: Option<Inet>, userAgent: Option<string>,
    createdAt: Option<Timestamp>)

  datatype NewAuditLog = NewAuditLog(
    userId: Option<Uuid>, tableName: Option<string>, recordId: Option<Uuid>, action: Option<string>,
    oldValues: Option<Json>, newValues: Option<Json>, ipAddress: Option<Inet>, userAgent: Option<string>,
    createdAt: Input<Option<Timestamp>>)

  predicate AuditLogFits(a: AuditLog) {
    |a.tableName| <= 100 && |a.action| <= 20
  }

  /** The audit rows the database takes: table_name, record_id and action
      given, and the texts storable. */
  predicate AuditLogAccepted(n: NewAuditLog) {
    && n.tableName.Some? && n.recordId.Some? && n.action.Some?
    && Storable(n.tableName.value, 100) && Storable(n.action.value, 20)
  }

  function MaterializeAuditLog(n: NewAuditLog, now: Timestamp): (r: Result<AuditLog, DbError>)
    ensures r.Success? <==> AuditLogAccepted(n)
    ensures r.Success? ==> AuditLogFits(r.value)
    ensures r.Success? ==>
      && r.value.userId == n.userId && Kept(n.tableName.value, r.value.tableName, 100)
      && Some(r.value.recordId) == n.recordId && Kept(n.action.value, r.value.action, 20)
      && r.value.oldValues == n.oldValues && r.value.newValues == n.newValues
      && r.value.ipAddress == n.ipAddress && r.value.userAgent == n.userAgent
    ensures r.Success? ==> StoredOrDefault(n.createdAt, now, r.value.createdAt)
  {
    var tableName :- ReqVarchar(n.tableName, 100, Column("audit_logs", "table_name"));
    var recordId :- Required(n.recordId, Column("audit_logs", "record_id"));
    var action :- ReqVarchar(n.action, 20, Column("audit_logs", "action"));
    Success(AuditLog(n.userId, tableName, recordId, action, n.oldValues, n.newValues, n.ipAddress,
                     n.userAgent, Defaulted(n.createdAt, now)))
  }

  // ---------------------------------------------------------------------
  // system_logs (utils/db/schema.ts:285-297)

  datatype SystemLog = SystemLog(
    level: LogLevel, message: string, moduleName: Option<string>, functionName: Option<string>,
    lineNumber: Option<Int32>, context: Option<Json>, traceId: Option<string>, createdAt: Option<Timestamp>)

  datatype NewSystemLog = NewSystemLog(
    level: Option<string>, message: Option<string>, moduleName: Option<string>, functionName: Option<string>,
    lineNumber: Option<int>, context: Option<Json>, traceId: Option<string>, createdAt: Input<Option<Timestamp>>)

  predicate SystemLogFits(l: SystemLog) {
    OptFits(l.moduleName, 100) && OptFits(l.functionName, 100) && OptFits(l.traceId, 100)
  }

  /** The system log rows the database takes: level and message given, the
      level among the enum's labels, the texts storable and line_number
      within `integer`. */
  predicate SystemLogAccepted(n: NewSystemLog) {
    && n.level.Some? && n.message.Some? && ParseLogLevel(n.level.value).Some?
    && OptStorable(n.moduleName, 100) && OptStorable(n.functionName, 100)
    && OptInInt32(n.lineNumber) && OptStorable(n.traceId, 100)
  }

  function MaterializeSystemLog(n: NewSystemLog, now: Timestamp): (r: Result<SystemLog, DbError>)
    ensures r.Success? <==> SystemLogAccepted(n)
    ensures r.Success? ==> SystemLogFits(r.value)
    ensures r.Success? ==>
      && r.value.level.Label() == n.level.value && Some(r.value.message) == n.message
      && OptKept(n.moduleName, r.value.moduleName, 100) && OptKept(n.functionName, r.value.functionName, 100)
      && OptIntKept(n.lineNumber, r.value.lineNumber) && OptKept(n.traceId, r.value.traceId, 100)
      && r.value.context == n.context
    ensures r.Success? ==> StoredOrDefault(n.createdAt, now, r.value.createdAt)
  {
    var levelText :- Required(n.level, Column("system_logs", "level"));
    var level :- EnumValue(levelText, ParseLogLevel(levelText), "log_level");
    var message :- Required(n.message, Column("system_logs", "message"));
    var moduleName :- OptVarchar(n.moduleName, 100, Column("system_logs", "module"));
    var functionName :- OptVarchar(n.functionName, 100, Column("system_logs", "function_name"));
    var lineNumber :- OptInt(n.lineNumber, Column("system_logs", "line_number"));
    var traceId :- OptVarchar(n.traceId, 100, Column("system_logs", "trace_id"));
    Success(SystemLog(level, message, moduleName, functionName, lineNumber, n.context, traceId,
                      Defaulted(n.createdAt, now)))
  }
}
