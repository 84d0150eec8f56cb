/** The database of utils/db/schema.ts as a value: one map per table from
    the row's `id` to the rest of the row, the integrity rules the schema
    declares, and the effect of the statements the application issues
    (single and multi-row INSERT, DELETE with its foreign-key actions, and
    the subscription status UPDATE). Module Storage runs these against a
    mutable store; module Integrity proves what they preserve. */
module Tables {
  import opened Wrappers
  import opened SchemaEnums
  import opened SchemaRows

  datatype Db = Db(
    users: map<Uuid, User>,
    subscriptions: map<Uuid, Subscription>,
    usageMetrics: map<Uuid, UsageMetric>,
    companies: map<Uuid, Company>,
    contacts: map<Uuid, CompanyContact>,
    lists: map<Uuid, CompanyList>,
    listItems: map<Uuid, CompanyListItem>,
    campaigns: map<Uuid, Campaign>,
    activities: map<Uuid, SalesActivity>,
    emails: map<Uuid, EmailActivity>,
    forms: map<Uuid, FormActivity>,
    templates: map<Uuid, AiTemplate>,
    generations: map<Uuid, AiGeneration>,
    auditLogs: map<Uuid, AuditLog>,
    systemLogs: map<Uuid, SystemLog>)

  const Empty := Db(map[], map[], map[], map[], map[], map[], map[], map[], map[], map[], map[], map[], map[], map[], map[])

  datatype Table =
    | Users | Subscriptions | UsageMetrics | Companies | CompanyContacts | CompanyLists
    | CompanyListItems | Campaigns | SalesActivities | EmailActivities | FormActivities
    | AiTemplates | AiGenerations | AuditLogs | SystemLogs

  /** A complete row of one of the tables. */
  datatype Row =
    | UserRow(user: User)
    | SubscriptionRow(subscription: Subscription)
    | UsageMetricRow(usageMetric: UsageMetric)
    | CompanyRow(company: Company)
    | CompanyContactRow(contact: CompanyContact)
    | CompanyListRow(list: CompanyList)
    | CompanyListItemRow(listItem: CompanyListItem)
    | CampaignRow(campaign: Campaign)
    | SalesActivityRow(activity: SalesActivity)
    | EmailActivityRow(email: EmailActivity)
    | FormActivityRow(form: FormActivity)
    | AiTemplateRow(template: AiTemplate)
    | AiGenerationRow(generation: AiGeneration)
    | AuditLogRow(auditLog: AuditLog)
    | SystemLogRow(systemLog: SystemLog)

  function TableOf(r: Row): Table {
    match r
    case UserRow(_) => Users
    case SubscriptionRow(_) => Subscriptions
    case UsageMetricRow(_) => UsageMetrics
    case CompanyRow(_) => Companies
    case CompanyContactRow(_) => CompanyContacts
    case CompanyListRow(_) => CompanyLists
    case CompanyListItemRow(_) => CompanyListItems
    case CampaignRow(_) => Campaigns
    case SalesActivityRow(_) => SalesActivities
    case EmailActivityRow(_) => EmailActivities
    case FormActivityRow(_) => FormActivities
    case AiTemplateRow(_) => AiTemplates
    case AiGenerationRow(_) => AiGenerations
    case AuditLogRow(_) => AuditLogs
    case SystemLogRow(_) => SystemLogs
  }

  /** The ids present in table `t`. */
  function Keys(db: Db, t: Table): set<Uuid> {
    match t
    case Users => db.users.Keys
    case Subscriptions => db.subscriptions.Keys
    case UsageMetrics => db.usageMetrics.Keys
    case Companies => db.companies.Keys
    case CompanyContacts => db.contacts.Keys
    case CompanyLists => db.lists.Keys
    case CompanyListItems => db.listItems.Keys
    case Campaigns => db.campaigns.Keys
    case SalesActivities => db.activities.Keys
    case EmailActivities => db.emails.Keys
    case FormActivities => db.forms.Keys
    case AiTemplates => db.templates.Keys
    case AiGenerations => db.generations.Keys
    case AuditLogs => db.auditLogs.Keys
    case SystemLogs => db.systemLogs.Keys
  }

  /** The row stored under `id` in table `t`, if there is one. */
  function Lookup(db: Db, t: Table, id: Uuid): (r: Option<Row>)
    ensures r.Some? <==> id in Keys(db, t)
    ensures r.Some? ==> TableOf(r.value) == t
  {
    match t
    case Users => if id in db.users then Some(UserRow(db.users[id])) else None
    case Subscriptions => if id in db.subscriptions then Some(SubscriptionRow(db.subscriptions[id])) else None
    case UsageMetrics => if id in db.usageMetrics then Some(UsageMetricRow(db.usageMetrics[id])) else None
    case Companies => if id in db.companies then Some(CompanyRow(db.companies[id])) else None
    case CompanyContacts => if id in db.contacts then Some(CompanyContactRow(db.contacts[id])) else None
    case CompanyLists => if id in db.lists then Some(CompanyListRow(db.lists[id])) else None
    case CompanyListItems => if id in db.listItems then Some(CompanyListItemRow(db.listItems[id])) else None
    case Campaigns => if id in db.campaigns then Some(CampaignRow(db.campaigns[id])) else None
    case SalesActivities => if id in db.activities then Some(SalesActivityRow(db.activities[id])) else None
    case EmailActivities => if id in db.emails then Some(EmailActivityRow(db.emails[id])) else None
    case FormActivities => if id in db.forms then Some(FormActivityRow(db.forms[id])) else None
    case AiTemplates => if id in db.templates then Some(AiTemplateRow(db.templates[id])) else None
    case AiGenerations => if id in db.generations then Some(AiGenerationRow(db.generations[id])) else None
    case AuditLogs => if id in db.auditLogs then Some(AuditLogRow(db.auditLogs[id])) else None
    case SystemLogs => if id in db.systemLogs then Some(SystemLogRow(db.systemLogs[id])) else None
  }

  /** `db` with row `r` stored under `id` in its table. */
  function Put(db: Db, id: Uuid, r: Row): Db {
    match r
    case UserRow(x) => db.(users := db.users[id := x])
    case SubscriptionRow(x) => db.(subscriptions := db.subscriptions[id := x])
    case UsageMetricRow(x) => db.(usageMetrics := db.usageMetrics[id := x])
    case CompanyRow(x) => db.(companies := db.companies[id := x])
    case CompanyContactRow(x) => db.(contacts := db.contacts[id := x])
    case CompanyListRow(x) => db.(lists := db.lists[id := x])
    case CompanyListItemRow(x) => db.(listItems := db.listItems[id := x])
    case CampaignRow(x) => db.(campaigns := db.campaigns[id := x])
    case SalesActivityRow(x) => db.(activities := db.activities[id := x])
    case EmailActivityRow(x) => db.(emails := db.emails[id := x])
    case FormActivityRow(x) => db.(forms := db.forms[id := x])
    case AiTemplateRow(x) => db.(templates := db.templates[id := x])
    case AiGenerationRow(x) => db.(generations := db.generations[id := x])
    case AuditLogRow(x) => db.(auditLogs := db.auditLogs[id := x])
    case SystemLogRow(x) => db.(systemLogs := db.systemLogs[id := x])
  }

  // ---------------------------------------------------------------------
  // Integrity rules. Each rule is stated over the maps it mentions, so that
  // a statement touching one table leaves the other rules' terms unchanged.

  // Foreign keys: every NOT NULL reference names an existing row; every
  // nullable one is null or names an existing row.

  predicate SubscriptionOwnersExist(m: map<Uuid, Subscription>, users: map<Uuid, User>) {
    forall k :: k in m ==> m[k].userId in users
  }
  predicate UsageOwnersExist(m: map<Uuid, UsageMetric>, users: map<Uuid, User>) {
    forall k :: k in m ==> m[k].userId in users
  }
  predicate CompanyOwnersExist(m: map<Uuid, Company>, users: map<Uuid, User>) {
    forall k :: k in m ==> m[k].userId in users
  }
  predicate ListOwnersExist(m: map<Uuid, CompanyList>, users: map<Uuid, User>) {
    forall k :: k in m ==> m[k].userId in users
  }
  predicate CampaignOwnersExist(m: map<Uuid, Campaign>, users: map<Uuid, User>) {
    forall k :: k in m ==> m[k].userId in users
  }
  predicate TemplateOwnersExist(m: map<Uuid, AiTemplate>, users: map<Uuid, User>) {
    forall k :: k in m ==> m[k].userId in users
  }
  predicate GenerationOwnersExist(m: map<Uuid, AiGeneration>, users: map<Uuid, User>) {
    forall k :: k in m ==> m[k].userId in users
  }
  predicate AuditUsersExist(m: map<Uuid, AuditLog>, users: map<Uuid, User>) {
    forall k :: k in m && m[k].userId.Some? ==> m[k].userId.value in users
  }
  predicate ContactCompaniesExist(m: map<Uuid, CompanyContact>, companies: map<Uuid, Company>) {
    forall k :: k in m ==> m[k].companyId in companies
  }
  predicate ItemCompaniesExist(m: map<Uuid, CompanyListItem>, companies: map<Uuid, Company>) {
    forall k :: k in m ==> m[k].companyId in companies
  }
  predicate ActivityCompaniesExist(m: map<Uuid, SalesActivity>, companies: map<Uuid, Company>) {
    forall k :: k in m ==> m[k].companyId in companies
  }
  predicate ItemListsExist(m: map<Uuid, CompanyListItem>, lists: map<Uuid, CompanyList>) {
    forall k :: k in m ==> m[k].listId in lists
  }
  predicate CampaignListsExist(m: map<Uuid, Campaign>, lists: map<Uuid, CompanyList>) {
    forall k :: k in m ==> m[k].listId in lists
  }
  predicate ActivityCampaignsExist(m: map<Uuid, SalesActivity>, campaigns: map<Uuid, Campaign>) {
    forall k :: k in m ==> m[k].campaignId in campaigns
  }
  predicate EmailActivitiesExist(m: map<Uuid, EmailActivity>, activities: map<Uuid, SalesActivity>) {
    forall k :: k in m ==> m[k].activityId in activities
  }
  predicate FormActivitiesExist(m: map<Uuid, FormActivity>, activities: map<Uuid, SalesActivity>) {
    forall k :: k in m ==> m[k].activityId in activities
  }
  predicate GenerationTemplatesExist(m: map<Uuid, AiGeneration>, templates: map<Uuid, AiTemplate>) {
    forall k :: k in m && m[k].templateId.Some? ==> m[k].templateId.value in templates
  }

  predicate OwnersExist(db: Db) {
    && SubscriptionOwnersExist(db.subscriptions, db.users)
    && UsageOwnersExist(db.usageMetrics, db.users)
    && CompanyOwnersExist(db.companies, db.users)
    && ListOwnersExist(db.lists, db.users)
    && CampaignOwnersExist(db.campaigns, db.users)
    && TemplateOwnersExist(db.templates, db.users)
    && GenerationOwnersExist(db.generations, db.users)
    && AuditUsersExist(db.auditLogs, db.users)
  }

  predicate ReferencesExist(db: Db) {
    && OwnersExist(db)
    && ContactCompaniesExist(db.contacts, db.companies)
    && ItemCompaniesExist(db.listItems, db.companies)
    && ActivityCompaniesExist(db.activities, db.companies)
    && ItemListsExist(db.listItems, db.lists)
    && CampaignListsExist(db.campaigns, db.lists)
    && ActivityCampaignsExist(db.activities, db.campaigns)
    && EmailActivitiesExist(db.emails, db.activities)
    && FormActivitiesExist(db.forms, db.activities)
    && GenerationTemplatesExist(db.generations, db.templates)
  }

  // Unique constraints.

  predicate UsersUnique(m: map<Uuid, User>) {
    forall a, b :: a in m && b in m && a != b ==>
      m[a].email != m[b].email && m[a].supabaseUserId != m[b].supabaseUserId
  }

  /** NULLs never clash: only present subscription ids must differ. */
  predicate SubscriptionsUnique(m: map<Uuid, Subscription>) {
    forall a, b :: a in m && b in m && a != b && m[a].stripeSubscriptionId.Some? ==>
      m[a].stripeSubscriptionId != m[b].stripeSubscriptionId
  }

  predicate UsageMetricsUnique(m: map<Uuid, UsageMetric>) {
    forall a, b :: a in m && b in m && a != b ==>
      (m[a].userId, m[a].metricType, m[a].periodStart) != (m[b].userId, m[b].metricType, m[b].periodStart)
  }

  predicate ListItemsUnique(m: map<Uuid, CompanyListItem>) {
    forall a, b :: a in m && b in m && a != b ==>
      (m[a].listId, m[a].companyId) != (m[b].listId, m[b].companyId)
  }

  predicate EmailsUnique(m: map<Uuid, EmailActivity>) {
    forall a, b :: a in m && b in m && a != b && m[a].trackingId.Some? ==>
      m[a].trackingId != m[b].trackingId
  }

  predicate UniqueConstraintsHold(db: Db) {
    UsersUnique(db.users) && SubscriptionsUnique(db.subscriptions) && UsageMetricsUnique(db.usageMetrics)
    && ListItemsUnique(db.listItems) && EmailsUnique(db.emails)
  }

  /** The schema's integrity rules: the invariant of every reachable state. */
  predicate Consistent(db: Db) {
    ReferencesExist(db) && UniqueConstraintsHold(db)
  }

  // ---------------------------------------------------------------------
  // INSERT

  /** The constraint a row would break if stored under `id`, table by table:
      the primary key first, then the unique constraints, then the foreign
      keys (which PostgreSQL checks after the row is in place). */
  function UserViolation(db: Db, id: Uuid, x: User): Option<DbError> {
    if id in db.users then Some(UniqueViolation("users_pkey"))
    else if exists k :: k in db.users && db.users[k].supabaseUserId == x.supabaseUserId then
      Some(UniqueViolation("users_supabase_user_id_unique"))
    else if exists k :: k in db.users && db.users[k].email == x.email then Some(UniqueViolation("users_email_unique"))
    else None
  }

  function SubscriptionViolation(db: Db, id: Uuid, x: Subscription): Option<DbError> {
    if id in db.subscriptions then Some(UniqueViolation("subscriptions_pkey"))
    else if x.stripeSubscriptionId.Some? &&
            exists k :: k in db.subscriptions && db.subscriptions[k].stripeSubscriptionId == x.stripeSubscriptionId then
      Some(UniqueViolation("subscriptions_stripe_subscription_id_unique"))
    else if x.userId !in db.users then Some(ForeignKeyViolation("subscriptions_user_id_users_id_fk"))
    else None
  }

  function UsageMetricViolation(db: Db, id: Uuid, x: UsageMetric): Option<DbError> {
    if id in db.usageMetrics then Some(UniqueViolation("usage_metrics_pkey"))
    else if exists k :: k in db.usageMetrics && db.usageMetrics[k].userId == x.userId
              && db.usageMetrics[k].metricType == x.metricType && db.usageMetrics[k].periodStart == x.periodStart then
      Some(UniqueViolation("usage_metrics_user_metric_period_unique"))
    else if x.userId !in db.users then Some(ForeignKeyViolation("usage_metrics_user_id_users_id_fk"))
    else None
  }

  function CompanyViolation(db: Db, id: Uuid, x: Company): Option<DbError> {
    if id in db.companies then Some(UniqueViolation("companies_pkey"))
    else if x.userId !in db.users then Some(ForeignKeyViolation("companies_user_id_users_id_fk"))
    else None
  }

  function ContactViolation(db: Db, id: Uuid, x: CompanyContact): Option<DbError> {
    if id in db.contacts then Some(UniqueViolation("company_contacts_pkey"))
    else if x.companyId !in db.companies then Some(ForeignKeyViolation("company_contacts_company_id_companies_id_fk"))
    else None
  }

  function ListViolation(db: Db, id: Uuid, x: CompanyList): Option<DbError> {
    if id in db.lists then Some(UniqueViolation("company_lists_pkey"))
    else if x.userId !in db.users then Some(ForeignKeyViolation("company_lists_user_id_users_id_fk"))
    else None
  }

  function ListItemViolation(db: Db, id: Uuid, x: CompanyListItem): Option<DbError> {
    if id in db.listItems then Some(UniqueViolation("company_list_items_pkey"))
    else if exists k :: k in db.listItems && db.listItems[k].listId == x.listId && db.listItems[k].companyId == x.companyId then
      Some(UniqueViolation("company_list_items_list_company_unique"))
    else if x.listId !in db.lists then Some(ForeignKeyViolation("company_list_items_list_id_company_lists_id_fk"))
    else if x.companyId !in db.companies then Some(ForeignKeyViolation("company_list_items_company_id_companies_id_fk"))
    else None
  }

  function CampaignViolation(db: Db, id: Uuid, x: Campaign): Option<DbError> {
    if id in db.campaigns then Some(UniqueViolation("campaigns_pkey"))
    else if x.userId !in db.users then Some(ForeignKeyViolation("campaigns_user_id_users_id_fk"))
    else if x.listId !in db.lists then Some(ForeignKeyViolation(CampaignListConstraint))
    else None
  }

  function ActivityViolation(db: Db, id: Uuid, x: SalesActivity): Option<DbError> {
    if id in db.activities then Some(UniqueViolation("sales_activities_pkey"))
    else if x.campaignId !in db.campaigns then Some(ForeignKeyViolation("sales_activities_campaign_id_campaigns_id_fk"))
    else if x.companyId !in db.companies then Some(ForeignKeyViolation("sales_activities_company_id_companies_id_fk"))
    else None
  }

  function EmailViolation(db: Db, id: Uuid, x: EmailActivity): Option<DbError> {
    if id in db.emails then Some(UniqueViolation("email_activities_pkey"))
    else if x.trackingId.Some? && exists k :: k in db.emails && db.emails[k].trackingId == x.trackingId then
      Some(UniqueViolation("email_activities_tracking_id_unique"))
    else if x.activityId !in db.activities then
      Some(ForeignKeyViolation("email_activities_activity_id_sales_activities_id_fk"))
    else None
  }

  function FormViolation(db: Db, id: Uuid, x: FormActivity): Option<DbError> {
    if id in db.forms then Some(UniqueViolation("form_activities_pkey"))
    else if x.activityId !in db.activities then
      Some(ForeignKeyViolation("form_activities_activity_id_sales_activities_id_fk"))
    else None
  }

  function TemplateViolation(db: Db, id: Uuid, x: AiTemplate): Option<DbError> {
    if id in db.templates then Some(UniqueViolation("ai_templates_pkey"))
    else if x.userId !in db.users then Some(ForeignKeyViolation("ai_templates_user_id_users_id_fk"))
    else None
  }

  function GenerationViolation(db: Db, id: Uuid, x: AiGeneration): Option<DbError> {
    if id in db.generations then Some(UniqueViolation("ai_generations_pkey"))
    else if x.userId !in db.users then Some(ForeignKeyViolation("ai_generations_user_id_users_id_fk"))
    else if x.templateId.Some? && x.templateId.value !in db.templates then
      Some(ForeignKeyViolation("ai_generations_template_id_ai_templates_id_fk"))
    else None
  }

  function AuditLogViolation(db: Db, id: Uuid, x: AuditLog): Option<DbError> {
    if id in db.auditLogs then Some(UniqueViolation("audit_logs_pkey"))
    else if x.userId.Some? && x.userId.value !in db.users then Some(ForeignKeyViolation("audit_logs_user_id_users_id_fk"))
    else None
  }

  function SystemLogViolation(db: Db, id: Uuid, x: SystemLog): Option<DbError> {
    if id in db.systemLogs then Some(UniqueViolation("system_logs_pkey")) else None
  }

  function Violation(db: Db, id: Uuid, r: Row): Option<DbError> {
    match r
    case UserRow(x) => UserViolation(db, id, x)
    case SubscriptionRow(x) => SubscriptionViolation(db, id, x)
    case UsageMetricRow(x) => UsageMetricViolation(db, id, x)
    case CompanyRow(x) => CompanyViolation(db, id, x)
    case CompanyContactRow(x) => ContactViolation(db, id, x)
    case CompanyListRow(x) => ListViolation(db, id, x)
    case CompanyListItemRow(x) => ListItemViolation(db, id, x)
    case CampaignRow(x) => CampaignViolation(db, id, x)
    case SalesActivityRow(x) => ActivityViolation(db, id, x)
    case EmailActivityRow(x) => EmailViolation(db, id, x)
    case FormActivityRow(x) => FormViolation(db, id, x)
    case AiTemplateRow(x) => TemplateViolation(db, id, x)
    case AiGenerationRow(x) => GenerationViolation(db, id, x)
    case AuditLogRow(x) => AuditLogViolation(db, id, x)
    case SystemLogRow(x) => SystemLogViolation(db, id, x)
  }

  /** Storing a complete row: refused with the first violated constraint. */
  function InsertRow(db: Db, id: Uuid, r: Row): Result<Db, DbError> {
    match Violation(db, id, r)
    case Some(e) => Failure(e)
    case None => Success(Put(db, id, r))
  }

  /** A multi-row INSERT of converted rows: one statement, so either every
      row is stored or none is; each row is checked against the rows before
      it. */
  function InsertRows(db: Db, rows: seq<(Uuid, Row)>): Result<Db, DbError>
    decreases |rows|
  {
    if rows == [] then Success(db)
    else
      var next :- InsertRow(db, rows[0].0, rows[0].1);
      InsertRows(next, rows[1..])
  }

  // ---------------------------------------------------------------------
  // DELETE

  /** The rows one DELETE removes, table by table. */
  datatype Doomed = Doomed(
    users: set<Uuid>, subscriptions: set<Uuid>, usageMetrics: set<Uuid>, companies: set<Uuid>,
    contacts: set<Uuid>, lists: set<Uuid>, listItems: set<Uuid>, campaigns: set<Uuid>,
    activities: set<Uuid>, emails: set<Uuid>, forms: set<Uuid>, templates: set<Uuid>,
    generations: set<Uuid>, auditLogs: set<Uuid>, systemLogs: set<Uuid>)

  /** No row at all. */
  const NoRows := Doomed({}, {}, {}, {}, {}, {}, {}, {}, {}, {}, {}, {}, {}, {}, {})

  /** The rows removed by deleting row `id` of table `t`: the row itself and
      everything reached from it through ON DELETE CASCADE. The cascade graph
      has depth three (users, then companies, lists and campaigns, then sales
      activities, then their email and form rows), so the closure is written
      out root table by root table; Deletion.DoomedByClosed proves that
      nothing reachable is missed. */
  function DoomedBy(db: Db, t: Table, id: Uuid): Doomed {
    match t
    case Users =>
      var u := {id};
      var c := OwnedCompanies(db, u);
      var l := OwnedLists(db, u);
      var g := OwnedCampaigns(db, u);
      var a := ActivitiesOf(db, c, g);
      Doomed(u, OwnedSubscriptions(db, u), OwnedUsage(db, u), c, ContactsOf(db, c), l, ItemsOf(db, l, c), g, a,
             EmailsOf(db, a), FormsOf(db, a), OwnedTemplates(db, u), OwnedGenerations(db, u), {}, {})
    case Companies =>
      var a := ActivitiesOf(db, {id}, {});
      NoRows.(companies := {id}, contacts := ContactsOf(db, {id}), listItems := ItemsOf(db, {}, {id}),
              activities := a, emails := EmailsOf(db, a), forms := FormsOf(db, a))
    case CompanyLists =>
      NoRows.(lists := {id}, listItems := ItemsOf(db, {id}, {}))
    case Campaigns =>
      var a := ActivitiesOf(db, {}, {id});
      NoRows.(campaigns := {id}, activities := a, emails := EmailsOf(db, a), forms := FormsOf(db, a))
    case SalesActivities =>
      NoRows.(activities := {id}, emails := EmailsOf(db, {id}), forms := FormsOf(db, {id}))
    case Subscriptions => NoRows.(subscriptions := {id})
    case UsageMetrics => NoRows.(usageMetrics := {id})
    case CompanyContacts => NoRows.(contacts := {id})
    case CompanyListItems => NoRows.(listItems := {id})
    case EmailActivities => NoRows.(emails := {id})
    case FormActivities => NoRows.(forms := {id})
    case AiTemplates => NoRows.(templates := {id})
    case AiGenerations => NoRows.(generations := {id})
    case AuditLogs => NoRows.(auditLogs := {id})
    case SystemLogs => NoRows.(systemLogs := {id})
  }

  // The rows whose cascading reference points into a set of doomed parents.

  function OwnedSubscriptions(db: Db, u: set<Uuid>): set<Uuid> {
    set k | k in db.subscriptions && db.subscriptions[k].userId in u
  }

  function OwnedUsage(db: Db, u: set<Uuid>): set<Uuid> {
    set k | k in db.usageMetrics && db.usageMetrics[k].userId in u
  }

  function OwnedCompanies(db: Db, u: set<Uuid>): set<Uuid> {
    set k | k in db.companies && db.companies[k].userId in u
  }

  function OwnedLists(db: Db, u: set<Uuid>): set<Uuid> {
    set k | k in db.lists && db.lists[k].userId in u
  }

  function OwnedCampaigns(db: Db, u: set<Uuid>): set<Uuid> {
    set k | k in db.campaigns && db.campaigns[k].userId in u
  }

  function OwnedTemplates(db: Db, u: set<Uuid>): set<Uuid> {
    set k | k in db.templates && db.templates[k].userId in u
  }

  function OwnedGenerations(db: Db, u: set<Uuid>): set<Uuid> {
    set k | k in db.generations && db.generations[k].userId in u
  }

  function ActivitiesOf(db: Db, c: set<Uuid>, g: set<Uuid>): set<Uuid> {
    set k | k in db.activities && (db.activities[k].campaignId in g || db.activities[k].companyId in c)
  }

  function ContactsOf(db: Db, c: set<Uuid>): set<Uuid> {
    set k | k in db.contacts && db.contacts[k].companyId in c
  }

  function ItemsOf(db: Db, l: set<Uuid>, c: set<Uuid>): set<Uuid> {
    set k | k in db.listItems && (db.listItems[k].listId in l || db.listItems[k].companyId in c)
  }

  function EmailsOf(db: Db, a: set<Uuid>): set<Uuid> {
    set k | k in db.emails && db.emails[k].activityId in a
  }

  function FormsOf(db: Db, a: set<Uuid>): set<Uuid> {
    set k | k in db.forms && db.forms[k].activityId in a
  }

  /** A surviving generation loses its template when the template goes. */
  function DetachTemplate(g: AiGeneration, gone: set<Uuid>): AiGeneration {
    if g.templateId.Some? && g.templateId.value in gone then g.(templateId := None) else g
  }

  /** A surviving audit log entry loses its user when the user goes. */
  function DetachUser(e: AuditLog, gone: set<Uuid>): AuditLog {
    if e.userId.Some? && e.userId.value in gone then e.(userId := None) else e
  }

  /** The generations that stay, with ON DELETE SET NULL applied to their
      template reference. */
  function DetachedGenerations(m: map<Uuid, AiGeneration>, doomed: set<Uuid>, templates: set<Uuid>): map<Uuid, AiGeneration> {
    map k | k in m && k !in doomed :: DetachTemplate(m[k], templates)
  }

  /** The audit log entries that stay, with ON DELETE SET NULL applied to
      their user reference. */
  function DetachedAuditLogs(m: map<Uuid, AuditLog>, doomed: set<Uuid>, users: set<Uuid>): map<Uuid, AuditLog> {
    map k | k in m && k !in doomed :: DetachUser(m[k], users)
  }

  /** The doomed rows removed, and ON DELETE SET NULL applied to the rest. */
  function Cascade(db: Db, d: Doomed): Db {
    Db(
      db.users - d.users,
      db.subscriptions - d.subscriptions,
      db.usageMetrics - d.usageMetrics,
      db.companies - d.companies,
      db.contacts - d.contacts,
      db.lists - d.lists,
      db.listItems - d.listItems,
      db.campaigns - d.campaigns,
      db.activities - d.activities,
      db.emails - d.emails,
      db.forms - d.forms,
      db.templates - d.templates,
      DetachedGenerations(db.generations, d.generations, d.templates),
      DetachedAuditLogs(db.auditLogs, d.auditLogs, d.users),
      db.systemLogs - d.systemLogs)
  }

  /** A campaign that stays would be left pointing at a removed list: the
      ON DELETE RESTRICT of campaigns.list_id refuses the statement. */
  predicate Blocked(db: Db, d: Doomed) {
    exists k :: k in db.campaigns && k !in d.campaigns && db.campaigns[k].listId in d.lists
  }

  /** A campaign and the list it points at are both removed by the cascade
      from one user. Whether the RESTRICT check sees the campaign still
      present depends on the order PostgreSQL fires its constraint triggers,
      which is an input here. */
  predicate Contested(db: Db, d: Doomed) {
    exists k :: k in db.campaigns && k in d.campaigns && db.campaigns[k].listId in d.lists
  }

  const CampaignListConstraint := "campaigns_list_id_company_lists_id_fk"

  /** DELETE FROM t WHERE id = `id`. `restrictFirst` says whether, in a
      contested cascade, the RESTRICT check runs before the campaign row
      is removed. */
  function Delete(db: Db, t: Table, id: Uuid, restrictFirst: bool): Result<Db, DbError> {
    var d := DoomedBy(db, t, id);
    if Blocked(db, d) || (restrictFirst && Contested(db, d)) then Failure(RestrictViolation(CampaignListConstraint))
    else Success(Cascade(db, d))
  }

  // ---------------------------------------------------------------------
  // UPDATE subscriptions SET status = ..., updated_at = ... WHERE stripe_customer_id = ...

  /** What the update's `set` object carries for `status`: nothing (the key's
      value is undefined, which the query builder drops), SQL NULL, or text. */
  datatype StatusWrite = Unset | SetNull | SetText(text: string)

  function Restamp(s: Subscription, customer: string, status: Option<SubscriptionStatus>, now: Timestamp): Subscription {
    if s.stripeCustomerId != customer then s
    else if status.Some? then s.(status := status.value, updatedAt := Some(now))
    else s.(updatedAt := Some(now))
  }

  function Restamped(m: map<Uuid, Subscription>, customer: string, status: Option<SubscriptionStatus>, now: Timestamp): map<Uuid, Subscription> {
    map k | k in m :: Restamp(m[k], customer, status, now)
  }

  /** The UPDATE's effect. Text that is not a subscription_status label is
      refused while the statement's parameters are converted, whatever the
      rows; NULL is refused by NOT NULL only if some row matches. */
  function UpdateStatus(db: Db, customer: string, write: StatusWrite, now: Timestamp): Result<Db, DbError> {
    match write
    case Unset => Success(db.(subscriptions := Restamped(db.subscriptions, customer, None, now)))
    case SetNull =>
      if exists k :: k in db.subscriptions && db.subscriptions[k].stripeCustomerId == customer then
        Failure(NotNullViolation(Column("subscriptions", "status")))
      else Success(db)
    case SetText(t) =>
      match ParseSubscriptionStatus(t)
      case None => Failure(InvalidEnumValue("subscription_status", t))
      case Some(s) => Success(db.(subscriptions := Restamped(db.subscriptions, customer, Some(s), now)))
  }
}
