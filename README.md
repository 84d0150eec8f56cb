# A verified model of the sales-outreach SaaS core

This project models the parts of a Next.js sales-outreach application that have behaviour of their own, and proves properties about them in Dafny. It covers:

- **The relational store** declared in `utils/db/schema.ts`:
  - fifteen tables and nine enums;
  - column defaults, NOT NULL and `varchar(n)` limits;
  - unique constraints;
  - foreign keys with ON DELETE CASCADE, RESTRICT or SET NULL.

  Rows are records (module `SchemaRows`). The database is a record with one map per table (module `Tables`). The store that the application changes in place is the class `Storage.Store`. Its methods are proved to have the effect the statement specifications describe, and to keep the integrity rules (`Tables.Consistent`: every reference names an existing row, and every unique constraint holds). So the rules hold in every reachable state.
- **The billing webhook.** It exists twice: `functions/webhook/stripe.ts`, a Pages function, and `app/webhook/stripe/route.ts`, a route handler. Both are modelled. The update sets the status of every subscription of the event's Stripe customer. Any thrown error becomes a 400 answer.
- **The `createCompanyList` server action** (`app/dashboard/lists/actions.ts`). It checks the user and the form, inserts the list, parses the companies JSON and inserts the companies. The two inserts are separate statements.
- **The client-side rules:**
  - the mail form (`app/dashboard/mail/mail-management-client.tsx`): validation, the edit handler and the three guarded buttons;
  - the list-creation form (`CreateListForm.tsx`): validation, FormData assembly, submit and reset;
  - the link editor (`LinkInput.tsx`);
  - the CSV upload box (`FileUpload.tsx`);
  - the sidebar's active-entry rule (`components/DashboardSidebar.tsx`);
  - the OAuth callback's choice of redirect (`app/auth/callback/route.ts`).

Inputs the code cannot compute itself are parameters of the model:

- the clock (`now`) and generated ids (`newId`);
- the signed-in user;
- the outcome of `JSON.parse` and of `new URL` (`parse`, `parses`);
- the outcome of the session exchange;
- `NODE_ENV` and the `x-forwarded-host` header;
- how an awaited server action settles (`reply`), or whether an awaited step rejects (`rejects`);
- the order of PostgreSQL's constraint checks in a contested cascade (`restrictFirst`).

Behaviour of the code that a reader might not expect, and that the model keeps:

- The list action issues the list INSERT and the companies INSERT as two separate statements, with no transaction around them, so a failure in the companies step leaves the list row behind (`ListActions.ListKeptWhenCompaniesFail`).
- `companies` has no list column, and the action writes no `company_list_items` rows, so the companies it stores are not recorded as members of the new list (`ListActions.AttemptWritesListAndCompanies`).
- The schema declares fifteen tables, including `system_logs`.
- The list form never posts a `companies` field, so the server action always refuses what the form sends (`CreateListForm.SubmissionIsRefused`).

## Model

| member | source | states |
|---|---|---|
| SchemaEnums.ParseUserStatus | utils/db/schema.ts:19 | text is accepted as a user_status exactly when it is one of the enum's labels, and then yields the value with that label |
| SchemaEnums.ParseSubscriptionStatus | utils/db/schema.ts:20 | text is a subscription_status exactly when it is one of active, canceled, past_due, trialing, incomplete, and maps to the value with that label |
| SchemaEnums.ParseCompanyStatus | utils/db/schema.ts:21 | text is a company_status exactly when it is a label of the enum, and maps to that value |
| SchemaEnums.ParseCampaignType | utils/db/schema.ts:22 | text is a campaign_type exactly when it is a label of the enum, and maps to that value |
| SchemaEnums.ParseCampaignStatus | utils/db/schema.ts:23 | text is a campaign_status exactly when it is a label of the enum, and maps to that value |
| SchemaEnums.ParseActivityType | utils/db/schema.ts:24 | text is an activity_type exactly when it is a label of the enum, and maps to that value |
| SchemaEnums.ParseActivityStatus | utils/db/schema.ts:25 | text is an activity_status exactly when it is a label of the enum, and maps to that value |
| SchemaEnums.ParseTemplateType | utils/db/schema.ts:26 | text is a template_type exactly when it is a label of the enum, and maps to that value |
| SchemaEnums.ParseLogLevel | utils/db/schema.ts:27 | text is a log_level exactly when it is one of the upper-case labels, and maps to that value |
| SchemaRows.RequiredDefaulted | utils/db/schema.ts:70 | a NOT NULL column with a default takes the default when omitted, refuses an explicit null with a not-null violation, and keeps a given value |
| SchemaRows.Varchar | utils/db/schema.ts:33 | a `varchar(n)` value is accepted exactly when it has at most n characters or everything past n is spaces; the stored text is then the value itself when it fits and its first n characters otherwise, so it never exceeds n; any other value is refused as too long for the column |
| SchemaRows.Int | utils/db/schema.ts:70 | an `integer` column accepts exactly the values in [-2^31, 2^31) and stores them unchanged |
| SchemaRows.EnumValue | utils/db/schema.ts:39 | enum text converts exactly when it parses, to the parsed value; otherwise the error names the enum type and the text |
| SchemaRows.MaterializeUser | utils/db/schema.ts:30-46 | a row converts exactly when every NOT NULL column without a default is given, every text fits its varchar(n) (or overflows only by spaces), every enum text is a label of its type and every integer fits 32 bits; the stored row then keeps every given value (texts as their prefix of length min(len, n)), and omitted status, timezone, locale and created_at become 'active', 'Asia/Tokyo', 'ja' and now; an omitted created_at or updated_at becomes now, and a given one is kept |
| SchemaRows.MaterializeSubscription | utils/db/schema.ts:48-64 | a row converts exactly when every NOT NULL column without a default is given, every text fits its varchar(n) (or overflows only by spaces), every enum text is a label of its type and every integer fits 32 bits; the stored row then keeps every given value (texts as their prefix of length min(len, n)), here user_id, stripe_customer_id, plan_id and status are required and status is stored as the subscription_status label given; cancel_at_period_end defaults to false; an omitted created_at or updated_at becomes now, and a given one is kept |
| SchemaRows.MaterializeUsageMetric | utils/db/schema.ts:66-77 | a row converts exactly when every NOT NULL column without a default is given, every text fits its varchar(n) (or overflows only by spaces), every enum text is a label of its type and every integer fits 32 bits; the stored row then keeps every given value (texts as their prefix of length min(len, n)), here user_id, metric_type and both period bounds are required; metric_value defaults to 0 and an explicit null is refused; an omitted created_at becomes now, and a given one is kept |
| SchemaRows.MaterializeCompany | utils/db/schema.ts:80-105 | a row converts exactly when every NOT NULL column without a default is given, every text fits its varchar(n) (or overflows only by spaces), every enum text is a label of its type and every integer fits 32 bits; the stored row then keeps every given value (texts as their prefix of length min(len, n)), here user_id and name are required; status defaults to 'active' and country to 'Japan'; an omitted created_at or updated_at becomes now, and a given one is kept |
| SchemaRows.MaterializeCompanyContact | utils/db/schema.ts:107-123 | a row converts exactly when every NOT NULL column without a default is given, every text fits its varchar(n) (or overflows only by spaces), every enum text is a label of its type and every integer fits 32 bits; the stored row then keeps every given value (texts as their prefix of length min(len, n)), here company_id, contact_type and value are required; is_primary and is_verified default to false; an omitted created_at or updated_at becomes now, and a given one is kept |
| SchemaRows.MaterializeCompanyList | utils/db/schema.ts:125-138 | a list row converts exactly when user_id and name are given, the name fits varchar(255) (or overflows only by spaces) and a given total_companies fits 32 bits; it then keeps user_id, the name (cut to 255), description, tags, deleted_at and every given column, and total_companies defaults to 0, is_public to false, created_at and updated_at to now |
| SchemaRows.MaterializeCompanyListItem | utils/db/schema.ts:140-150 | a list item converts exactly when list_id and company_id are given and position fits 32 bits; it keeps both ids, position and custom_data, and added_at defaults to now; a given added_at is kept |
| SchemaRows.MaterializeCampaign | utils/db/schema.ts:153-172 | a row converts exactly when every NOT NULL column without a default is given, every text fits its varchar(n) (or overflows only by spaces), every enum text is a label of its type and every integer fits 32 bits; the stored row then keeps every given value (texts as their prefix of length min(len, n)), here user_id, list_id, name and campaign_type are required; status defaults to 'draft', success_count to 0, ai_config to '{}', rate_limit_config to the declared per-hour/per-day default; explicit null for ai_config or template_config is refused; schedule_config defaults to '{}'; an omitted created_at or updated_at becomes now, and a given one is kept |
| SchemaRows.MaterializeSalesActivity | utils/db/schema.ts:174-193 | a row converts exactly when every NOT NULL column without a default is given, every text fits its varchar(n) (or overflows only by spaces), every enum text is a label of its type and every integer fits 32 bits; the stored row then keeps every given value (texts as their prefix of length min(len, n)), here campaign_id, company_id, activity_type, status and channel are required and the enums are stored as the labels given; metadata defaults to '{}'; scheduled_at, executed_at and responded_at are kept; an omitted created_at or updated_at becomes now, and a given one is kept |
| SchemaRows.MaterializeEmailActivity | utils/db/schema.ts:195-215 | a row converts exactly when every NOT NULL column without a default is given, every text fits its varchar(n) (or overflows only by spaces), every enum text is a label of its type and every integer fits 32 bits; the stored row then keeps every given value (texts as their prefix of length min(len, n)), here activity_id, both addresses, subject and content are required; an absent tracking_id stays null; the event timestamps sent_at to bounced_at, bounce_reason and smtp_response are kept; an omitted created_at becomes now, and a given one is kept |
| SchemaRows.MaterializeFormActivity | utils/db/schema.ts:217-229 | a form activity converts exactly when activity_id, form_url and form_fields are given and recaptcha_version fits varchar(10); it keeps those values, error_message and response_html; success and has_recaptcha default to false; submitted_at is kept; an omitted created_at becomes now, and a given one is kept |
| SchemaRows.MaterializeAiTemplate | utils/db/schema.ts:232-249 | a row converts exactly when every NOT NULL column without a default is given, every text fits its varchar(n) (or overflows only by spaces), every enum text is a label of its type and every integer fits 32 bits; the stored row then keeps every given value (texts as their prefix of length min(len, n)), here user_id, name, template_type, tone and template_content are required; language defaults to 'ja', variables to '[]', usage_count to 0, rating to '0.0'; is_public defaults to false; an omitted created_at or updated_at becomes now, and a given one is kept |
| SchemaRows.MaterializeAiGeneration | utils/db/schema.ts:251-267 | a row converts exactly when every NOT NULL column without a default is given, every text fits its varchar(n) (or overflows only by spaces), every enum text is a label of its type and every integer fits 32 bits; the stored row then keeps every given value (texts as their prefix of length min(len, n)), here user_id, input_data and generated_content are required; template_id is kept as given; an omitted created_at becomes now, and a given one is kept |
| SchemaRows.MaterializeAuditLog | utils/db/schema.ts:270-283 | a row converts exactly when every NOT NULL column without a default is given, every text fits its varchar(n) (or overflows only by spaces), every enum text is a label of its type and every integer fits 32 bits; the stored row then keeps every given value (texts as their prefix of length min(len, n)), here table_name, record_id and action are required; user_id, old/new values, ip_address and user_agent are kept as given; an omitted created_at becomes now, and a given one is kept |
| SchemaRows.MaterializeSystemLog | utils/db/schema.ts:285-297 | a row converts exactly when every NOT NULL column without a default is given, every text fits its varchar(n) (or overflows only by spaces), every enum text is a label of its type and every integer fits 32 bits; the stored row then keeps every given value (texts as their prefix of length min(len, n)), here level and message are required and level is stored as the log_level label given; an omitted created_at becomes now, and a given one is kept |
| Integrity.InsertUserIff | utils/db/schema.ts:30-46 | in a consistent database a user row is accepted exactly when its id is new and the database with it stays consistent (supabase_user_id and email unique) |
| Integrity.InsertSubscriptionIff | utils/db/schema.ts:48-64 | a subscription is accepted exactly when its id is new and storing it keeps consistency: its user exists, and stripe_subscription_id is unique among non-null values |
| Integrity.InsertUsageMetricIff | utils/db/schema.ts:66-77 | a usage metric is accepted exactly when its id is new, its user exists and no row has the same (user, metric type, period start) |
| Integrity.InsertCompanyIff | utils/db/schema.ts:80-105 | a company is accepted exactly when its id is new and its user exists |
| Integrity.InsertContactIff | utils/db/schema.ts:107-123 | a contact is accepted exactly when its id is new and its company exists |
| Integrity.InsertListIff | utils/db/schema.ts:125-138 | a company list is accepted exactly when its id is new and its user exists |
| Integrity.InsertListItemIff | utils/db/schema.ts:140-150 | a list item is accepted exactly when its id is new, its list and company exist and no item has the same (list, company) |
| Integrity.InsertCampaignIff | utils/db/schema.ts:153-172 | a campaign is accepted exactly when its id is new and its user and its list exist (any user's list) |
| Integrity.InsertActivityIff | utils/db/schema.ts:174-193 | a sales activity is accepted exactly when its id is new and its campaign and company exist |
| Integrity.InsertEmailIff | utils/db/schema.ts:195-215 | an email activity is accepted exactly when its id is new, its sales activity exists and tracking_id is unique among non-null values (several rows may share an activity) |
| Integrity.InsertFormIff | utils/db/schema.ts:217-229 | a form activity is accepted exactly when its id is new and its sales activity exists |
| Integrity.InsertTemplateIff | utils/db/schema.ts:232-249 | an AI template is accepted exactly when its id is new and its user exists |
| Integrity.InsertGenerationIff | utils/db/schema.ts:251-267 | an AI generation is accepted exactly when its id is new, its user exists and its template, if any, exists |
| Integrity.InsertAuditLogIff | utils/db/schema.ts:270-283 | an audit entry is accepted exactly when its id is new and its user, if any, exists |
| Integrity.SystemLogsFree | utils/db/schema.ts:285-297 | system_logs has no reference and no unique column: any contents keep the database consistent |
| Integrity.InsertSystemLogRowIff | utils/db/schema.ts:285-297 | a system log row is accepted exactly when its id is new |
| Integrity.InsertRowIff | utils/db/schema.ts:30-297 | for every table, an INSERT of a converted row into a consistent database succeeds exactly when the id is new and the result is consistent, and then stores exactly that row |
| Integrity.InsertRowsPreservesConsistent | utils/db/schema.ts:30-297 | a multi-row INSERT that succeeds leaves a consistent database |
| Integrity.InsertRowsKeepsKeys | utils/db/schema.ts:30-297 | a multi-row INSERT removes no row that was present |
| Integrity.InsertRowsKeepsRows | utils/db/schema.ts:30-297 | a multi-row INSERT that succeeds leaves every row that was present unchanged |
| Integrity.InsertRowsStoresAll | utils/db/schema.ts:30-297 | a multi-row INSERT that succeeds has stored each of its rows, exactly as given, under that row's id in that row's table |
| Deletion.DoomedByClosed | utils/db/schema.ts:50-272 | the rows removed by a DELETE are closed under every ON DELETE CASCADE reference: no surviving row points at a removed parent through a cascading key |
| Deletion.CascadeKeepsOwners | utils/db/schema.ts:50-272 | a closed cascade leaves every owner reference (cascading or SET NULL) pointing at an existing row |
| Deletion.CascadeKeepsReferences | utils/db/schema.ts:50-272 | a closed cascade that no surviving campaign blocks keeps every foreign key satisfied |
| Deletion.CascadeKeepsUnique | utils/db/schema.ts:32-203 | removing rows and nulling references never breaks a unique constraint |
| Deletion.DeletePreservesConsistent | utils/db/schema.ts:50-272 | a DELETE that succeeds leaves every integrity rule in force |
| Deletion.ListDeleteRestricted | utils/db/schema.ts:156 | deleting a company list fails exactly when some campaign points at it |
| Deletion.ListDeleteKeepsCampaigns | utils/db/schema.ts:156 | a list delete that succeeds removes the list and leaves every campaign in place |
| Deletion.ListDeleteRemovesItems | utils/db/schema.ts:142 | a list delete that succeeds removes exactly the list's items |
| Deletion.UserDeleteCascades | utils/db/schema.ts:50-82 | deleting a user removes the user and exactly the subscriptions, usage metrics and companies the user owns |
| Deletion.UserDeleteCascadesToWork | utils/db/schema.ts:127-155 | deleting a user removes exactly the user's company lists and campaigns |
| Deletion.UserDeleteCascadesToAi | utils/db/schema.ts:234-253 | deleting a user removes exactly the user's AI templates and AI generations |
| Deletion.UserDeleteDetachesAuditLogs | utils/db/schema.ts:272 | deleting a user keeps every audit entry and sets user_id to null on exactly the user's own entries |
| Deletion.UserDeleteBlocked | utils/db/schema.ts:156 | a user delete is refused when another user's campaign points at one of the user's lists |
| Deletion.UserDeleteRefused | utils/db/schema.ts:156 | a user delete is refused, with the campaigns.list_id constraint, exactly when another user's campaign points at one of the user's lists, or the RESTRICT check runs first and one of the user's own campaigns does |
| Deletion.TemplateDeleteSucceeds | utils/db/schema.ts:254 | deleting an AI template is never refused and removes only that template from its table |
| Deletion.TemplateDeleteDetaches | utils/db/schema.ts:254 | deleting a template keeps every generation and sets template_id to null on exactly those that used it |
| Deletion.CompanyDeleteCascades | utils/db/schema.ts:109-143 | deleting a company is never refused and removes the company with exactly its contacts and list items |
| Deletion.CompanyDeleteCascadesToActivities | utils/db/schema.ts:177-219 | deleting a company removes exactly its sales activities and the email and form activities of those |
| Deletion.ActivityDeleteCascades | utils/db/schema.ts:197-219 | deleting a sales activity is never refused and removes exactly the email and form activities pointing at it |
| StatusUpdate.SetTextWritesMatchedRows | functions/webhook/stripe.ts:26-31 | a status text is accepted exactly when it is a subscription_status label (else refused with the enum error); then every row of the customer gets that status and the new updated_at, every other row and every other table is unchanged |
| StatusUpdate.UnsetWritesTimestampOnly | functions/webhook/stripe.ts:27-30 | a payload without status writes only updated_at of the customer's rows, since the undefined key is dropped |
| StatusUpdate.SetNullRefusedOnMatch | utils/db/schema.ts:54 | a null status is refused by NOT NULL exactly when some row of the customer exists; otherwise nothing changes |
| StatusUpdate.UpdateTouchesStatusAndTimestamp | functions/webhook/stripe.ts:26-30 | a successful update keeps every subscription id and writes no column but status and updated_at |
| StatusUpdate.UpdateIdempotent | functions/webhook/stripe.ts:26-31 | repeating the update at a later time gives what one update at that time gives |
| StatusUpdate.UpdatePreservesConsistent | utils/db/schema.ts:48-64 | the update keeps every integrity rule |
| Storage.Store.constructor | utils/db/schema.ts:30-297 | a new store has every table empty and is consistent |
| Storage.Store.Insert | utils/db/schema.ts:30-297 | INSERT of one row: stores it as specified, or reports the first violated constraint and changes nothing; consistency is kept |
| Storage.Store.InsertMany | utils/db/schema.ts:30-297 | multi-row INSERT: all rows are stored as specified, or at the first refused row none is and its error is reported; consistency is kept |
| Storage.Store.Delete | utils/db/schema.ts:50-272 | DELETE: refused with the RESTRICT error and no change, or the cascade applied as specified; consistency is kept |
| Storage.Store.UpdateSubscriptionStatus | functions/webhook/stripe.ts:26-31 | the status UPDATE: applied as specified, or refused with its error and no change; consistency is kept |
| Storage.RunStatusUpdate | app/webhook/stripe/route.ts:14-19 | the UPDATE run over the table contents returns exactly the specified result |
| Storage.RestampRows | functions/webhook/stripe.ts:27-31 | the loop over rows restamps exactly the customer's rows and keeps the others |
| Storage.AnyRowMatches | functions/webhook/stripe.ts:31 | the scan reports a match exactly when some row has the customer id |
| StripeEvent.NoCustomerNoChange | functions/webhook/stripe.ts:25-34 | an event without a (truthy) customer changes nothing and answers 200 'Success' |
| StripeEvent.ErrorsAnswer400 | functions/webhook/stripe.ts:35-40 | the answer is 200 or 400; a 400 leaves the database unchanged and its body is 'Webhook error: ' + the message (the parse error's, or PostgreSQL's); 200 exactly when nothing was thrown |
| StripeEvent.StatusReachesCustomerRows | functions/webhook/stripe.ts:25-31 | a valid status reaches every subscription of the customer and only those, each keeping all other columns apart from updated_at, and the answer is 200 |
| StripeEvent.UnknownStatusRefused | functions/webhook/stripe.ts:28 | a status outside subscription_status is refused whatever the rows: nothing changes and the answer is 400 with PostgreSQL's enum message |
| StripeEvent.HandledIdempotent | functions/webhook/stripe.ts:25-31 | handling the same event twice gives what handling it once at the later time gives |
| StripeEvent.HandledPreservesConsistent | functions/webhook/stripe.ts:16-40 | a handled request keeps every integrity rule |
| StripeWebhookFunction.OnRequestPost | functions/webhook/stripe.ts:13-41 | the Pages function, with the success response inside `try`, has exactly the specified effect on the store and answer |
| StripeWebhookRoute.Post | app/webhook/stripe/route.ts:5-29 | the route handler, with the success response after `try`, has exactly the same effect and answer |
| WebForm.Get | app/dashboard/lists/actions.ts:21-23 | `formData.get` (and `searchParams.get` in the auth callback) finds a value exactly when some entry has the key, and returns the value of the first such entry |
| ListActions.ListRecord | app/dashboard/lists/actions.ts:31-35 | the list record carries the caller's id, the name and description as strings, and leaves the defaulted columns omitted |
| ListActions.CreateCompanyList | app/dashboard/lists/actions.ts:15-57 | the action on the store has exactly the effect and outcome of the specification (with the corrected redirect), and keeps consistency |
| ListActions.TryCreate | app/dashboard/lists/actions.ts:29-50 | the try block on the store has exactly the specified effect and end |
| ListActions.AddCompaniesTo | app/dashboard/lists/actions.ts:38-49 | the parse-and-insert step on the store has exactly the specified effect and end |
| ListActions.InsertListRow | app/dashboard/lists/actions.ts:31-35 | the list row is stored exactly when its id is new and the caller is a users row, and nothing else changes |
| ListActions.InsertCompanyRow | app/dashboard/lists/actions.ts:42-48 | a company row is stored exactly when its id is new and its user exists, and nothing else changes |
| ListActions.CompanyRowsAreCompanies | app/dashboard/lists/actions.ts:43-47 | the company rows convert exactly when every element converts; one companies row per element, each owned by the caller |
| ListActions.AddCompaniesWritesCompanies | app/dashboard/lists/actions.ts:38-49 | the companies step writes the companies table only, keeps every existing company, and every new company is owned by the caller |
| ListActions.AddCompaniesStoresEach | app/dashboard/lists/actions.ts:42-48 | when the companies step completes, every element is stored under a new id, converted, with user_id overwritten by the caller's |
| ListActions.AddCompaniesPreservesConsistent | app/dashboard/lists/actions.ts:38-49 | the companies step keeps every integrity rule |
| ListActions.RefusedBeforeAnyWrite | app/dashboard/lists/actions.ts:16-27 | no user: throws '認証されていません'; missing name or companies: throws '必須項目が入力されていません'; both with no change; otherwise neither error |
| ListActions.ListRowCarriesForm | app/dashboard/lists/actions.ts:31-35 | the list row converts exactly when the name fits varchar(255) up to trailing spaces, and then carries the caller, the name, the description, 0 companies and not public |
| ListActions.AttemptWritesListAndCompanies | app/dashboard/lists/actions.ts:31-48 | the try block writes only company_lists and companies, never company_list_items; it stores one list under the first new id, and it completes only if the list was stored |
| ListActions.CompletedStoresEveryCompany | app/dashboard/lists/actions.ts:42-48 | when the try block completes, every parsed company is stored, owned by the caller |
| ListActions.ListKeptWhenCompaniesFail | app/dashboard/lists/actions.ts:31-56 | when the list is stored but the companies value cannot be parsed or mapped, the list row stays behind and the try block raises |
| ListActions.NoCompaniesStoresListOnly | app/dashboard/lists/actions.ts:41 | an empty array (or a value without a positive length) stores the list row only and completes |
| ListActions.SubmittedRedirectsToStoredList | app/dashboard/lists/actions.ts:52 | with the redirect after the try block, the action redirects exactly when the try block completes, to the stored list's id; that list is new and owned by the caller; any other failure throws 'リストの作成に失敗しました' |
| ListActions.SubmittedPreservesConsistent | app/dashboard/lists/actions.ts:15-57 | the action keeps every integrity rule |
| ListActions.AsWrittenNeverRedirects | app/dashboard/lists/actions.ts:52-56 | as written, the action always throws: the catch turns the redirect into the generic error, though the list is stored |
| JsText.TrimStartDropsWhitespace | app/dashboard/lists/components/CreateListForm.tsx:27 | trimming the start removes a prefix made of whitespace and stops at the first other character |
| JsText.TrimEndDropsWhitespace | app/dashboard/lists/components/CreateListForm.tsx:27 | trimming the end removes a suffix made of whitespace and stops at the last other character |
| JsText.TrimmedEmptyIffBlank | app/dashboard/lists/components/CreateListForm.tsx:27 | the trimmed text is empty exactly when every character is whitespace, and otherwise starts and ends with a non-whitespace character |
| CreateListForm.FilledIffNotBlank | app/dashboard/lists/components/CreateListForm.tsx:32 | a link counts exactly when it is not all whitespace |
| CreateListForm.ValidLinksConcat | app/dashboard/lists/components/CreateListForm.tsx:32 | the link filter works piecewise over concatenation, keeping order |
| CreateListForm.ValidLinksSingle | app/dashboard/lists/components/CreateListForm.tsx:32 | a single link is kept exactly when it is not blank |
| CreateListForm.ValidLinksMembers | app/dashboard/lists/components/CreateListForm.tsx:32 | the kept links are exactly the non-blank links of the list |
| CreateListForm.NoneKeptIffAllBlank | app/dashboard/lists/components/CreateListForm.tsx:32-34 | no link is kept exactly when every link is blank |
| CreateListForm.AllKeptParseIff | app/dashboard/lists/components/CreateListForm.tsx:37-44 | every kept link parses exactly when every non-blank link parses |
| CreateListForm.ValidExactlyWhen | app/dashboard/lists/components/CreateListForm.tsx:24-54 | the form is valid exactly when the name is not blank and, in link mode, some link is not blank and every non-blank link parses, or, in file mode, a file is chosen |
| CreateListForm.ErrorsFollowMode | app/dashboard/lists/components/CreateListForm.tsx:27-50 | the name error is set exactly for a blank name; the links error only in link mode ('at least one link' exactly when all links are blank, else the invalid-URL message); the file error exactly in file mode without a file; the name error can come with either |
| CreateListForm.InvalidUrlIsFlagged | app/dashboard/lists/components/CreateListForm.tsx:37-44 | when the invalid-URL error is shown, some row of the link editor carries the invalid-link warning |
| CreateListForm.SubmissionCarriesForm | app/dashboard/lists/components/CreateListForm.tsx:65-75 | the FormData carries the name and description first, exactly the non-blank links in order in link mode (none in file mode), the file only in file mode, and never a 'companies' entry |
| CreateListForm.LinkSubmission | app/dashboard/lists/components/CreateListForm.tsx:69-72 | in link mode the 'links' entries are exactly the non-blank links in order, with no file entry |
| CreateListForm.FileSubmission | app/dashboard/lists/components/CreateListForm.tsx:73-75 | in file mode with a file the FormData carries that file and no link |
| CreateListForm.BaseComesFirst | app/dashboard/lists/components/CreateListForm.tsx:65-67 | name and description lead the FormData; every other key is read from the entries after them |
| CreateListForm.SubmissionIsRefused | app/dashboard/lists/components/CreateListForm.tsx:77 | the FormData the form sends makes the server action throw its not-authenticated or missing-field error without touching the database |
| CreateListForm.BuildSubmission | app/dashboard/lists/components/CreateListForm.tsx:65-75 | the appending loop builds exactly the specified FormData |
| CreateListForm.ListForm.constructor | app/dashboard/lists/components/CreateListForm.tsx:16-22 | the initial state: link mode, one empty link, no file, empty texts, not loading, no errors |
| CreateListForm.ListForm.ValidateForm | app/dashboard/lists/components/CreateListForm.tsx:24-54 | the scan, stopping at the first rejected link, writes exactly the specified errors record and reports validity exactly when it is empty |
| CreateListForm.ListForm.HandleCreateList | app/dashboard/lists/components/CreateListForm.tsx:56-94 | an invalid form only shows its errors; a valid one sends the specified FormData; success resets name, description, links, file and errors and shows the alert; a thrown action sets only the submit error; loading ends in every case; at least one link row remains |
| LinkInput.ChangeLink | app/dashboard/lists/components/LinkInput.tsx:15-19 | for an in-range index the length is kept, that entry takes the new value, and every other entry is unchanged |
| LinkInput.AddLink | app/dashboard/lists/components/LinkInput.tsx:21-23 | exactly one empty link is appended after the existing ones |
| LinkInput.WithoutIndexDropsOne | app/dashboard/lists/components/LinkInput.tsx:27 | filtering out an in-range index removes exactly that entry and keeps the others in order; an out-of-range index removes nothing |
| LinkInput.RemoveLinkRemovesOne | app/dashboard/lists/components/LinkInput.tsx:25-30 | with more than one link, removing index i drops exactly entry i and keeps the order; with one link nothing changes |
| LinkInput.RemoveChangesOnlyWhenShown | app/dashboard/lists/components/LinkInput.tsx:61 | removing an in-range entry changes the list exactly when the remove buttons are shown |
| LinkInput.RemoveUndoesAdd | app/dashboard/lists/components/LinkInput.tsx:21-30 | removing the link just added gives back the previous links |
| LinkInput.EditsKeepARow | app/dashboard/lists/components/LinkInput.tsx:15-30 | no edit empties a non-empty list |
| LinkInput.FlaggedIffNonEmptyAndRejected | app/dashboard/lists/components/LinkInput.tsx:59 | an empty entry is never flagged; a non-empty one exactly when the URL check rejects it |
| LinkInput.Label | app/dashboard/lists/components/LinkInput.tsx:50 | the label is 'JP' exactly for index 1 and 'HP' for every other index |
| FileUpload.AcceptedIff | app/dashboard/lists/components/FileUpload.tsx:17-31 | a file is accepted exactly when it looks like CSV and has at most 10485760 bytes; a non-CSV file is reported as such first, and a CSV file that is too large as too large |
| FileUpload.SizeLimitInclusive | app/dashboard/lists/components/FileUpload.tsx:25 | a CSV file of exactly 10 MB is accepted and one byte more is refused |
| FileUpload.UpperCaseSuffixRefused | app/dashboard/lists/components/FileUpload.tsx:19 | the '.csv' suffix test is case-sensitive: 'LIST.CSV' with a non-CSV type is refused, 'list.csv' accepted |
| FileUpload.UploadBox.constructor | app/dashboard/lists/components/FileUpload.tsx:14-15 | the box starts with the form's file, no highlight and no mounted input |
| FileUpload.UploadBox.HandleFileSelect | app/dashboard/lists/components/FileUpload.tsx:17-31 | the alert is the file's rejection, if any; an accepted file replaces the current one and a rejected one leaves it |
| FileUpload.UploadBox.HandleDragOver | app/dashboard/lists/components/FileUpload.tsx:33-36 | the drop zone is highlighted |
| FileUpload.UploadBox.HandleDragLeave | app/dashboard/lists/components/FileUpload.tsx:38-41 | the highlight ends |
| FileUpload.UploadBox.HandleDrop | app/dashboard/lists/components/FileUpload.tsx:43-51 | the highlight ends; a drop without files changes nothing else; otherwise the first file is selected as by the file check |
| FileUpload.UploadBox.HandleFileInputChange | app/dashboard/lists/components/FileUpload.tsx:53-58 | no file list or an empty one changes nothing; otherwise the first file is selected as by the file check |
| FileUpload.UploadBox.RemoveFile | app/dashboard/lists/components/FileUpload.tsx:60-65 | no file remains, and a mounted input is cleared |
| DashboardSidebar.HighlightedIff | components/DashboardSidebar.tsx:9-14 | the dashboard entry is active exactly on '/dashboard'; every other entry exactly on pathnames starting with its path |
| DashboardSidebar.AtMostOneHighlighted | components/DashboardSidebar.tsx:30-63 | for any pathname at most one of the four entries is active |
| DashboardSidebar.ListsCoversEveryListPage | components/DashboardSidebar.tsx:39-41 | the lists entry tests '/dashboard/lists', not its link target, so it is active on every page below '/dashboard/lists' and on its own target |
| DashboardSidebar.PrefixWithoutBoundary | components/DashboardSidebar.tsx:13 | prefix matching has no segment boundary ('/dashboard/mailbox' activates the mail entry), and '/dashboard/' activates none |
| AuthCallback.NextKeepsGivenValue | app/auth/callback/route.ts:13 | `next` defaults to '/dashboard' when the parameter is absent; a present empty value is kept |
| AuthCallback.NoCodeNoExchange | app/auth/callback/route.ts:64-66 | without a non-empty code the answer redirects to origin + '/auth/auth-code-error' and the exchange is never attempted |
| AuthCallback.FirstCodeDecides | app/auth/callback/route.ts:11-17 | only the first code parameter is read: an empty first code hides a later one |
| AuthCallback.FailedExchangeShowsErrorPage | app/auth/callback/route.ts:58-61 | a rejected code, after the exchange was attempted with it, redirects to the same error page |
| AuthCallback.SuccessRedirectsToNext | app/auth/callback/route.ts:47-57 | after a successful exchange the target ends with `next`: origin + next in development, 'https://' + host + next outside it with a non-empty forwarded host, origin + next otherwise |
| AuthCallback.DevelopmentIgnoresForwardedHost | app/auth/callback/route.ts:48-51 | in development the x-forwarded-host header does not affect the answer |
| MailManagement.WithField | app/dashboard/mail/mail-management-client.tsx:64-68 | an edit sets the named field to the value and leaves every other field unchanged |
| MailManagement.Cleared | app/dashboard/mail/mail-management-client.tsx:70-76 | clearing a field's error removes it and leaves every other field's error unchanged |
| MailManagement.TonePhrase | app/dashboard/mail/mail-management-client.tsx:140 | the phrase is '丁寧に' exactly for 'formal', 'カジュアルに' exactly for 'casual', 'フレンドリーに' for anything else |
| MailManagement.PreviewText | app/dashboard/mail/mail-management-client.tsx:134-140 | the preview opens with the experience, a blank line and the service; the industry and then the impact follow, each right after its fixed sentence piece; it ends with the tone's adverb and the closing sentence, and its length is the sum of all these parts |
| MailManagement.LeadingDigits | app/dashboard/mail/mail-management-client.tsx:285 | the digit run read is the longest prefix made of digits of the radix |
| MailManagement.ParseInt | app/dashboard/mail/mail-management-client.tsx:285 | `parseInt` yields a number only for text containing a decimal digit |
| MailManagement.AppointmentsInputReadsNumeral | app/dashboard/mail/mail-management-client.tsx:285 | typing the decimal numeral of n into the appointments box yields n |
| MailManagement.NonNumericEntryFailsValidation | app/dashboard/mail/mail-management-client.tsx:285 | an entry without a decimal digit becomes 0, and the form then fails validation on the appointments field |
| MailManagement.ErrorsNameFailingFields | app/dashboard/mail/mail-management-client.tsx:80-114 | the errors record holds a field's fixed message exactly when that field fails its check, and nothing for the others |
| MailManagement.ValidExactlyWhenComplete | app/dashboard/mail/mail-management-client.tsx:79-115 | the errors record is empty exactly when the four selections are non-empty, the three texts are not blank and the target is at least 1 |
| MailManagement.CheckSelections | app/dashboard/mail/mail-management-client.tsx:82-96 | the first four checks record exactly the specified errors of the four selections |
| MailManagement.CheckEntries | app/dashboard/mail/mail-management-client.tsx:98-112 | the last four checks add exactly the specified errors of the three texts and the target |
| MailManagement.MailManagementClient.constructor | app/dashboard/mail/mail-management-client.tsx:39-62 | the initial form (target 12, empty texts), no errors, the sample preview, not loading, no error |
| MailManagement.MailManagementClient.HandleInputChange | app/dashboard/mail/mail-management-client.tsx:64-77 | the named field takes the value, its error is cleared, everything else is unchanged |
| MailManagement.MailManagementClient.ValidateForm | app/dashboard/mail/mail-management-client.tsx:79-116 | writes exactly the specified errors record and reports validity exactly when the form is complete |
| MailManagement.MailManagementClient.HandlePreview | app/dashboard/mail/mail-management-client.tsx:118-148 | an incomplete form only shows its errors; a complete one rebuilds the preview, or shows the preview error when the step rejects; loading ends either way |
| MailManagement.MailManagementClient.HandleOutputTest | app/dashboard/mail/mail-management-client.tsx:150-173 | an incomplete form only shows its errors; a complete one shows the done alert, or the error when the step rejects; loading ends either way |
| MailManagement.MailManagementClient.HandleSendPreparation | app/dashboard/mail/mail-management-client.tsx:175-198 | an incomplete form only shows its errors; a complete one shows the done alert, or the error when the step rejects; loading ends either way |

## Left out

- Telemetry (`lib/monitoring`), the auth wrappers over the Supabase SDK and the Stripe API calls: they forward to external services and have no behaviour to state here.
- Page and view rendering (JSX layout, static dashboard figures, settings pages) and the console logging in every handler.
- Generated ids, `defaultNow()` and `new Date()` timestamps: they are parameters (`newId`, `now`).
- `jsonb`, `decimal` and `inet` column contents: they are opaque strings.
- `new URL` and `JSON.parse`: they are inputs (`parses`, `parse`), not models of the URL Standard or of JSON.
- `revalidatePath` in the list action: a cache effect outside the database.
- The order in which PostgreSQL fires its constraint triggers when one user delete removes both a campaign and the list it restricts: it is the input `restrictFirst`, and no outcome is asserted for that case.
- `formatFileSize`: it uses floating-point `Math.log`, `Math.pow` and `toFixed`.
- `setTimeout` delays in the mail handlers: the awaited step is reduced to whether it rejects (`rejects`); the placeholder delay itself never rejects.
- `alert` and `window` side effects: the messages are returned as outputs.
- The `onChange` setters of the list form's text fields and mode tabs: they are plain field writes.
- URL decoding of query parameters in the auth callback: `Request.query` holds decoded pairs.
- The user lookup in the auth callback and the database code commented out there.
- LinkInput.ChangeLink: requires an in-range index. A JavaScript array write past the end would extend the array, but the editor only edits existing rows.
- MailManagement.ParseInt: does not model the loss of precision of JavaScript numbers above 2^53. No lemma covers the negative-numeral case.
- FileUpload.UploadBox: the file input's ref is an `Option` value rather than a DOM node.
- StripeEvent.Payload: a `customer` that is a truthy non-string value (a number, an object) is not modelled.
- Webhook signature verification: neither handler performs it.
- SchemaRows.MaterializeUser (and every other Materialize function): a row that breaks several column rules is refused with the error of the first broken rule in column order; PostgreSQL converts every value (length, enum cast) before it checks NOT NULL, so which error is named can differ, though whether the row is refused does not.

## Findings

| source | as written | input that shows it | evidently intended | confidence | as-written member | corrected member |
|---|---|---|---|---|---|---|
| app/dashboard/lists/actions.ts:52-56 | `redirect(...)` is called inside the `try` block; it works by throwing, so the `catch` turns every successful creation into the error 'リストの作成に失敗しました' | a signed-in user, name "a", companies "[]": the list row is stored and the action throws the generic error instead of redirecting | redirect to `/dashboard/lists/<id>` after a successful try block | not executed | ListActions.AsWrittenNeverRedirects | ListActions.SubmittedRedirectsToStoredList |
