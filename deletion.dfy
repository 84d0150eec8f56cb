/** What a DELETE guarantees under the foreign-key actions of
    utils/db/schema.ts: it never leaves a dangling reference, and it removes,
    keeps or detaches exactly the rows each ON DELETE clause names. */
module Deletion {
  import opened Wrappers
  import opened SchemaRows
  import opened Tables

  // ---------------------------------------------------------------------
  // The doomed rows are closed under ON DELETE CASCADE

  /** Every row whose cascading reference points at a doomed row is doomed
      itself. */
  predicate Closed(db: Db, d: Doomed) {
    && (forall k :: k in db.subscriptions && db.subscriptions[k].userId in d.users ==> k in d.subscriptions)
    && (forall k :: k in db.usageMetrics && db.usageMetrics[k].userId in d.users ==> k in d.usageMetrics)
    && (forall k :: k in db.companies && db.companies[k].userId in d.users ==> k in d.companies)
    && (forall k :: k in db.lists && db.lists[k].userId in d.users ==> k in d.lists)
    && (forall k :: k in db.campaigns && db.campaigns[k].userId in d.users ==> k in d.campaigns)
    && (forall k :: k in db.templates && db.templates[k].userId in d.users ==> k in d.templates)
    && (forall k :: k in db.generations && db.generations[k].userId in d.users ==> k in d.generations)
    && (forall k :: k in db.contacts && db.contacts[k].companyId in d.companies ==> k in d.contacts)
    && (forall k :: k in db.listItems && db.listItems[k].companyId in d.companies ==> k in d.listItems)
    && (forall k :: k in db.listItems && db.listItems[k].listId in d.lists ==> k in d.listItems)
    && (forall k :: k in db.activities && db.activities[k].companyId in d.companies ==> k in d.activities)
    && (forall k :: k in db.activities && db.activities[k].campaignId in d.campaigns ==> k in d.activities)
    && (forall k :: k in db.emails && db.emails[k].activityId in d.activities ==> k in d.emails)
    && (forall k :: k in db.forms && db.forms[k].activityId in d.activities ==> k in d.forms)
  }

  lemma DoomedByClosed(db: Db, t: Table, id: Uuid)
    ensures Closed(db, DoomedBy(db, t, id))
  {
    if t == Users {
      UserClosureClosed(db, id);
    } else if t in {Companies, CompanyLists, Campaigns} {
      MiddleClosureClosed(db, t, id);
    } else {
      LeafClosureClosed(db, t, id);
    }
  }

  lemma UserClosureClosed(db: Db, id: Uuid)
    ensures Closed(db, DoomedBy(db, Users, id))
  {
  }

  lemma MiddleClosureClosed(db: Db, t: Table, id: Uuid)
    requires t in {Companies, CompanyLists, Campaigns}
    ensures Closed(db, DoomedBy(db, t, id))
  {
  }

  lemma LeafClosureClosed(db: Db, t: Table, id: Uuid)
    requires t != Users && t !in {Companies, CompanyLists, Campaigns}
    ensures Closed(db, DoomedBy(db, t, id))
  {
  }

  // ---------------------------------------------------------------------
  // One lemma per foreign key: the surviving children keep their parent

  lemma SubscriptionOwnersStay(m: map<Uuid, Subscription>, users: map<Uuid, User>, dm: set<Uuid>, du: set<Uuid>)
    requires SubscriptionOwnersExist(m, users)
    requires forall k :: k in m && m[k].userId in du ==> k in dm
    ensures SubscriptionOwnersExist(m - dm, users - du)
  {
  }

  lemma UsageOwnersStay(m: map<Uuid, UsageMetric>, users: map<Uuid, User>, dm: set<Uuid>, du: set<Uuid>)
    requires UsageOwnersExist(m, users)
    requires forall k :: k in m && m[k].userId in du ==> k in dm
    ensures UsageOwnersExist(m - dm, users - du)
  {
  }

  lemma CompanyOwnersStay(m: map<Uuid, Company>, users: map<Uuid, User>, dm: set<Uuid>, du: set<Uuid>)
    requires CompanyOwnersExist(m, users)
    requires forall k :: k in m && m[k].userId in du ==> k in dm
    ensures CompanyOwnersExist(m - dm, users - du)
  {
  }

  lemma ListOwnersStay(m: map<Uuid, CompanyList>, users: map<Uuid, User>, dm: set<Uuid>, du: set<Uuid>)
    requires ListOwnersExist(m, users)
    requires forall k :: k in m && m[k].userId in du ==> k in dm
    ensures ListOwnersExist(m - dm, users - du)
  {
  }

  lemma CampaignOwnersStay(m: map<Uuid, Campaign>, users: map<Uuid, User>, dm: set<Uuid>, du: set<Uuid>)
    requires CampaignOwnersExist(m, users)
    requires forall k :: k in m && m[k].userId in du ==> k in dm
    ensures CampaignOwnersExist(m - dm, users - du)
  {
  }

  lemma TemplateOwnersStay(m: map<Uuid, AiTemplate>, users: map<Uuid, User>, dm: set<Uuid>, du: set<Uuid>)
    requires TemplateOwnersExist(m, users)
    requires forall k :: k in m && m[k].userId in du ==> k in dm
    ensures TemplateOwnersExist(m - dm, users - du)
  {
  }

  lemma GenerationOwnersStay(m: map<Uuid, AiGeneration>, users: map<Uuid, User>, dm: set<Uuid>, du: set<Uuid>, dt: set<Uuid>)
    requires GenerationOwnersExist(m, users)
    requires forall k :: k in m && m[k].userId in du ==> k in dm
    ensures GenerationOwnersExist(DetachedGenerations(m, dm, dt), users - du)
  {
  }

  /** ON DELETE SET NULL: a surviving generation's template is either still
      there or has become NULL. */
  lemma GenerationTemplatesStay(m: map<Uuid, AiGeneration>, templates: map<Uuid, AiTemplate>, dm: set<Uuid>, dt: set<Uuid>)
    requires GenerationTemplatesExist(m, templates)
    ensures GenerationTemplatesExist(DetachedGenerations(m, dm, dt), templates - dt)
  {
  }

  /** ON DELETE SET NULL: a surviving audit entry's user is either still
      there or has become NULL. */
  lemma AuditUsersStay(m: map<Uuid, AuditLog>, users: map<Uuid, User>, dm: set<Uuid>, du: set<Uuid>)
    requires AuditUsersExist(m, users)
    ensures AuditUsersExist(DetachedAuditLogs(m, dm, du), users - du)
  {
  }

  lemma ContactCompaniesStay(m: map<Uuid, CompanyContact>, companies: map<Uuid, Company>, dm: set<Uuid>, dc: set<Uuid>)
    requires ContactCompaniesExist(m, companies)
    requires forall k :: k in m && m[k].companyId in dc ==> k in dm
    ensures ContactCompaniesExist(m - dm, companies - dc)
  {
  }

  lemma ItemCompaniesStay(m: map<Uuid, CompanyListItem>, companies: map<Uuid, Company>, dm: set<Uuid>, dc: set<Uuid>)
    requires ItemCompaniesExist(m, companies)
    requires forall k :: k in m && m[k].companyId in dc ==> k in dm
    ensures ItemCompaniesExist(m - dm, companies - dc)
  {
  }

  lemma ItemListsStay(m: map<Uuid, CompanyListItem>, lists: map<Uuid, CompanyList>, dm: set<Uuid>, dl: set<Uuid>)
    requires ItemListsExist(m, lists)
    requires forall k :: k in m && m[k].listId in dl ==> k in dm
    ensures ItemListsExist(m - dm, lists - dl)
  {
  }

  lemma ActivityCompaniesStay(m: map<Uuid, SalesActivity>, companies: map<Uuid, Company>, dm: set<Uuid>, dc: set<Uuid>)
    requires ActivityCompaniesExist(m, companies)
    requires forall k :: k in m && m[k].companyId in dc ==> k in dm
    ensures ActivityCompaniesExist(m - dm, companies - dc)
  {
  }

  lemma ActivityCampaignsStay(m: map<Uuid, SalesActivity>, campaigns: map<Uuid, Campaign>, dm: set<Uuid>, dg: set<Uuid>)
    requires ActivityCampaignsExist(m, campaigns)
    requires forall k :: k in m && m[k].campaignId in dg ==> k in dm
    ensures ActivityCampaignsExist(m - dm, campaigns - dg)
  {
  }

  lemma EmailActivitiesStay(m: map<Uuid, EmailActivity>, activities: map<Uuid, SalesActivity>, dm: set<Uuid>, da: set<Uuid>)
    requires EmailActivitiesExist(m, activities)
    requires forall k :: k in m && m[k].activityId in da ==> k in dm
    ensures EmailActivitiesExist(m - dm, activities - da)
  {
  }

  lemma FormActivitiesStay(m: map<Uuid, FormActivity>, activities: map<Uuid, SalesActivity>, dm: set<Uuid>, da: set<Uuid>)
    requires FormActivitiesExist(m, activities)
    requires forall k :: k in m && m[k].activityId in da ==> k in dm
    ensures FormActivitiesExist(m - dm, activities - da)
  {
  }

  /** ON DELETE RESTRICT: with no surviving campaign pointing at a doomed
      list, the surviving campaigns keep their list. */
  lemma CampaignListsStay(m: map<Uuid, Campaign>, lists: map<Uuid, CompanyList>, dm: set<Uuid>, dl: set<Uuid>)
    requires CampaignListsExist(m, lists)
    requires !exists k :: k in m && k !in dm && m[k].listId in dl
    ensures CampaignListsExist(m - dm, lists - dl)
  {
  }

  // ---------------------------------------------------------------------
  // A cascade keeps every rule

  lemma CascadeKeepsOwners(db: Db, d: Doomed)
    requires OwnersExist(db) && Closed(db, d)
    ensures OwnersExist(Cascade(db, d))
  {
    SubscriptionOwnersStay(db.subscriptions, db.users, d.subscriptions, d.users);
    UsageOwnersStay(db.usageMetrics, db.users, d.usageMetrics, d.users);
    CompanyOwnersStay(db.companies, db.users, d.companies, d.users);
    ListOwnersStay(db.lists, db.users, d.lists, d.users);
    CampaignOwnersStay(db.campaigns, db.users, d.campaigns, d.users);
    TemplateOwnersStay(db.templates, db.users, d.templates, d.users);
    GenerationOwnersStay(db.generations, db.users, d.generations, d.users, d.templates);
    AuditUsersStay(db.auditLogs, db.users, d.auditLogs, d.users);
  }

  lemma CascadeKeepsReferences(db: Db, d: Doomed)
    requires ReferencesExist(db) && Closed(db, d) && !Blocked(db, d)
    ensures ReferencesExist(Cascade(db, d))
  {
    CascadeKeepsOwners(db, d);
    ContactCompaniesStay(db.contacts, db.companies, d.contacts, d.companies);
    ItemCompaniesStay(db.listItems, db.companies, d.listItems, d.companies);
    ActivityCompaniesStay(db.activities, db.companies, d.activities, d.companies);
    ItemListsStay(db.listItems, db.lists, d.listItems, d.lists);
    CampaignListsStay(db.campaigns, db.lists, d.campaigns, d.lists);
    ActivityCampaignsStay(db.activities, db.campaigns, d.activities, d.campaigns);
    EmailActivitiesStay(db.emails, db.activities, d.emails, d.activities);
    FormActivitiesStay(db.forms, db.activities, d.forms, d.activities);
    GenerationTemplatesStay(db.generations, db.templates, d.generations, d.templates);
  }

  lemma CascadeKeepsUnique(db: Db, d: Doomed)
    requires UniqueConstraintsHold(db)
    ensures UniqueConstraintsHold(Cascade(db, d))
  {
  }

  /** A DELETE that succeeds leaves every integrity rule in force. */
  lemma DeletePreservesConsistent(db: Db, t: Table, id: Uuid, restrictFirst: bool)
    requires Consistent(db)
    ensures Delete(db, t, id, restrictFirst).Success? ==> Consistent(Delete(db, t, id, restrictFirst).value)
  {
    var d := DoomedBy(db, t, id);
    if !Blocked(db, d) {
      DoomedByClosed(db, t, id);
      CascadeKeepsReferences(db, d);
      CascadeKeepsUnique(db, d);
    }
  }

  // ---------------------------------------------------------------------
  // What a DELETE reaches, root table by root table

  /** A DELETE that is not refused applies the cascade. */
  lemma DeleteIsCascade(db: Db, t: Table, id: Uuid, restrictFirst: bool)
    ensures var r := Delete(db, t, id, restrictFirst);
      r.Success? ==> r.value == Cascade(db, DoomedBy(db, t, id))
  {
  }

  /** A DELETE is refused exactly when the RESTRICT check sees a campaign
      left pointing at a removed list. */
  lemma DeleteRefused(db: Db, t: Table, id: Uuid, restrictFirst: bool)
    ensures var d := DoomedBy(db, t, id);
      var r := Delete(db, t, id, restrictFirst);
      && (r.Failure? <==> Blocked(db, d) || (restrictFirst && Contested(db, d)))
      && (r.Failure? ==> r.error == RestrictViolation(CampaignListConstraint))
  {
  }

  // The doomed sets of each root, as the rows pointing into their parents

  lemma UserDoomedSets(db: Db, id: Uuid)
    ensures var d := DoomedBy(db, Users, id);
      && d.users == {id} && d.auditLogs == {}
      && d.subscriptions == OwnedSubscriptions(db, {id}) && d.usageMetrics == OwnedUsage(db, {id})
      && d.companies == OwnedCompanies(db, {id}) && d.lists == OwnedLists(db, {id})
      && d.campaigns == OwnedCampaigns(db, {id})
      && d.templates == OwnedTemplates(db, {id}) && d.generations == OwnedGenerations(db, {id})
  {
  }

  lemma CompanyDoomedSets(db: Db, id: Uuid)
    ensures var d := DoomedBy(db, Companies, id);
      && d.users == {} && d.companies == {id} && d.lists == {} && d.campaigns == {}
      && d.contacts == ContactsOf(db, {id}) && d.listItems == ItemsOf(db, {}, {id})
      && d.activities == ActivitiesOf(db, {id}, {})
      && d.emails == EmailsOf(db, ActivitiesOf(db, {id}, {})) && d.forms == FormsOf(db, ActivitiesOf(db, {id}, {}))
  {
  }

  lemma ListDoomedSets(db: Db, id: Uuid)
    ensures var d := DoomedBy(db, CompanyLists, id);
      && d.users == {} && d.companies == {} && d.lists == {id} && d.campaigns == {}
      && d.listItems == ItemsOf(db, {id}, {})
  {
  }

  lemma ActivityDoomedSets(db: Db, id: Uuid)
    ensures var d := DoomedBy(db, SalesActivities, id);
      && d.users == {} && d.lists == {} && d.campaigns == {} && d.activities == {id}
      && d.emails == EmailsOf(db, {id}) && d.forms == FormsOf(db, {id})
  {
  }

  // Membership in the sets of rows pointing at one parent

  lemma OwnedMembers(db: Db, id: Uuid)
    ensures forall k :: k in db.subscriptions ==> (k in OwnedSubscriptions(db, {id}) <==> db.subscriptions[k].userId == id)
    ensures forall k :: k in db.usageMetrics ==> (k in OwnedUsage(db, {id}) <==> db.usageMetrics[k].userId == id)
    ensures forall k :: k in db.companies ==> (k in OwnedCompanies(db, {id}) <==> db.companies[k].userId == id)
    ensures forall k :: k in db.lists ==> (k in OwnedLists(db, {id}) <==> db.lists[k].userId == id)
    ensures forall k :: k in db.campaigns ==> (k in OwnedCampaigns(db, {id}) <==> db.campaigns[k].userId == id)
    ensures forall k :: k in db.templates ==> (k in OwnedTemplates(db, {id}) <==> db.templates[k].userId == id)
    ensures forall k :: k in db.generations ==> (k in OwnedGenerations(db, {id}) <==> db.generations[k].userId == id)
  {
  }

  lemma CompanyChildMembers(db: Db, id: Uuid)
    ensures forall k :: k in db.contacts ==> (k in ContactsOf(db, {id}) <==> db.contacts[k].companyId == id)
    ensures forall k :: k in db.listItems ==> (k in ItemsOf(db, {}, {id}) <==> db.listItems[k].companyId == id)
    ensures forall k :: k in db.listItems ==> (k in ItemsOf(db, {id}, {}) <==> db.listItems[k].listId == id)
    ensures forall k :: k in db.activities ==> (k in ActivitiesOf(db, {id}, {}) <==> db.activities[k].companyId == id)
  {
  }

  lemma DetailMembers(db: Db, a: set<Uuid>)
    ensures forall k :: k in db.emails ==> (k in EmailsOf(db, a) <==> db.emails[k].activityId in a)
    ensures forall k :: k in db.forms ==> (k in FormsOf(db, a) <==> db.forms[k].activityId in a)
  {
  }

  // ---------------------------------------------------------------------
  // What each root dooms

  /** Deleting a user dooms the user row itself and no audit entry. */
  lemma UserDoomsUser(db: Db, id: Uuid)
    ensures var d := DoomedBy(db, Users, id);
      d.users == {id} && d.auditLogs == {}
  {
    UserDoomedSets(db, id);
  }

  /** Deleting a user dooms the user's subscriptions and usage metrics. */
  lemma UserDoomsOwned(db: Db, id: Uuid)
    ensures var d := DoomedBy(db, Users, id);
      && (forall k :: k in db.subscriptions ==> (k in d.subscriptions <==> db.subscriptions[k].userId == id))
      && (forall k :: k in db.usageMetrics ==> (k in d.usageMetrics <==> db.usageMetrics[k].userId == id))
  {
    UserDoomedSets(db, id);
    OwnedMembers(db, id);
  }

  /** Deleting a user dooms the user's companies. */
  lemma UserDoomsCompanies(db: Db, id: Uuid)
    ensures var d := DoomedBy(db, Users, id);
      forall k :: k in db.companies ==> (k in d.companies <==> db.companies[k].userId == id)
  {
    UserDoomedSets(db, id);
    OwnedMembers(db, id);
  }

  /** Deleting a user dooms the user's lists and campaigns. */
  lemma UserDoomsWork(db: Db, id: Uuid)
    ensures var d := DoomedBy(db, Users, id);
      && (forall k :: k in db.lists ==> (k in d.lists <==> db.lists[k].userId == id))
      && (forall k :: k in db.campaigns ==> (k in d.campaigns <==> db.campaigns[k].userId == id))
  {
    UserDoomedSets(db, id);
    OwnedMembers(db, id);
  }

  /** Deleting a user dooms the user's AI templates and generations. */
  lemma UserDoomsAi(db: Db, id: Uuid)
    ensures var d := DoomedBy(db, Users, id);
      && (forall k :: k in db.templates ==> (k in d.templates <==> db.templates[k].userId == id))
      && (forall k :: k in db.generations ==> (k in d.generations <==> db.generations[k].userId == id))
  {
    UserDoomedSets(db, id);
    OwnedMembers(db, id);
  }

  /** Deleting a company list dooms the list and its items, and no campaign. */
  lemma ListDooms(db: Db, id: Uuid)
    ensures var d := DoomedBy(db, CompanyLists, id);
      && d.lists == {id} && d.campaigns == {}
      && (forall k :: k in db.listItems ==> (k in d.listItems <==> db.listItems[k].listId == id))
  {
    ListDoomedSets(db, id);
    CompanyChildMembers(db, id);
  }

  /** Deleting a company dooms the company, its contacts, list items and
      sales activities, and no list or campaign. */
  lemma CompanyDooms(db: Db, id: Uuid)
    ensures var d := DoomedBy(db, Companies, id);
      && d.companies == {id} && d.lists == {} && d.campaigns == {}
      && (forall k :: k in db.contacts ==> (k in d.contacts <==> db.contacts[k].companyId == id))
      && (forall k :: k in db.listItems ==> (k in d.listItems <==> db.listItems[k].companyId == id))
      && (forall k :: k in db.activities ==> (k in d.activities <==> db.activities[k].companyId == id))
  {
    CompanyDoomedSets(db, id);
    CompanyChildMembers(db, id);
  }

  /** Deleting a company dooms the email activities of the company's sales
      activities. */
  lemma CompanyDoomsDetails(db: Db, id: Uuid)
    ensures var d := DoomedBy(db, Companies, id);
      forall k :: k in db.emails ==>
        (k in d.emails <==> db.emails[k].activityId in db.activities && db.activities[db.emails[k].activityId].companyId == id)
  {
    CompanyDoomedSets(db, id);
    CompanyChildMembers(db, id);
    DetailMembers(db, ActivitiesOf(db, {id}, {}));
  }

  /** Deleting a company dooms the form activities of its sales activities. */
  lemma CompanyDoomsForms(db: Db, id: Uuid)
    ensures var d := DoomedBy(db, Companies, id);
      forall k :: k in db.forms ==>
        (k in d.forms <==> db.forms[k].activityId in db.activities && db.activities[db.forms[k].activityId].companyId == id)
  {
    CompanyDoomedSets(db, id);
    CompanyChildMembers(db, id);
    DetailMembers(db, ActivitiesOf(db, {id}, {}));
  }

  /** Deleting a sales activity dooms exactly the detail rows pointing at it. */
  lemma ActivityDoomsDetails(db: Db, id: Uuid)
    ensures var d := DoomedBy(db, SalesActivities, id);
      && (forall k :: k in db.emails ==> (k in d.emails <==> db.emails[k].activityId == id))
      && (forall k :: k in db.forms ==> (k in d.forms <==> db.forms[k].activityId == id))
  {
    ActivityDoomedSets(db, id);
    DetailMembers(db, {id});
  }

  /** Deleting a sales activity dooms it and no list or campaign. */
  lemma ActivityDooms(db: Db, id: Uuid)
    ensures var d := DoomedBy(db, SalesActivities, id);
      d.activities == {id} && d.lists == {} && d.campaigns == {}
  {
    ActivityDoomedSets(db, id);
  }

  /** Deleting a template dooms the template alone. */
  lemma TemplateDooms(db: Db, id: Uuid)
    ensures var d := DoomedBy(db, AiTemplates, id);
      d.templates == {id} && d.generations == {} && d.lists == {} && d.campaigns == {}
  {
  }

  /** With no campaign doomed, the RESTRICT check fires exactly when some
      campaign points at the doomed list. */
  lemma RestrictOnList(db: Db, d: Doomed, id: Uuid)
    requires d.lists == {id} && d.campaigns == {}
    ensures Blocked(db, d) <==> exists k :: k in db.campaigns && db.campaigns[k].listId == id
    ensures !Contested(db, d)
  {
  }

  /** Removing no ids leaves a table as it was. */
  lemma RemoveNothing<V>(m: map<Uuid, V>, none: set<Uuid>)
    requires none == {}
    ensures m - none == m
  {
  }

  /** ON DELETE SET NULL on ai_generations.template_id, for one template. */
  lemma GenerationsDetached(m: map<Uuid, AiGeneration>, doomed: set<Uuid>, gone: set<Uuid>, id: Uuid)
    requires doomed == {} && gone == {id}
    ensures var r := DetachedGenerations(m, doomed, gone);
      && r.Keys == m.Keys
      && forall k :: k in m ==> r[k] == if m[k].templateId == Some(id) then m[k].(templateId := None) else m[k]
  {
  }

  /** ON DELETE SET NULL on audit_logs.user_id, for one user. */
  lemma AuditLogsDetached(m: map<Uuid, AuditLog>, doomed: set<Uuid>, gone: set<Uuid>, id: Uuid)
    requires doomed == {} && gone == {id}
    ensures var r := DetachedAuditLogs(m, doomed, gone);
      && r.Keys == m.Keys
      && forall k :: k in m ==> r[k] == if m[k].userId == Some(id) then m[k].(userId := None) else m[k]
  {
  }

  // ---------------------------------------------------------------------
  // What each ON DELETE clause does

  /** campaigns.list_id is ON DELETE RESTRICT: deleting a company list fails
      exactly when some campaign points at it. */
  lemma ListDeleteRestricted(db: Db, id: Uuid, restrictFirst: bool)
    ensures var r := Delete(db, CompanyLists, id, restrictFirst);
      && (r.Failure? <==> exists k :: k in db.campaigns && db.campaigns[k].listId == id)
      && (r.Failure? ==> r.error == RestrictViolation("campaigns_list_id_company_lists_id_fk"))
  {
    DeleteRefused(db, CompanyLists, id, restrictFirst);
    ListDooms(db, id);
    RestrictOnList(db, DoomedBy(db, CompanyLists, id), id);
  }

  /** A company list delete that goes through removes the list and leaves
      every campaign in place. */
  lemma ListDeleteKeepsCampaigns(db: Db, id: Uuid, restrictFirst: bool)
    ensures var r := Delete(db, CompanyLists, id, restrictFirst);
      r.Success? ==> r.value.lists == db.lists - {id} && r.value.campaigns == db.campaigns
  {
    DeleteIsCascade(db, CompanyLists, id, restrictFirst);
    ListDooms(db, id);
    RemoveNothing(db.campaigns, DoomedBy(db, CompanyLists, id).campaigns);
  }

  /** A company list delete that goes through removes, through ON DELETE
      CASCADE, exactly the list's items. */
  lemma ListDeleteRemovesItems(db: Db, id: Uuid, restrictFirst: bool)
    ensures var r := Delete(db, CompanyLists, id, restrictFirst);
      r.Success? ==> forall k :: k in db.listItems ==> (k in r.value.listItems <==> db.listItems[k].listId != id)
  {
    DeleteIsCascade(db, CompanyLists, id, restrictFirst);
    ListDooms(db, id);
  }

  /** Deleting a user removes the user and every subscription, usage
      metric and company the user owns, and nothing owned by anyone else. */
  lemma UserDeleteCascades(db: Db, id: Uuid, restrictFirst: bool)
    ensures var r := Delete(db, Users, id, restrictFirst);
      r.Success? ==>
        && r.value.users == db.users - {id}
        && (forall k :: k in db.subscriptions ==> (k in r.value.subscriptions <==> db.subscriptions[k].userId != id))
        && (forall k :: k in db.usageMetrics ==> (k in r.value.usageMetrics <==> db.usageMetrics[k].userId != id))
        && (forall k :: k in db.companies ==> (k in r.value.companies <==> db.companies[k].userId != id))
  {
    DeleteIsCascade(db, Users, id, restrictFirst);
    UserDoomsUser(db, id);
    UserDoomsOwned(db, id);
    UserDoomsCompanies(db, id);
  }

  /** Deleting a user also removes the user's company lists and campaigns,
      and no one else's. */
  lemma UserDeleteCascadesToWork(db: Db, id: Uuid, restrictFirst: bool)
    ensures var r := Delete(db, Users, id, restrictFirst);
      r.Success? ==>
        && (forall k :: k in db.lists ==> (k in r.value.lists <==> db.lists[k].userId != id))
        && (forall k :: k in db.campaigns ==> (k in r.value.campaigns <==> db.campaigns[k].userId != id))
  {
    DeleteIsCascade(db, Users, id, restrictFirst);
    UserDoomsWork(db, id);
  }

  /** Deleting a user also removes the user's AI templates and AI
      generations, and no one else's. */
  lemma UserDeleteCascadesToAi(db: Db, id: Uuid, restrictFirst: bool)
    ensures var r := Delete(db, Users, id, restrictFirst);
      r.Success? ==>
        && (forall k :: k in db.templates ==> (k in r.value.templates <==> db.templates[k].userId != id))
        && (forall k :: k in db.generations ==> (k in r.value.generations <==> db.generations[k].userId != id))
  {
    DeleteIsCascade(db, Users, id, restrictFirst);
    UserDoomsAi(db, id);
  }

  /** audit_logs.user_id is ON DELETE SET NULL: deleting a user keeps every
      audit entry and clears the user reference of the user's own entries. */
  lemma UserDeleteDetachesAuditLogs(db: Db, id: Uuid, restrictFirst: bool)
    ensures var r := Delete(db, Users, id, restrictFirst);
      r.Success? ==>
        && r.value.auditLogs.Keys == db.auditLogs.Keys
        && forall k :: k in db.auditLogs ==>
             r.value.auditLogs[k] == if db.auditLogs[k].userId == Some(id) then db.auditLogs[k].(userId := None) else db.auditLogs[k]
  {
    DeleteIsCascade(db, Users, id, restrictFirst);
    UserDoomsUser(db, id);
    var d := DoomedBy(db, Users, id);
    AuditLogsDetached(db.auditLogs, d.auditLogs, d.users, id);
  }

  /** A user delete is refused when another user's campaign points at one
      of the user's lists: that campaign survives the cascade. */
  lemma UserDeleteBlocked(db: Db, id: Uuid, restrictFirst: bool, k: Uuid)
    requires k in db.campaigns && db.campaigns[k].userId != id
    requires db.campaigns[k].listId in db.lists && db.lists[db.campaigns[k].listId].userId == id
    ensures Delete(db, Users, id, restrictFirst) == Failure(RestrictViolation("campaigns_list_id_company_lists_id_fk"))
  {
    DeleteRefused(db, Users, id, restrictFirst);
    UserDoomsWork(db, id);
    var d := DoomedBy(db, Users, id);
    assert k !in d.campaigns && db.campaigns[k].listId in d.lists;
  }

  /** A campaign pointing at one of user `id`'s lists. */
  predicate PointsAtListOf(db: Db, k: Uuid, id: Uuid)
    requires k in db.campaigns
  {
    db.campaigns[k].listId in db.lists && db.lists[db.campaigns[k].listId].userId == id
  }

  /** A user delete is refused exactly when some other user's campaign
      points at one of the user's lists, or, when the RESTRICT check runs
      first, one of the user's own campaigns does. */
  lemma UserDeleteRefused(db: Db, id: Uuid, restrictFirst: bool)
    ensures var r := Delete(db, Users, id, restrictFirst);
      && (r.Failure? <==>
            || (exists k :: k in db.campaigns && db.campaigns[k].userId != id && PointsAtListOf(db, k, id))
            || (restrictFirst && exists k :: k in db.campaigns && db.campaigns[k].userId == id && PointsAtListOf(db, k, id)))
      && (r.Failure? ==> r.error == RestrictViolation("campaigns_list_id_company_lists_id_fk"))
  {
    DeleteRefused(db, Users, id, restrictFirst);
    UserDoomsWork(db, id);
  }

  /** Deleting a template is never refused, and removes only the template
      from its table. */
  lemma TemplateDeleteSucceeds(db: Db, id: Uuid, restrictFirst: bool)
    ensures var r := Delete(db, AiTemplates, id, restrictFirst);
      r.Success? && r.value.templates == db.templates - {id}
  {
    DeleteRefused(db, AiTemplates, id, restrictFirst);
    DeleteIsCascade(db, AiTemplates, id, restrictFirst);
    TemplateDooms(db, id);
    var d := DoomedBy(db, AiTemplates, id);
    GenerationsDetached(db.generations, d.generations, d.templates, id);
  }

  /** ai_generations.template_id is ON DELETE SET NULL: deleting a template
      keeps every generation and clears the reference of those that used
      it. */
  lemma TemplateDeleteDetaches(db: Db, id: Uuid, restrictFirst: bool)
    ensures var r := Delete(db, AiTemplates, id, restrictFirst);
      r.Success? ==>
        && r.value.generations.Keys == db.generations.Keys
        && forall k :: k in db.generations ==>
             r.value.generations[k] == if db.generations[k].templateId == Some(id) then db.generations[k].(templateId := None) else db.generations[k]
  {
    DeleteIsCascade(db, AiTemplates, id, restrictFirst);
    TemplateDooms(db, id);
    var d := DoomedBy(db, AiTemplates, id);
    GenerationsDetached(db.generations, d.generations, d.templates, id);
  }

  /** Deleting a company is never refused; it removes the company with its
      contacts and list items. */
  lemma CompanyDeleteCascades(db: Db, id: Uuid, restrictFirst: bool)
    ensures var r := Delete(db, Companies, id, restrictFirst);
      && r.Success?
      && r.value.companies == db.companies - {id}
      && (forall k :: k in db.contacts ==> (k in r.value.contacts <==> db.contacts[k].companyId != id))
      && (forall k :: k in db.listItems ==> (k in r.value.listItems <==> db.listItems[k].companyId != id))
  {
    DeleteRefused(db, Companies, id, restrictFirst);
    DeleteIsCascade(db, Companies, id, restrictFirst);
    CompanyDooms(db, id);
  }

  /** Deleting a company removes its sales activities, and with them the
      email and form activities of those sales activities. */
  lemma CompanyDeleteCascadesToActivities(db: Db, id: Uuid, restrictFirst: bool)
    ensures var r := Delete(db, Companies, id, restrictFirst);
      r.Success? ==>
        && (forall k :: k in db.activities ==> (k in r.value.activities <==> db.activities[k].companyId != id))
        && (forall k :: k in db.emails ==>
              (k in r.value.emails <==> !(db.emails[k].activityId in db.activities && db.activities[db.emails[k].activityId].companyId == id)))
        && (forall k :: k in db.forms ==>
              (k in r.value.forms <==> !(db.forms[k].activityId in db.activities && db.activities[db.forms[k].activityId].companyId == id)))
  {
    DeleteIsCascade(db, Companies, id, restrictFirst);
    CompanyDooms(db, id);
    CompanyDoomsDetails(db, id);
    CompanyDoomsForms(db, id);
  }

  /** Deleting a sales activity removes exactly the email and form
      activities that point at it. It is never refused. */
  lemma ActivityDeleteCascades(db: Db, id: Uuid, restrictFirst: bool)
    ensures var r := Delete(db, SalesActivities, id, restrictFirst);
      && r.Success?
      && r.value.activities == db.activities - {id}
      && (forall k :: k in db.emails ==> (k in r.value.emails <==> db.emails[k].activityId != id))
      && (forall k :: k in db.forms ==> (k in r.value.forms <==> db.forms[k].activityId != id))
  {
    DeleteRefused(db, SalesActivities, id, restrictFirst);
    DeleteIsCascade(db, SalesActivities, id, restrictFirst);
    ActivityDooms(db, id);
    ActivityDoomsDetails(db, id);
  }
}
